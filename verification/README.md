# Verified model of Voxhold's realtime and media layer

This project models the parts of the Voxhold backend that keep shared mutable state, and proves what
they promise over whole runs. State that the backend updates in place is a class whose methods are
proved against functions on values; code that runs concurrently is a state machine whose steps are
the backend's critical sections or transactions, run in any order and number. `dafny verify
dfyconfig.toml` checks everything. `Options` and `Sets` hold what all modules share.

**Outgoing queue** (`Sequences`, `Buffers`, `OutgoingEvents`, `OutgoingQueue`, `OutgoingRuns`,
`OutgoingOrder`, `OutgoingStates`, `OutgoingClient`). Each client has two bounded lanes. The ordinary
lane coalesces, sheds and compacts chat deltas into a durable catch-up marker. It refines full
delivery, refuses only when it must, keeps order, and lets nobody wait forever. Of states that replace
each other the newest always arrives, and nothing that a policy hides is ever taken out.
`message.unpinned` carries its own data type, so the code does not treat it as a delta, and neither
does the model. The delivery result is for producers that send no markers themselves and whose
reactions to a message name its one channel.

**Negotiation** (`Negotiation`). Voice sessions, stream viewers and stream publishers share one
offer/answer protocol; section 4 of RFC 3264 forbids a second outstanding offer. The rule and the
promise that deferred work is carried are proved for all three. The function that makes a publisher's
first offer does not look at the signaling state; its caller makes that offer once, before anything can
ask for a restart, and that is what the results assume of a publisher. A viewer whose peer has no
transceiver ignores a deferred restart while its room has no media; when this happens is stated exactly.

**Rooms** (`VoiceRoom`, `TrackSync`, `VoiceAdmission`, `StreamAdmission`, `StreamLimits`,
`StreamCalls`, `StreamManager`). Reservations, commits, cancellations and leaves interleave at lock
granularity. A stream start that is given up after a viewer has committed leaves that viewer in a room
nobody can find; when this happens is stated exactly.

**Hub state** (`Clients`, `Index`, `VoiceState`, `StreamState`, `HubMedia`, `MediaHub`, `KeyLock`,
`Callbacks`, `Devices`, `DeviceRaces`). Several indices over one relation, streams that need voice,
generation-guarded failure callbacks, the keyed lock, and device revocation against joins. Publishing
an event may unregister clients, which publishes further events; the hub operations take the whole
cascade as a parameter.

**Durable workers** (`Scheduled`, `ScheduledContent`, `Recordings`). The scheduled-message dispatcher
and the resumable upload may stop between any two transactions. A ban cancels jobs without the worker's
lock, and two status updates do not look at the status, so a cancelled job can become sent; exactly
those updates do it. A message deleted from saved messages can be sent a second time, or be recorded as sent when it is
gone, and a job that is changed after a stopped send is recorded as sent over the old message; all of
these are characterised exactly. A removal that is cut off between the file and the record leaves a
ready record without its file, and a stop that is cut off can leave a part that only starting
over gets rid of.

**Refinement and arithmetic** (`Notifications`, `TokenBucket`). The candidate query against a scan of
all members, redelivery, and the ingest guard over the reals. Redelivery alerts a member again only
after their membership ended in between.

Where a comment promises more than the code does, the model follows the code. The comment on recording
deliveries says that returning only inserted users prevents duplicate alerts; that holds while the
membership lasts.

## Model

| member | source | states |
|---|---|---|
| `OutgoingClient.Client.PopOutgoing` | internal/realtime/outgoing.go:34-55 | media first, ordinary events at least every ninth turn; the arrays are the queue after the pop and the returned event is the one that left |
| `OutgoingClient.Client.EnqueueLocked` | internal/realtime/outgoing.go:57-134 | the rewritten arrays and counters equal the admission on sequences, and the result says whether the event was accepted |
| `OutgoingClient.Client.EnqueueOrdinary` | internal/realtime/outgoing.go:57-134 | the ordinary lane after replacement, marker suppression, append, shedding or compaction |
| `OutgoingClient.Client.EnqueueFull` | internal/realtime/outgoing.go:95-134 | the full lane: shed a transient entry, else compact until a slot is free, else refuse |
| `OutgoingClient.Client.CompactChannel` | internal/realtime/outgoing.go:136-164 | in place, all deltas of a channel collapse to one catch-up marker at the place of the first |
| `OutgoingClient.Client.CompactUntilFree` | internal/realtime/outgoing.go:95-134 | the loop over the slice that compaction rewrites visits what compaction from each index on visits |
| `OutgoingClient.Client.CompactAt` | internal/realtime/outgoing.go:113-117 | one turn of the loop compacts the channel of its entry if and only if that entry is a delta of a compactable channel |
| `OutgoingClient.Client.Replace` | internal/realtime/outgoing.go:65-85 | a coalescable event takes the place of the queued one with its key |
| `OutgoingClient.Client.Push` | internal/realtime/outgoing.go:57-134 | an accepted event is appended |
| `OutgoingClient.Client.Shed` | internal/realtime/outgoing.go:101-108 | the first transient entry leaves and the others keep their order |
| `OutgoingClient.Client.ReplaceChannelAccess` | internal/realtime/channel_access.go:134-151 | both lanes are filtered in place under the new policy |
| `OutgoingClient.Client.Send` | internal/realtime/client.go:132-171 | a closed client refuses everything; a hidden event counts as sent and changes nothing; any other is enqueued |
| `OutgoingQueue.RefusedExactly` | internal/realtime/outgoing.go:95-134 | an ordinary event is refused if and only if the lane has no way in, and the lane left behind has 128 entries, none transient and none a compactable delta |
| `OutgoingQueue.EnqueueBounded` | internal/realtime/outgoing.go:57-134 | both lanes stay within 128 entries |
| `OutgoingQueue.CompactFromStuck` | internal/realtime/outgoing.go:95-134 | the compaction loop that frees nothing leaves no delta that could still be compacted |
| `OutgoingQueue.AdmittedMembers` | internal/realtime/outgoing.go:57-134 | nothing appears in the lane but the event, its marker and what was there |
| `OutgoingRuns.DeltasDelivered` | internal/realtime/outgoing.go:57-164 | over every run, each accepted delta of a channel that stays readable was popped later, or superseded by a reactions snapshot of its message with no older revision, or covered by a marker, popped later or still queued; markers are unique and never beside a delta of their channel |
| `OutgoingRuns.DrainedMeansDelivered` | internal/realtime/outgoing.go:34-164 | once the ordinary lane is empty every accepted delta has been delivered or covered |
| `OutgoingEvents.KeysExact` | internal/realtime/outgoing.go:166-199 | two events have the same key if and only if they are unsolicited states of one thing, said by type and payload fields: presence of a user on a server, read position or typing of a user in a channel, activity, alerts or settings of a channel, reactions to a message |
| `OutgoingEvents.DeltasExactly` | internal/realtime/outgoing.go:200-223 | which events are chat deltas, and of which channel |
| `OutgoingStates.ReplacesExactly` | internal/realtime/outgoing.go:65-85 | an event takes the place of a queued one if and only if one is queued about the same thing: of the first such, unless that has a newer revision or read position |
| `OutgoingStates.StatesDelivered` | internal/realtime/outgoing.go:57-134 | over every run, each accepted presence, read or settings event that stays readable was popped later, or superseded by a later one about the same thing, or by one with a higher read position, popped or still queued; never by a lower read position |
| `OutgoingStates.CoalescedExactly` | internal/realtime/outgoing.go:65-94 | an event counts as coalesced if and only if a state of the same thing, or a marker of its channel for a delta, is queued |
| `OutgoingStates.ResyncsExactly` | internal/realtime/outgoing.go:136-164 | the resyncs counted are the markers that compaction adds to the lane, and none without compaction |
| `OutgoingStates.ReducibleExactly` | internal/realtime/outgoing.go:136-145 | what can be compacted: deltas of a channel followed on a numbered server by a client that understands markers |
| `OutgoingRuns.AdmitInv` | internal/realtime/outgoing.go:57-134 | one admission keeps markers unique and apart from deltas |
| `OutgoingRuns.AdmitKeeps` | internal/realtime/outgoing.go:57-134 | whatever carried a delta before an admission is still carried after it |
| `OutgoingRuns.AdmitTakes` | internal/realtime/outgoing.go:57-134 | an accepted delta is carried by the lane |
| `OutgoingRuns.SiftInv` | internal/realtime/channel_access.go:134-151 | installing a policy keeps markers unique and apart from deltas |
| `OutgoingRuns.SiftKeeps` | internal/realtime/channel_access.go:134-204 | installing a policy loses nothing of a channel that stays readable |
| `OutgoingOrder.CriticalExactlyOnceInOrder` | internal/realtime/outgoing.go:34-134 | over every run whose policies revoke no access, events that are neither coalescable, transient nor deltas, and media events, leave their lane exactly once and in acceptance order |
| `OutgoingOrder.BoundedWait` | internal/realtime/outgoing.go:34-55 | over every run, with any sends, policies and amount of media, the ordinary entry at index k has left within 9(k+1) pops |
| `OutgoingOrder.CriticalWait` | internal/realtime/outgoing.go:34-55 | over every run that revokes no access a critical entry leaves only by being popped, unchanged and within that bound |
| `OutgoingOrder.NoOvertaking` | internal/realtime/outgoing.go:34-134 | over every run no ordinary entry is delivered before one that was queued ahead of it and still waits |
| `OutgoingOrder.MediaWait` | internal/realtime/outgoing.go:34-55 | over every run a media entry has left after its predecessors and at most every ninth turn for ordinary events |
| `OutgoingOrder.MediaDelivered` | internal/realtime/outgoing.go:34-55 | over every run that revokes no access each media entry is popped, unchanged and within that bound |
| `OutgoingOrder.WriterTurns` | internal/realtime/outgoing.go:34-55 | over every run the writer takes the first media event unless it has taken eight in a row and an ordinary event waits, then the first ordinary one, and is idle only if both lanes are empty |
| `OutgoingOrder.PopRespectsPolicy` | internal/realtime/channel_access.go:134-204 | after any run, every channel that the payload of the next popped event shows is accessible under the policy in force; what a payload shows is said constructor by constructor |
| `OutgoingEvents.FilterExactly` | internal/realtime/channel_access.go:153-204 | an event passes unchanged if and only if it shows only accessible channels; any other is refused if it is no list, and if it is one it passes without what it must not show |
| `OutgoingEvents.ItemsLeft` | internal/realtime/channel_access.go:190-202 | a list loses exactly its hidden items, the others stay each from its own place and in order, and nothing else of the event changes |
| `Negotiation.OffersNeverOverlap` | internal/voice/session.go:246-344 | over every interleaving no offer of a voice session, viewer or publisher is made while one is outstanding, given that a publisher makes its first offer once and before any restart |
| `Negotiation.OffersFaithful` | internal/stream/session.go:511-671 | every offer describes the senders of its time and carries each restart requested since the offer before |
| `Negotiation.FirstOfferUnguarded` | internal/stream/session.go:511-527 | in any order of calls whatever, offers alternate if and only if each first offer finds the peer stable, and are faithful if and only if each finds no restart waiting |
| `Negotiation.BegunWell` | internal/stream/session.go:511-527 | both conditions hold in every run in which a publisher makes its first offer once and before any restart |
| `Negotiation.RequestsCarried` | internal/voice/session.go:355-408 | each sender change, forced synchronize or restart requested during an outstanding offer is carried by an offer made after its answer, once no continuation is in flight; for a restart of a viewer, if its peer got a transceiver or the run strands none |
| `Negotiation.OffersAtOnce` | internal/voice/session.go:246-344 | over every run a forced synchronize that meets no outstanding offer is followed at once by an offer of exactly the tracks asked for, and a restart by an offer that restarts |
| `Negotiation.OffersCalledFor` | internal/voice/session.go:306-324 | over every run each offer is made because the senders changed, or an offer or restart was asked for, since the offer before |
| `Negotiation.RestOffersDesired` | internal/voice/session.go:246-408 | at rest the last offer describes exactly the tracks that were asked for last |
| `Negotiation.AnswersExactly` | internal/voice/session.go:355-386 | after every run an answer is accepted if and only if an offer is outstanding on an open session, it starts a continuation if and only if something was asked for since that offer, and the senders are the tracks asked for last |
| `Negotiation.ClosedIsSilent` | internal/voice/session.go:246-551 | after closing no run offers, changes or accepts anything |
| `Negotiation.RestMeansSettled` | internal/voice/session.go:246-408 | at rest no sender change, forced synchronize or restart waits for an offer, except a restart of a viewer whose peer has no transceiver |
| `Negotiation.StrandedExactly` | internal/stream/session.go:556-563 | a continuation carries its restart if and only if it does not find a viewer without a transceiver on an empty room |
| `Negotiation.StrandedInRuns` | internal/stream/session.go:547-733 | over every run no restart is ever stranded, with neither an offer outstanding nor a continuation in flight, if and only if no last continuation finds a viewer without a transceiver on an empty room |
| `Negotiation.EmptyRoomStrands` | internal/stream/session.go:547-642 | while the room of such a viewer stays empty, no run does anything to it until a restart is requested again |
| `Negotiation.EmptyRoomOffers` | internal/stream/session.go:547-671 | while its room stays empty every offer of a viewer answers a restart request directly, and carries it |
| `Negotiation.ViewerRestartStranded` | internal/stream/session.go:547-733 | a run that leaves a viewer at rest with a restart waiting |
| `Negotiation.RunInv` | internal/voice/session.go:246-551 | session flags and history agree in every reachable state, and deferred work always has a continuation or an outstanding offer |
| `Negotiation.ActPromised` | internal/voice/session.go:246-551 | every critical section keeps deferred work promised |
| `Negotiation.Session.SynchronizeTracks` | internal/voice/session.go:246-324 | the session fields and the events produced equal the synchronize step |
| `Negotiation.Session.ReplaceSenders` | internal/voice/session.go:261-304 | the two loops leave exactly the wanted senders and report whether anything changed |
| `Negotiation.Session.DropUnwanted` | internal/voice/session.go:264-284 | the removal loop keeps exactly the wanted senders |
| `Negotiation.Session.AddMissing` | internal/voice/session.go:286-304 | the addition loop adds exactly the missing senders |
| `Negotiation.Session.CreateOfferLocked` | internal/voice/session.go:326-344 | the offer describes the senders, and both pending flags are cleared |
| `Negotiation.Session.FirstOffer` | internal/stream/session.go:511-527 | the publisher offer is made whatever the signaling state |
| `Negotiation.Session.RestartICE` | internal/voice/session.go:532-551 | an offer with restart when stable, else a deferred request (voice sets both flags, stream one) |
| `Negotiation.Session.Accept` | internal/voice/session.go:355-386 | an answer is accepted exactly when an offer is outstanding, and decides what is deferred |
| `Negotiation.Session.FinishAnswer` | internal/stream/session.go:726-732 | the deferred half: voice and viewers synchronize, publishers restart |
| `VoiceRoom.Room.Deregister` | internal/voice/room.go:63-82 | exactly the tracks of the connection go with it, and the result says whether there were any |
| `VoiceRoom.Room.Publish` | internal/voice/room.go:84-100 | a track is added exactly when its owner is registered and has no other track of its kind |
| `VoiceRoom.Room.Withdraw` | internal/voice/room.go:102-116 | only the owner withdraws a track |
| `VoiceRoom.Room.Register` | internal/voice/room.go:32-40 | a session takes its reservation |
| `VoiceRoom.Room.TryReserve` | internal/voice/room.go:42-52 | a place is reserved exactly while sessions and reservations are below the limit |
| `VoiceRoom.Room.CancelReservation` | internal/voice/room.go:54-61 | a reservation is given back |
| `VoiceRoom.Room.IsEmpty` | internal/voice/room.go:142-147 | empty means no session and no reservation |
| `VoiceRoom.RemoveSessionExactly` | internal/voice/room.go:63-82 | other sessions, other tracks and reservations are untouched by a leave |
| `VoiceRoom.RegistrationKeepsValid` | internal/voice/room.go:32-82 | joins and leaves keep every track with a registered owner, one per kind |
| `VoiceRoom.AddTrackKeepsValid` | internal/voice/room.go:84-100 | publishing keeps every track with a registered owner, one per kind |
| `TrackSync.SendersMatchRoom` | internal/voice/session.go:246-304 | after any interleaving, a registered session with nothing in flight sends exactly the tracks of the other connections, video only when deafened |
| `TrackSync.SessionsCatchUp` | internal/voice/room.go:149-155 | from every reachable state the walks and calls in flight can run to their end without changing the room, and then the session sends exactly the wanted tracks |
| `TrackSync.ExecInv` | internal/voice/room.go:63-155 | each registered session is up to date, or covered by a walk, a call or the work in progress |
| `TrackSync.LeaveInv` | internal/voice/manager.go:379-407 | a leave that removes tracks of a room in use schedules a walk |
| `TrackSync.TracksHaveOwners` | internal/voice/room.go:63-116 | in every reachable state tracks belong to registered sessions, one per kind |
| `TrackSync.RoomFollowsHistory` | internal/voice/room.go:32-116 | after every run the room has exactly the sessions that joined and have not left, the deafened flags given last, and the tracks published by who is in the room and not withdrawn since |
| `TrackSync.LeavingCloses` | internal/voice/manager.go:379-407 | a session whose connection leaves is closed in every run after |
| `TrackSync.ReservationsExactly` | internal/voice/room.go:32-61 | when a step makes a reservation, and when it uses one up |
| `TrackSync.ChooseTracks` | internal/voice/session.go:252-259 | the selection loop computes the wanted tracks |
| `VoiceAdmission.AdmissionBounded` | internal/voice/room.go:32-61 | in every interleaving sessions plus reservations stay within the limit, and reservations are exactly the joins in flight on the room |
| `VoiceAdmission.ReservedRoomKept` | internal/voice/manager.go:220-296 | until the manager closes, the room a join reserved is still indexed, and the join commits into it |
| `VoiceAdmission.OneLiveRoom` | internal/voice/manager.go:220-323 | two rooms of one channel are never both in use |
| `VoiceAdmission.IndexIsLive` | internal/voice/manager.go:309-323 | with no join in flight the indexed rooms are exactly those in use, for any positive limit |
| `VoiceAdmission.JoinsExactly` | internal/voice/manager.go:214-300 | an uninterrupted join is admitted if and only if the manager is open and the room of its channel not full; then the session is in that room, and nothing else changes |
| `VoiceAdmission.GivenUpIsUndone` | internal/voice/manager.go:240-322 | a join that is given up leaves everything as it was, and its room indexed if and only if somebody uses it |
| `VoiceAdmission.LeavesExactly` | internal/voice/manager.go:379-400 | a leave takes effect if and only if the session is the expected one; it ends that session alone, and the room if nobody uses it any more |
| `VoiceAdmission.ClosedForGood` | internal/voice/manager.go:409-424 | once closed, no run has a session or an indexed room |
| `VoiceAdmission.SessionManager.ReservePlace` | internal/voice/manager.go:222-237 | the first locked section of a join |
| `VoiceAdmission.SessionManager.CommitSession` | internal/voice/manager.go:272-294 | the second locked section of a join |
| `VoiceAdmission.SessionManager.RemoveRoomIfEmpty` | internal/voice/manager.go:317-322 | the room leaves the index only if it is empty and still the indexed one |
| `VoiceAdmission.SessionManager.LeaveSession` | internal/voice/manager.go:379-400 | a leave of the expected session removes it and drops its room when empty |
| `VoiceAdmission.SessionManager.CloseManager` | internal/voice/manager.go:409-424 | closing empties the index and the sessions once |
| `StreamAdmission.PublisherLeaveIsFinal` | internal/stream/manager.go:816-849 | after a publisher session leaves, no session of its room remains, and no later interleaving adds one |
| `StreamAdmission.GoneForGood` | internal/stream/manager.go:672-739 | no step of any in-flight watch or start revives a room that is gone |
| `StreamAdmission.ExecLinked` | internal/stream/manager.go:219-345 | sessions, rooms, index and calls in progress agree in every reachable state |
| `StreamAdmission.StrandedExactly` | internal/stream/manager.go:878-884 | sessions keep belonging to indexed rooms except exactly when an abandoned start removes a room that already has viewers |
| `StreamAdmission.StrandedInRuns` | internal/stream/manager.go:219-345 | throughout a run every session can be found through the index if and only if no start with viewers is given up |
| `StreamAdmission.AbandonedStartStrands` | internal/stream/manager.go:258-345 | a run in which a viewer is left in a room that can no longer be found |
| `StreamCalls.StartsExactly` | internal/stream/manager.go:240-337 | an uninterrupted start takes effect if and only if the manager is open and the channel has fewer than eight publishers; then the connection publishes in its own new room, and nothing else changes |
| `StreamCalls.GivenUpStart` | internal/stream/manager.go:878-884 | a start that is given up leaves sessions and other rooms alone and its own room out of the index |
| `StreamCalls.LateStartGivesUp` | internal/stream/manager.go:323-337 | a second publisher of a room, and a start whose room is no longer indexed, are given up |
| `StreamCalls.WatchesExactly` | internal/stream/manager.go:683-731 | an uninterrupted watch takes effect if and only if the manager is open, the room indexed and not full; then the connection is its viewer, and nothing else changes |
| `StreamCalls.GivenUpWatch` | internal/stream/room.go:74-92 | a watch that is given up leaves everything as it was |
| `StreamCalls.EntersByLeaving` | internal/stream/manager.go:682 | a call begins by ending the session its connection had |
| `StreamCalls.LeavesExactly` | internal/stream/manager.go:816-849 | a leave of the expected session: a viewer leaves alone, a publisher takes its room off the index and ends its viewers’ sessions |
| `StreamCalls.ClosedForGood` | internal/stream/manager.go:851-870 | once closed, no run has a session or an indexed room |
| `StreamLimits.ViewersBounded` | internal/stream/room.go:74-108 | viewers plus reservations stay within the limit, and reservations are exactly the watches in flight |
| `StreamLimits.ChannelPublishersBounded` | internal/stream/manager.go:246-260 | a channel never has more than eight publishers |
| `StreamManager.Streams.CountPublishers` | internal/stream/manager.go:246-251 | the loop counts the indexed rooms of the channel |
| `StreamManager.Streams.BeginStart` | internal/stream/manager.go:240-260 | a room is indexed exactly when the manager is open and the channel has fewer than eight publishers |
| `StreamManager.Streams.SetPublisher` | internal/stream/room.go:110-119 | a room takes one publisher |
| `StreamManager.Streams.CommitPublisher` | internal/stream/manager.go:329-337 | the publisher session is committed exactly while its room is indexed |
| `StreamManager.Streams.RemoveRoom` | internal/stream/manager.go:878-884 | the index entry goes only if it is this room |
| `StreamManager.Streams.FindRoom` | internal/stream/manager.go:743-758 | a named publisher is matched or refused; otherwise the smallest connection of the channel is found |
| `StreamManager.Streams.ReserveViewer` | internal/stream/room.go:74-83 | a place is reserved exactly while there is space |
| `StreamManager.Streams.CommitViewer` | internal/stream/manager.go:722-731 | a viewer is committed exactly while the room is indexed under its publisher |
| `StreamManager.Streams.DeleteSessions` | internal/stream/manager.go:829-834 | the loop deletes exactly the sessions of the snapshot |
| `StreamManager.Streams.LeaveSession` | internal/stream/manager.go:816-849 | a publisher takes room and viewers along, a viewer leaves alone, and the manager stays sound |
| `StreamManager.Streams.CloseManager` | internal/stream/manager.go:851-864 | closing empties the index and the sessions once |
| `VoiceState.IndicesDetermined` | internal/realtime/voice_state.go:36-277 | consistent indices are determined by the participants |
| `VoiceState.IndicesAgree` | internal/realtime/voice_state.go:36-277 | client, user and channel entries imply each other, and no room is empty |
| `VoiceState.JoinedConsistent` | internal/realtime/voice_state.go:36-111 | a join keeps the indices consistent and replaces every other connection of the user |
| `VoiceState.EndedExactly` | internal/realtime/voice_state.go:81-97 | the participation that ends and the connection that loses it are those of the user |
| `VoiceState.ClearedConsistent` | internal/realtime/voice_state.go:192-215 | clearing a channel removes exactly its participants from all indices |
| `VoiceState.DeleteConsistent` | internal/realtime/voice_state.go:262-277 | removing one client keeps the indices consistent |
| `VoiceState.ExecValid` | internal/realtime/voice_state.go:36-277 | after any operations a user has at most one connection and generations are unique |
| `VoiceState.GenerationsNeverReturn` | internal/realtime/voice_state.go:47-79 | a generation that ended never returns, and updates keep it and its place |
| `VoiceState.StateFollowsHistory` | internal/realtime/voice_state.go:36-190 | after every run the participants are exactly the clients that joined and have not left or been replaced since, each with server, channel and device of its last join, the mute and deaf flags given last, its camera as last set there, and the number of its join as generation |
| `VoiceState.RemovesExactly` | internal/realtime/voice_state.go:192-233 | removing a server or a channel ends exactly the participations there |
| `VoiceState.Registry.JoinVoice` | internal/realtime/voice_state.go:36-111 | the three maps after a join, with the reported previous, replaced, joined and updated |
| `VoiceState.Registry.UpdateFlags` | internal/realtime/voice_state.go:113-141 | flags change in both indices and the change is reported |
| `VoiceState.Registry.Leave` | internal/realtime/voice_state.go:159-190 | a client leaves, or only if it is in the given server |
| `VoiceState.Registry.RemoveChannel` | internal/realtime/voice_state.go:192-215 | the loop clears the channel from all three maps |
| `VoiceState.Registry.RemoveServer` | internal/realtime/voice_state.go:217-233 | the loop removes exactly the participants of the server and keeps the indices consistent |
| `VoiceState.Registry.RemoveLocked` | internal/realtime/voice_state.go:262-277 | one client leaves all three maps, and an empty room goes |
| `StreamState.StreamsReachable` | internal/realtime/stream_state.go:44-165 | in every reachable state each viewer is on exactly one live stream, roles are disjoint, and both limits hold |
| `StreamState.GenerationsEnd` | internal/realtime/stream_state.go:79-136 | a role that ended never has its generation again |
| `StreamState.StartsExactly` | internal/realtime/stream_state.go:44-86 | a start takes effect if and only if the client has no role and the channel fewer than eight publishers, or none if only one is wanted; it puts the described stream on air and changes nothing else |
| `StreamState.WatchesExactly` | internal/realtime/stream_state.go:88-138 | a watch takes effect if and only if the stream is another client’s, on that server, below its limit, and a rendition was found for a client without a role; it adds the viewer and changes nothing else |
| `StreamState.LeavesExactly` | internal/realtime/stream_state.go:140-165 | who leaves ends its own role and, if it publishes, those of the viewers of its stream |
| `StreamState.ChosenIsEarliest` | internal/realtime/stream_state.go:100-108 | the chosen stream is on air in the channel, from the named publisher if one is named, and none of these has an earlier start time, or the same one and a smaller connection |
| `StreamState.RolesAskedFor` | internal/realtime/stream_state.go:44-138 | after every run each role is one that its client asked for: its own stream with the server, channel, mode and time of the start, or the watched stream of another client in its server and channel, with the rendition found |
| `StreamState.ListingDetermined` | internal/realtime/stream_state.go:44-165 | the channel index and the viewers of live streams are determined by the roles |
| `StreamState.PublishConsistent` | internal/realtime/stream_state.go:63-84 | starting keeps the indices consistent |
| `StreamState.ViewConsistent` | internal/realtime/stream_state.go:131-136 | watching keeps the indices consistent |
| `StreamState.RemoveConsistent` | internal/realtime/stream_state.go:140-165 | leaving keeps the indices consistent |
| `StreamState.Earliest` | internal/realtime/stream_state.go:100-108 | the selection loop finds the earliest eligible stream, ties by connection |
| `StreamState.Registry.StartStream` | internal/realtime/stream_state.go:44-86 | the outcome and the new roles, with each refusal in its order |
| `StreamState.Registry.Choose` | internal/realtime/stream_state.go:100-108 | the chosen stream is the earliest candidate of the channel |
| `StreamState.Registry.WatchStream` | internal/realtime/stream_state.go:88-138 | the outcome and the new roles, with each refusal in its order |
| `StreamState.Registry.End` | internal/realtime/stream_state.go:140-165 | the maps after a publisher or a viewer leaves |
| `StreamState.Registry.LeaveStreams` | internal/realtime/stream_state.go:140-165 | a publisher takes its viewers along, a viewer leaves alone |
| `HubMedia.StreamsNeedVoice` | internal/realtime/stream_hub.go:70-233 | in every reachable state each publisher and viewer is a voice participant of its stream’s server and channel, and so is its publisher |
| `HubMedia.JoinKeeps` | internal/realtime/voice_hub.go:25-123 | joins, moves and connection replacement keep it, whoever falls while events are published |
| `HubMedia.RevokeServerKeeps` | internal/realtime/hub.go:407-451 | deleting a server keeps it although participants go before their streams |
| `HubMedia.RemoveChannelKeeps` | internal/realtime/hub.go:884-919 | deleting a channel keeps it |
| `HubMedia.StopsSilence` | internal/realtime/stream_hub.go:385-392 | once a channel’s publishers have stopped, nobody is on a stream there |
| `HubMedia.LeaveVoiceKeeps` | internal/realtime/voice_hub.go:170-188 | leaving voice keeps it and ends both roles of the client |
| `HubMedia.LeaveForServerKeeps` | internal/realtime/voice_hub.go:190-207 | leaving one server keeps it |
| `HubMedia.StartKeeps` | internal/realtime/stream_hub.go:70-131 | starting a stream keeps it |
| `HubMedia.WatchKeeps` | internal/realtime/stream_hub.go:151-233 | watching a stream keeps it |
| `HubMedia.SettleKeeps` | internal/realtime/hub.go:742-773 | a whole cascade of unregistered clients keeps it and adds nobody |
| `HubMedia.JoinsExactly` | internal/realtime/voice_hub.go:25-123 | when nobody falls, a join gives the client its seat, takes other connections of the user out of voice, and ends the stream roles of those and its own if it moves |
| `HubMedia.ReplacesExactly` | internal/realtime/voice_state.go:81-97 | what a join replaces is another connection of the same user |
| `HubMedia.HeardExactly` | internal/realtime/voice_hub.go:75-110 | a departure is told if and only if the user was in voice and not there with that device, an arrival if and only if the client was not there already with these flags |
| `HubMedia.LeavesForServerExactly` | internal/realtime/voice_hub.go:190-207 | it takes effect if and only if the client is in voice on that server; then it is gone from voice and streams |
| `HubMedia.RemovalEmpties` | internal/realtime/hub.go:884-919 | once a channel is removed nobody is in voice and no stream on air there |
| `HubMedia.RevocationEmpties` | internal/realtime/hub.go:407-451 | once a server is removed nobody is in voice and no stream on air there, and participants elsewhere stay |
| `HubMedia.StopsAllExactly` | internal/realtime/stream_hub.go:385-392 | the stops name every publisher on air in the channel |
| `HubMedia.CoversServerExactly` | internal/realtime/hub.go:407-451 | the plan names every channel in which the server has participants |
| `HubMedia.UpdatesExactly` | internal/realtime/voice_hub.go:125-150 | an update is one of the voice state and leaves streams alone |
| `MediaHub.Hub.JoinVoice` | internal/realtime/voice_hub.go:59-117 | the registries after a join, in the order of the method |
| `MediaHub.Hub.LeaveVoice` | internal/realtime/voice_hub.go:170-188 | the registries after leaving voice, stream first |
| `MediaHub.Hub.LeaveStream` | internal/realtime/stream_hub.go:331-383 | the registries after leaving a stream |
| `MediaHub.Hub.Unregister` | internal/realtime/hub.go:294-328 | the registries after the cascade |
| `MediaHub.Hub.LeaveVoiceForServer` | internal/realtime/voice_hub.go:190-207 | the registries after leaving one server |
| `MediaHub.Hub.StartStream` | internal/realtime/stream_hub.go:70-131 | only a participant of the channel starts a stream, with the outcome of the stream state |
| `MediaHub.Hub.WatchStream` | internal/realtime/stream_hub.go:151-233 | only a participant of the channel watches a stream, the one chosen for it |
| `MediaHub.Hub.RemoveChannel` | internal/realtime/hub.go:911-918 | streams stop before the participants go |
| `MediaHub.Hub.RevokeServer` | internal/realtime/hub.go:444-450 | participants go before the streams of their channels stop |
| `KeyLock.KeyLockSafe` | internal/keylock/keylock.go:16-38 | in every interleaving at most one thread holds a key, all its users share the indexed entry, the count is their number, and the entry exists exactly while there is one |
| `KeyLock.WaiterProceeds` | internal/keylock/keylock.go:26-28 | a waiting thread can take the key if and only if nobody holds it |
| `KeyLock.Set.EnterSection` | internal/keylock/keylock.go:17-27 | the entry is found or created and counted |
| `KeyLock.Set.LeaveSection` | internal/keylock/keylock.go:30-37 | the count drops and the last user removes the entry |
| `Callbacks.TeardownsExact` | internal/realtime/voice_signals.go:17-31 | over every run the teardown of a callback ends no participation but its client’s, and that only for a voice callback and if it is the one captured when it was made; it ends no stream role but its client’s, for a stream callback only the captured one, and those of viewers that hang on it |
| `Callbacks.CurrentIsTornDown` | internal/realtime/voice_signals.go:64-83 | a generation still current at the check is ended together with the client’s stream role if and only if the client is not detached meanwhile; otherwise nothing changes, and the lock is released either way |
| `Callbacks.CapturesCurrent` | internal/realtime/voice_signals.go:17-24 | a callback captures the generation current when it is made, for a client that is not detached, and enters only when its user’s lock is free |
| `Callbacks.FiresOnce` | internal/realtime/voice_signals.go:24-31 | over every run a callback keeps what it captured, and once finished stays finished |
| `Callbacks.StepsAreOperations` | internal/realtime/voice_hub.go:25-188 | each other step is one operation of the voice or stream state, joins and starts only under their user’s lock |
| `Callbacks.ApplyInv` | internal/realtime/voice_signals.go:17-31 | a confirmed callback owns its user’s lock and its generation is current or gone |
| `Devices.Repository.RegisterKey` | internal/e2ee/e2ee.go:66-110 | the table after registration, with conflict, touch and the least recently used devices revoked |
| `Devices.Repository.SelectOldest` | internal/e2ee/e2ee.go:99-105 | the selected devices were neither used nor created after any device that is kept was, and of equally recent ones those with smaller identifiers are selected |
| `Devices.Repository.Earliest` | internal/e2ee/e2ee.go:99-105 | the least recently used of some devices |
| `Devices.Repository.RevokeKey` | internal/e2ee/e2ee.go:113-125 | an active device is revoked, any other is reported missing |
| `Devices.RegisterBounded` | internal/e2ee/e2ee.go:95-109 | registration keeps at most ten active devices |
| `Devices.RegisterKeepsRecent` | internal/e2ee/e2ee.go:95-109 | a device lost to a newcomer was neither used nor created after any other active device was, and has the smallest identifier among the equally recent |
| `Devices.RegisterStores` | internal/e2ee/e2ee.go:66-110 | a registered device has the key and the time given, all others keep theirs, and registering again is refused if and only if the key differs or the device was revoked |
| `Devices.OlderExactly` | internal/e2ee/e2ee.go:99-105 | one device comes before another if and only if it was neither used nor created after the other was, with the smaller identifier among equally recent ones |
| `Devices.RevokesExactly` | internal/e2ee/e2ee.go:113-125 | exactly the active devices can be revoked, and nothing else changes |
| `Devices.TransactionsStayRevoked` | internal/e2ee/e2ee.go:79-90 | a revoked device keeps its entry and stays revoked |
| `DeviceRaces.ParticipantsActive` | internal/realtime/voice_hub.go:36-73 | with no device change of a user waiting for its check, each of the user’s encrypting participants has an active device |
| `DeviceRaces.DevicesBounded` | internal/e2ee/e2ee.go:66-110 | in every interleaving a user has at most ten active devices |
| `DeviceRaces.RevokedForGood` | internal/e2ee/e2ee.go:66-125 | a revoked device never becomes active again |
| `DeviceRaces.JoinsExactly` | internal/realtime/voice_hub.go:36-73 | an uninterrupted join takes effect if and only if it does not encrypt or the database says its device is active; it gives the lock back and changes nothing else |
| `DeviceRaces.AbortsExactly` | internal/realtime/voice_hub.go:36-57 | a join that gives up gives its lock back and changes nothing |
| `DeviceRaces.CallbackActsExactly` | internal/realtime/voice_hub.go:316-332 | an uninterrupted callback makes the participant leave if and only if it encrypts with a device that is not active or whose check fails; callback and lock are gone then |
| `DeviceRaces.SeesExactly` | internal/realtime/voice_hub.go:316-325 | what a callback looks for is the participant of its user, if it encrypts |
| `DeviceRaces.ChangesExactly` | internal/e2ee/http.go:51-79 | a device change that takes effect leaves a callback behind, and any other leaves nothing |
| `DeviceRaces.CommitInv` | internal/e2ee/http.go:51-79 | a committed change leaves a callback that covers everyone of its user |
| `DeviceRaces.QueryInv` | internal/realtime/voice_hub.go:316-332 | the check drops a participant from its watch only if its device is active |
| `DeviceRaces.FinishInv` | internal/realtime/voice_hub.go:36-73 | a join whose device was revoked after its check is still to be checked |
| `Scheduled.AtMostOneMessage` | internal/community/conversations.go:360-373 | a message key is created once more often than deleted while its message exists and as often otherwise; so a job sends at most one message to a conversation if and only if its deletions and the existing message are at most one together |
| `Scheduled.SendRepeatsExactly` | internal/community/conversations.go:360-373 | a send repeats a message if and only if it was deleted and is not there again |
| `Scheduled.SecondMessage` | internal/community/message_features.go:158-169 | a run in which a deleted message is sent again |
| `Scheduled.SentMeansCreated` | internal/community/scheduled.go:296-345 | a job is recorded as sent only if the message with its key was created, and the message exists unless that very message was deleted |
| `Scheduled.SentRecordedExactly` | internal/community/scheduled.go:296-345 | at the step that records it the message exists if and only if it was not deleted since the worker saw or made it |
| `Scheduled.SentWithoutMessage` | internal/community/message_features.go:158-169 | a run in which a job is recorded as sent when its message is gone |
| `Scheduled.AttemptsSpaced` | internal/community/scheduled.go:328-345 | since it was last scheduled a job has at most five counted attempts, at least 5, 10, 20 and 40 seconds apart |
| `Scheduled.NothingEarly` | internal/community/scheduled.go:264-292 | over every run the worker takes up at most twenty jobs at once, and none before its time or with five attempts, and looks up none that is malformed |
| `Scheduled.OutcomesExactly` | internal/community/scheduled.go:328-345 | sent; or another attempt after 5, 10, 20 or 40 seconds if the refusal is temporary and it was not the fifth; or failed |
| `Scheduled.JobCallsExactly` | internal/community/scheduled.go:118-245 | a cancellation takes effect if and only if the job is pending or failed and the worker rests, a change if it is well-formed besides, a ban on exactly such jobs of its author |
| `Scheduled.SentIsFinal` | internal/community/scheduled.go:179-245 | sent is never left |
| `Scheduled.CancelledLeftExactly` | internal/community/scheduled.go:293-316 | a step leaves cancelled if and only if it is one of the two unguarded status updates on that job |
| `Scheduled.CancelledIsFinal` | internal/community/scheduled.go:232-245 | cancelled is never left in a run whose bans wait for the worker |
| `Scheduled.CancelledCanBeLeft` | internal/server/sqlite/manage_members.go:234-274 | a reachable run in which a banned author’s cancelled job becomes sent |
| `Scheduled.DispatchIsRun` | internal/community/scheduled.go:293-347 | an uninterrupted pass over a job is a run of the worker’s steps |
| `Scheduled.Dispatcher.CreateMessage` | internal/community/conversations.go:360-373 | insert, replay for the same request, conflict for another |
| `ScheduledContent.CreateTwice` | internal/community/conversations.go:360-373 | a created message is stored as requested; creating it again changes nothing, and delivers if and only if the request is the same |
| `ScheduledContent.RowsHoldRequests` | internal/community/conversations.go:360-373 | after every run each row holds the request of the post or send that made it; a send asks for the payload with which its job was selected |
| `ScheduledContent.SentSayExactly` | internal/community/scheduled.go:296-345 | throughout a run the message of every sent job says what the job says, if and only if no job is recorded over a row made for another request and none is posted with the key of a sent job |
| `ScheduledContent.ContentsMatchExactly` | internal/community/scheduled.go:118-245 | throughout a run every job and its row say the same, if and only if no job is scheduled or rescheduled over a row with another content and none posted with its key |
| `ScheduledContent.SentButStale` | internal/community/scheduled.go:306-318 | a run in which a job rescheduled after a stopped send is recorded as sent over the message from before |
| `Scheduled.Dispatcher.DispatchOne` | internal/community/scheduled.go:293-347 | the database after one job |
| `Scheduled.Dispatcher.ProcessDue` | internal/community/scheduled.go:293-349 | the loop dispatches the selected jobs one after the other |
| `Recordings.FilesArePrefixes` | internal/recordings/service.go:436-532 | in every run, with torn writes and operations cut off, part and final file are prefixes of the recording, and the file of a ready record is its prefix of the recorded size |
| `Recordings.ReadyKeepsFileExactly` | internal/recordings/delete.go:35-42 | a ready record has its file after exactly the steps that do not cut off its removal |
| `Recordings.ReadyFilesInRuns` | internal/recordings/delete.go:35-42 | throughout a run ready records have their files if and only if no removal is cut off between file and record |
| `Recordings.ReadyFileExact` | internal/recordings/service.go:469-532 | after a run without a cut removal the file of a ready record is exactly its prefix of the recorded size, and no part file is left |
| `Recordings.ReadyIsFrozen` | internal/recordings/service.go:262-532 | once ready, size and file stay the same until removed |
| `Recordings.CutCompletionRetries` | internal/recordings/service.go:488-524 | a completion cut off after its rename, however often, succeeds when retried before expiry |
| `Recordings.ChunkHidesFinal` | internal/recordings/service.go:449-466 | after a chunk meanwhile the retry succeeds if and only if the chunk was the whole file |
| `Recordings.ResumeReachesReady` | internal/recordings/service.go:410-468 | from whatever can be resumed, sending the rest from the reported offset and completing reaches ready with exactly the recording |
| `Recordings.ResumableExactly` | internal/recordings/service.go:436-532 | without starting over, an open upload can still become ready by announcements, chunks and completions if and only if its part is not longer than the announced size and that much of the recording has a valid header |
| `Recordings.StartOver` | internal/recordings/service.go:262-324 | a local-only stop and a new announcement start an open upload over, and it reaches ready with exactly the announced prefix of a recording with a valid header |
| `Recordings.ReadyReachableExactly` | internal/recordings/service.go:262-532 | by any steps an open upload can become ready if and only if its recording has a valid header |
| `Recordings.CutStopStrands` | internal/recordings/service.go:262-324 | a run that leaves a part longer than the announced size |
| `Recordings.RemovalIsComplete` | internal/recordings/delete.go:35-42 | a removal that is not cut off, asked for or by expiry, leaves neither record nor file, and no run brings anything back |
| `Recordings.FilesGoFirst` | internal/recordings/delete.go:35-42 | however far a removal gets, the part goes first, then the final file, then the record; orphan files are cleaned up |
| `Recordings.StopsExactly` | internal/recordings/service.go:262-324 | a stop takes effect if and only if the record is visible and not ready, the size of an upload under way is kept and it fits; what it leaves is kept for a day |
| `Recordings.CompletesExactly` | internal/recordings/service.go:469-532 | a completion takes effect if and only if the upload’s file has the announced size and the header of its type |
| `Recordings.ExpiryExactly` | internal/recordings/service.go:586-658 | an expired record is touched by cleanups only, and they touch no other but a silent one |
| `Recordings.HeadersExactly` | internal/recordings/service.go:499-512 | the magic numbers of the two containers |
| `Recordings.Upload.ResumeAt` | internal/recordings/service.go:410-435 | the reported offset |
| `Recordings.Upload.AppendChunk` | internal/recordings/service.go:436-468 | the part file after a chunk, and when it is acknowledged |
| `Recordings.Upload.CompleteUpload` | internal/recordings/service.go:469-532 | size and header are checked, then rename, then commit |
| `Recordings.Upload.StopRecording` | internal/recordings/service.go:262-324 | the status and size after the announced length |
| `Recordings.Upload.Remove` | internal/recordings/delete.go:35-42 | files go before the record |
| `Recordings.Upload.CleanUp` | internal/recordings/service.go:586-658 | expired records are removed, silent ones fail, orphan files go |
| `Notifications.CandidatesExact` | internal/notifications/service.go:200-250 | the filtered candidate union equals the scan of all members |
| `Notifications.RecipientsExactly` | internal/notifications/service.go:180-252 | who is alerted, by the tables alone: a member with an account neither deleted nor banned, with access, not the author, with alerts not off, that wants all messages, follows the thread, or is mentioned by identity, name, a role the author may mention, or a reply |
| `Notifications.CandidatesWant` | internal/notifications/service.go:200-250 | apart from news channels a candidate wants the message |
| `Notifications.OrdinaryCandidates` | internal/notifications/service.go:203-210 | an ordinary message has only the candidates with mode "all" |
| `Notifications.SelectRecipients` | internal/notifications/service.go:180-252 | the loop selects exactly the recipients of the scan |
| `Notifications.AlertedOnce` | internal/notifications/service.go:287-327 | over every run a user whose membership never ended is alerted at most once about a message |
| `Notifications.RepeatsExactly` | internal/notifications/service.go:297-305 | a redelivery alerts again if and only if neither row, cursor nor a missing message tells of the first, and then the membership has ended at some time |
| `Notifications.RepeatNeedsRemoval` | internal/notifications/service.go:287-327 | over every run one step alerts a user about a message at most once, and a second step does so only if the membership ended since the first |
| `Notifications.NoRepeat` | internal/notifications/service.go:297-305 | over every run without the end of the membership an alert that left its trace keeps a trace and is not given again |
| `Notifications.ReturningMemberAlertedTwice` | internal/server/sqlite/repository.go:313-322 | a run in which a member leaves, returns and is alerted again |
| `Notifications.CursorMonotone` | internal/readstate/sqlite/repository.go:70-84 | read cursors only move forward while the membership lasts |
| `Notifications.Recorder.PersistDeliveries` | internal/notifications/service.go:287-327 | the recorded rows, and exactly the users to alert |
| `Notifications.DeliversExactly` | internal/notifications/service.go:287-327 | a delivery records exactly the listed users with access that have neither read past the live message nor been recorded |
| `Notifications.ReadsExactly` | internal/readstate/sqlite/repository.go:70-84 | reading takes effect if and only if the user has access and the live message is beyond the cursor; exactly the rows up to it are cleared |
| `Notifications.RemovesExactly` | internal/server/sqlite/repository.go:313-322 | the end of a membership forgets the user’s access, cursor and rows, and nothing else |
| `TokenBucket.WindowBound` | internal/stream/bitrate_limiter.go:16-44 | in any window the accepted bytes are at most the capacity plus the rate times its length |
| `TokenBucket.NeverRefusedExactly` | internal/stream/bitrate_limiter.go:16-44 | no arrival is refused if and only if every window meets that bound |
| `TokenBucket.NewFull` | internal/stream/bitrate_limiter.go:16-25 | a new guard is a full bucket that fills at the configured kilobits per second |
| `TokenBucket.Limiter.constructor` | internal/stream/bitrate_limiter.go:16-25 | rate and capacity from the configured bitrate and burst |
| `TokenBucket.Limiter.Allow` | internal/stream/bitrate_limiter.go:27-44 | one call is one step of the bucket on the token clock |

## Left out

- Pion itself (ICE, DTLS, RTP, SDP text), timers, deadlines and goroutine scheduling: the peer is its sender set and signaling state, and its calls succeed.
- Buffered ICE candidates and keyframe requests: they do not affect who is offered what.
- `filterLegacyStreamEvent` and the legacy stream replacement notices: they rewrite single events for old clients.
- A client's subscriptions are fixed during one enqueue call.
- Presence counters, text-channel rooms and client registration indices of the hub: easy members beside the media state.
- Hub operations that only repeat modelled ones (`ResetVoiceChannel`, `RevokeUserFromServer`, session revocation, access changes): they are sequences of `LeaveVoice`, `LeaveVoiceForServer` and `Unregister` steps.
- HTTP handlers, JSON, configuration, telemetry, audit records, permission checks and request validation: parameters of the operations.
- SQLite: each transaction is one step over maps and sets, and it either commits or does nothing.
- Room objects of the two media managers are values in a map from their identities, so aliasing between room pointers is identity equality of the map's keys.
- A walk over all sessions of a voice room is one call per session in any order, which allows more interleavings than the loop.
- Scheduled jobs for channels: their message repository is not part of this model. The order in which due jobs are selected is left open; any due jobs may be selected, up to twenty.
- Storage quotas of recordings: their verdict is a parameter. Recording previews and pruning by age only remove records.
- Attachments, polls and forwards of direct messages: the request of a message is one value.
- Float64 rounding in the ingest guard: arithmetic is over the reals.
- Cryptography and device-identifier syntax: keys are opaque values.
- MediaHub.Hub.RemoveChannel: the list of publishers to stop is a parameter that must name every publisher of the channel; the snapshot itself is not computed.
- MediaHub.Hub.RevokeServer: the order in which channels and publishers are stopped is a parameter that must cover all of them.
