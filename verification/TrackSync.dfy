/** Track forwarding in a voice room. A synchronize call locks its session, copies the room's tracks,
    decides track by track what to forward (reading the deafened flag anew for each), and then
    replaces the senders; room changes and flag changes may happen between any two of these steps.
    A walk over all sessions is one call for each session it found, in any order. */
module TrackSync {
  import opened Options
  import opened VoiceRoom

  /** Where the call that holds a session's negotiation lock stands. */
  datatype Work = Idle | Deciding(snapshot: map<TrackId, Track>, undecided: set<TrackId>, wanted: set<TrackId>)

  /** `calls` are the synchronize calls that have not taken the lock yet. */
  datatype Session = Session(
    connection: ConnectionId, deaf: bool, closed: bool, senders: set<TrackId>, calls: nat, work: Work)

  /** `walks` are the walks that have not listed the room's sessions yet. */
  datatype World = World(room: State, walks: nat, sessions: map<SessionId, Session>)

  datatype Step =
    | Reserving(max: nat)
    | Cancelling
    | Joining(connection: ConnectionId, id: SessionId, deaf: bool)
    | Leaving(connection: ConnectionId)
    | Publishing(track: TrackId, value: Track)
    | Withdrawing(track: TrackId, owner: ConnectionId)
    | Deafening(id: SessionId, deaf: bool)
    | Resynchronizing(id: SessionId)
    | Listing
    | Locking(id: SessionId)
    | Choosing(id: SessionId, track: TrackId)
    | Replacing(id: SessionId)

  predicate Wants(connection: ConnectionId, deaf: bool, track: Track) {
    track.owner != connection && (!deaf || track.video)
  }

  /** The tracks of the others, without audio for a deafened session. */
  function Desired(tracks: map<TrackId, Track>, connection: ConnectionId, deaf: bool): set<TrackId> {
    set id | id in tracks && Wants(connection, deaf, tracks[id])
  }

  function Call(s: Session): Session { s.(calls := s.calls + 1) }

  function CallAll(w: World): map<SessionId, Session> {
    map id | id in w.sessions ::
      if w.sessions[id].connection in w.room.sessions && w.room.sessions[w.sessions[id].connection] == id
      then Call(w.sessions[id]) else w.sessions[id]
  }

  function Leave(w: World, connection: ConnectionId): World {
    if connection !in w.room.sessions then w
    else
      var id := w.room.sessions[connection];
      var room := RemoveSession(w.room, connection);
      var walks := if OwnedBy(w.room, connection) != {} && !Empty(room) then w.walks + 1 else w.walks;
      var sessions := if id in w.sessions then w.sessions[id := w.sessions[id].(closed := true)] else w.sessions;
      World(room, walks, sessions)
  }

  function Lock(s: Session, tracks: map<TrackId, Track>): Session {
    if s.calls == 0 || s.work.Deciding? then s
    else if s.closed then s.(calls := s.calls - 1)
    else s.(calls := s.calls - 1, work := Deciding(tracks, tracks.Keys, {}))
  }

  function Choose(s: Session, track: TrackId): Session {
    if s.work.Idle? || track !in s.work.undecided || track !in s.work.snapshot then s
    else
      var wanted := if Wants(s.connection, s.deaf, s.work.snapshot[track]) then {track} else {};
      s.(work := s.work.(undecided := s.work.undecided - {track}, wanted := s.work.wanted + wanted))
  }

  function Replace(s: Session): Session {
    if s.work.Idle? || s.work.undecided != {} then s else s.(senders := s.work.wanted, work := Idle)
  }

  function Deafen(s: Session, deaf: bool): Session {
    if s.deaf == deaf then s else Call(s.(deaf := deaf))
  }

  function Apply(w: World, step: Step): World {
    match step
    case Reserving(max) => w.(room := Reserve(w.room, max))
    case Cancelling => w.(room := Unreserve(w.room))
    case Joining(connection, id, deaf) =>
      if id in w.sessions then w
      else World(AddSession(w.room, connection, id), w.walks,
                 w.sessions[id := Session(connection, deaf, false, {}, 1, Idle)])
    case Leaving(connection) => Leave(w, connection)
    case Publishing(track, value) =>
      if Admits(w.room, value) then w.(room := AddTrack(w.room, track, value), walks := w.walks + 1) else w
    case Withdrawing(track, owner) =>
      if Removable(w.room, track, owner) then w.(room := RemoveTrack(w.room, track, owner), walks := w.walks + 1) else w
    case Deafening(id, deaf) =>
      if id in w.sessions then w.(sessions := w.sessions[id := Deafen(w.sessions[id], deaf)]) else w
    case Resynchronizing(id) =>
      if id in w.sessions then w.(sessions := w.sessions[id := Call(w.sessions[id])]) else w
    case Listing =>
      if w.walks > 0 then World(w.room, w.walks - 1, CallAll(w)) else w
    case Locking(id) =>
      if id in w.sessions then w.(sessions := w.sessions[id := Lock(w.sessions[id], w.room.tracks)]) else w
    case Choosing(id, track) =>
      if id in w.sessions then w.(sessions := w.sessions[id := Choose(w.sessions[id], track)]) else w
    case Replacing(id) =>
      if id in w.sessions then w.(sessions := w.sessions[id := Replace(w.sessions[id])]) else w
  }

  function Exec(w: World, steps: seq<Step>): World
    decreases |steps|
  {
    if steps == [] then w else Exec(Apply(w, steps[0]), steps[1..])
  }

  const START := World(EMPTY, 0, map[])

  // ---- The invariant ----

  /** Registered sessions exist, belong to their connection and are open. */
  ghost predicate Registered(w: World) {
    forall c | c in w.room.sessions ::
      var id := w.room.sessions[c];
      id in w.sessions && w.sessions[id].connection == c && !w.sessions[id].closed
  }

  ghost predicate Progress(s: Session, tracks: map<TrackId, Track>) {
    match s.work
    case Idle => s.senders == Desired(tracks, s.connection, s.deaf)
    case Deciding(snapshot, undecided, wanted) =>
      && snapshot == tracks && undecided <= snapshot.Keys
      && wanted == Desired(tracks, s.connection, s.deaf) - undecided
  }

  /** A session is up to date, or the call at work on it will bring it up to date, or another call
      or walk is still to come. */
  ghost predicate Covered(w: World, s: Session) {
    w.walks > 0 || s.calls > 0 || Progress(s, w.room.tracks)
  }

  ghost predicate AllCovered(w: World) {
    forall c | c in w.room.sessions :: w.room.sessions[c] in w.sessions ==> Covered(w, w.sessions[w.room.sessions[c]])
  }

  ghost predicate Inv(w: World) { Valid(w.room) && Registered(w) && AllCovered(w) }

  lemma LockProgress(w: World, s: Session)
    requires Covered(w, s) && !s.closed
    ensures Covered(w, Lock(s, w.room.tracks))
  {
  }

  lemma ChooseProgress(s: Session, track: TrackId, tracks: map<TrackId, Track>)
    requires Progress(s, tracks)
    ensures Progress(Choose(s, track), tracks)
  {
  }

  lemma ReplaceProgress(s: Session, tracks: map<TrackId, Track>)
    requires Progress(s, tracks)
    ensures Progress(Replace(s), tracks)
  {
  }

  lemma LeaveInv(w: World, connection: ConnectionId)
    requires Inv(w)
    ensures Inv(Leave(w, connection))
  {
    if connection in w.room.sessions {
      RegistrationKeepsValid(w.room, connection, 0);
      var v := Leave(w, connection);
      RemoveSessionExactly(w.room, connection);
      forall c | c in v.room.sessions
        ensures var id := v.room.sessions[c];
                && id in v.sessions && v.sessions[id] == w.sessions[id] && w.sessions[id].connection == c
                && Covered(v, v.sessions[id])
      {
        assert c in w.room.sessions && v.room.sessions[c] == w.room.sessions[c];
      }
    }
  }

  /** One session changes, and stays open, registered where it was, and covered. */
  lemma SessionInv(w: World, id: SessionId, s: Session)
    requires Inv(w) && id in w.sessions
    requires s.connection == w.sessions[id].connection && s.closed == w.sessions[id].closed
    requires !s.closed && Covered(w, w.sessions[id]) ==> Covered(w, s)
    ensures Inv(w.(sessions := w.sessions[id := s]))
  {
    var v := w.(sessions := w.sessions[id := s]);
    forall c | c in v.room.sessions
      ensures var i := v.room.sessions[c];
              i in v.sessions && v.sessions[i].connection == c && !v.sessions[i].closed && Covered(v, v.sessions[i])
    {
      var i := w.room.sessions[c];
      assert Covered(w, w.sessions[i]);
    }
  }

  lemma JoinInv(w: World, connection: ConnectionId, id: SessionId, deaf: bool)
    requires Inv(w) && id !in w.sessions
    ensures Inv(Apply(w, Joining(connection, id, deaf)))
  {
    RegistrationKeepsValid(w.room, connection, id);
    var v := Apply(w, Joining(connection, id, deaf));
    forall c | c in v.room.sessions
      ensures var i := v.room.sessions[c];
              i in v.sessions && v.sessions[i].connection == c && !v.sessions[i].closed && Covered(v, v.sessions[i])
    {
      assert c != connection ==> c in w.room.sessions && Covered(w, w.sessions[w.room.sessions[c]]);
    }
  }

  lemma ListInv(w: World)
    requires Inv(w) && w.walks > 0
    ensures Inv(Apply(w, Listing))
  {
    var v := Apply(w, Listing);
    forall c | c in v.room.sessions
      ensures var i := v.room.sessions[c];
              i in v.sessions && v.sessions[i].connection == c && !v.sessions[i].closed && v.sessions[i].calls > 0
    {
    }
  }

  lemma ApplyInv(w: World, step: Step)
    requires Inv(w)
    ensures Inv(Apply(w, step))
  {
    match step {
      case Reserving(max) =>
      case Cancelling =>
      case Joining(connection, id, deaf) =>
        if id !in w.sessions { JoinInv(w, connection, id, deaf); }
      case Leaving(connection) => LeaveInv(w, connection);
      case Publishing(track, value) => AddTrackKeepsValid(w.room, track, value);
      case Withdrawing(track, owner) => RemoveTrackKeepsValid(w.room, track, owner);
      case Deafening(id, deaf) =>
        if id in w.sessions { SessionInv(w, id, Deafen(w.sessions[id], deaf)); }
      case Resynchronizing(id) =>
        if id in w.sessions { SessionInv(w, id, Call(w.sessions[id])); }
      case Listing =>
        if w.walks > 0 { ListInv(w); }
      case Locking(id) =>
        if id in w.sessions {
          var s := w.sessions[id];
          if !s.closed && Covered(w, s) { LockProgress(w, s); }
          SessionInv(w, id, Lock(s, w.room.tracks));
        }
      case Choosing(id, track) =>
        if id in w.sessions {
          var s := w.sessions[id];
          if Progress(s, w.room.tracks) { ChooseProgress(s, track, w.room.tracks); }
          SessionInv(w, id, Choose(s, track));
        }
      case Replacing(id) =>
        if id in w.sessions {
          var s := w.sessions[id];
          if Progress(s, w.room.tracks) { ReplaceProgress(s, w.room.tracks); }
          SessionInv(w, id, Replace(s));
        }
    }
  }

  lemma {:induction false} ExecInv(w: World, steps: seq<Step>)
    requires Inv(w)
    ensures Inv(Exec(w, steps))
    decreases |steps|
  {
    if steps != [] {
      ApplyInv(w, steps[0]);
      ExecInv(Apply(w, steps[0]), steps[1..]);
    }
  }

  // ---- Main results ----

  /** Nothing is in flight for a session: no walk, no call, no work. */
  ghost predicate Quiet(w: World, s: Session) { w.walks == 0 && s.calls == 0 && s.work.Idle? }

  /** Main result: after any interleaving of joins, leaves, track changes, flag changes and the
      steps of synchronize calls, a registered session for which nothing is in flight forwards
      exactly the tracks of the others, restricted to video when it is deafened. */
  lemma SendersMatchRoom(steps: seq<Step>, c: ConnectionId)
    requires var w := Exec(START, steps); c in w.room.sessions
    ensures var w := Exec(START, steps);
            && w.room.sessions[c] in w.sessions
            && var s := w.sessions[w.room.sessions[c]];
            && s.connection == c && !s.closed
            && (Quiet(w, s) ==> forall id :: id in s.senders <==>
                  id in w.room.tracks && w.room.tracks[id].owner != c && (s.deaf ==> w.room.tracks[id].video))
  {
    assert Inv(START);
    ExecInv(START, steps);
    var w := Exec(START, steps);
    assert Covered(w, w.sessions[w.room.sessions[c]]);
  }

  // ---- What a history says ----

  ghost function Init(steps: seq<Step>): seq<Step>
    requires steps != []
  {
    steps[..|steps| - 1]
  }

  ghost function Last(steps: seq<Step>): Step
    requires steps != []
  {
    steps[|steps| - 1]
  }

  /** Some join used the session. */
  ghost predicate Used(steps: seq<Step>, id: SessionId) {
    steps != [] && ((Last(steps).Joining? && Last(steps).id == id) || Used(Init(steps), id))
  }

  /** The session with which the connection joined last, unless it has left since. */
  ghost function SessionOf(steps: seq<Step>, c: ConnectionId): Option<SessionId> {
    if steps == [] then None
    else match Last(steps)
      case Joining(connection, id, _) =>
        if connection == c && !Used(Init(steps), id) then Some(id) else SessionOf(Init(steps), c)
      case Leaving(connection) => if connection == c then None else SessionOf(Init(steps), c)
      case _ => SessionOf(Init(steps), c)
  }

  /** Whether the session is deafened, as it said last. */
  ghost predicate Deafened(steps: seq<Step>, id: SessionId) {
    && steps != []
    && match Last(steps)
       case Joining(_, session, deaf) =>
         if session == id && !Used(Init(steps), id) then deaf else Deafened(Init(steps), id)
       case Deafening(session, deaf) =>
         if session == id && Used(Init(steps), id) then deaf else Deafened(Init(steps), id)
       case _ => Deafened(Init(steps), id)
  }

  /** The track that was published under the ID last, unless its owner has withdrawn it or left since. A
      publication counts if its owner is in the room and has no track of that kind. */
  ghost function TrackAt(steps: seq<Step>, id: TrackId): Option<Track>
    decreases |steps|, 0
  {
    if steps == [] then None
    else
      var before := TrackAt(Init(steps), id);
      match Last(steps)
      case Publishing(track, value) =>
        if track == id && SessionOf(Init(steps), value.owner).Some? && Alone(Init(steps), value)
        then Some(value) else before
      case Withdrawing(track, owner) =>
        if track == id && before.Some? && before.value.owner == owner then None else before
      case Leaving(connection) =>
        if before.Some? && before.value.owner == connection then None else before
      case _ => before
  }

  ghost predicate Alone(steps: seq<Step>, value: Track)
    decreases |steps|, 1
  {
    forall id: TrackId :: TrackAt(steps, id) != Some(value)
  }

  lemma {:induction false} ExecLast(w: World, steps: seq<Step>)
    requires steps != []
    ensures Exec(w, steps) == Apply(Exec(w, Init(steps)), Last(steps))
    decreases |steps|
  {
    if |steps| > 1 {
      assert Init(steps)[1..] == Init(steps[1..]) && Last(steps[1..]) == Last(steps) && Init(steps)[0] == steps[0];
      ExecLast(Apply(w, steps[0]), steps[1..]);
    } else {
      assert steps[1..] == [];
    }
  }

  ghost predicate AsTold(w: World, steps: seq<Step>) {
    && (forall id: SessionId :: id in w.sessions <==> Used(steps, id))
    && (forall id: SessionId | id in w.sessions :: w.sessions[id].deaf == Deafened(steps, id))
    && (forall c: ConnectionId :: SessionOf(steps, c) == Found(w.room.sessions, c))
    && (forall id: TrackId :: TrackAt(steps, id) == Found(w.room.tracks, id))
  }

  ghost function Found<K, V>(m: map<K, V>, k: K): Option<V> { if k in m then Some(m[k]) else None }

  lemma StepUsed(w: World, steps: seq<Step>, id: SessionId)
    requires steps != [] && AsTold(w, Init(steps))
    ensures var v := Apply(w, Last(steps));
            (id in v.sessions <==> Used(steps, id)) && (id in v.sessions ==> v.sessions[id].deaf == Deafened(steps, id))
  {
    assert id in w.sessions <==> Used(Init(steps), id);
    match Last(steps) {
      case Leaving(_) =>
      case Listing =>
      case _ =>
    }
  }

  lemma StepSession(w: World, steps: seq<Step>, c: ConnectionId)
    requires steps != [] && AsTold(w, Init(steps))
    ensures SessionOf(steps, c) == Found(Apply(w, Last(steps)).room.sessions, c)
  {
    assert SessionOf(Init(steps), c) == Found(w.room.sessions, c);
    match Last(steps) {
      case Joining(_, id, _) => assert id in w.sessions <==> Used(Init(steps), id);
      case Leaving(_) =>
      case _ =>
    }
  }

  lemma AloneExactly(tracks: map<TrackId, Track>, steps: seq<Step>, value: Track)
    requires forall id: TrackId :: TrackAt(steps, id) == Found(tracks, id)
    ensures Alone(steps, value) <==> forall id | id in tracks :: tracks[id] != value
  {
    if Alone(steps, value) {
      forall id | id in tracks ensures tracks[id] != value { assert TrackAt(steps, id) == Some(tracks[id]); }
    }
  }

  lemma PublishedTrack(w: World, steps: seq<Step>, id: TrackId)
    requires steps != [] && AsTold(w, Init(steps)) && Last(steps).Publishing?
    ensures TrackAt(steps, id) == Found(Apply(w, Last(steps)).room.tracks, id)
  {
    var value := Last(steps).value;
    assert TrackAt(Init(steps), id) == Found(w.room.tracks, id);
    assert SessionOf(Init(steps), value.owner) == Found(w.room.sessions, value.owner);
    AloneExactly(w.room.tracks, Init(steps), value);
  }

  lemma LostTrack(w: World, steps: seq<Step>, id: TrackId)
    requires steps != [] && AsTold(w, Init(steps)) && Inv(w) && (Last(steps).Withdrawing? || Last(steps).Leaving?)
    ensures TrackAt(steps, id) == Found(Apply(w, Last(steps)).room.tracks, id)
  {
    assert TrackAt(Init(steps), id) == Found(w.room.tracks, id);
    assert id in w.room.tracks ==> w.room.tracks[id].owner in w.room.sessions;
  }

  lemma SameTracks(w: World, step: Step)
    requires !step.Publishing? && !step.Withdrawing? && !step.Leaving?
    ensures Apply(w, step).room.tracks == w.room.tracks
  {
  }

  lemma StepTrack(w: World, steps: seq<Step>, id: TrackId)
    requires steps != [] && AsTold(w, Init(steps)) && Inv(w)
    ensures TrackAt(steps, id) == Found(Apply(w, Last(steps)).room.tracks, id)
  {
    if Last(steps).Publishing? {
      PublishedTrack(w, steps, id);
    } else if Last(steps).Withdrawing? || Last(steps).Leaving? {
      LostTrack(w, steps, id);
    } else {
      SameTracks(w, Last(steps));
      assert TrackAt(Init(steps), id) == Found(w.room.tracks, id);
    }
  }

  lemma StepAsTold(w: World, steps: seq<Step>)
    requires steps != [] && AsTold(w, Init(steps)) && Inv(w)
    ensures AsTold(Apply(w, Last(steps)), steps)
  {
    var v := Apply(w, Last(steps));
    forall id: SessionId
      ensures id in v.sessions <==> Used(steps, id)
      ensures id in v.sessions ==> v.sessions[id].deaf == Deafened(steps, id)
    {
      StepUsed(w, steps, id);
    }
    forall c: ConnectionId ensures SessionOf(steps, c) == Found(v.room.sessions, c) { StepSession(w, steps, c); }
    forall id: TrackId ensures TrackAt(steps, id) == Found(v.room.tracks, id) { StepTrack(w, steps, id); }
  }

  /** Main result: after every run the room has exactly the sessions that joined and have not left, and
      the tracks that were published and have not been withdrawn since, each by who is in the room. */
  lemma {:induction false} RoomFollowsHistory(steps: seq<Step>)
    ensures AsTold(Exec(START, steps), steps)
    decreases |steps|
  {
    if steps != [] {
      RoomFollowsHistory(Init(steps));
      assert Inv(START);
      ExecInv(START, Init(steps));
      StepAsTold(Exec(START, Init(steps)), steps);
      ExecLast(START, steps);
    }
  }

  /** A session whose connection leaves is closed, and stays so: it forwards nothing new in any run. */
  lemma LeavingCloses(w: World, c: ConnectionId, steps: seq<Step>)
    requires c in w.room.sessions && w.room.sessions[c] in w.sessions
    ensures var id := w.room.sessions[c];
            var v := Exec(Apply(w, Leaving(c)), steps);
            id in v.sessions && v.sessions[id].closed
  {
    StaysClosed(Apply(w, Leaving(c)), steps, w.room.sessions[c]);
  }

  lemma {:induction false} StaysClosed(w: World, steps: seq<Step>, id: SessionId)
    requires id in w.sessions && w.sessions[id].closed
    ensures var v := Exec(w, steps);
            && id in v.sessions && v.sessions[id].closed
            && (w.sessions[id].work.Idle? ==>
                  v.sessions[id].work.Idle? && v.sessions[id].senders == w.sessions[id].senders)
    decreases |steps|
  {
    if steps != [] {
      ClosedStep(w, steps[0], id);
      StaysClosed(Apply(w, steps[0]), steps[1..], id);
    }
  }

  lemma ClosedStep(w: World, step: Step, id: SessionId)
    requires id in w.sessions && w.sessions[id].closed
    ensures var v := Apply(w, step);
            && id in v.sessions && v.sessions[id].closed
            && (w.sessions[id].work.Idle? ==>
                  v.sessions[id].work.Idle? && v.sessions[id].senders == w.sessions[id].senders)
  {
    match step {
      case Leaving(_) =>
      case Listing =>
      case _ =>
    }
  }

  /** Reservations are made while sessions and reservations together are below the limit, and used up by
      joins and cancellations. */
  lemma ReservationsExactly(w: World, step: Step)
    ensures var before, after := w.room.reservations, Apply(w, step).room.reservations;
            match step
            case Reserving(max) => after == if |w.room.sessions| + before < max then before + 1 else before
            case Cancelling => after == if before > 0 then before - 1 else 0
            case Joining(_, id, _) => after == if id !in w.sessions && before > 0 then before - 1 else before
            case _ => after == before
  {
  }

  // ---- Synchronization can always finish ----

  /** The steps of walks and calls, as opposed to what triggers them. */
  predicate Internal(step: Step) { step.Listing? || step.Locking? || step.Choosing? || step.Replacing? }

  ghost predicate AllInternal(steps: seq<Step>) { forall i | 0 <= i < |steps| :: Internal(steps[i]) }

  ghost predicate WorkKnown(w: World) {
    forall id | id in w.sessions && w.sessions[id].work.Deciding? ::
      w.sessions[id].work.undecided <= w.sessions[id].work.snapshot.Keys
  }

  lemma WorkKnownStep(w: World, step: Step)
    requires WorkKnown(w)
    ensures WorkKnown(Apply(w, step))
  {
  }

  lemma Extend(w: World, step: Step, rest: seq<Step>)
    requires Internal(step) && AllInternal(rest)
    ensures Exec(w, [step] + rest) == Exec(Apply(w, step), rest) && AllInternal([step] + rest)
  {
    assert ([step] + rest)[0] == step && ([step] + rest)[1..] == rest;
  }

  /** Walks list their sessions, one after the other. */
  lemma {:induction false} WalksFinish(w: World, id: SessionId) returns (steps: seq<Step>)
    requires WorkKnown(w) && id in w.sessions
    ensures AllInternal(steps) && Exec(w, steps).walks == 0 && Exec(w, steps).room == w.room
    ensures WorkKnown(Exec(w, steps)) && id in Exec(w, steps).sessions
    decreases w.walks
  {
    steps := [];
    if w.walks > 0 {
      WorkKnownStep(w, Listing);
      var rest := WalksFinish(Apply(w, Listing), id);
      Extend(w, Listing, rest);
      steps := [Listing] + rest;
    }
  }

  /** What a session still has to go through: its calls, and the tracks of the call at work. */
  ghost function Undecided(s: Session): set<TrackId> { if s.work.Deciding? then s.work.undecided else {} }

  /** Calls take the lock in turn, decide about each track and replace the senders. */
  lemma {:induction false} CallsFinish(w: World, id: SessionId) returns (steps: seq<Step>)
    requires WorkKnown(w) && id in w.sessions && w.walks == 0
    ensures AllInternal(steps) && Exec(w, steps).room == w.room
    ensures id in Exec(w, steps).sessions && Quiet(Exec(w, steps), Exec(w, steps).sessions[id])
    decreases w.sessions[id].calls, w.sessions[id].work.Deciding?, Undecided(w.sessions[id])
  {
    var s := w.sessions[id];
    steps := [];
    if !Quiet(w, s) {
      var step: Step;
      if s.work.Idle? {
        step := Locking(id);
      } else if s.work.undecided == {} {
        step := Replacing(id);
      } else {
        var track :| track in s.work.undecided;
        step := Choosing(id, track);
      }
      WorkKnownStep(w, step);
      var rest := CallsFinish(Apply(w, step), id);
      Extend(w, step, rest);
      steps := [step] + rest;
    }
  }

  lemma {:induction false} ExecAppend(w: World, first: seq<Step>, second: seq<Step>)
    ensures Exec(w, first + second) == Exec(Exec(w, first), second)
    decreases |first|
  {
    if first == [] {
      assert first + second == second;
    } else {
      assert (first + second)[0] == first[0] && (first + second)[1..] == first[1..] + second;
      ExecAppend(Apply(w, first[0]), first[1..], second);
    }
  }

  lemma {:induction false} ExecKnown(w: World, steps: seq<Step>)
    requires WorkKnown(w)
    ensures WorkKnown(Exec(w, steps))
    decreases |steps|
  {
    if steps != [] {
      WorkKnownStep(w, steps[0]);
      ExecKnown(Apply(w, steps[0]), steps[1..]);
    }
  }

  /** Main result: from every reachable state the walks and calls in flight can run to their end, and
      then the session forwards exactly the tracks of that room. */
  lemma SessionsCatchUp(before: seq<Step>, c: ConnectionId) returns (steps: seq<Step>)
    requires c in Exec(START, before).room.sessions
    ensures var w := Exec(START, before);
            var v := Exec(w, steps);
            && AllInternal(steps) && v.room == w.room && v.room.sessions[c] in v.sessions
            && v.sessions[v.room.sessions[c]].senders
               == Desired(w.room.tracks, c, v.sessions[v.room.sessions[c]].deaf)
  {
    assert Inv(START);
    ExecInv(START, before);
    ExecKnown(START, before);
    var w := Exec(START, before);
    var id := w.room.sessions[c];
    var first := WalksFinish(w, id);
    var second := CallsFinish(Exec(w, first), id);
    steps := first + second;
    ExecAppend(w, first, second);
    ExecInv(w, steps);
    var v := Exec(w, steps);
    assert Covered(v, v.sessions[v.room.sessions[c]]) && v.sessions[v.room.sessions[c]].connection == c;
  }

  /** Every forwarded track has a registered owner, at most one of each kind. */
  lemma TracksHaveOwners(steps: seq<Step>)
    ensures Valid(Exec(START, steps).room)
  {
    assert Inv(START);
    ExecInv(START, steps);
  }

  /** The choice of a call during which the deafened flag does not change. */
  method ChooseTracks(tracks: map<TrackId, Track>, connection: ConnectionId, deaf: bool) returns (desired: set<TrackId>)
    ensures desired == Desired(tracks, connection, deaf)
  {
    desired := {};
    var left := tracks.Keys;
    while left != {}
      invariant left <= tracks.Keys && desired == Desired(tracks, connection, deaf) - left
      decreases left
    {
      var id :| id in left;
      left := left - {id};
      if tracks[id].owner != connection && (!deaf || tracks[id].video) {
        desired := desired + {id};
      }
    }
  }
}
