/** A voice room: the sessions by connection, the published tracks by ID and the reservations of
    joins in flight. Every operation runs under the room's lock. */
module VoiceRoom {

  type ConnectionId = nat
  type SessionId = nat
  type TrackId = nat

  datatype Track = Track(owner: ConnectionId, video: bool)

  datatype State = State(
    sessions: map<ConnectionId, SessionId>,
    tracks: map<TrackId, Track>,
    reservations: nat)

  const EMPTY := State(map[], map[], 0)

  function Unreserve(s: State): State {
    if s.reservations > 0 then s.(reservations := s.reservations - 1) else s
  }

  function AddSession(s: State, connection: ConnectionId, session: SessionId): State {
    Unreserve(s).(sessions := s.sessions[connection := session])
  }

  predicate HasSpace(s: State, max: nat) { |s.sessions| + s.reservations < max }

  function Reserve(s: State, max: nat): State {
    if HasSpace(s, max) then s.(reservations := s.reservations + 1) else s
  }

  function OwnedBy(s: State, connection: ConnectionId): set<TrackId> {
    set id | id in s.tracks && s.tracks[id].owner == connection
  }

  function RemoveSession(s: State, connection: ConnectionId): State {
    s.(sessions := s.sessions - {connection}, tracks := s.tracks - OwnedBy(s, connection))
  }

  /** A track needs a registered owner that publishes no other track of its kind. */
  predicate Admits(s: State, track: Track) {
    track.owner in s.sessions && forall id | id in s.tracks :: s.tracks[id] != track
  }

  function AddTrack(s: State, id: TrackId, track: Track): State {
    if Admits(s, track) then s.(tracks := s.tracks[id := track]) else s
  }

  predicate Removable(s: State, id: TrackId, owner: ConnectionId) {
    id in s.tracks && s.tracks[id].owner == owner
  }

  function RemoveTrack(s: State, id: TrackId, owner: ConnectionId): State {
    if Removable(s, id, owner) then s.(tracks := s.tracks - {id}) else s
  }

  predicate Empty(s: State) { s.sessions == map[] && s.reservations == 0 }

  /** Owners of tracks are registered, and each has at most one track of a kind. */
  ghost predicate Valid(s: State) {
    && (forall id | id in s.tracks :: s.tracks[id].owner in s.sessions)
    && (forall i, j | i in s.tracks && j in s.tracks && s.tracks[i] == s.tracks[j] :: i == j)
  }

  lemma RegistrationKeepsValid(s: State, connection: ConnectionId, session: SessionId)
    requires Valid(s)
    ensures Valid(AddSession(s, connection, session)) && Valid(RemoveSession(s, connection))
  {
    var r := RemoveSession(s, connection);
    forall id | id in r.tracks ensures r.tracks[id].owner in r.sessions { assert id in s.tracks; }
  }

  lemma AddTrackKeepsValid(s: State, id: TrackId, track: Track)
    requires Valid(s)
    ensures Valid(AddTrack(s, id, track))
  {
  }

  lemma RemoveTrackKeepsValid(s: State, id: TrackId, owner: ConnectionId)
    requires Valid(s)
    ensures Valid(RemoveTrack(s, id, owner))
  {
  }

  /** A connection that leaves takes exactly its own tracks along. */
  lemma RemoveSessionExactly(s: State, connection: ConnectionId)
    ensures var r := RemoveSession(s, connection);
            && r.reservations == s.reservations && connection !in r.sessions
            && (forall c | c != connection :: c in r.sessions <==> c in s.sessions)
            && (forall id :: id in r.tracks <==> id in s.tracks && s.tracks[id].owner != connection)
            && (OwnedBy(s, connection) == {} ==> r.tracks == s.tracks)
  {
  }

  class Room {
    var sessions: map<ConnectionId, SessionId>
    var tracks: map<TrackId, Track>
    var reservations: nat

    ghost function View(): State
      reads this
    {
      State(sessions, tracks, reservations)
    }

    constructor ()
      ensures View() == EMPTY
    {
      sessions, tracks, reservations := map[], map[], 0;
    }

    method CancelReservation()
      modifies this`reservations
      ensures View() == Unreserve(old(View()))
    {
      if reservations > 0 {
        reservations := reservations - 1;
      }
    }

    method Register(connection: ConnectionId, session: SessionId)
      modifies this`reservations, this`sessions
      ensures View() == AddSession(old(View()), connection, session)
    {
      if reservations > 0 {
        reservations := reservations - 1;
      }
      sessions := sessions[connection := session];
    }

    method TryReserve(max: nat) returns (ok: bool)
      modifies this`reservations
      ensures View() == Reserve(old(View()), max) && ok == HasSpace(old(View()), max)
    {
      if |sessions| + reservations >= max { return false; }
      reservations := reservations + 1;
      ok := true;
    }

    method Deregister(connection: ConnectionId) returns (trackRemoved: bool)
      modifies this`sessions, this`tracks
      ensures View() == RemoveSession(old(View()), connection)
      ensures trackRemoved == (OwnedBy(old(View()), connection) != {})
    {
      sessions := sessions - {connection};
      trackRemoved := false;
      var left := tracks.Keys;
      ghost var removed: set<TrackId> := {};
      while left != {}
        invariant left <= old(tracks).Keys && removed <= old(tracks).Keys - left
        invariant sessions == old(sessions) - {connection}
        invariant tracks == old(tracks) - removed && trackRemoved == (removed != {})
        invariant forall id | id in old(tracks).Keys - left :: id in removed <==> old(tracks)[id].owner == connection
        decreases left
      {
        var id :| id in left;
        left := left - {id};
        if tracks[id].owner == connection {
          tracks := tracks - {id};
          removed := removed + {id};
          trackRemoved := true;
        }
      }
      assert removed == OwnedBy(old(View()), connection);
    }

    method Publish(id: TrackId, track: Track) returns (ok: bool)
      modifies this`tracks
      ensures View() == AddTrack(old(View()), id, track) && ok == Admits(old(View()), track)
    {
      if track.owner !in sessions { return false; }
      var left := tracks.Keys;
      while left != {}
        invariant left <= tracks.Keys && tracks == old(tracks)
        invariant forall i | i in tracks.Keys - left :: tracks[i] != track
        decreases left
      {
        var i :| i in left;
        left := left - {i};
        if tracks[i].owner == track.owner && tracks[i].video == track.video { return false; }
      }
      tracks := tracks[id := track];
      ok := true;
    }

    method Withdraw(id: TrackId, owner: ConnectionId) returns (ok: bool)
      modifies this`tracks
      ensures View() == RemoveTrack(old(View()), id, owner) && ok == Removable(old(View()), id, owner)
    {
      if id !in tracks || tracks[id].owner != owner { return false; }
      tracks := tracks - {id};
      ok := true;
    }

    method IsEmpty() returns (empty: bool)
      ensures empty == Empty(View())
    {
      empty := sessions == map[] && reservations == 0;
    }
  }
}
