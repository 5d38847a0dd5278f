/** The stream manager object: each method is one locked section, proved against the section of the
    interleaving model. Room objects are values in a map from their identities. */
module StreamManager {
  import opened Options
  import opened StreamAdmission

  /** The publisher a watcher without a choice gets: the smallest connection of the channel. */
  ghost predicate Primary(m: Manager, server: ServerId, channel: ChannelId, c: ConnectionId) {
    c in Publishers(m, server, channel) && forall d | d in Publishers(m, server, channel) :: c <= d
  }

  class Streams {
    const maxViewers: nat
    var index: map<ConnectionId, RoomId>
    var rooms: map<RoomId, Room>
    var sessions: map<ConnectionId, Session>
    var closed: bool

    ghost function View(): Manager
      reads this
    {
      Manager(index, rooms, sessions, closed)
    }

    constructor (max: nat)
      ensures View() == START.manager && maxViewers == max
    {
      maxViewers := max;
      index, rooms, sessions, closed := map[], map[], map[], false;
    }

    method CountPublishers(server: ServerId, channel: ChannelId) returns (publishers: nat)
      requires IndexSound(View())
      ensures publishers == |Publishers(View(), server, channel)|
    {
      publishers := 0;
      var left := index.Keys;
      ghost var all, counted: set<ConnectionId> := Publishers(View(), server, channel), {};
      while left != {}
        invariant left <= index.Keys && publishers == |counted|
        invariant counted !! left && counted <= all <= counted + left
        decreases left
      {
        var c :| c in left;
        left := left - {c};
        var current := rooms[index[c]];
        if current.channel == channel && current.server == server {
          publishers := publishers + 1;
          counted := counted + {c};
        }
      }
      assert counted == all;
    }

    /** Indexes a new room for the publisher, unless the channel has its eight publishers. */
    method BeginStart(c: ConnectionId, server: ServerId, channel: ChannelId, room: RoomId) returns (ok: bool)
      requires IndexSound(View()) && room !in rooms
      modifies this
      ensures ok == Startable(old(View()), server, channel)
      ensures View() == if ok then IndexRoom(old(View()), c, server, channel, room) else old(View())
    {
      if closed { return false; }
      var publishers := CountPublishers(server, channel);
      if publishers >= MAX_CHANNEL_PUBLISHERS { return false; }
      rooms := rooms[room := Room(server, channel, c, None, map[], 0)];
      index := index[c := room];
      ok := true;
    }

    method SetPublisher(room: RoomId, session: SessionId) returns (ok: bool)
      requires room in rooms
      modifies this`rooms
      ensures ok == old(rooms[room].publisher.None?)
      ensures View() == if ok then Put(old(View()), room, old(rooms[room]).(publisher := Some(session)))
                        else old(View())
    {
      if rooms[room].publisher.Some? { return false; }
      rooms := rooms[room := rooms[room].(publisher := Some(session))];
      ok := true;
    }

    method CommitPublisher(c: ConnectionId, room: RoomId, session: SessionId) returns (ok: bool)
      modifies this`sessions
      ensures ok == (!closed && IndexedFor(old(View()), c, room))
      ensures View() == if ok then old(View()).(sessions := old(sessions)[c := Publisher(session, room)])
                        else old(View())
    {
      if closed || c !in index || index[c] != room { return false; }
      sessions := sessions[c := Publisher(session, room)];
      ok := true;
    }

    method RemoveRoom(c: ConnectionId, room: RoomId)
      modifies this`index
      ensures View() == Unindex(old(View()), c, room)
    {
      if c in index && index[c] == room {
        index := index - {c};
      }
    }

    /** A named publisher is taken or refused; otherwise the primary one is chosen. */
    method FindRoom(server: ServerId, channel: ChannelId,
                    publisher: Option<ConnectionId>) returns (room: Option<RoomId>)
      requires IndexSound(View())
      ensures publisher.Some? ==>
                room == if Placed(View(), publisher.value, server, channel) then Some(index[publisher.value]) else None
      ensures publisher.None? && room.Some? ==> exists c ::
          Primary(View(), server, channel, c) && room.value == index[c]
      ensures publisher.None? && room.None? ==> Publishers(View(), server, channel) == {}
    {
      if publisher.Some? {
        var p := publisher.value;
        if p in index && rooms[index[p]].server == server && rooms[index[p]].channel == channel {
          return Some(index[p]);
        }
        return None;
      }
      room := None;
      var left := index.Keys;
      while left != {}
        invariant left <= index.Keys
        invariant room.None? ==> Publishers(View(), server, channel) <= left
        invariant room.Some? ==>
          && room.value in rooms && IndexedFor(View(), rooms[room.value].owner, room.value)
          && rooms[room.value].owner in Publishers(View(), server, channel)
          && forall d | d in Publishers(View(), server, channel) && d !in left :: rooms[room.value].owner <= d
        decreases left
      {
        var c :| c in left;
        left := left - {c};
        var value := rooms[index[c]];
        if value.server == server && value.channel == channel && (room.None? || value.owner < rooms[room.value].owner) {
          room := Some(index[c]);
        }
      }
      if room.Some? {
        assert Primary(View(), server, channel, rooms[room.value].owner);
      }
    }

    method ReserveViewer(room: RoomId) returns (ok: bool)
      requires room in rooms
      modifies this`rooms
      ensures ok == HasSpace(old(rooms[room]), maxViewers)
      ensures View() == if ok then Put(old(View()), room, Reserve(old(rooms[room]))) else old(View())
    {
      var r := rooms[room];
      if |r.viewers| + r.reservations >= maxViewers { return false; }
      rooms := rooms[room := r.(reservations := r.reservations + 1)];
      ok := true;
    }

    method CommitViewer(c: ConnectionId, room: RoomId, session: SessionId) returns (ok: bool)
      requires room in rooms
      modifies this`rooms, this`sessions
      ensures ok == Watchable(old(View()), room)
      ensures View() == if ok
                        then Put(old(View()), room, AddViewer(old(rooms[room]), c, session))
                               .(sessions := old(sessions)[c := Viewer(session, room)])
                        else old(View())
    {
      var r := rooms[room];
      if closed || r.owner !in index || index[r.owner] != room { return false; }
      sessions := sessions[c := Viewer(session, room)];
      if r.reservations > 0 {
        r := r.(reservations := r.reservations - 1);
      }
      rooms := rooms[room := r.(viewers := r.viewers[c := session])];
      ok := true;
    }

    /** Deletes the sessions of everyone in the room, one at a time. */
    method DeleteSessions(gone: set<ConnectionId>)
      modifies this`sessions
      ensures sessions == old(sessions) - gone
    {
      var left := gone;
      while left != {}
        invariant left <= gone && sessions == old(sessions) - (gone - left)
        decreases left
      {
        var c :| c in left;
        left := left - {c};
        sessions := sessions - {c};
        assert gone - left == (gone - (left + {c})) + {c};
      }
    }

    method LeaveSession(c: ConnectionId, expected: Option<SessionId>) returns (ok: bool)
      requires Sound(View())
      modifies this
      ensures ok == MayLeave(old(View()), c, expected)
      ensures View() == Leave(old(View()), c, expected) && Sound(View())
    {
      LeaveSound(View(), c, expected);
      if c !in sessions || (expected.Some? && sessions[c].id != expected.value) { return false; }
      assert SessionSound(View(), c);
      var room := sessions[c].room;
      var r := rooms[room];
      if sessions[c].Publisher? {
        index := index - {r.owner};
        rooms := rooms[room := r.(publisher := None, viewers := map[])];
        DeleteSessions(r.viewers.Keys + {c});
      } else {
        sessions := sessions - {c};
        rooms := rooms[room := r.(viewers := r.viewers - {c})];
      }
      ok := true;
    }

    method CloseManager()
      modifies this
      ensures View() == CloseAll(old(View()))
    {
      if closed { return; }
      closed := true;
      sessions := map[];
      index := map[];
    }
  }
}
