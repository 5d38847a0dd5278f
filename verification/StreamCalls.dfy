/** What the calls of the stream manager do when nothing runs in between: starting, watching, giving up
    and leaving, each with the state it leaves behind. */
module StreamCalls {
  import opened Options
  import opened StreamAdmission

  /** The call of the connection is over. */
  ghost function Over(w: World, m: Manager, c: ConnectionId): World { World(m, w.calls - {c}) }

  lemma Replaced(calls: map<ConnectionId, Call>, c: ConnectionId, call: Call)
    ensures calls[c := call] - {c} == calls - {c}
  {
  }

  // ---- Starting ----

  /** Main result: a start takes effect exactly if the manager is open and the channel has fewer than eight
      publishers. Then the connection publishes in its own new room, and nothing else changes. */
  lemma StartsExactly(w: World, max: nat, c: ConnectionId, server: ServerId, channel: ChannelId, room: RoomId,
                      session: SessionId)
    requires c in w.calls && w.calls[c].Entered? && room !in w.manager.rooms
    ensures var m := w.manager;
            var v := Apply(Apply(Apply(w, max, Start(c, server, channel, room)), max, Install(c, session)),
                           max, CommitPublisher(c));
            v == if m.closed || |Publishers(m, server, channel)| >= 8 then Over(w, m, c)
                 else Over(w, Manager(m.index[c := room],
                                      m.rooms[room := Room(server, channel, c, Some(session), map[], 0)],
                                      m.sessions[c := Publisher(session, room)], false), c)
  {
    var m := w.manager;
    if Startable(m, server, channel) {
      var made := Room(server, channel, c, None, map[], 0);
      Replaced(w.calls, c, Starting(room));
      Replaced(w.calls[c := Starting(room)], c, Installed(room, session));
      assert m.rooms[room := made][room := made.(publisher := Some(session))]
          == m.rooms[room := made.(publisher := Some(session))];
    }
  }

  /** A start that is given up leaves sessions and other rooms alone, and its own room out of the index. */
  lemma GivenUpStart(w: World, max: nat, c: ConnectionId, server: ServerId, channel: ChannelId, room: RoomId)
    requires c in w.calls && w.calls[c].Entered? && room !in w.manager.rooms && Startable(w.manager, server, channel)
    ensures var m := w.manager;
            var empty := Room(server, channel, c, None, map[], 0);
            Apply(Apply(Apply(w, max, Start(c, server, channel, room)), max, Abandon(c)), max, RemoveRoom(c))
            == Over(w, m.(index := m.index - {c}, rooms := m.rooms[room := empty]), c)
  {
    var m := w.manager;
    Replaced(w.calls, c, Starting(room));
    Replaced(w.calls[c := Starting(room)], c, Abandoning(room));
    assert m.index[c := room] - {c} == m.index - {c};
  }

  /** A room takes one publisher, and a start whose room was unindexed meanwhile does not commit; either is
      then given up. */
  lemma LateStartGivesUp(w: World, max: nat, c: ConnectionId, session: SessionId)
    requires c in w.calls && (w.calls[c].Starting? || w.calls[c].Installed?) && w.calls[c].room in w.manager.rooms
    ensures w.calls[c].Starting? && w.manager.rooms[w.calls[c].room].publisher.Some? ==>
              Apply(w, max, Install(c, session)) == w.(calls := w.calls[c := Abandoning(w.calls[c].room)])
    ensures w.calls[c].Installed? && (w.manager.closed || !IndexedFor(w.manager, c, w.calls[c].room)) ==>
              Apply(w, max, CommitPublisher(c)) == w.(calls := w.calls[c := Abandoning(w.calls[c].room)])
  {
  }

  // ---- Watching ----

  /** The room is its owner's room in the index of an open manager, with room for one more. */
  ghost predicate Open(m: Manager, room: RoomId, max: nat) {
    && !m.closed && room in m.rooms
    && m.rooms[room].owner in m.index && m.index[m.rooms[room].owner] == room
    && |m.rooms[room].viewers| + m.rooms[room].reservations < max
  }

  /** Main result: a watch takes effect exactly if the manager is open, the room indexed and not full. Then
      the connection is a viewer of the room, and nothing else changes. */
  lemma WatchesExactly(w: World, max: nat, c: ConnectionId, room: RoomId, session: SessionId)
    requires c in w.calls && w.calls[c].Entered?
    ensures var m := w.manager;
            var v := Apply(Apply(Apply(w, max, Find(c, room)), max, ReserveViewer(c)), max, CommitViewer(c, session));
            v == if !Open(m, room, max) then Over(w, m, c)
                 else var r := m.rooms[room];
                      Over(w, m.(rooms := m.rooms[room := r.(viewers := r.viewers[c := session])],
                                 sessions := m.sessions[c := Viewer(session, room)]), c)
  {
    var m := w.manager;
    Replaced(w.calls, c, Found(room));
    Replaced(w.calls[c := Found(room)], c, Reserved(room));
    if Open(m, room, max) {
      var after := m.rooms[room].(viewers := m.rooms[room].viewers[c := session]);
      assert m.rooms[room := Reserve(m.rooms[room])][room := after] == m.rooms[room := after];
    }
  }

  /** A watch that is given up leaves everything as it was. */
  lemma GivenUpWatch(w: World, max: nat, c: ConnectionId, room: RoomId)
    requires c in w.calls && w.calls[c].Entered?
    ensures Apply(Apply(Apply(w, max, Find(c, room)), max, ReserveViewer(c)), max, Cancel(c)) == Over(w, w.manager, c)
  {
    var m := w.manager;
    Replaced(w.calls, c, Found(room));
    Replaced(w.calls[c := Found(room)], c, Reserved(room));
    if Open(m, room, max) {
      assert m.rooms[room := Reserve(m.rooms[room])][room := m.rooms[room]] == m.rooms;
    }
  }

  // ---- Leaving ----

  /** A leave takes effect exactly if the connection has a session, and it is the expected one if one is
      expected. A viewer leaves its room alone; a publisher takes its room off the index and ends the
      sessions of all its viewers. */
  lemma LeavesExactly(m: Manager, c: ConnectionId, expected: Option<SessionId>)
    requires Sound(m)
    ensures var n := Leave(m, c, expected);
            if c !in m.sessions || (expected.Some? && m.sessions[c].id != expected.value) then n == m
            else
              var room := m.sessions[c].room;
              var r := m.rooms[room];
              if m.sessions[c].Viewer?
              then n == m.(sessions := m.sessions - {c}, rooms := m.rooms[room := r.(viewers := r.viewers - {c})])
              else n == Manager(m.index - {c}, m.rooms[room := r.(publisher := None, viewers := map[])],
                                m.sessions - ({c} + r.viewers.Keys), m.closed)
  {
    if c in m.sessions { assert SessionSound(m, c); }
  }

  /** A call begins by leaving. */
  lemma EntersByLeaving(w: World, max: nat, c: ConnectionId)
    requires c !in w.calls
    ensures Apply(w, max, Enter(c)) == World(Leave(w.manager, c, None), w.calls[c := Entered])
    ensures Sound(w.manager) ==> c !in Apply(w, max, Enter(c)).manager.sessions
  {
    if Sound(w.manager) { LeaveSound(w.manager, c, None); }
  }

  // ---- Closing ----

  lemma {:induction false} StaysClosed(w: World, max: nat, steps: seq<Step>)
    requires w.manager.closed
    ensures Exec(w, max, steps).manager.closed
    decreases |steps|
  {
    if steps != [] { StaysClosed(Apply(w, max, steps[0]), max, steps[1..]); }
  }

  /** Main result: once closed, a manager has no session and no indexed room in any run. */
  lemma ClosedForGood(max: nat, before: seq<Step>, after: seq<Step>)
    ensures var m := Exec(Apply(Exec(START, max, before), max, Close), max, after).manager;
            m.closed && m.sessions == map[] && m.index == map[]
  {
    var w := Exec(START, max, before);
    ExecLinked(START, max, before);
    ApplyLinked(w, max, Close);
    ExecLinked(Apply(w, max, Close), max, after);
    StaysClosed(Apply(w, max, Close), max, after);
  }
}
