/** The limits of stream rooms in every interleaving: viewers and reservations of a room, and
    publishers of a channel. */
module StreamLimits {
  import opened Options
  import opened Sets
  import opened StreamAdmission

  // ---- Viewers and reservations ----

  ghost function ReservedOn(calls: map<ConnectionId, Call>, room: RoomId): set<ConnectionId> {
    set c | c in calls && calls[c] == Reserved(room)
  }

  ghost predicate WithinLimit(r: Room, held: set<ConnectionId>, max: nat) {
    r.reservations == |held| && |r.viewers| + r.reservations <= max
  }

  ghost predicate Counted(m: Manager, calls: map<ConnectionId, Call>, max: nat) {
    forall r | r in m.rooms :: WithinLimit(m.rooms[r], ReservedOn(calls, r), max)
  }

  ghost predicate NoMore(m: Manager, n: Manager) {
    forall r | r in n.rooms :: r in m.rooms && n.rooms[r].reservations == m.rooms[r].reservations &&
        n.rooms[r].viewers.Keys <= m.rooms[r].viewers.Keys
  }

  /** Nothing is reserved or added, and the call that moves holds no reservation. */
  lemma CountedKept(m: Manager, calls: map<ConnectionId, Call>, n: Manager, rest: map<ConnectionId, Call>, max: nat)
    requires Counted(m, calls, max) && NoMore(m, n)
    requires forall r | r in n.rooms :: ReservedOn(rest, r) == ReservedOn(calls, r)
    ensures Counted(n, rest, max)
  {
    forall r | r in n.rooms ensures WithinLimit(n.rooms[r], ReservedOn(rest, r), max) {
      assert WithinLimit(m.rooms[r], ReservedOn(calls, r), max);
      SubsetSize(n.rooms[r].viewers.Keys, m.rooms[r].viewers.Keys);
    }
  }

  /** One room changes together with the reservation of one call. */
  lemma CountedPut(m: Manager, calls: map<ConnectionId, Call>, rest: map<ConnectionId, Call>, room: RoomId,
                   value: Room, max: nat)
    requires Counted(m, calls, max) && WithinLimit(value, ReservedOn(rest, room), max)
    requires forall r | r in m.rooms && r != room :: ReservedOn(rest, r) == ReservedOn(calls, r)
    ensures Counted(Put(m, room, value), rest, max)
  {
  }

  lemma ReservedAdd(calls: map<ConnectionId, Call>, c: ConnectionId, room: RoomId)
    requires c in calls && !calls[c].Reserved?
    ensures var more := calls[c := Reserved(room)];
            && |ReservedOn(more, room)| == |ReservedOn(calls, room)| + 1
            && forall r | r != room :: ReservedOn(more, r) == ReservedOn(calls, r)
  {
    assert ReservedOn(calls[c := Reserved(room)], room) == ReservedOn(calls, room) + {c};
  }

  lemma ReservedDrop(calls: map<ConnectionId, Call>, c: ConnectionId)
    requires c in calls && calls[c].Reserved?
    ensures var room := calls[c].room;
            && |ReservedOn(calls, room)| == |ReservedOn(calls - {c}, room)| + 1
            && forall r | r != room :: ReservedOn(calls - {c}, r) == ReservedOn(calls, r)
  {
    var room := calls[c].room;
    assert ReservedOn(calls, room) == ReservedOn(calls - {c}, room) + {c};
  }

  lemma NewRoomCounted(m: Manager, calls: map<ConnectionId, Call>, rest: map<ConnectionId, Call>, room: RoomId,
                       value: Room, c: ConnectionId, max: nat)
    requires Counted(m, calls, max) && room !in m.rooms && value.viewers == map[] && value.reservations == 0
    requires (forall r :: ReservedOn(rest, r) == ReservedOn(calls, r)) && ReservedOn(calls, room) == {}
    ensures Counted(m.(index := m.index[c := room], rooms := m.rooms[room := value]), rest, max)
  {
  }

  lemma SameReserved(calls: map<ConnectionId, Call>, c: ConnectionId, call: Call)
    requires (c in calls ==> !calls[c].Reserved?) && !call.Reserved?
    ensures forall r ::
        ReservedOn(calls[c := call], r) == ReservedOn(calls, r) && ReservedOn(calls - {c}, r) == ReservedOn(calls, r)
  {
  }

  lemma LeaveNoMore(m: Manager, c: ConnectionId, expected: Option<SessionId>)
    ensures NoMore(m, Leave(m, c, expected))
  {
  }

  lemma StartCounted(w: World, max: nat, c: ConnectionId, server: ServerId, channel: ChannelId, room: RoomId)
    requires Linked(w) && Counted(w.manager, w.calls, max)
    ensures var v := StartRoom(w, c, server, channel, room); Counted(v.manager, v.calls, max)
  {
    if c in w.calls && w.calls[c].Entered? && room !in w.manager.rooms {
      SameReserved(w.calls, c, Starting(room));
      CountedKept(w.manager, w.calls, w.manager, w.calls - {c}, max);
      forall d | d in w.calls ensures w.calls[d] != Reserved(room) { assert CallSound(w.manager, d, w.calls[d]); }
      var made := Room(server, channel, c, None, map[], 0);
      NewRoomCounted(w.manager, w.calls, w.calls[c := Starting(room)], room, made, c, max);
    }
  }

  lemma InstallCounted(w: World, max: nat, c: ConnectionId, session: SessionId)
    requires Counted(w.manager, w.calls, max)
    ensures var v := InstallPublisher(w, c, session); Counted(v.manager, v.calls, max)
  {
    var v := InstallPublisher(w, c, session);
    if v != w {
      SameReserved(w.calls, c, v.calls[c]);
      CountedKept(w.manager, w.calls, v.manager, v.calls, max);
    }
  }

  lemma MovesCounted(w: World, max: nat, step: Step)
    requires Counted(w.manager, w.calls, max)
    requires step.CommitPublisher? || step.Abandon? || step.RemoveRoom? || step.Find?
    ensures var v := Apply(w, max, step); Counted(v.manager, v.calls, max)
  {
    var v := Apply(w, max, step);
    if v != w {
      var c := step.c;
      SameReserved(w.calls, c, if c in v.calls then v.calls[c] else Entered);
      CountedKept(w.manager, w.calls, v.manager, v.calls, max);
    }
  }

  lemma ReserveCounted(w: World, max: nat, c: ConnectionId)
    requires Counted(w.manager, w.calls, max)
    ensures var v := ReservePlace(w, max, c); Counted(v.manager, v.calls, max)
  {
    if c in w.calls && w.calls[c].Found? && w.calls[c].room in w.manager.rooms {
      var room := w.calls[c].room;
      SameReserved(w.calls, c, Entered);
      CountedKept(w.manager, w.calls, w.manager, w.calls - {c}, max);
      ReservedAdd(w.calls, c, room);
      if HasSpace(w.manager.rooms[room], max) {
        CountedPut(w.manager, w.calls, w.calls[c := Reserved(room)], room, Reserve(w.manager.rooms[room]), max);
      }
    }
  }

  lemma FreeCounted(w: World, max: nat, c: ConnectionId, session: SessionId)
    requires Counted(w.manager, w.calls, max)
    ensures var v := CommitWatch(w, c, session); Counted(v.manager, v.calls, max)
    ensures var v := CancelWatch(w, c); Counted(v.manager, v.calls, max)
  {
    if c in w.calls && w.calls[c].Reserved? && w.calls[c].room in w.manager.rooms {
      var room := w.calls[c].room;
      var r := w.manager.rooms[room];
      ReservedDrop(w.calls, c);
      assert WithinLimit(r, ReservedOn(w.calls, room), max);
      CountedPut(w.manager, w.calls, w.calls - {c}, room, Unreserve(r), max);
      CountedPut(w.manager, w.calls, w.calls - {c}, room, AddViewer(r, c, session), max);
    }
  }

  lemma ApplyCounted(w: World, max: nat, step: Step)
    requires Linked(w) && Counted(w.manager, w.calls, max)
    ensures var v := Apply(w, max, step); Counted(v.manager, v.calls, max)
  {
    match step {
      case Enter(c) =>
        if c !in w.calls {
          LeaveNoMore(w.manager, c, None);
          SameReserved(w.calls, c, Entered);
          CountedKept(w.manager, w.calls, Leave(w.manager, c, None), w.calls[c := Entered], max);
        }
      case Start(c, server, channel, room) => StartCounted(w, max, c, server, channel, room);
      case Install(c, session) => InstallCounted(w, max, c, session);
      case CommitPublisher(c) => MovesCounted(w, max, step);
      case Abandon(c) => MovesCounted(w, max, step);
      case RemoveRoom(c) => MovesCounted(w, max, step);
      case Find(c, room) => MovesCounted(w, max, step);
      case ReserveViewer(c) => ReserveCounted(w, max, c);
      case CommitViewer(c, session) => FreeCounted(w, max, c, session);
      case Cancel(c) => FreeCounted(w, max, c, 0);
      case Fail(c, expected) =>
        LeaveNoMore(w.manager, c, expected);
        CountedKept(w.manager, w.calls, Leave(w.manager, c, expected), w.calls, max);
      case Close => CountedKept(w.manager, w.calls, CloseAll(w.manager), w.calls, max);
    }
  }

  lemma {:induction false} ExecCounted(w: World, max: nat, steps: seq<Step>)
    requires Linked(w) && Counted(w.manager, w.calls, max)
    ensures var v := Exec(w, max, steps); Counted(v.manager, v.calls, max)
    decreases |steps|
  {
    if steps != [] {
      ApplyLinked(w, max, steps[0]);
      ApplyCounted(w, max, steps[0]);
      ExecCounted(Apply(w, max, steps[0]), max, steps[1..]);
    }
  }

  /** Main result: viewers and reservations of a room stay within the limit, and its reservations are
      exactly the watches in flight on it. */
  lemma ViewersBounded(max: nat, steps: seq<Step>, room: RoomId)
    requires room in Exec(START, max, steps).manager.rooms
    ensures var w := Exec(START, max, steps);
            var r := w.manager.rooms[room];
            |r.viewers| + r.reservations <= max && r.reservations == |ReservedOn(w.calls, room)|
  {
    assert Linked(START);
    ExecCounted(START, max, steps);
    var w := Exec(START, max, steps);
    assert WithinLimit(w.manager.rooms[room], ReservedOn(w.calls, room), max);
  }

  // ---- Publishers of a channel ----

  ghost predicate PublishersBounded(m: Manager) {
    forall server, channel :: |Publishers(m, server, channel)| <= MAX_CHANNEL_PUBLISHERS
  }

  /** The index only shrinks, and rooms stay in their channels. */
  ghost predicate IndexShrinks(m: Manager, n: Manager) {
    forall c | c in n.index :: c in m.index && n.index[c] == m.index[c] &&
      (n.index[c] in n.rooms ==> n.index[c] in m.rooms && n.rooms[n.index[c]].server == m.rooms[n.index[c]].server &&
                                 n.rooms[n.index[c]].channel == m.rooms[n.index[c]].channel)
  }

  lemma ShrinkBounded(m: Manager, n: Manager)
    requires PublishersBounded(m) && IndexShrinks(m, n)
    ensures PublishersBounded(n)
  {
    forall server, channel ensures |Publishers(n, server, channel)| <= MAX_CHANNEL_PUBLISHERS {
      SubsetSize(Publishers(n, server, channel), Publishers(m, server, channel));
    }
  }

  lemma StartPublishers(m: Manager, c: ConnectionId, server: ServerId, channel: ChannelId, room: RoomId, s: ServerId,
                        ch: ChannelId)
    requires IndexSound(m) && room !in m.rooms && c !in m.index
    ensures Publishers(IndexRoom(m, c, server, channel, room), s, ch)
            == Publishers(m, s, ch) + (if s == server && ch == channel then {c} else {})
  {
    var n := IndexRoom(m, c, server, channel, room);
    forall d | d != c ensures d in n.index && Placed(n, d, s, ch) <==> d in m.index && Placed(m, d, s, ch) {
    }
  }

  lemma StartBounded(m: Manager, c: ConnectionId, server: ServerId, channel: ChannelId, room: RoomId)
    requires PublishersBounded(m) && Startable(m, server, channel) && IndexSound(m) && room !in m.rooms && c !in m.index
    ensures PublishersBounded(IndexRoom(m, c, server, channel, room))
  {
    var n := IndexRoom(m, c, server, channel, room);
    forall s, ch ensures |Publishers(n, s, ch)| <= MAX_CHANNEL_PUBLISHERS {
      StartPublishers(m, c, server, channel, room, s, ch);
    }
  }

  lemma LeaveShrinks(m: Manager, c: ConnectionId, expected: Option<SessionId>)
    ensures IndexShrinks(m, Leave(m, c, expected))
  {
  }

  lemma ApplyShrinks(w: World, max: nat, step: Step)
    requires !step.Start?
    ensures IndexShrinks(w.manager, Apply(w, max, step).manager)
  {
    match step {
      case Enter(c) => LeaveShrinks(w.manager, c, None);
      case Install(c, session) =>
      case CommitPublisher(c) =>
      case Abandon(c) =>
      case RemoveRoom(c) =>
      case Find(c, room) =>
      case ReserveViewer(c) =>
      case CommitViewer(c, session) =>
      case Cancel(c) =>
      case Fail(c, expected) => LeaveShrinks(w.manager, c, expected);
      case Close =>
    }
  }

  lemma ApplyBounded(w: World, max: nat, step: Step)
    requires Linked(w) && PublishersBounded(w.manager)
    ensures PublishersBounded(Apply(w, max, step).manager)
  {
    if step.Start? {
      if step.c in w.calls && w.calls[step.c].Entered? && step.room !in w.manager.rooms
         && Startable(w.manager, step.server, step.channel) {
        StartLinked(w, step.c, step.server, step.channel, step.room);
        StartBounded(w.manager, step.c, step.server, step.channel, step.room);
      }
    } else {
      ApplyShrinks(w, max, step);
      ShrinkBounded(w.manager, Apply(w, max, step).manager);
    }
  }

  /** Main result: a channel never has more than eight publishers. */
  lemma {:induction false} ExecBounded(w: World, max: nat, steps: seq<Step>)
    requires Linked(w) && PublishersBounded(w.manager)
    ensures PublishersBounded(Exec(w, max, steps).manager)
    decreases |steps|
  {
    if steps != [] {
      ApplyLinked(w, max, steps[0]);
      ApplyBounded(w, max, steps[0]);
      ExecBounded(Apply(w, max, steps[0]), max, steps[1..]);
    }
  }

  lemma ChannelPublishersBounded(max: nat, steps: seq<Step>, server: ServerId, channel: ChannelId)
    ensures |Publishers(Exec(START, max, steps).manager, server, channel)| <= 8
  {
    assert Linked(START);
    forall s, ch ensures |Publishers(START.manager, s, ch)| <= MAX_CHANNEL_PUBLISHERS {
      assert Publishers(START.manager, s, ch) == {};
    }
    ExecBounded(START, max, steps);
  }
}
