/** Admission to stream rooms. Starting a stream indexes a new room under its publisher's
    connection, then installs and commits the publisher session; watching finds a room, reserves a
    place and commits a viewer session. All of these are separate locked sections, and other
    connections run in between. The calls of one connection are serialized; failures of a session
    strike at any time. */
module StreamAdmission {
  import opened Options

  type ConnectionId = nat
  type SessionId = nat
  type RoomId = nat
  type ServerId = nat
  type ChannelId = nat

  /** The number of publishers a channel may have. */
  const MAX_CHANNEL_PUBLISHERS: nat := 8

  datatype Room = Room(
    server: ServerId,
    channel: ChannelId,
    owner: ConnectionId,
    publisher: Option<SessionId>,
    viewers: map<ConnectionId, SessionId>,
    reservations: nat)

  datatype Session = Publisher(id: SessionId, room: RoomId) | Viewer(id: SessionId, room: RoomId)

  /** The manager: the room indexed for each publisher, all room objects, and the sessions. */
  datatype Manager = Manager(
    index: map<ConnectionId, RoomId>,
    rooms: map<RoomId, Room>,
    sessions: map<ConnectionId, Session>,
    closed: bool)

  // ---- Locked sections ----

  predicate Placed(m: Manager, c: ConnectionId, server: ServerId, channel: ChannelId) {
    && c in m.index && m.index[c] in m.rooms
    && m.rooms[m.index[c]].server == server && m.rooms[m.index[c]].channel == channel
  }

  function Publishers(m: Manager, server: ServerId, channel: ChannelId): set<ConnectionId> {
    set c | c in m.index && Placed(m, c, server, channel)
  }

  predicate Startable(m: Manager, server: ServerId, channel: ChannelId) {
    !m.closed && |Publishers(m, server, channel)| < MAX_CHANNEL_PUBLISHERS
  }

  function IndexRoom(m: Manager, c: ConnectionId, server: ServerId, channel: ChannelId, room: RoomId): Manager {
    m.(index := m.index[c := room], rooms := m.rooms[room := Room(server, channel, c, None, map[], 0)])
  }

  function Put(m: Manager, room: RoomId, value: Room): Manager { m.(rooms := m.rooms[room := value]) }

  predicate IndexedFor(m: Manager, c: ConnectionId, room: RoomId) { c in m.index && m.index[c] == room }

  function Unindex(m: Manager, c: ConnectionId, room: RoomId): Manager {
    if IndexedFor(m, c, room) then m.(index := m.index - {c}) else m
  }

  predicate HasSpace(r: Room, max: nat) { |r.viewers| + r.reservations < max }

  function Reserve(r: Room): Room { r.(reservations := r.reservations + 1) }

  function Unreserve(r: Room): Room { if r.reservations > 0 then r.(reservations := r.reservations - 1) else r }

  function AddViewer(r: Room, c: ConnectionId, s: SessionId): Room {
    Unreserve(r).(viewers := r.viewers[c := s])
  }

  function Emptied(r: Room): Room { r.(publisher := None, viewers := map[]) }

  predicate MayLeave(m: Manager, c: ConnectionId, expected: Option<SessionId>) {
    c in m.sessions && (expected.Some? ==> m.sessions[c].id == expected.value)
  }

  /** A publisher takes its room and all of its viewers along; a viewer leaves alone. */
  function Leave(m: Manager, c: ConnectionId, expected: Option<SessionId>): Manager {
    if !MayLeave(m, c, expected) || m.sessions[c].room !in m.rooms then m
    else
      var room := m.sessions[c].room;
      if m.sessions[c].Publisher? then TakeDown(m, c, room) else LeaveAlone(m, c, room)
  }

  function TakeDown(m: Manager, c: ConnectionId, room: RoomId): Manager
    requires room in m.rooms
  {
    var r := m.rooms[room];
    Manager(m.index - {r.owner}, m.rooms[room := Emptied(r)], m.sessions - (r.viewers.Keys + {c}), m.closed)
  }

  function LeaveAlone(m: Manager, c: ConnectionId, room: RoomId): Manager
    requires room in m.rooms
  {
    var r := m.rooms[room];
    m.(sessions := m.sessions - {c}, rooms := m.rooms[room := r.(viewers := r.viewers - {c})])
  }

  function CloseAll(m: Manager): Manager {
    if m.closed then m else m.(index := map[], sessions := map[], closed := true)
  }

  // ---- Interleaved calls ----

  /** Where the call of a connection stands; every call begins by leaving. */
  datatype Call =
    | Entered
    | Starting(room: RoomId)
    | Installed(room: RoomId, session: SessionId)
    | Abandoning(room: RoomId)
    | Found(room: RoomId)
    | Reserved(room: RoomId)

  datatype World = World(manager: Manager, calls: map<ConnectionId, Call>)

  datatype Step =
    | Enter(c: ConnectionId)
    | Start(c: ConnectionId, server: ServerId, channel: ChannelId, room: RoomId)
    | Install(c: ConnectionId, session: SessionId)
    | CommitPublisher(c: ConnectionId)
    | Abandon(c: ConnectionId)
    | RemoveRoom(c: ConnectionId)
    | Find(c: ConnectionId, room: RoomId)
    | ReserveViewer(c: ConnectionId)
    | CommitViewer(c: ConnectionId, session: SessionId)
    | Cancel(c: ConnectionId)
    | Fail(c: ConnectionId, expected: Option<SessionId>)
    | Close

  function StartRoom(w: World, c: ConnectionId, server: ServerId, channel: ChannelId, room: RoomId): World {
    if c !in w.calls || !w.calls[c].Entered? || room in w.manager.rooms then w
    else if !Startable(w.manager, server, channel) then w.(calls := w.calls - {c})
    else World(IndexRoom(w.manager, c, server, channel, room), w.calls[c := Starting(room)])
  }

  /** A room object has one publisher: the second one is refused. */
  function InstallPublisher(w: World, c: ConnectionId, session: SessionId): World {
    if c !in w.calls || !w.calls[c].Starting? || w.calls[c].room !in w.manager.rooms then w
    else
      var room := w.calls[c].room;
      var r := w.manager.rooms[room];
      if r.publisher.Some? then w.(calls := w.calls[c := Abandoning(room)])
      else World(Put(w.manager, room, r.(publisher := Some(session))), w.calls[c := Installed(room, session)])
  }

  function CommitStart(w: World, c: ConnectionId): World {
    if c !in w.calls || !w.calls[c].Installed? then w
    else
      var Installed(room, session) := w.calls[c];
      if w.manager.closed || !IndexedFor(w.manager, c, room) then w.(calls := w.calls[c := Abandoning(room)])
      else World(w.manager.(sessions := w.manager.sessions[c := Publisher(session, room)]), w.calls - {c})
  }

  function FindRoom(w: World, c: ConnectionId, room: RoomId): World {
    if c !in w.calls || !w.calls[c].Entered? then w
    else if w.manager.closed || room !in w.manager.rooms || !IndexedFor(w.manager, w.manager.rooms[room].owner, room)
    then w.(calls := w.calls - {c})
    else w.(calls := w.calls[c := Found(room)])
  }

  function ReservePlace(w: World, max: nat, c: ConnectionId): World {
    if c !in w.calls || !w.calls[c].Found? || w.calls[c].room !in w.manager.rooms then w
    else
      var room := w.calls[c].room;
      var r := w.manager.rooms[room];
      if HasSpace(r, max) then World(Put(w.manager, room, Reserve(r)), w.calls[c := Reserved(room)])
      else w.(calls := w.calls - {c})
  }

  predicate Watchable(m: Manager, room: RoomId) {
    !m.closed && room in m.rooms && IndexedFor(m, m.rooms[room].owner, room)
  }

  function CommitWatch(w: World, c: ConnectionId, session: SessionId): World {
    if c !in w.calls || !w.calls[c].Reserved? || !Watchable(w.manager, w.calls[c].room) then w
    else
      var room := w.calls[c].room;
      World(Put(w.manager, room, AddViewer(w.manager.rooms[room], c, session))
              .(sessions := w.manager.sessions[c := Viewer(session, room)]),
            w.calls - {c})
  }

  function CancelWatch(w: World, c: ConnectionId): World {
    if c !in w.calls || !w.calls[c].Reserved? || w.calls[c].room !in w.manager.rooms then w
    else
      var room := w.calls[c].room;
      World(Put(w.manager, room, Unreserve(w.manager.rooms[room])), w.calls - {c})
  }

  function Apply(w: World, max: nat, step: Step): World {
    match step
    case Enter(c) =>
      if c in w.calls then w else World(Leave(w.manager, c, None), w.calls[c := Entered])
    case Start(c, server, channel, room) => StartRoom(w, c, server, channel, room)
    case Install(c, session) => InstallPublisher(w, c, session)
    case CommitPublisher(c) => CommitStart(w, c)
    case Abandon(c) =>
      if c in w.calls && w.calls[c].Starting? then w.(calls := w.calls[c := Abandoning(w.calls[c].room)]) else w
    case RemoveRoom(c) =>
      if c in w.calls && w.calls[c].Abandoning?
      then World(Unindex(w.manager, c, w.calls[c].room), w.calls - {c}) else w
    case Find(c, room) => FindRoom(w, c, room)
    case ReserveViewer(c) => ReservePlace(w, max, c)
    case CommitViewer(c, session) => CommitWatch(w, c, session)
    case Cancel(c) => CancelWatch(w, c)
    case Fail(c, expected) => w.(manager := Leave(w.manager, c, expected))
    case Close => w.(manager := CloseAll(w.manager))
  }

  function Exec(w: World, max: nat, steps: seq<Step>): World
    decreases |steps|
  {
    if steps == [] then w else Exec(Apply(w, max, steps[0]), max, steps[1..])
  }

  const START := World(Manager(map[], map[], map[], false), map[])

  // ---- Sessions, rooms and calls fit together ----

  ghost predicate IndexSound(m: Manager) {
    forall c | c in m.index :: m.index[c] in m.rooms && m.rooms[m.index[c]].owner == c
  }

  /** A session is what its room records: its publisher, indexed under it, or one of its viewers. */
  ghost predicate SessionSound(m: Manager, c: ConnectionId)
    requires c in m.sessions
  {
    var room := m.sessions[c].room;
    && room in m.rooms
    && match m.sessions[c]
       case Publisher(s, _) => IndexedFor(m, c, room) && m.rooms[room].owner == c && m.rooms[room].publisher == Some(s)
       case Viewer(s, _) => c in m.rooms[room].viewers && m.rooms[room].viewers[c] == s
  }

  ghost predicate SessionsSound(m: Manager) {
    forall c | c in m.sessions :: SessionSound(m, c)
  }

  ghost predicate ViewersSound(m: Manager) {
    !m.closed ==>
      forall r, c | r in m.rooms && c in m.rooms[r].viewers ::
        c in m.sessions && m.sessions[c] == Viewer(m.rooms[r].viewers[c], r)
  }

  ghost predicate Shut(m: Manager) { m.closed ==> m.sessions == map[] && m.index == map[] }

  ghost predicate Sound(m: Manager) { IndexSound(m) && SessionsSound(m) && ViewersSound(m) && Shut(m) }

  /** A call in progress has no session yet; a start in progress owns its indexed room. */
  ghost predicate CallSound(m: Manager, c: ConnectionId, call: Call) {
    && c !in m.sessions
    && (!call.Entered? ==> call.room in m.rooms)
    && (call.Starting? || call.Installed? || call.Abandoning? ==> m.rooms[call.room].owner == c)
    && (call.Starting? || call.Installed? ==> (!m.closed ==> IndexedFor(m, c, call.room)))
    && (call.Starting? ==> m.rooms[call.room].publisher == None)
    && (call.Installed? ==> m.rooms[call.room].publisher == Some(call.session))
  }

  ghost predicate CallsSound(w: World) {
    forall c | c in w.calls :: CallSound(w.manager, c, w.calls[c])
  }

  /** An indexed room belongs to a publisher session or to a start in progress. */
  ghost predicate IndexOwned(w: World) {
    forall c | c in w.manager.index ::
      || (c in w.manager.sessions && w.manager.sessions[c].Publisher? &&
          w.manager.sessions[c].room == w.manager.index[c])
      || (c in w.calls && (w.calls[c].Starting? || w.calls[c].Installed? || w.calls[c].Abandoning?) &&
          w.calls[c].room == w.manager.index[c])
  }

  ghost predicate Linked(w: World) { Sound(w.manager) && CallsSound(w) && IndexOwned(w) }

  // Leaving.

  lemma TakeDownSound(m: Manager, c: ConnectionId)
    requires Sound(m) && c in m.sessions && m.sessions[c].Publisher?
    ensures Sound(TakeDown(m, c, m.sessions[c].room))
  {
    assert SessionSound(m, c);
    var room := m.sessions[c].room;
    var n := TakeDown(m, c, room);
    forall d | d in n.sessions ensures SessionSound(n, d) { assert SessionSound(m, d); }
    forall r, d | r in n.rooms && d in n.rooms[r].viewers ensures d in n.sessions &&
        n.sessions[d] == Viewer(n.rooms[r].viewers[d], r) {
      assert r != room && d in m.rooms[r].viewers && m.sessions[d] == Viewer(m.rooms[r].viewers[d], r);
    }
  }

  lemma LeaveAloneSound(m: Manager, c: ConnectionId)
    requires Sound(m) && c in m.sessions && m.sessions[c].Viewer?
    ensures Sound(LeaveAlone(m, c, m.sessions[c].room))
  {
    assert SessionSound(m, c);
    var room := m.sessions[c].room;
    var n := LeaveAlone(m, c, room);
    forall d | d in n.sessions ensures SessionSound(n, d) { assert SessionSound(m, d); }
    forall r, d | r in n.rooms && d in n.rooms[r].viewers ensures d in n.sessions &&
        n.sessions[d] == Viewer(n.rooms[r].viewers[d], r) {
      assert d in m.rooms[r].viewers && m.sessions[d] == Viewer(m.rooms[r].viewers[d], r);
    }
  }

  lemma LeaveSound(m: Manager, c: ConnectionId, expected: Option<SessionId>)
    requires Sound(m)
    ensures Sound(Leave(m, c, expected))
    ensures expected == None ==> c !in Leave(m, c, expected).sessions
  {
    if MayLeave(m, c, expected) {
      assert SessionSound(m, c);
      if m.sessions[c].Publisher? { TakeDownSound(m, c); } else { LeaveAloneSound(m, c); }
    }
  }

  /** Leaving does not disturb the calls of others: none of them has a session. */
  lemma LeaveCalls(w: World, c: ConnectionId, expected: Option<SessionId>)
    requires Linked(w)
    ensures CallsSound(w.(manager := Leave(w.manager, c, expected)))
  {
    var n := Leave(w.manager, c, expected);
    if MayLeave(w.manager, c, expected) {
      assert SessionSound(w.manager, c);
      forall d | d in w.calls ensures CallSound(n, d, w.calls[d]) {
        assert CallSound(w.manager, d, w.calls[d]) && d != c;
      }
    }
  }

  lemma LeaveIndexOwned(w: World, c: ConnectionId, expected: Option<SessionId>)
    requires Linked(w)
    ensures IndexOwned(w.(manager := Leave(w.manager, c, expected)))
  {
    var m, n := w.manager, Leave(w.manager, c, expected);
    if MayLeave(m, c, expected) {
      assert SessionSound(m, c);
      forall d | d in n.index && d in m.sessions && m.sessions[d].Publisher? && m.sessions[d].room == m.index[d]
        ensures d in n.sessions && n.sessions[d] == m.sessions[d]
      {
        assert SessionSound(m, d) && d != c;
        assert m.sessions[c].Publisher? ==> d !in m.rooms[m.sessions[c].room].viewers;
      }
    }
  }

  lemma LeaveLinked(w: World, c: ConnectionId, expected: Option<SessionId>)
    requires Linked(w)
    ensures Linked(w.(manager := Leave(w.manager, c, expected)))
  {
    LeaveSound(w.manager, c, expected);
    LeaveCalls(w, c, expected);
    LeaveIndexOwned(w, c, expected);
  }

  // The other sections: one call moves on, and at most one room changes.

  /** A change of one room that keeps its owner, publisher and viewers. */
  ghost predicate SamePeople(r: Room, q: Room) {
    q.owner == r.owner && q.publisher == r.publisher && q.viewers == r.viewers
  }

  lemma PutSound(m: Manager, room: RoomId, value: Room)
    requires Sound(m) && room in m.rooms && SamePeople(m.rooms[room], value)
    ensures Sound(Put(m, room, value))
  {
    var n := Put(m, room, value);
    forall d | d in n.sessions ensures SessionSound(n, d) { assert SessionSound(m, d); }
  }

  lemma PutCalls(w: World, room: RoomId, value: Room)
    requires CallsSound(w) && room in w.manager.rooms && SamePeople(w.manager.rooms[room], value)
    ensures CallsSound(w.(manager := Put(w.manager, room, value)))
  {
    forall d | d in w.calls ensures CallSound(Put(w.manager, room, value), d, w.calls[d]) {
      assert CallSound(w.manager, d, w.calls[d]);
    }
  }

  /** A call that owns no indexed room, before and after, may move on or end. */
  lemma CallMoved(w: World, c: ConnectionId, call: Call)
    requires Linked(w) && c in w.calls && CallSound(w.manager, c, call)
    requires call.Entered? || call.Found? || call.Reserved? ==>
        !(w.calls[c].Starting? || w.calls[c].Installed? || w.calls[c].Abandoning?)
    requires !(call.Entered? || call.Found? || call.Reserved?) ==> !w.calls[c].Entered? && w.calls[c].room == call.room
    ensures Linked(w.(calls := w.calls[c := call]))
  {
    var v := w.(calls := w.calls[c := call]);
    forall d | d in v.calls ensures CallSound(v.manager, d, v.calls[d]) {
      assert d in w.calls && CallSound(w.manager, d, w.calls[d]);
    }
  }

  lemma CallEnded(w: World, c: ConnectionId)
    requires Linked(w) && c in w.calls && (w.calls[c].Entered? || w.calls[c].Found? || w.calls[c].Reserved?)
    ensures Linked(w.(calls := w.calls - {c}))
  {
    var v := w.(calls := w.calls - {c});
    forall d | d in v.calls ensures CallSound(v.manager, d, v.calls[d]) {
      assert d in w.calls && CallSound(w.manager, d, w.calls[d]);
    }
  }

  lemma PutLinked(w: World, room: RoomId, value: Room)
    requires Linked(w) && room in w.manager.rooms && SamePeople(w.manager.rooms[room], value)
    ensures Linked(w.(manager := Put(w.manager, room, value)))
  {
    PutSound(w.manager, room, value);
    PutCalls(w, room, value);
  }

  lemma EnterLinked(w: World, c: ConnectionId)
    requires Linked(w) && c !in w.calls
    ensures Linked(World(Leave(w.manager, c, None), w.calls[c := Entered]))
  {
    LeaveLinked(w, c, None);
    LeaveSound(w.manager, c, None);
    var n, calls := Leave(w.manager, c, None), w.calls[c := Entered];
    forall d | d in calls ensures CallSound(n, d, calls[d]) {
      assert d != c ==> CallSound(n, d, w.calls[d]);
    }
  }

  lemma StartLinked(w: World, c: ConnectionId, server: ServerId, channel: ChannelId, room: RoomId)
    requires Linked(w) && c in w.calls && w.calls[c].Entered? && room !in w.manager.rooms && !w.manager.closed
    ensures Linked(World(IndexRoom(w.manager, c, server, channel, room), w.calls[c := Starting(room)]))
    ensures c !in w.manager.index
  {
    assert CallSound(w.manager, c, w.calls[c]);
    var n, calls := IndexRoom(w.manager, c, server, channel, room), w.calls[c := Starting(room)];
    forall d | d in n.sessions ensures SessionSound(n, d) { assert SessionSound(w.manager, d); }
    forall d | d in calls ensures CallSound(n, d, calls[d]) {
      assert d != c ==> CallSound(w.manager, d, w.calls[d]);
    }
  }

  lemma InstallLinked(w: World, c: ConnectionId, session: SessionId)
    requires Linked(w)
    ensures Linked(InstallPublisher(w, c, session))
  {
    if c in w.calls && w.calls[c].Starting? {
      assert CallSound(w.manager, c, w.calls[c]);
      var room := w.calls[c].room;
      var n, calls := Put(w.manager, room, w.manager.rooms[room].(publisher := Some(session))),
          w.calls[c := Installed(room, session)];
      forall d | d in n.sessions ensures SessionSound(n, d) { assert SessionSound(w.manager, d) && d != c; }
      forall d | d in calls ensures CallSound(n, d, calls[d]) {
        assert CallSound(w.manager, d, w.calls[d]);
      }
    }
  }

  lemma CommitStartLinked(w: World, c: ConnectionId)
    requires Linked(w)
    ensures Linked(CommitStart(w, c))
  {
    if c in w.calls && w.calls[c].Installed? {
      assert CallSound(w.manager, c, w.calls[c]);
      var v := CommitStart(w, c);
      forall d | d in v.manager.sessions ensures SessionSound(v.manager, d) {
        assert d != c ==> SessionSound(w.manager, d);
      }
      forall d | d in v.calls ensures CallSound(v.manager, d, v.calls[d]) {
        assert CallSound(w.manager, d, w.calls[d]);
      }
    }
  }

  lemma CommitWatchLinked(w: World, c: ConnectionId, session: SessionId)
    requires Linked(w)
    ensures Linked(CommitWatch(w, c, session))
  {
    var v := CommitWatch(w, c, session);
    if v != w {
      assert CallSound(w.manager, c, w.calls[c]);
      forall d | d in v.manager.sessions ensures SessionSound(v.manager, d) {
        assert d != c ==> SessionSound(w.manager, d);
      }
      forall d | d in v.calls ensures CallSound(v.manager, d, v.calls[d]) {
        assert CallSound(w.manager, d, w.calls[d]);
      }
    }
  }

  lemma RemoveLinked(w: World, c: ConnectionId)
    requires Linked(w) && c in w.calls && w.calls[c].Abandoning?
    ensures Linked(World(Unindex(w.manager, c, w.calls[c].room), w.calls - {c}))
  {
    assert CallSound(w.manager, c, w.calls[c]);
    var n := Unindex(w.manager, c, w.calls[c].room);
    forall d | d in n.sessions ensures SessionSound(n, d) { assert SessionSound(w.manager, d); }
    forall d | d in w.calls - {c} ensures CallSound(n, d, w.calls[d]) {
      assert CallSound(w.manager, d, w.calls[d]);
    }
  }

  lemma CloseLinked(w: World)
    requires Linked(w)
    ensures Linked(w.(manager := CloseAll(w.manager)))
  {
    forall d | d in w.calls ensures CallSound(CloseAll(w.manager), d, w.calls[d]) {
      assert CallSound(w.manager, d, w.calls[d]);
    }
  }

  lemma ApplyLinked(w: World, max: nat, step: Step)
    requires Linked(w)
    ensures Linked(Apply(w, max, step))
  {
    match step {
      case Enter(c) => if c !in w.calls { EnterLinked(w, c); }
      case Start(c, server, channel, room) =>
        if c in w.calls && w.calls[c].Entered? && room !in w.manager.rooms {
          if Startable(w.manager, server, channel) { StartLinked(w, c, server, channel, room); }
          else { CallEnded(w, c); }
        }
      case Install(c, session) => InstallLinked(w, c, session);
      case CommitPublisher(c) => CommitStartLinked(w, c);
      case Abandon(c) =>
        if c in w.calls && w.calls[c].Starting? { CallMoved(w, c, Abandoning(w.calls[c].room)); }
      case RemoveRoom(c) =>
        if c in w.calls && w.calls[c].Abandoning? { RemoveLinked(w, c); }
      case Find(c, room) =>
        if c in w.calls && w.calls[c].Entered? {
          CallEnded(w, c);
          if Watchable(w.manager, room) { CallMoved(w, c, Found(room)); }
        }
      case ReserveViewer(c) =>
        if c in w.calls && w.calls[c].Found? {
          CallEnded(w, c);
          var room := w.calls[c].room;
          CallMoved(w, c, Reserved(room));
          PutLinked(w.(calls := w.calls[c := Reserved(room)]), room, Reserve(w.manager.rooms[room]));
        }
      case CommitViewer(c, session) => CommitWatchLinked(w, c, session);
      case Cancel(c) =>
        if c in w.calls && w.calls[c].Reserved? {
          CallEnded(w, c);
          var room := w.calls[c].room;
          PutLinked(w.(calls := w.calls - {c}), room, Unreserve(w.manager.rooms[room]));
        }
      case Fail(c, expected) => LeaveLinked(w, c, expected);
      case Close => CloseLinked(w);
    }
  }

  lemma {:induction false} ExecLinked(w: World, max: nat, steps: seq<Step>)
    requires Linked(w)
    ensures Linked(Exec(w, max, steps))
    decreases |steps|
  {
    if steps != [] {
      ApplyLinked(w, max, steps[0]);
      ExecLinked(Apply(w, max, steps[0]), max, steps[1..]);
    }
  }

  // ---- A publisher's leave is final ----

  /** No session belongs to the room, and no call can add one. */
  ghost predicate Gone(w: World, room: RoomId) {
    && room in w.manager.rooms && w.manager.rooms[room].viewers == map[] && w.manager.rooms[room].publisher == None
    && (forall c | c in w.manager.index :: w.manager.index[c] != room)
    && (forall c | c in w.manager.sessions :: w.manager.sessions[c].room != room)
    && (forall c | c in w.calls :: (w.calls[c].Starting? || w.calls[c].Installed?) ==> w.calls[c].room != room)
  }

  lemma TakeDownGone(w: World, c: ConnectionId)
    requires Linked(w) && c in w.manager.sessions && w.manager.sessions[c].Publisher?
    ensures Gone(w.(manager := TakeDown(w.manager, c, w.manager.sessions[c].room)), w.manager.sessions[c].room)
  {
    var m, room := w.manager, w.manager.sessions[c].room;
    assert SessionSound(m, c);
    var n := TakeDown(m, c, room);
    forall d | d in n.sessions ensures n.sessions[d].room != room { assert SessionSound(m, d); }
    forall d | d in w.calls && (w.calls[d].Starting? || w.calls[d].Installed?) ensures w.calls[d].room != room {
      assert CallSound(m, d, w.calls[d]);
    }
  }

  lemma GoneLeave(w: World, c: ConnectionId, expected: Option<SessionId>, room: RoomId)
    requires Gone(w, room)
    ensures Gone(w.(manager := Leave(w.manager, c, expected)), room)
  {
  }

  lemma GoneStep(w: World, max: nat, step: Step, room: RoomId)
    requires Gone(w, room)
    ensures Gone(Apply(w, max, step), room)
  {
    match step {
      case Enter(c) => if c !in w.calls { GoneLeave(w, c, None, room); }
      case Start(c, server, channel, created) =>
      case Install(c, session) =>
      case CommitPublisher(c) =>
      case Abandon(c) =>
      case RemoveRoom(c) =>
      case Find(c, found) =>
      case ReserveViewer(c) =>
      case CommitViewer(c, session) =>
      case Cancel(c) =>
      case Fail(c, expected) => GoneLeave(w, c, expected, room);
      case Close =>
    }
  }

  lemma {:induction false} GoneForGood(w: World, max: nat, steps: seq<Step>, room: RoomId)
    requires Gone(w, room)
    ensures Gone(Exec(w, max, steps), room)
    decreases |steps|
  {
    if steps != [] {
      GoneStep(w, max, steps[0], room);
      GoneForGood(Apply(w, max, steps[0]), max, steps[1..], room);
    }
  }

  /** Main result: once a publisher session leaves or fails, no session of its room remains, and no
      interleaving with watches already in flight, or later, adds one. */
  lemma PublisherLeaveIsFinal(max: nat, before: seq<Step>, c: ConnectionId, expected: Option<SessionId>,
                              after: seq<Step>)
    requires var m := Exec(START, max, before).manager; MayLeave(m, c, expected) && m.sessions[c].Publisher?
    ensures var w := Exec(START, max, before);
            Gone(Exec(Apply(w, max, Fail(c, expected)), max, after), w.manager.sessions[c].room)
  {
    assert Linked(START);
    ExecLinked(START, max, before);
    var w := Exec(START, max, before);
    assert SessionSound(w.manager, c);
    TakeDownGone(w, c);
    GoneForGood(Apply(w, max, Fail(c, expected)), max, after, w.manager.sessions[c].room);
  }

  // ---- A start that is abandoned ----

  /** Every session belongs to a room that can still be found. */
  ghost predicate AllIndexed(m: Manager) {
    forall c | c in m.sessions ::
      m.sessions[c].room in m.rooms && IndexedFor(m, m.rooms[m.sessions[c].room].owner, m.sessions[c].room)
  }

  /** The step takes a room with viewers out of the index, without a publisher session leaving. */
  ghost predicate Strands(w: World, step: Step) {
    && step.RemoveRoom? && step.c in w.calls && w.calls[step.c].Abandoning?
    && IndexedFor(w.manager, step.c, w.calls[step.c].room)
    && w.calls[step.c].room in w.manager.rooms && w.manager.rooms[w.calls[step.c].room].viewers != map[]
  }

  lemma TakeDownAllIndexed(m: Manager, c: ConnectionId)
    requires Sound(m) && AllIndexed(m) && c in m.sessions && m.sessions[c].Publisher?
    ensures AllIndexed(TakeDown(m, c, m.sessions[c].room))
  {
    assert SessionSound(m, c);
    var room := m.sessions[c].room;
    var n := TakeDown(m, c, room);
    forall d | d in n.sessions ensures n.sessions[d].room in n.rooms &&
        IndexedFor(n, n.rooms[n.sessions[d].room].owner, n.sessions[d].room) {
      assert SessionSound(m, d);
      assert m.sessions[d].room != room;
    }
  }

  lemma LeaveAllIndexed(m: Manager, c: ConnectionId, expected: Option<SessionId>)
    requires Sound(m) && AllIndexed(m)
    ensures AllIndexed(Leave(m, c, expected))
  {
    if MayLeave(m, c, expected) && m.sessions[c].Publisher? {
      assert SessionSound(m, c);
      TakeDownAllIndexed(m, c);
    }
  }

  lemma RemoveAllIndexed(w: World, max: nat, c: ConnectionId)
    requires Linked(w) && AllIndexed(w.manager)
    ensures AllIndexed(Apply(w, max, RemoveRoom(c)).manager) <==> !Strands(w, RemoveRoom(c))
  {
    if c in w.calls && w.calls[c].Abandoning? && IndexedFor(w.manager, c, w.calls[c].room) {
      var m, room := w.manager, w.calls[c].room;
      assert CallSound(m, c, w.calls[c]);
      var n := Unindex(m, c, room);
      if m.rooms[room].viewers == map[] {
        forall d | d in n.sessions ensures IndexedFor(n, n.rooms[n.sessions[d].room].owner, n.sessions[d].room) {
          assert SessionSound(m, d);
        }
      } else {
        var d :| d in m.rooms[room].viewers;
        assert d in n.sessions && n.sessions[d].room == room;
      }
    }
  }

  lemma StartAllIndexed(w: World, c: ConnectionId, server: ServerId, channel: ChannelId, room: RoomId)
    requires Linked(w) && AllIndexed(w.manager)
    ensures AllIndexed(StartRoom(w, c, server, channel, room).manager)
  {
    if c in w.calls { assert CallSound(w.manager, c, w.calls[c]); }
  }

  lemma CommitAllIndexed(w: World, c: ConnectionId, session: SessionId)
    requires Linked(w) && AllIndexed(w.manager)
    ensures AllIndexed(CommitStart(w, c).manager) && AllIndexed(CommitWatch(w, c, session).manager)
  {
    if c in w.calls { assert CallSound(w.manager, c, w.calls[c]); }
  }

  /** Main result: sessions keep belonging to indexed rooms, except that giving up a start strands
      the viewers it has already gained, and this happens exactly when it has any. */
  lemma StrandedExactly(w: World, max: nat, step: Step)
    requires Linked(w) && AllIndexed(w.manager)
    ensures AllIndexed(Apply(w, max, step).manager) <==> !Strands(w, step)
  {
    match step {
      case Enter(c) => LeaveAllIndexed(w.manager, c, None);
      case Start(c, server, channel, room) => StartAllIndexed(w, c, server, channel, room);
      case Install(c, session) =>
      case CommitPublisher(c) => CommitAllIndexed(w, c, 0);
      case Abandon(c) =>
      case RemoveRoom(c) => RemoveAllIndexed(w, max, c);
      case Find(c, room) =>
      case ReserveViewer(c) =>
      case CommitViewer(c, session) => CommitAllIndexed(w, c, session);
      case Cancel(c) =>
      case Fail(c, expected) => LeaveAllIndexed(w.manager, c, expected);
      case Close =>
    }
  }

  ghost predicate NeverStrands(w: World, max: nat, steps: seq<Step>)
    decreases |steps|
  {
    steps == [] || (!Strands(w, steps[0]) && NeverStrands(Apply(w, max, steps[0]), max, steps[1..]))
  }

  ghost predicate AlwaysIndexed(w: World, max: nat, steps: seq<Step>)
    decreases |steps|
  {
    AllIndexed(w.manager) && (steps == [] || AlwaysIndexed(Apply(w, max, steps[0]), max, steps[1..]))
  }

  /** Main result: throughout a run every session can be found through the index if and only if no start
      with viewers is given up. */
  lemma {:induction false} StrandedInRuns(w: World, max: nat, steps: seq<Step>)
    requires Linked(w) && AllIndexed(w.manager)
    ensures AlwaysIndexed(w, max, steps) <==> NeverStrands(w, max, steps)
    decreases |steps|
  {
    if steps != [] {
      StrandedExactly(w, max, steps[0]);
      ApplyLinked(w, max, steps[0]);
      if AllIndexed(Apply(w, max, steps[0]).manager) {
        StrandedInRuns(Apply(w, max, steps[0]), max, steps[1..]);
      }
    }
  }

  lemma Then(w: World, max: nat, step: Step, rest: seq<Step>)
    ensures Exec(w, max, [step] + rest) == Exec(Apply(w, max, step), max, rest)
  {
    assert ([step] + rest)[0] == step && ([step] + rest)[1..] == rest;
  }

  const PLAIN := Room(1, 1, 1, None, map[], 0)
  const STARTED := World(Manager(map[1 := 1], map[1 := PLAIN], map[], false), map[1 := Starting(1)])
  const WATCHED := World(
    Manager(map[1 := 1], map[1 := PLAIN.(viewers := map[2 := 2])], map[2 := Viewer(2, 1)], false),
        map[1 := Starting(1)])

  lemma StartOne(max: nat, rest: seq<Step>)
    ensures Exec(START, max, [Enter(1)] + ([Start(1, 1, 1, 1)] + rest)) == Exec(STARTED, max, rest)
  {
    Then(START, max, Enter(1), [Start(1, 1, 1, 1)] + rest);
    assert Publishers(START.manager, 1, 1) == {};
    Then(Apply(START, max, Enter(1)), max, Start(1, 1, 1, 1), rest);
    assert Apply(Apply(START, max, Enter(1)), max, Start(1, 1, 1, 1)) == STARTED;
  }

  lemma ReserveOne(max: nat, rest: seq<Step>)
    requires max > 0
    ensures Exec(STARTED, max, [Enter(2)] + ([Find(2, 1)] + ([ReserveViewer(2)] + rest)))
            == Exec(World(Put(STARTED.manager, 1, Reserve(PLAIN)), STARTED.calls[2 := Reserved(1)]), max, rest)
  {
    var w := STARTED.(calls := STARTED.calls[2 := Entered]);
    Then(STARTED, max, Enter(2), [Find(2, 1)] + ([ReserveViewer(2)] + rest));
    assert Apply(STARTED, max, Enter(2)) == w;
    Then(w, max, Find(2, 1), [ReserveViewer(2)] + rest);
    var v := STARTED.(calls := STARTED.calls[2 := Found(1)]);
    assert Apply(w, max, Find(2, 1)) == v;
    Then(v, max, ReserveViewer(2), rest);
    assert Apply(v, max, ReserveViewer(2))
        == World(Put(STARTED.manager, 1, Reserve(PLAIN)), STARTED.calls[2 := Reserved(1)]);
  }

  lemma CommitOne(max: nat, rest: seq<Step>)
    ensures Exec(World(Put(STARTED.manager, 1, Reserve(PLAIN)), STARTED.calls[2 := Reserved(1)]), max,
        [CommitViewer(2, 2)] + rest)
            == Exec(WATCHED, max, rest)
  {
    var w := World(Put(STARTED.manager, 1, Reserve(PLAIN)), STARTED.calls[2 := Reserved(1)]);
    Then(w, max, CommitViewer(2, 2), rest);
    assert Apply(w, max, CommitViewer(2, 2)).calls == WATCHED.calls;
    assert Apply(w, max, CommitViewer(2, 2)) == WATCHED;
  }

  lemma GiveUpOne(max: nat)
    ensures !AllIndexed(Exec(WATCHED, max, [Abandon(1)] + ([RemoveRoom(1)] + [])).manager)
  {
    Then(WATCHED, max, Abandon(1), [RemoveRoom(1)] + []);
    Then(Apply(WATCHED, max, Abandon(1)), max, RemoveRoom(1), []);
    var last := Exec(WATCHED, max, [Abandon(1)] + ([RemoveRoom(1)] + [])).manager;
    assert last == WATCHED.manager.(index := map[]);
    assert 2 in last.sessions;
  }

  /** It does happen: a viewer commits before the publisher, and the publisher gives up. */
  lemma AbandonedStartStrands(max: nat)
    requires max > 0
    ensures exists steps: seq<Step> :: !AllIndexed(Exec(START, max, steps).manager)
  {
    var giveUp := [Abandon(1)] + ([RemoveRoom(1)] + []);
    GiveUpOne(max);
    CommitOne(max, giveUp);
    ReserveOne(max, [CommitViewer(2, 2)] + giveUp);
    var watch := [Enter(2)] + ([Find(2, 1)] + ([ReserveViewer(2)] + ([CommitViewer(2, 2)] + giveUp)));
    StartOne(max, watch);
    assert !AllIndexed(Exec(START, max, [Enter(1)] + ([Start(1, 1, 1, 1)] + watch)).manager);
  }
}
