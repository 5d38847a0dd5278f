/** Admission to voice rooms. A join reserves a place, creates its peer outside the lock, and then
    commits its session or gives the place back; leaves and other joins run in between. Room
    objects are told apart by identity, so that a channel may have several over time. */
module VoiceAdmission {
  import opened Options
  import opened VoiceRoom

  type ChannelId = nat
  type RoomId = nat
  type JoinId = nat

  datatype Entry = Entry(channel: ChannelId, state: State)

  datatype Registration = Registration(room: RoomId, session: SessionId)

  /** The manager: the room indexed for each channel, all room objects, and the sessions. */
  datatype Manager = Manager(
    index: map<ChannelId, RoomId>,
    rooms: map<RoomId, Entry>,
    sessions: map<ConnectionId, Registration>,
    closed: bool)

  function Put(m: Manager, room: RoomId, state: State): Manager
    requires room in m.rooms
  {
    m.(rooms := m.rooms[room := m.rooms[room].(state := state)])
  }

  predicate Indexed(m: Manager, room: RoomId)
    requires room in m.rooms
  {
    m.rooms[room].channel in m.index && m.index[m.rooms[room].channel] == room
  }

  /** Finds or creates the room of a channel; `created` names the object if one is created. */
  function Open(m: Manager, channel: ChannelId, created: RoomId): (Manager, RoomId) {
    if channel in m.index then (m, m.index[channel])
    else (m.(index := m.index[channel := created], rooms := m.rooms[created := Entry(channel, EMPTY)]), created)
  }

  function ReserveIn(m: Manager, channel: ChannelId, created: RoomId, max: nat): (Manager, Option<RoomId>) {
    if m.closed then (m, None)
    else
      var (n, room) := Open(m, channel, created);
      if room !in n.rooms || !HasSpace(n.rooms[room].state, max) then (n, None)
      else (Put(n, room, Reserve(n.rooms[room].state, max)), Some(room))
  }

  function Commit(m: Manager, connection: ConnectionId, room: RoomId, session: SessionId): (Manager, bool) {
    if m.closed || room !in m.rooms then (m, false)
    else
      (Put(m, room, AddSession(m.rooms[room].state, connection, session))
         .(sessions := m.sessions[connection := Registration(room, session)]), true)
  }

  function Cancel(m: Manager, room: RoomId): Manager {
    if room in m.rooms then Put(m, room, Unreserve(m.rooms[room].state)) else m
  }

  /** The locked half of removing a room: the emptiness and the index are checked again. */
  function Drop(m: Manager, room: RoomId): Manager {
    if room in m.rooms && Empty(m.rooms[room].state) && Indexed(m, room)
    then m.(index := m.index - {m.rooms[room].channel}) else m
  }

  predicate MayLeave(m: Manager, connection: ConnectionId, expected: Option<SessionId>) {
    connection in m.sessions && (expected.Some? ==> m.sessions[connection].session == expected.value)
  }

  function LeaveRoom(m: Manager, connection: ConnectionId, expected: Option<SessionId>): Manager {
    if !MayLeave(m, connection, expected) then m
    else
      var room := m.sessions[connection].room;
      var n := m.(sessions := m.sessions - {connection});
      if room !in n.rooms then n
      else Drop(Put(n, room, RemoveSession(n.rooms[room].state, connection)), room)
  }

  function CloseAll(m: Manager): Manager {
    if m.closed then m else m.(index := map[], sessions := map[], closed := true)
  }

  // ---- Interleaved joins ----

  /** A join after its reservation, after giving it back, and after seeing its room empty. */
  datatype Join = Reserved(connection: ConnectionId, room: RoomId) | Cancelled(room: RoomId) | Removing(room: RoomId)

  datatype World = World(manager: Manager, joins: map<JoinId, Join>)

  datatype Step =
    | Begin(join: JoinId, connection: ConnectionId, channel: ChannelId, created: RoomId)
    | Finish(join: JoinId, session: SessionId)
    | GiveUp(join: JoinId)
    | Look(join: JoinId)
    | Remove(join: JoinId)
    | Leave(connection: ConnectionId, expected: Option<SessionId>)
    | Close

  function BeginJoin(w: World, max: nat, join: JoinId, connection: ConnectionId, channel: ChannelId,
                     created: RoomId): World {
    if join in w.joins || created in w.manager.rooms then w
    else
      var (m, room) := ReserveIn(w.manager, channel, created, max);
      World(m, if room.Some? then w.joins[join := Reserved(connection, room.value)] else w.joins)
  }

  function FinishJoin(w: World, join: JoinId, session: SessionId): World {
    if join !in w.joins || !w.joins[join].Reserved? then w
    else
      var (m, ok) := Commit(w.manager, w.joins[join].connection, w.joins[join].room, session);
      if ok then World(m, w.joins - {join}) else w
  }

  function Apply(w: World, max: nat, step: Step): World {
    match step
    case Begin(join, connection, channel, created) => BeginJoin(w, max, join, connection, channel, created)
    case Finish(join, session) => FinishJoin(w, join, session)
    case GiveUp(join) =>
      if join in w.joins && w.joins[join].Reserved?
      then World(Cancel(w.manager, w.joins[join].room), w.joins[join := Cancelled(w.joins[join].room)]) else w
    case Look(join) =>
      if join in w.joins && w.joins[join].Cancelled? then
        var room := w.joins[join].room;
        if room in w.manager.rooms && Empty(w.manager.rooms[room].state)
        then w.(joins := w.joins[join := Removing(room)]) else w.(joins := w.joins - {join})
      else w
    case Remove(join) =>
      if join in w.joins && w.joins[join].Removing?
      then World(Drop(w.manager, w.joins[join].room), w.joins - {join}) else w
    case Leave(connection, expected) => w.(manager := LeaveRoom(w.manager, connection, expected))
    case Close => w.(manager := CloseAll(w.manager))
  }

  function Exec(w: World, max: nat, steps: seq<Step>): World
    decreases |steps|
  {
    if steps == [] then w else Exec(Apply(w, max, steps[0]), max, steps[1..])
  }

  const START := World(Manager(map[], map[], map[], false), map[])

  // ---- The invariant ----

  ghost function ReservedOn(joins: map<JoinId, Join>, room: RoomId): set<JoinId> {
    set j | j in joins && joins[j].Reserved? && joins[j].room == room
  }

  /** Reservations are the joins in flight, and with the sessions they respect the limit. */
  ghost predicate WithinLimit(s: State, held: set<JoinId>, max: nat) {
    s.reservations == |held| && |s.sessions| + s.reservations <= max
  }

  ghost predicate JoinsKnown(m: Manager, joins: map<JoinId, Join>) {
    forall j | j in joins :: joins[j].room in m.rooms
  }

  ghost predicate Counted(m: Manager, joins: map<JoinId, Join>, max: nat) {
    && JoinsKnown(m, joins)
    && (forall r | r in m.rooms :: WithinLimit(m.rooms[r].state, ReservedOn(joins, r), max))
  }

  ghost predicate IndexSound(m: Manager) {
    forall c | c in m.index :: m.index[c] in m.rooms && m.rooms[m.index[c]].channel == c
  }

  /** Until the manager closes, the rooms in use are the indexed ones. */
  ghost predicate LiveIndexed(m: Manager) {
    !m.closed ==> forall r | r in m.rooms :: Empty(m.rooms[r].state) || Indexed(m, r)
  }

  /** Sessions are registered in their rooms. */
  ghost predicate SessionsPlaced(m: Manager) {
    forall c | c in m.sessions ::
      var g := m.sessions[c];
      g.room in m.rooms && c in m.rooms[g.room].state.sessions && m.rooms[g.room].state.sessions[c] == g.session
  }

  ghost predicate Inv(w: World, max: nat) {
    && Counted(w.manager, w.joins, max) && IndexSound(w.manager)
    && LiveIndexed(w.manager) && SessionsPlaced(w.manager)
  }

  // Rooms one at a time.

  lemma AddSessionSize(s: State, connection: ConnectionId, session: SessionId)
    requires s.reservations > 0
    ensures var r := AddSession(s, connection, session);
            && r.reservations == s.reservations - 1 && |r.sessions| + r.reservations <= |s.sessions| + s.reservations
            && !Empty(r)
  {
    assert connection in AddSession(s, connection, session).sessions;
  }

  lemma RemoveSessionSize(s: State, connection: ConnectionId)
    ensures |RemoveSession(s, connection).sessions| <= |s.sessions|
  {
    assert (s.sessions - {connection}).Keys == s.sessions.Keys - {connection};
  }

  // One room of the manager changes.

  lemma PutCounted(m: Manager, joins: map<JoinId, Join>, rest: map<JoinId, Join>, room: RoomId, state: State, max: nat)
    requires Counted(m, joins, max) && room in m.rooms
    requires JoinsKnown(m, rest)
    requires forall r | r != room :: ReservedOn(rest, r) == ReservedOn(joins, r)
    requires WithinLimit(state, ReservedOn(rest, room), max)
    ensures Counted(Put(m, room, state), rest, max)
  {
  }

  lemma PutIndexed(m: Manager, room: RoomId, state: State)
    requires IndexSound(m) && LiveIndexed(m) && room in m.rooms && (m.closed || Empty(state) || Indexed(m, room))
    ensures IndexSound(Put(m, room, state)) && LiveIndexed(Put(m, room, state))
  {
  }

  lemma PutPlaced(m: Manager, room: RoomId, state: State)
    requires SessionsPlaced(m) && room in m.rooms && state.sessions == m.rooms[room].state.sessions
    ensures SessionsPlaced(Put(m, room, state))
  {
  }

  lemma CommitPlaced(m: Manager, connection: ConnectionId, room: RoomId, session: SessionId)
    requires SessionsPlaced(m)
    ensures SessionsPlaced(Commit(m, connection, room, session).0)
  {
  }

  lemma RemovePlaced(m: Manager, connection: ConnectionId, room: RoomId, state: State)
    requires SessionsPlaced(m) && room in m.rooms && state.sessions == m.rooms[room].state.sessions - {connection}
    ensures SessionsPlaced(Put(m.(sessions := m.sessions - {connection}), room, state))
  {
  }

  lemma DropIndexed(m: Manager, room: RoomId)
    requires IndexSound(m) && LiveIndexed(m)
    ensures IndexSound(Drop(m, room)) && LiveIndexed(Drop(m, room))
  {
  }

  // Joins enter and leave their phases.

  lemma ReservedAdd(joins: map<JoinId, Join>, join: JoinId, connection: ConnectionId, room: RoomId)
    requires join !in joins
    ensures var more := joins[join := Reserved(connection, room)];
            && |ReservedOn(more, room)| == |ReservedOn(joins, room)| + 1
            && forall r | r != room :: ReservedOn(more, r) == ReservedOn(joins, r)
  {
    var more := joins[join := Reserved(connection, room)];
    assert ReservedOn(more, room) == ReservedOn(joins, room) + {join};
  }

  /** `rest` is `joins` after the join ended or moved on to a phase without a reservation. */
  ghost predicate MovedOn(joins: map<JoinId, Join>, join: JoinId, rest: map<JoinId, Join>)
    requires join in joins
  {
    && (forall j | j != join :: j in rest <==> j in joins)
    && (forall j | j in rest && j != join :: rest[j] == joins[j])
    && (join in rest ==> !rest[join].Reserved? && rest[join].room == joins[join].room)
  }

  lemma ReservedDrop(joins: map<JoinId, Join>, join: JoinId, rest: map<JoinId, Join>)
    requires join in joins && joins[join].Reserved? && MovedOn(joins, join, rest)
    ensures var room := joins[join].room;
            && |ReservedOn(joins, room)| == |ReservedOn(rest, room)| + 1
            && forall r | r != room :: ReservedOn(rest, r) == ReservedOn(joins, r)
  {
    var room := joins[join].room;
    assert ReservedOn(joins, room) == ReservedOn(rest, room) + {join} by { ReservedSame(joins, join, rest, room); }
    forall r | r != room ensures ReservedOn(rest, r) == ReservedOn(joins, r) { ReservedSame(joins, join, rest, r); }
  }

  lemma ReservedSame(joins: map<JoinId, Join>, join: JoinId, rest: map<JoinId, Join>, room: RoomId)
    requires join in joins && MovedOn(joins, join, rest)
    ensures ReservedOn(rest, room) == ReservedOn(joins, room) - {join}
  {
  }

  lemma OthersCounted(m: Manager, joins: map<JoinId, Join>, join: JoinId, rest: map<JoinId, Join>, max: nat)
    requires Counted(m, joins, max) && join in joins && !joins[join].Reserved? && MovedOn(joins, join, rest)
    ensures Counted(m, rest, max)
  {
    forall r | r in m.rooms ensures WithinLimit(m.rooms[r].state, ReservedOn(rest, r), max) {
      ReservedSame(joins, join, rest, r);
    }
  }

  // The steps.

  lemma OpenCounted(m: Manager, joins: map<JoinId, Join>, max: nat, channel: ChannelId, created: RoomId)
    requires Counted(m, joins, max) && created !in m.rooms
    ensures Counted(Open(m, channel, created).0, joins, max)
  {
    assert ReservedOn(joins, created) == {};
  }

  lemma OpenIndexed(m: Manager, channel: ChannelId, created: RoomId)
    requires IndexSound(m) && LiveIndexed(m) && created !in m.rooms
    ensures var (n, room) := Open(m, channel, created);
            IndexSound(n) && LiveIndexed(n) && room in n.rooms && Indexed(n, room)
  {
  }

  lemma OpenPlaced(m: Manager, channel: ChannelId, created: RoomId)
    requires SessionsPlaced(m) && created !in m.rooms
    ensures SessionsPlaced(Open(m, channel, created).0)
  {
  }

  lemma BeginInv(w: World, max: nat, join: JoinId, connection: ConnectionId, channel: ChannelId, created: RoomId)
    requires Inv(w, max)
    ensures Inv(BeginJoin(w, max, join, connection, channel, created), max)
  {
    if join !in w.joins && created !in w.manager.rooms && !w.manager.closed {
      OpenCounted(w.manager, w.joins, max, channel, created);
      OpenIndexed(w.manager, channel, created);
      OpenPlaced(w.manager, channel, created);
      var (n, room) := Open(w.manager, channel, created);
      var s := n.rooms[room].state;
      if HasSpace(s, max) {
        ReservedAdd(w.joins, join, connection, room);
        PutCounted(n, w.joins, w.joins[join := Reserved(connection, room)], room, Reserve(s, max), max);
        PutIndexed(n, room, Reserve(s, max));
        PutPlaced(n, room, Reserve(s, max));
      }
    }
  }

  lemma ReservedIsIndexed(w: World, max: nat, join: JoinId)
    requires Inv(w, max) && join in w.joins && w.joins[join].Reserved?
    ensures var room := w.joins[join].room;
            && room in w.manager.rooms && w.manager.rooms[room].state.reservations > 0
            && (!w.manager.closed ==> Indexed(w.manager, room))
  {
    var room := w.joins[join].room;
    assert WithinLimit(w.manager.rooms[room].state, ReservedOn(w.joins, room), max);
    assert join in ReservedOn(w.joins, room);
  }

  lemma FinishInv(w: World, max: nat, join: JoinId, session: SessionId)
    requires Inv(w, max)
    ensures Inv(FinishJoin(w, join, session), max)
  {
    if join in w.joins && w.joins[join].Reserved? && !w.manager.closed {
      var room, connection := w.joins[join].room, w.joins[join].connection;
      ReservedIsIndexed(w, max, join);
      var s := w.manager.rooms[room].state;
      AddSessionSize(s, connection, session);
      ReservedDrop(w.joins, join, w.joins - {join});
      PutCounted(w.manager, w.joins, w.joins - {join}, room, AddSession(s, connection, session), max);
      PutIndexed(w.manager, room, AddSession(s, connection, session));
      CommitPlaced(w.manager, connection, room, session);
    }
  }

  lemma GiveUpInv(w: World, max: nat, join: JoinId)
    requires Inv(w, max)
    ensures Inv(Apply(w, max, GiveUp(join)), max)
  {
    if join in w.joins && w.joins[join].Reserved? {
      var room := w.joins[join].room;
      ReservedIsIndexed(w, max, join);
      var s, rest := w.manager.rooms[room].state, w.joins[join := Cancelled(room)];
      ReservedDrop(w.joins, join, rest);
      PutCounted(w.manager, w.joins, rest, room, Unreserve(s), max);
      PutIndexed(w.manager, room, Unreserve(s));
      PutPlaced(w.manager, room, Unreserve(s));
    }
  }

  lemma LeaveInv(w: World, max: nat, connection: ConnectionId, expected: Option<SessionId>)
    requires Inv(w, max)
    ensures Inv(w.(manager := LeaveRoom(w.manager, connection, expected)), max)
  {
    if MayLeave(w.manager, connection, expected) {
      var room, n := w.manager.sessions[connection].room, w.manager.(sessions := w.manager.sessions - {connection});
      var s := n.rooms[room].state;
      assert Empty(s) ==> s.sessions == map[];
      RemoveSessionSize(s, connection);
      PutCounted(n, w.joins, w.joins, room, RemoveSession(s, connection), max);
      PutIndexed(n, room, RemoveSession(s, connection));
      RemovePlaced(w.manager, connection, room, RemoveSession(s, connection));
      DropIndexed(Put(n, room, RemoveSession(s, connection)), room);
    }
  }

  lemma LookInv(w: World, max: nat, join: JoinId)
    requires Inv(w, max)
    ensures Inv(Apply(w, max, Look(join)), max)
  {
    if join in w.joins && w.joins[join].Cancelled? {
      OthersCounted(w.manager, w.joins, join, w.joins[join := Removing(w.joins[join].room)], max);
      OthersCounted(w.manager, w.joins, join, w.joins - {join}, max);
    }
  }

  lemma RemoveInv(w: World, max: nat, join: JoinId)
    requires Inv(w, max)
    ensures Inv(Apply(w, max, Remove(join)), max)
  {
    if join in w.joins && w.joins[join].Removing? {
      OthersCounted(w.manager, w.joins, join, w.joins - {join}, max);
      DropIndexed(w.manager, w.joins[join].room);
    }
  }

  lemma CloseInv(w: World, max: nat)
    requires Inv(w, max)
    ensures Inv(Apply(w, max, Close), max)
  {
  }

  lemma ApplyInv(w: World, max: nat, step: Step)
    requires Inv(w, max)
    ensures Inv(Apply(w, max, step), max)
  {
    match step {
      case Begin(join, connection, channel, created) => BeginInv(w, max, join, connection, channel, created);
      case Finish(join, session) => FinishInv(w, max, join, session);
      case GiveUp(join) => GiveUpInv(w, max, join);
      case Look(join) => LookInv(w, max, join);
      case Remove(join) => RemoveInv(w, max, join);
      case Leave(connection, expected) => LeaveInv(w, max, connection, expected);
      case Close => CloseInv(w, max);
    }
  }

  lemma {:induction false} ExecInv(w: World, max: nat, steps: seq<Step>)
    requires Inv(w, max)
    ensures Inv(Exec(w, max, steps), max)
    decreases |steps|
  {
    if steps != [] {
      ApplyInv(w, max, steps[0]);
      ExecInv(Apply(w, max, steps[0]), max, steps[1..]);
    }
  }

  // ---- Main results ----

  /** Main result: in every interleaving, sessions and reservations together never exceed the limit,
      and the reservations of a room are exactly the joins in flight on it. */
  lemma AdmissionBounded(max: nat, steps: seq<Step>, room: RoomId)
    requires room in Exec(START, max, steps).manager.rooms
    ensures var w := Exec(START, max, steps);
            var s := w.manager.rooms[room].state;
            |s.sessions| + s.reservations <= max && s.reservations == |ReservedOn(w.joins, room)|
  {
    ExecInv(START, max, steps);
    var w := Exec(START, max, steps);
    assert WithinLimit(w.manager.rooms[room].state, ReservedOn(w.joins, room), max);
  }

  /** Main result: until the manager closes, the room a join reserved is still the one indexed for its
      channel, so the join commits into it. */
  lemma ReservedRoomKept(max: nat, steps: seq<Step>, join: JoinId, session: SessionId)
    requires var w := Exec(START, max, steps); !w.manager.closed && join in w.joins && w.joins[join].Reserved?
    ensures var w := Exec(START, max, steps);
            var Reserved(connection, room) := w.joins[join];
            var v := FinishJoin(w, join, session);
            && room in w.manager.rooms && Indexed(w.manager, room)
            && join !in v.joins && connection in v.manager.sessions
            && v.manager.sessions[connection] == Registration(room, session)
            && room in v.manager.rooms && connection in v.manager.rooms[room].state.sessions && Indexed(v.manager, room)
  {
    ExecInv(START, max, steps);
    ReservedIsIndexed(Exec(START, max, steps), max, join);
  }

  /** Main result: a channel never has two rooms in use. */
  lemma OneLiveRoom(max: nat, steps: seq<Step>, r: RoomId, q: RoomId)
    requires var m := Exec(START, max, steps).manager;
             && !m.closed && r in m.rooms && q in m.rooms && m.rooms[r].channel == m.rooms[q].channel
             && !Empty(m.rooms[r].state) && !Empty(m.rooms[q].state)
    ensures r == q
  {
    ExecInv(START, max, steps);
  }

  // ---- Empty rooms do not stay indexed ----

  ghost predicate Remover(joins: map<JoinId, Join>, room: RoomId) {
    exists j :: j in joins && !joins[j].Reserved? && joins[j].room == room
  }

  /** An empty room stays indexed only while some join is about to remove it. */
  ghost predicate NoLeak(w: World) {
    forall r | r in w.manager.rooms && Indexed(w.manager, r) && Empty(w.manager.rooms[r].state) :: Remover(w.joins, r)
  }

  lemma RemoverKept(joins: map<JoinId, Join>, rest: map<JoinId, Join>, room: RoomId)
    requires Remover(joins, room)
    requires forall j | j in joins && !joins[j].Reserved? && joins[j].room == room ::
               j in rest && !rest[j].Reserved? && rest[j].room == room
    ensures Remover(rest, room)
  {
    var j :| j in joins && !joins[j].Reserved? && joins[j].room == room;
    assert j in rest;
  }

  /** A change that leaves the index and the other rooms alone, and keeps one room in use. */
  lemma PutNoLeak(m: Manager, joins: map<JoinId, Join>, rest: map<JoinId, Join>, room: RoomId, state: State)
    requires NoLeak(World(m, joins)) && room in m.rooms
    requires !Empty(state) || Remover(rest, room)
    requires forall j | j in joins && !joins[j].Reserved? && joins[j].room != room :: j in rest && rest[j] == joins[j]
    ensures NoLeak(World(Put(m, room, state), rest))
  {
    var n := Put(m, room, state);
    forall r | r in n.rooms && Indexed(n, r) && Empty(n.rooms[r].state) ensures Remover(rest, r) {
      if r != room { RemoverKept(joins, rest, r); }
    }
  }

  lemma DropNoLeak(m: Manager, joins: map<JoinId, Join>, rest: map<JoinId, Join>, room: RoomId)
    requires forall r | r in m.rooms && r != room && Indexed(m, r) && Empty(m.rooms[r].state) :: Remover(rest, r)
    ensures NoLeak(World(Drop(m, room), rest))
  {
  }

  lemma BeginNoLeak(w: World, max: nat, join: JoinId, connection: ConnectionId, channel: ChannelId, created: RoomId)
    requires IndexSound(w.manager) && NoLeak(w) && max > 0
    ensures NoLeak(BeginJoin(w, max, join, connection, channel, created))
  {
    if join !in w.joins && created !in w.manager.rooms && !w.manager.closed {
      var (m, joins) := (w.manager, w.joins);
      if channel in m.index {
        var room := m.index[channel];
        var s := m.rooms[room].state;
        if HasSpace(s, max) {
          PutNoLeak(m, joins, joins[join := Reserved(connection, room)], room, Reserve(s, max));
        }
      } else {
        NewRoomNoLeak(m, joins, joins[join := Reserved(connection, created)], channel, created, Reserve(EMPTY, max));
      }
    }
  }

  lemma NewRoomNoLeak(m: Manager, joins: map<JoinId, Join>, rest: map<JoinId, Join>, channel: ChannelId,
                      created: RoomId, state: State)
    requires NoLeak(World(m, joins)) && created !in m.rooms && channel !in m.index && !Empty(state)
    requires forall j | j in joins :: j in rest && rest[j] == joins[j]
    ensures NoLeak(World(Put(Open(m, channel, created).0, created, state), rest))
  {
    var n := Put(Open(m, channel, created).0, created, state);
    forall r | r in n.rooms && Indexed(n, r) && Empty(n.rooms[r].state) ensures Remover(rest, r) {
      assert r != created && n.rooms[r] == m.rooms[r] && Indexed(m, r);
      RemoverKept(joins, rest, r);
    }
  }

  lemma FinishNoLeak(w: World, join: JoinId, session: SessionId)
    requires NoLeak(w)
    ensures NoLeak(FinishJoin(w, join, session))
  {
    if join in w.joins && w.joins[join].Reserved? && !w.manager.closed && w.joins[join].room in w.manager.rooms {
      var Reserved(connection, room) := w.joins[join];
      var state := AddSession(w.manager.rooms[room].state, connection, session);
      assert connection in state.sessions;
      PutNoLeak(w.manager, w.joins, w.joins - {join}, room, state);
    }
  }

  lemma GiveUpNoLeak(w: World, max: nat, join: JoinId)
    requires NoLeak(w) && JoinsKnown(w.manager, w.joins)
    ensures NoLeak(Apply(w, max, GiveUp(join)))
  {
    if join in w.joins && w.joins[join].Reserved? {
      var room := w.joins[join].room;
      var rest := w.joins[join := Cancelled(room)];
      assert join in rest;
      PutNoLeak(w.manager, w.joins, rest, room, Unreserve(w.manager.rooms[room].state));
    }
  }

  lemma LookNoLeak(w: World, max: nat, join: JoinId)
    requires NoLeak(w)
    ensures NoLeak(Apply(w, max, Look(join)))
  {
    var v := Apply(w, max, Look(join));
    if v != w {
      var room := w.joins[join].room;
      forall r | r in v.manager.rooms && Indexed(v.manager, r) &&
          Empty(v.manager.rooms[r].state) ensures Remover(v.joins, r) {
        if r == room { assert join in v.joins; } else { RemoverKept(w.joins, v.joins, r); }
      }
    }
  }

  lemma RemoveNoLeak(w: World, max: nat, join: JoinId)
    requires NoLeak(w)
    ensures NoLeak(Apply(w, max, Remove(join)))
  {
    if join in w.joins && w.joins[join].Removing? {
      var m, room := w.manager, w.joins[join].room;
      forall r | r in m.rooms && r != room && Indexed(m, r) && Empty(m.rooms[r].state)
        ensures Remover(w.joins - {join}, r)
      {
        RemoverKept(w.joins, w.joins - {join}, r);
      }
      DropNoLeak(m, w.joins, w.joins - {join}, room);
    }
  }

  lemma LeaveNoLeak(w: World, connection: ConnectionId, expected: Option<SessionId>)
    requires SessionsPlaced(w.manager) && NoLeak(w)
    ensures NoLeak(w.(manager := LeaveRoom(w.manager, connection, expected)))
  {
    if MayLeave(w.manager, connection, expected) {
      var room, n := w.manager.sessions[connection].room, w.manager.(sessions := w.manager.sessions - {connection});
      DropNoLeak(Put(n, room, RemoveSession(n.rooms[room].state, connection)), w.joins, w.joins, room);
    }
  }

  lemma ApplyNoLeak(w: World, max: nat, step: Step)
    requires Inv(w, max) && NoLeak(w) && max > 0
    ensures NoLeak(Apply(w, max, step))
  {
    match step {
      case Begin(join, connection, channel, created) => BeginNoLeak(w, max, join, connection, channel, created);
      case Finish(join, session) => FinishNoLeak(w, join, session);
      case GiveUp(join) => GiveUpNoLeak(w, max, join);
      case Look(join) => LookNoLeak(w, max, join);
      case Remove(join) => RemoveNoLeak(w, max, join);
      case Leave(connection, expected) => LeaveNoLeak(w, connection, expected);
      case Close =>
    }
  }

  lemma {:induction false} ExecNoLeak(w: World, max: nat, steps: seq<Step>)
    requires Inv(w, max) && NoLeak(w) && max > 0
    ensures NoLeak(Exec(w, max, steps))
    decreases |steps|
  {
    if steps != [] {
      ApplyInv(w, max, steps[0]);
      ApplyNoLeak(w, max, steps[0]);
      ExecNoLeak(Apply(w, max, steps[0]), max, steps[1..]);
    }
  }

  /** Main result: when no join is in flight, the indexed rooms are exactly the rooms in use. The
      limit is positive: a manager is only built with one between 2 and 100. */
  lemma IndexIsLive(max: nat, steps: seq<Step>, room: RoomId)
    requires var w := Exec(START, max, steps);
             max > 0 && !w.manager.closed && w.joins == map[] && room in w.manager.rooms
    ensures var m := Exec(START, max, steps).manager;
            Indexed(m, room) <==> !Empty(m.rooms[room].state)
  {
    ExecInv(START, max, steps);
    ExecNoLeak(START, max, steps);
  }

  // ---- Calls that run without interruption ----

  /** The room a join to the channel gets. */
  function RoomOf(m: Manager, channel: ChannelId, created: RoomId): RoomId {
    if channel in m.index then m.index[channel] else created
  }

  ghost function StateOf(m: Manager, room: RoomId): State { if room in m.rooms then m.rooms[room].state else EMPTY }

  ghost predicate Full(m: Manager, room: RoomId, max: nat) {
    |StateOf(m, room).sessions| + StateOf(m, room).reservations >= max
  }

  /** The manager with this room for the channel, and nothing else changed. */
  ghost function With(m: Manager, channel: ChannelId, room: RoomId, state: State): Manager {
    m.(index := m.index[channel := room], rooms := m.rooms[room := Entry(channel, state)])
  }

  /** A join begins by reserving a place in its room exactly if the manager is open and the room not full. */
  lemma BeginsExactly(w: World, max: nat, join: JoinId, connection: ConnectionId, channel: ChannelId, created: RoomId)
    requires IndexSound(w.manager) && max > 0 && join !in w.joins && created !in w.manager.rooms
    ensures var m, v := w.manager, BeginJoin(w, max, join, connection, channel, created);
            var room := RoomOf(m, channel, created);
            v == if m.closed || Full(m, room, max) then w else Begun(w, join, connection, channel, room)
  {
    var m := w.manager;
    if channel in m.index {
      assert m.index[channel] in m.rooms && m.index == m.index[channel := m.index[channel]];
    } else {
      var reserved := Entry(channel, EMPTY.(reservations := 1));
      assert m.rooms[created := Entry(channel, EMPTY)][created := reserved] == m.rooms[created := reserved];
    }
  }

  /** Main result: a join to an open manager is admitted exactly if its room is not full. Then the
      connection has its session in the room of the channel, which keeps its reservations, and nothing
      else changes. */
  lemma JoinsExactly(w: World, max: nat, join: JoinId, connection: ConnectionId, channel: ChannelId, created: RoomId,
                     session: SessionId)
    requires IndexSound(w.manager) && max > 0 && join !in w.joins && created !in w.manager.rooms
    ensures var m, v := w.manager, FinishJoin(BeginJoin(w, max, join, connection, channel, created), join, session);
            var room := RoomOf(m, channel, created);
            var state := StateOf(m, room);
            if m.closed || Full(m, room, max) then v == w
            else v == World(With(m, channel, room, state.(sessions := state.sessions[connection := session]))
                              .(sessions := m.sessions[connection := Registration(room, session)]),
                            w.joins)
  {
    BeginsExactly(w, max, join, connection, channel, created);
    if !w.manager.closed {
      ReservedFinishes(w, join, connection, channel, RoomOf(w.manager, channel, created), session);
    }
  }

  /** The world after a place was reserved. */
  ghost function Begun(w: World, join: JoinId, connection: ConnectionId, channel: ChannelId, room: RoomId): World {
    var state := StateOf(w.manager, room);
    World(With(w.manager, channel, room, state.(reservations := state.reservations + 1)),
          w.joins[join := Reserved(connection, room)])
  }

  lemma ReservedFinishes(w: World, join: JoinId, connection: ConnectionId, channel: ChannelId, room: RoomId,
                         session: SessionId)
    requires join !in w.joins && !w.manager.closed
    ensures var m, state := w.manager, StateOf(w.manager, room);
            FinishJoin(Begun(w, join, connection, channel, room), join, session)
            == World(With(m, channel, room, state.(sessions := state.sessions[connection := session]))
                       .(sessions := m.sessions[connection := Registration(room, session)]),
                     w.joins)
  {
    var m, state := w.manager, StateOf(w.manager, room);
    var begun := Begun(w, join, connection, channel, room);
    FinishesExactly(begun, join, session);
    Twice(w.joins, join, Reserved(connection, room));
    var after := Entry(channel, state.(sessions := state.sessions[connection := session]));
    assert begun.manager.rooms[room := after] == m.rooms[room := after];
  }

  lemma ReservedGivesUp(w: World, max: nat, join: JoinId, connection: ConnectionId, channel: ChannelId, room: RoomId)
    requires join !in w.joins
    ensures var m, state, begun := w.manager, StateOf(w.manager, room), Begun(w, join, connection, channel, room);
            var v := Apply(Apply(Apply(begun, max, GiveUp(join)), max, Look(join)), max, Remove(join));
            && v.joins == w.joins && v.manager.sessions == m.sessions && v.manager.closed == m.closed
            && v.manager.rooms == m.rooms[room := Entry(channel, state)]
            && v.manager.index == if Empty(state) then m.index - {channel} else m.index[channel := room]
  {
    var m, state := w.manager, StateOf(w.manager, room);
    var begun := Begun(w, join, connection, channel, room);
    GivesUp(begun, max, join, room);
    Twice(w.joins, join, Reserved(connection, room));
    assert begun.manager.rooms[room := Entry(channel, state)] == m.rooms[room := Entry(channel, state)];
    assert begun.manager.index - {channel} == m.index - {channel};
  }

  lemma FinishesExactly(w: World, join: JoinId, session: SessionId)
    requires join in w.joins && w.joins[join].Reserved? && w.joins[join].room in w.manager.rooms && !w.manager.closed
    requires w.manager.rooms[w.joins[join].room].state.reservations > 0
    ensures var m, connection, room := w.manager, w.joins[join].connection, w.joins[join].room;
            var state := m.rooms[room].state;
            FinishJoin(w, join, session)
            == World(m.(rooms := m.rooms[room := m.rooms[room].(state := State(state.sessions[connection := session],
                                                                               state.tracks, state.reservations - 1))],
                        sessions := m.sessions[connection := Registration(room, session)]),
                     w.joins - {join})
  {
  }

  lemma Twice(joins: map<JoinId, Join>, join: JoinId, value: Join)
    requires join !in joins
    ensures joins[join := value] - {join} == joins
  {
  }

  /** Main result: a join that is given up leaves every room, session and join as it was; the room of the
      channel stays indexed exactly if somebody uses it. */
  lemma GivenUpIsUndone(w: World, max: nat, join: JoinId, connection: ConnectionId, channel: ChannelId, created: RoomId)
    requires IndexSound(w.manager) && max > 0 && join !in w.joins && created !in w.manager.rooms
    requires !w.manager.closed && !Full(w.manager, RoomOf(w.manager, channel, created), max)
    ensures var m, begun := w.manager, BeginJoin(w, max, join, connection, channel, created);
            var v := Apply(Apply(Apply(begun, max, GiveUp(join)), max, Look(join)), max, Remove(join));
            var room := RoomOf(m, channel, created);
            && v.joins == w.joins && v.manager.sessions == m.sessions && v.manager.closed == m.closed
            && v.manager.rooms == m.rooms[room := Entry(channel, StateOf(m, room))]
            && v.manager.index == if Empty(StateOf(m, room)) then m.index - {channel} else m.index
  {
    BeginsExactly(w, max, join, connection, channel, created);
    var m, room := w.manager, RoomOf(w.manager, channel, created);
    ReservedGivesUp(w, max, join, connection, channel, room);
    if !Empty(StateOf(m, room)) { assert channel in m.index && m.index[channel := room] == m.index; }
  }

  /** A reservation that is given back, and the room with it if nobody uses it. */
  lemma GivesUp(w: World, max: nat, join: JoinId, room: RoomId)
    requires join in w.joins && w.joins[join].Reserved? && w.joins[join].room == room && room in w.manager.rooms
    requires w.manager.rooms[room].state.reservations > 0 && Indexed(w.manager, room)
    ensures var m := w.manager;
            var n := Apply(Apply(Apply(w, max, GiveUp(join)), max, Look(join)), max, Remove(join));
            var state := m.rooms[room].state.(reservations := m.rooms[room].state.reservations - 1);
            && n.joins == w.joins - {join} && n.manager.rooms == m.rooms[room := m.rooms[room].(state := state)]
            && n.manager.sessions == m.sessions && n.manager.closed == m.closed
            && n.manager.index == if Empty(state) then m.index - {m.rooms[room].channel} else m.index
  {
    var given := Apply(w, max, GiveUp(join));
    var looked := Apply(given, max, Look(join));
    assert given.joins - {join} == w.joins - {join};
    assert looked.joins - {join} == w.joins - {join};
  }

  /** A leave takes effect exactly if the connection has a session, and it is the expected one if one is
      expected. It ends that session alone, and a room that nobody uses any more leaves the index. */
  lemma LeavesExactly(w: World, max: nat, connection: ConnectionId, expected: Option<SessionId>)
    requires SessionsPlaced(w.manager)
    ensures Apply(w, max, Leave(connection, expected)).joins == w.joins
    ensures var m, n := w.manager, Apply(w, max, Leave(connection, expected)).manager;
            if connection !in m.sessions || (expected.Some? && m.sessions[connection].session != expected.value)
            then n == m
            else var room := m.sessions[connection].room;
                 var state := RemoveSession(m.rooms[room].state, connection);
                 && n.sessions == m.sessions - {connection} && n.closed == m.closed
                 && n.rooms == m.rooms[room := m.rooms[room].(state := state)]
                 && n.index == if Empty(state) && Indexed(m, room) then m.index - {m.rooms[room].channel} else m.index
  {
  }

  ghost predicate Shut(m: Manager) { m.closed ==> m.sessions == map[] && m.index == map[] }

  lemma {:induction false} ExecShut(w: World, max: nat, steps: seq<Step>)
    requires Shut(w.manager)
    ensures Shut(Exec(w, max, steps).manager) && (w.manager.closed ==> Exec(w, max, steps).manager.closed)
    decreases |steps|
  {
    if steps != [] { ExecShut(Apply(w, max, steps[0]), max, steps[1..]); }
  }

  /** Main result: once closed, a manager has no session and no indexed room in any run. */
  lemma ClosedForGood(max: nat, before: seq<Step>, after: seq<Step>)
    ensures var m := Exec(Apply(Exec(START, max, before), max, Close), max, after).manager;
            m.closed && m.sessions == map[] && m.index == map[]
  {
    ExecShut(START, max, before);
    ExecShut(Apply(Exec(START, max, before), max, Close), max, after);
  }

  // ---- The manager object ----

  class SessionManager {
    const maxParticipants: nat
    var index: map<ChannelId, RoomId>
    var rooms: map<RoomId, Entry>
    var sessions: map<ConnectionId, Registration>
    var closed: bool

    ghost function View(): Manager
      reads this
    {
      Manager(index, rooms, sessions, closed)
    }

    constructor (max: nat)
      ensures View() == START.manager && maxParticipants == max
    {
      maxParticipants := max;
      index, rooms, sessions, closed := map[], map[], map[], false;
    }

    /** The first locked section of a join. */
    method ReservePlace(channel: ChannelId, created: RoomId) returns (room: Option<RoomId>)
      requires IndexSound(View()) && created !in rooms
      modifies this
      ensures (View(), room) == ReserveIn(old(View()), channel, created, maxParticipants)
    {
      if closed { return None; }
      var id := created;
      if channel in index {
        id := index[channel];
      } else {
        index := index[channel := id];
        rooms := rooms[id := Entry(channel, EMPTY)];
      }
      var s := rooms[id].state;
      if |s.sessions| + s.reservations >= maxParticipants { return None; }
      rooms := rooms[id := rooms[id].(state := s.(reservations := s.reservations + 1))];
      room := Some(id);
    }

    /** The second locked section of a join. */
    method CommitSession(connection: ConnectionId, room: RoomId, session: SessionId) returns (ok: bool)
      requires room in rooms
      modifies this
      ensures (View(), ok) == Commit(old(View()), connection, room, session)
    {
      if closed { return false; }
      sessions := sessions[connection := Registration(room, session)];
      rooms := rooms[room := rooms[room].(state := AddSession(rooms[room].state, connection, session))];
      ok := true;
    }

    method RemoveRoomIfEmpty(room: RoomId)
      requires room in rooms
      modifies this
      ensures View() == Drop(old(View()), room)
    {
      var channel := rooms[room].channel;
      if Empty(rooms[room].state) && channel in index && index[channel] == room {
        index := index - {channel};
      }
    }

    method LeaveSession(connection: ConnectionId, expected: Option<SessionId>) returns (ok: bool)
      requires SessionsPlaced(View())
      modifies this
      ensures View() == LeaveRoom(old(View()), connection, expected)
      ensures ok == MayLeave(old(View()), connection, expected)
    {
      if connection !in sessions || (expected.Some? && sessions[connection].session != expected.value) { return false; }
      var room := sessions[connection].room;
      sessions := sessions - {connection};
      rooms := rooms[room := rooms[room].(state := RemoveSession(rooms[room].state, connection))];
      RemoveRoomIfEmpty(room);
      ok := true;
    }

    method CloseManager()
      modifies this
      ensures View() == CloseAll(old(View()))
    {
      if closed { return; }
      closed := true;
      sessions := map[];
      index := map[];
    }
  }
}
