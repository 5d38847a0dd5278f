/** Failure callbacks of media sessions. A callback captures the generation that is current when it
    is made; when it fires it takes its user's media lock, compares generations, and tears down what
    it finds. A client that is unregistered is detached first and leaves voice afterwards; in between,
    a callback does not find it any more and ends nothing. Joins, starts and watches of a user run
    under the same lock; leaves take no lock and may strike between any two steps. */
module Callbacks {
  import opened Clients
  import opened Options
  import V = VoiceState
  import S = StreamState

  datatype Kind = OfVoice | OfStream

  /** Who holds the media lock of a user. */
  datatype Owner = Caller(thread: nat) | Handler(callback: nat)

  /** Tearing down a voice session leaves its stream first, so it takes two steps. */
  datatype Phase = Made | Locked | Confirmed | Emptied | Finished

  datatype Callback = Callback(kind: Kind, client: Client, captured: Option<nat>, phase: Phase)

  datatype World = World(
    voice: V.Voice,
    streams: S.Streams,
    detached: set<Client>,
    locks: map<UserId, Owner>,
    callbacks: map<nat, Callback>)

  const START := World(V.NONE, S.NO_STREAMS, {}, map[], map[])

  datatype Step =
    | Lock(user: UserId, thread: nat)
    | Unlock(user: UserId, thread: nat)
    | Join(thread: nat, client: Client, server: ServerId, channel: ChannelId, mute: bool, deaf: bool, device: DeviceId)
    | BeginStream(thread: nat, op: S.Op)
    | Update(client: Client, mute: bool, deaf: bool, video: Option<bool>)
    | LeaveVoice(clients: set<Client>)
    | LeaveStream(client: Client)
    | Detach(client: Client)
    | Make(id: nat, kind: Kind, client: Client)
    | Enter(id: nat)
    | Check(id: nat)
    | TearDown(id: nat)

  /** The generation a client currently has. */
  function Current(w: World, kind: Kind, client: Client): Option<nat> {
    match kind
    case OfVoice => if client in w.voice.participants then Some(w.voice.participants[client].generation) else None
    case OfStream => if client in w.streams.roles then Some(w.streams.roles[client].generation) else None
  }

  /** The client leaves its stream, and takes along who hangs on it. */
  function DropRole(w: World, client: Client): World { w.(streams := S.LeaveStream(w.streams, client)) }

  function DropSeat(w: World, client: Client): World { w.(voice := V.Without(w.voice, {client})) }

  predicate Holds(w: World, user: UserId, owner: Owner) { user in w.locks && w.locks[user] == owner }

  function Phased(w: World, id: nat, phase: Phase): World
    requires id in w.callbacks
  {
    w.(callbacks := w.callbacks[id := w.callbacks[id].(phase := phase)])
  }

  function CheckCallback(w: World, id: nat): World {
    if id !in w.callbacks || !w.callbacks[id].phase.Locked? then w
    else
      var b := w.callbacks[id];
      if b.captured.Some? && Current(w, b.kind, b.client) == b.captured then Phased(w, id, Confirmed)
      else Finish(w, id)
  }

  function Finish(w: World, id: nat): World
    requires id in w.callbacks
  {
    Phased(w, id, Finished).(locks := w.locks - {w.callbacks[id].client.user})
  }

  function TearDownCallback(w: World, id: nat): World {
    if id !in w.callbacks then w
    else
      var b := w.callbacks[id];
      match b.phase
      case Confirmed =>
        if b.client in w.detached then Finish(w, id)
        else if b.kind.OfVoice? then Phased(DropRole(w, b.client), id, Emptied)
        else Finish(DropRole(w, b.client), id)
      case Emptied => Finish(DropSeat(w, b.client), id)
      case _ => w
  }

  /** Whose role a stream operation begins. */
  function Beginner(op: S.Op): Option<Client> {
    match op
    case Publishing(client, _, _, _, _, _) => Some(client)
    case Viewing(client, _, _, _, _) => Some(client)
    case Leaving(_) => None
  }

  function Apply(w: World, limits: S.Limits, step: Step): World {
    match step
    case Lock(user, thread) => if user in w.locks then w else w.(locks := w.locks[user := Caller(thread)])
    case Unlock(user, thread) => if Holds(w, user, Caller(thread)) then w.(locks := w.locks - {user}) else w
    case Join(thread, client, server, channel, mute, deaf, device) =>
      if Holds(w, client.user, Caller(thread))
      then w.(voice := V.Join(w.voice, client, server, channel, mute, deaf, device)) else w
    case BeginStream(thread, op) =>
      if Beginner(op).Some? && Holds(w, Beginner(op).value.user, Caller(thread))
      then w.(streams := S.Apply(w.streams, limits, op)) else w
    case Update(client, mute, deaf, video) => w.(voice := V.Update(w.voice, client, mute, deaf, video))
    case LeaveVoice(clients) => w.(voice := V.Without(w.voice, clients))
    case LeaveStream(client) => w.(streams := S.LeaveStream(w.streams, client))
    case Detach(client) => w.(detached := w.detached + {client})
    case Make(id, kind, client) =>
      if id in w.callbacks then w
      else
        var captured := if client in w.detached then None else Current(w, kind, client);
        w.(callbacks := w.callbacks[id := Callback(kind, client, captured, Made)])
    case Enter(id) =>
      if id in w.callbacks && w.callbacks[id].phase.Made? && w.callbacks[id].client.user !in w.locks
      then Phased(w, id, Locked).(locks := w.locks[w.callbacks[id].client.user := Handler(id)]) else w
    case Check(id) => CheckCallback(w, id)
    case TearDown(id) => TearDownCallback(w, id)
  }

  function Exec(w: World, limits: S.Limits, steps: seq<Step>): World
    decreases |steps|
  {
    if steps == [] then w else Exec(Apply(w, limits, steps[0]), limits, steps[1..])
  }

  // ---- The invariant ----

  ghost predicate Busy(phase: Phase) { phase.Locked? || phase.Confirmed? || phase.Emptied? }

  /** A callback past its lock owns it; once confirmed, its generation is current or gone. */
  ghost predicate CallbackSound(w: World, id: nat)
    requires id in w.callbacks
  {
    var b := w.callbacks[id];
    && (Busy(b.phase) ==> Holds(w, b.client.user, Handler(id)))
    && (b.phase.Confirmed? || b.phase.Emptied? ==>
          b.captured.Some? && (Current(w, b.kind, b.client) == None || Current(w, b.kind, b.client) == b.captured))
    && (b.phase.Emptied? ==> b.kind.OfVoice?)
  }

  ghost predicate Inv(w: World) { forall id | id in w.callbacks :: CallbackSound(w, id) }

  /** Whose generation may change to another one, and not just end. */
  ghost predicate OnlyBegins(w: World, v: World, user: Option<UserId>) {
    forall kind: Kind, c: Client :: user != Some(c.user) ==>
      Current(v, kind, c) == None || Current(v, kind, c) == Current(w, kind, c)
  }

  lemma StateSound(w: World, v: World, user: Option<UserId>)
    requires Inv(w) && v.locks == w.locks && v.callbacks == w.callbacks
    requires OnlyBegins(w, v, user) && (user.Some? ==> user.value in w.locks && w.locks[user.value].Caller?)
    ensures Inv(v)
  {
    forall id | id in v.callbacks ensures CallbackSound(v, id) {
      assert CallbackSound(w, id);
    }
  }

  lemma LocksSound(w: World, locks: map<UserId, Owner>)
    requires Inv(w)
    requires forall u | u in w.locks && w.locks[u].Handler? :: u in locks && locks[u] == w.locks[u]
    ensures Inv(w.(locks := locks))
  {
    var v := w.(locks := locks);
    forall id | id in v.callbacks ensures CallbackSound(v, id) { assert CallbackSound(w, id); }
  }

  lemma EnterSound(w: World, limits: S.Limits, id: nat)
    requires Inv(w)
    ensures Inv(Apply(w, limits, Enter(id)))
  {
    var v := Apply(w, limits, Enter(id));
    forall i | i in v.callbacks ensures CallbackSound(v, i) { assert CallbackSound(w, i); }
  }

  lemma CheckSound(w: World, id: nat)
    requires Inv(w)
    ensures Inv(CheckCallback(w, id))
  {
    var v := CheckCallback(w, id);
    forall i | i in v.callbacks ensures CallbackSound(v, i) {
      assert CallbackSound(w, i) && (id in w.callbacks ==> CallbackSound(w, id));
    }
  }

  lemma DropRoleInv(w: World, client: Client)
    requires Inv(w)
    ensures Inv(DropRole(w, client)) && client !in DropRole(w, client).streams.roles
  {
    StateSound(w, DropRole(w, client), None);
  }

  lemma DropSeatInv(w: World, client: Client)
    requires Inv(w)
    ensures Inv(DropSeat(w, client)) && client !in DropSeat(w, client).voice.participants
  {
    StateSound(w, DropSeat(w, client), None);
  }

  lemma FinishInv(w: World, id: nat)
    requires Inv(w) && id in w.callbacks && Busy(w.callbacks[id].phase)
    ensures Inv(Finish(w, id))
  {
    var v := Finish(w, id);
    assert CallbackSound(w, id);
    forall i | i in v.callbacks ensures CallbackSound(v, i) { assert CallbackSound(w, i); }
  }

  lemma TearDownSound(w: World, id: nat)
    requires Inv(w)
    ensures Inv(TearDownCallback(w, id))
  {
    if id in w.callbacks {
      var b := w.callbacks[id];
      if b.phase.Confirmed? && b.client in w.detached {
        FinishInv(w, id);
      } else if b.phase.Confirmed? {
        DropRoleInv(w, b.client);
        var v := DropRole(w, b.client);
        if b.kind.OfVoice? {
          forall i | i in Phased(v, id, Emptied).callbacks ensures CallbackSound(Phased(v, id, Emptied), i) {
            assert CallbackSound(v, i);
          }
        } else {
          FinishInv(v, id);
        }
      } else if b.phase.Emptied? {
        DropSeatInv(w, b.client);
        FinishInv(DropSeat(w, b.client), id);
      }
    }
  }

  lemma MakeSound(w: World, limits: S.Limits, id: nat, kind: Kind, client: Client)
    requires Inv(w)
    ensures Inv(Apply(w, limits, Make(id, kind, client)))
  {
    var v := Apply(w, limits, Make(id, kind, client));
    forall i | i in v.callbacks ensures CallbackSound(v, i) { assert i in w.callbacks ==> CallbackSound(w, i); }
  }

  lemma ApplyInv(w: World, limits: S.Limits, step: Step)
    requires Inv(w)
    ensures Inv(Apply(w, limits, step))
  {
    var v := Apply(w, limits, step);
    match step {
      case Lock(user, thread) => LocksSound(w, v.locks);
      case Unlock(user, thread) => LocksSound(w, v.locks);
      case Join(thread, client, server, channel, mute, deaf, device) =>
        if v != w { StateSound(w, v, Some(client.user)); }
      case BeginStream(thread, op) =>
        if v != w {
          S.GenerationKeptFor(w.streams, limits, op);
          StateSound(w, v, Some(Beginner(op).value.user));
        }
      case Update(client, mute, deaf, video) => StateSound(w, v, None);
      case LeaveVoice(clients) => StateSound(w, v, None);
      case LeaveStream(client) => StateSound(w, v, None);
      case Detach(client) => StateSound(w, v, None);
      case Make(id, kind, client) => MakeSound(w, limits, id, kind, client);
      case Enter(id) => EnterSound(w, limits, id);
      case Check(id) => CheckSound(w, id);
      case TearDown(id) => TearDownSound(w, id);
    }
  }

  lemma {:induction false} ExecInv(w: World, limits: S.Limits, steps: seq<Step>)
    requires Inv(w)
    ensures Inv(Exec(w, limits, steps))
    decreases |steps|
  {
    if steps != [] {
      ApplyInv(w, limits, steps[0]);
      ExecInv(Apply(w, limits, steps[0]), limits, steps[1..]);
    }
  }

  /** Main result: whatever else runs, the teardown of a callback ends no participation but its client's, and
      that only for a voice callback and only if it is the one that was current when the callback was
      made. It ends no stream role but its client's, for a stream callback only that one which was
      current then, and if the client publishes, those of the viewers of its stream. */
  lemma TeardownsExact(limits: S.Limits, before: seq<Step>, id: nat, c: Client)
    requires id in Exec(START, limits, before).callbacks
    ensures var w := Exec(START, limits, before);
            var v, b := Apply(w, limits, TearDown(id)), w.callbacks[id];
            && (c in w.voice.participants && c !in v.voice.participants ==>
                  c == b.client && b.kind.OfVoice? && b.captured == Some(w.voice.participants[c].generation))
            && (c in w.streams.roles && c !in v.streams.roles ==>
                  && b.client in w.streams.roles
                  && (b.kind.OfStream? ==> b.captured == Some(w.streams.roles[b.client].generation))
                  && (c != b.client ==>
                        && w.streams.roles[b.client].publishes && !w.streams.roles[c].publishes
                        && w.streams.roles[c].stream == w.streams.roles[b.client].stream))
            && (c in v.voice.participants ==>
                  c in w.voice.participants && v.voice.participants[c] == w.voice.participants[c])
            && (c in v.streams.roles ==> c in w.streams.roles && v.streams.roles[c] == w.streams.roles[c])
  {
    ExecInv(START, limits, before);
    assert CallbackSound(Exec(START, limits, before), id);
  }

  /** And it does end that generation, with the client's stream role, if the generation is still current
      when the callback checks and the client is not detached; otherwise it ends nothing, and leaves a
      detached client to whoever unregisters it. Either way it gives the lock back. */
  lemma CurrentIsTornDown(w: World, id: nat)
    requires Inv(w) && id in w.callbacks && w.callbacks[id].phase.Locked?
    ensures var b := w.callbacks[id];
            var v := TearDownCallback(TearDownCallback(CheckCallback(w, id), id), id);
            && v.callbacks[id].phase.Finished? && b.client.user !in v.locks
            && (if b.captured.Some? && Current(w, b.kind, b.client) == b.captured && b.client !in w.detached
                then Current(v, b.kind, b.client) == Current(v, OfStream, b.client) == None
                else v.voice == w.voice && v.streams == w.streams)
  {
  }

  /** A callback captures the generation that is current when it is made, for a client that is not detached;
      then it waits for its user's lock. */
  lemma CapturesCurrent(w: World, limits: S.Limits, id: nat, kind: Kind, client: Client)
    requires id !in w.callbacks
    ensures var v := Apply(w, limits, Make(id, kind, client));
            && id in v.callbacks && v.callbacks[id].kind == kind && v.callbacks[id].client == client
            && v.callbacks[id].phase.Made? && v.voice == w.voice && v.streams == w.streams && v.locks == w.locks
            && (client !in w.detached ==> v.callbacks[id].captured == Current(w, kind, client))
            && (client in w.detached ==> v.callbacks[id].captured == None)
            && (client.user !in w.locks ==> Holds(Apply(v, limits, Enter(id)), client.user, Handler(id)))
            && (client.user in w.locks ==> Apply(v, limits, Enter(id)) == v)
  {
  }

  /** Main result: a callback keeps what it captured, and once finished it never acts again. */
  lemma {:induction false} FiresOnce(w: World, limits: S.Limits, steps: seq<Step>, id: nat)
    requires id in w.callbacks
    ensures var v := Exec(w, limits, steps);
            && id in v.callbacks
            && v.callbacks[id] == w.callbacks[id].(phase := v.callbacks[id].phase)
            && (w.callbacks[id].phase.Finished? ==> v.callbacks[id].phase.Finished?)
    decreases |steps|
  {
    if steps != [] { FiresOnce(Apply(w, limits, steps[0]), limits, steps[1..], id); }
  }

  /** What a step does to the voice state is one operation of it, and to the streams likewise: joins and
      starts only under their user's lock, leaves and updates at any time, and teardowns. */
  ghost predicate MayJoin(w: World, step: Step) { step.Join? && Holds(w, step.client.user, Caller(step.thread)) }

  lemma StepsAreOperations(w: World, limits: S.Limits, step: Step)
    ensures var v := Apply(w, limits, step);
            match step
            case Join(_, client, server, channel, mute, deaf, device) =>
              v == if MayJoin(w, step)
                   then w.(voice := V.Apply(w.voice, V.Joining(client, server, channel, mute, deaf, device))) else w
            case Update(client, mute, deaf, video) =>
              v == w.(voice := V.Apply(w.voice, V.Updating(client, mute, deaf, video)))
            case LeaveVoice(clients) => v == w.(voice := V.Apply(w.voice, V.Removing(clients)))
            case LeaveStream(client) => v == w.(streams := S.Apply(w.streams, limits, S.Leaving(client)))
            case BeginStream(thread, op) =>
              v == if Beginner(op).Some? && Holds(w, Beginner(op).value.user, Caller(thread))
                   then w.(streams := S.Apply(w.streams, limits, op)) else w
            case Detach(client) => v == w.(detached := w.detached + {client})
            case Lock(user, thread) => user in w.locks || Holds(v, user, Caller(thread))
            case Unlock(user, thread) => Holds(w, user, Caller(thread)) ==> user !in v.locks
            case _ => true
  {
  }
}
