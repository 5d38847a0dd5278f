/** Device changes against voice joins. A join takes its user's media lock, checks its device in the
    database, and then joins. A device change commits first and then runs a callback, which takes
    the same lock, looks up the user's participant, checks the participant's device, and makes it
    leave unless the device is active. Leaves take no lock. A database check may fail. */
module DeviceRaces {
  import opened Clients
  import opened Options
  import V = VoiceState
  import D = Devices

  /** The device of a participant that does not encrypt. */
  const NO_DEVICE: DeviceId := 0

  datatype Joining = Waiting | Checked(client: Client, device: DeviceId)

  datatype Checking = Committed | Entered | Found(client: Client, device: DeviceId) | Evicting(client: Client)

  datatype Owner = Join(joining: Joining) | Callback(id: nat)

  datatype World = World(
    tables: map<UserId, D.Table>,
    voice: V.Voice,
    locks: map<UserId, Owner>,
    callbacks: map<nat, (UserId, Checking)>)

  const START := World(map[], V.NONE, map[], map[])

  function TableOf(w: World, user: UserId): D.Table { if user in w.tables then w.tables[user] else map[] }

  predicate IsActive(w: World, user: UserId, d: DeviceId) { d in D.Active(TableOf(w, user)) }

  datatype Step =
    | Register(user: UserId, device: DeviceId, publicKey: nat, now: int, out: set<DeviceId>, callback: nat)
    | Revoke(user: UserId, device: DeviceId, callback: nat)
    | LockJoin(user: UserId)
    | CheckJoin(client: Client, device: DeviceId, fails: bool)
    | FinishJoin(user: UserId, server: ServerId, channel: ChannelId, mute: bool, deaf: bool)
    | Abort(user: UserId)
    | Enter(callback: nat)
    | Look(callback: nat, seen: Option<Client>)
    | Query(callback: nat, fails: bool)
    | Evict(callback: nat)
    | Leave(clients: set<Client>)
    | Update(client: Client, mute: bool, deaf: bool, video: Option<bool>)

  /** A committed change leaves a callback behind. */
  function Commit(w: World, user: UserId, t: D.Table, callback: nat): World {
    w.(tables := w.tables[user := t], callbacks := w.callbacks[callback := (user, Committed)])
  }

  predicate Holds(w: World, user: UserId, owner: Owner) { user in w.locks && w.locks[user] == owner }

  function Done(w: World, id: nat): World
    requires id in w.callbacks
  {
    w.(callbacks := w.callbacks - {id}, locks := w.locks - {w.callbacks[id].0})
  }

  function To(w: World, id: nat, checking: Checking): World
    requires id in w.callbacks
  {
    w.(callbacks := w.callbacks[id := (w.callbacks[id].0, checking)])
  }

  predicate In(w: World, id: nat, checking: Checking) { id in w.callbacks && w.callbacks[id].1 == checking }

  /** What a callback finds: the user's connection if it encrypts. */
  predicate Sees(w: World, user: UserId, client: Option<Client>) {
    match client
    case Some(c) => c in V.OfUser(w.voice, user) && w.voice.participants[c].device != NO_DEVICE
    case None => forall c | c in V.OfUser(w.voice, user) :: w.voice.participants[c].device == NO_DEVICE
  }

  function Looked(w: World, id: nat, client: Option<Client>): World {
    if !In(w, id, Entered) || !Sees(w, w.callbacks[id].0, client) then w
    else if client.None? then Done(w, id)
    else To(w, id, Found(client.value, w.voice.participants[client.value].device))
  }

  function CheckedJoin(w: World, client: Client, device: DeviceId, fails: bool): World {
    if !Holds(w, client.user, Join(Waiting)) then w
    else if device != NO_DEVICE && (fails || !IsActive(w, client.user, device))
      then w.(locks := w.locks - {client.user})
    else w.(locks := w.locks[client.user := Join(Checked(client, device))])
  }

  function FinishedJoin(w: World, user: UserId, server: ServerId, channel: ChannelId, mute: bool, deaf: bool): World {
    if user !in w.locks || !w.locks[user].Join? || !w.locks[user].joining.Checked? then w
    else
      var Checked(client, device) := w.locks[user].joining;
      w.(voice := V.Join(w.voice, client, server, channel, mute, deaf, device), locks := w.locks - {user})
  }

  function Queried(w: World, id: nat, fails: bool): World {
    if id !in w.callbacks || !w.callbacks[id].1.Found? then w
    else
      var (user, Found(client, device)) := w.callbacks[id];
      if !fails && IsActive(w, user, device) then Done(w, id) else To(w, id, Evicting(client))
  }

  function Apply(w: World, step: Step): World {
    match step
    case Register(user, device, publicKey, now, out, callback) =>
      var t := TableOf(w, user);
      if callback in w.callbacks || D.RegisterOutcome(t, device, publicKey).Conflict? then w
      else if D.RegisterOutcome(t, device, publicKey).Registered? && !D.LeastRecent(t, D.Excess(t), out) then w
      else Commit(w, user, D.Register(t, device, publicKey, now, out), callback)
    case Revoke(user, device, callback) =>
      var t := TableOf(w, user);
      if callback in w.callbacks || !D.Revocable(t, device) then w else Commit(w, user, D.Revoke(t, device), callback)
    case LockJoin(user) => if user in w.locks then w else w.(locks := w.locks[user := Join(Waiting)])
    case CheckJoin(client, device, fails) => CheckedJoin(w, client, device, fails)
    case FinishJoin(user, server, channel, mute, deaf) => FinishedJoin(w, user, server, channel, mute, deaf)
    case Abort(user) => if user in w.locks && w.locks[user].Join? then w.(locks := w.locks - {user}) else w
    case Enter(callback) =>
      if In(w, callback, Committed) && w.callbacks[callback].0 !in w.locks
      then To(w, callback, Entered).(locks := w.locks[w.callbacks[callback].0 := Callback(callback)]) else w
    case Look(callback, seen) => Looked(w, callback, seen)
    case Query(callback, fails) => Queried(w, callback, fails)
    case Evict(callback) =>
      if callback in w.callbacks && w.callbacks[callback].1.Evicting?
      then Done(w, callback).(voice := V.Without(w.voice, {w.callbacks[callback].1.client})) else w
    case Leave(clients) => w.(voice := V.Without(w.voice, clients))
    case Update(client, mute, deaf, video) => w.(voice := V.Update(w.voice, client, mute, deaf, video))
  }

  function Exec(w: World, steps: seq<Step>): World
    decreases |steps|
  {
    if steps == [] then w else Exec(Apply(w, steps[0]), steps[1..])
  }

  // ---- The invariant ----

  /** A callback past its lock owns it and deals with a client of its user. */
  ghost predicate CallbackSound(w: World, id: nat)
    requires id in w.callbacks
  {
    var (user, checking) := w.callbacks[id];
    && (!checking.Committed? ==> Holds(w, user, Callback(id)))
    && (checking.Found? ==> checking.client.user == user)
    && (checking.Evicting? ==> checking.client.user == user)
  }

  ghost predicate Sound(w: World) {
    && V.Valid(w.voice)
    && (forall id | id in w.callbacks :: CallbackSound(w, id))
    && (forall u | u in w.locks && w.locks[u].Join? && w.locks[u].joining.Checked? ::
          w.locks[u].joining.client.user == u)
  }

  /** The callback will still look at this participant. */
  ghost predicate Guards(checking: Checking, c: Client, device: DeviceId) {
    match checking
    case Committed => true
    case Entered => true
    case Found(client, d) => client == c && d == device
    case Evicting(client) => client == c
  }

  ghost predicate Watched(w: World, c: Client, device: DeviceId) {
    exists id :: id in w.callbacks && w.callbacks[id].0 == c.user && Guards(w.callbacks[id].1, c, device)
  }

  ghost predicate Fine(w: World, c: Client, device: DeviceId) {
    device == NO_DEVICE || IsActive(w, c.user, device) || Watched(w, c, device)
  }

  ghost predicate Waits(w: World, user: UserId) { exists id :: In(w, id, Committed) && w.callbacks[id].0 == user }

  /** A participant, and a join about to become one, has an active device or is still to be checked. */
  ghost predicate AllFine(w: World) {
    forall c | c in w.voice.participants :: Fine(w, c, w.voice.participants[c].device)
  }

  ghost predicate JoinsFine(w: World) {
    forall u | u in w.locks && w.locks[u].Join? && w.locks[u].joining.Checked? ::
      var d := w.locks[u].joining.device;
      d == NO_DEVICE || IsActive(w, u, d) || Waits(w, u)
  }

  ghost predicate Bounded(w: World) {
    forall u: UserId :: |D.Active(TableOf(w, u))| <= D.MAX_ACTIVE_DEVICES
  }

  ghost predicate Inv(w: World) { Sound(w) && AllFine(w) && JoinsFine(w) && Bounded(w) }

  lemma SameTables(w: World, v: World)
    requires Bounded(w) && v.tables == w.tables
    ensures Bounded(v)
  {
    forall u: UserId ensures |D.Active(TableOf(v, u))| <= D.MAX_ACTIVE_DEVICES {
      assert TableOf(v, u) == TableOf(w, u);
    }
  }

  // A transaction: everyone of its user is to be checked again.

  lemma CommitFine(w: World, user: UserId, t: D.Table, callback: nat)
    requires AllFine(w) && callback !in w.callbacks
    ensures AllFine(Commit(w, user, t, callback))
  {
    var v := Commit(w, user, t, callback);
    forall c | c in v.voice.participants ensures Fine(v, c, v.voice.participants[c].device) {
      var d := v.voice.participants[c].device;
      assert Fine(w, c, d);
      if c.user == user {
        assert Guards(v.callbacks[callback].1, c, d);
      } else {
        assert TableOf(v, c.user) == TableOf(w, c.user);
        if Watched(w, c, d) { WatchKept(w, v, c, d); }
      }
    }
  }

  lemma CommitJoins(w: World, user: UserId, t: D.Table, callback: nat)
    requires JoinsFine(w) && callback !in w.callbacks
    ensures JoinsFine(Commit(w, user, t, callback))
  {
    var v := Commit(w, user, t, callback);
    assert In(v, callback, Committed);
    forall u | u in v.locks && v.locks[u].Join? && v.locks[u].joining.Checked? && u != user &&
        Waits(w, u) ensures Waits(v, u) {
      var id :| In(w, id, Committed) && w.callbacks[id].0 == u;
      assert In(v, id, Committed);
    }
  }

  lemma CommitInv(w: World, user: UserId, t: D.Table, callback: nat)
    requires Inv(w) && callback !in w.callbacks && |D.Active(t)| <= D.MAX_ACTIVE_DEVICES
    ensures Inv(Commit(w, user, t, callback))
  {
    var v := Commit(w, user, t, callback);
    CommitFine(w, user, t, callback);
    CommitJoins(w, user, t, callback);
    forall id | id in v.callbacks ensures CallbackSound(v, id) { assert id != callback ==> CallbackSound(w, id); }
    forall u: UserId ensures |D.Active(TableOf(v, u))| <= D.MAX_ACTIVE_DEVICES {
      assert u != user ==> TableOf(v, u) == TableOf(w, u);
    }
  }

  lemma WatchKept(w: World, v: World, c: Client, d: DeviceId)
    requires Watched(w, c, d)
    requires forall id | id in w.callbacks && w.callbacks[id].0 == c.user && Guards(w.callbacks[id].1, c, d) ::
               id in v.callbacks && v.callbacks[id] == w.callbacks[id]
    ensures Watched(v, c, d)
  {
    var id :| id in w.callbacks && w.callbacks[id].0 == c.user && Guards(w.callbacks[id].1, c, d);
    assert id in v.callbacks;
  }

  // The voice state or the locks change; callbacks and tables do not.

  /** Nobody is new, and everybody keeps their device. */
  ghost predicate SameDevices(before: V.Voice, after: V.Voice) {
    forall c | c in after.participants ::
      c in before.participants && after.participants[c].device == before.participants[c].device
  }

  lemma UpdatedDevices(v: V.Voice, client: Client, mute: bool, deaf: bool, video: Option<bool>)
    ensures SameDevices(v, V.Update(v, client, mute, deaf, video))
  {
  }

  lemma VoiceInv(w: World, voice: V.Voice)
    requires Inv(w) && V.Valid(voice) && SameDevices(w.voice, voice)
    ensures Inv(w.(voice := voice))
  {
    var v := w.(voice := voice);
    forall id | id in v.callbacks ensures CallbackSound(v, id) { assert CallbackSound(w, id); }
    forall c | c in v.voice.participants ensures Fine(v, c, v.voice.participants[c].device) {
      var d := w.voice.participants[c].device;
      assert Fine(w, c, d) && TableOf(v, c.user) == TableOf(w, c.user);
      if Watched(w, c, d) { WatchKept(w, v, c, d); }
    }
    SameTables(w, v);
    WaitsKept(w, v);
  }

  lemma LocksInv(w: World, user: UserId, locks: map<UserId, Owner>)
    requires Inv(w) && (user in w.locks ==> w.locks[user].Join?)
    requires forall u | u != user :: (u in locks <==> u in w.locks) && (u in locks ==> locks[u] == w.locks[u])
    requires user in locks && locks[user].Join? && locks[user].joining.Checked? ==>
               var Checked(client, d) := locks[user].joining;
               client.user == user && (d == NO_DEVICE || IsActive(w, user, d))
    ensures Inv(w.(locks := locks))
  {
    var v := w.(locks := locks);
    forall id | id in v.callbacks ensures CallbackSound(v, id) { assert CallbackSound(w, id); }
    forall c | c in v.voice.participants ensures Fine(v, c, v.voice.participants[c].device) {
      assert Fine(w, c, w.voice.participants[c].device);
      if Watched(w, c, w.voice.participants[c].device) { WatchKept(w, v, c, w.voice.participants[c].device); }
    }
    SameTables(w, v);
    forall u | u in v.locks && v.locks[u].Join? && v.locks[u].joining.Checked? && Waits(w, u) ensures Waits(v, u) {
      var id :| In(w, id, Committed) && w.callbacks[id].0 == u;
      assert In(v, id, Committed);
    }
  }

  // The steps of a join.

  lemma FinishFine(w: World, user: UserId, server: ServerId, channel: ChannelId, mute: bool, deaf: bool)
    requires Inv(w)
    ensures AllFine(FinishedJoin(w, user, server, channel, mute, deaf))
  {
    var v := FinishedJoin(w, user, server, channel, mute, deaf);
    if user in w.locks && w.locks[user].Join? && w.locks[user].joining.Checked? {
      var Checked(client, device) := w.locks[user].joining;
      forall c | c in v.voice.participants ensures Fine(v, c, v.voice.participants[c].device) {
        assert TableOf(v, c.user) == TableOf(w, c.user);
        if c == client {
          if Waits(w, user) {
            var id :| In(w, id, Committed) && w.callbacks[id].0 == user;
            assert id in v.callbacks && Guards(v.callbacks[id].1, c, device);
          }
        } else {
          var d := w.voice.participants[c].device;
          assert Fine(w, c, d);
          if Watched(w, c, d) { WatchKept(w, v, c, d); }
        }
      }
    }
  }

  lemma FinishInv(w: World, user: UserId, server: ServerId, channel: ChannelId, mute: bool, deaf: bool)
    requires Inv(w)
    ensures Inv(Apply(w, FinishJoin(user, server, channel, mute, deaf)))
  {
    FinishFine(w, user, server, channel, mute, deaf);
    var v := FinishedJoin(w, user, server, channel, mute, deaf);
    if user in w.locks && w.locks[user].Join? && w.locks[user].joining.Checked? {
      var Checked(client, device) := w.locks[user].joining;
      V.JoinValid(w.voice, client, server, channel, mute, deaf, device);
      forall id | id in v.callbacks ensures CallbackSound(v, id) { assert CallbackSound(w, id); }
      SameTables(w, v);
      WaitsKept(w, v);
    }
  }

  lemma WaitsKept(w: World, v: World)
    requires JoinsFine(w) && v.tables == w.tables
    requires forall u | u in v.locks && v.locks[u].Join? :: u in w.locks && v.locks[u] == w.locks[u]
    requires forall id | In(w, id, Committed) && w.callbacks[id].0 in v.locks && v.locks[w.callbacks[id].0].Join? ::
               In(v, id, Committed) && v.callbacks[id] == w.callbacks[id]
    ensures JoinsFine(v)
  {
    forall u | u in v.locks && v.locks[u].Join? && v.locks[u].joining.Checked?
      ensures var d := v.locks[u].joining.device; d == NO_DEVICE || IsActive(v, u, d) || Waits(v, u)
    {
      assert TableOf(v, u) == TableOf(w, u);
      if Waits(w, u) {
        var id :| In(w, id, Committed) && w.callbacks[id].0 == u;
        assert In(v, id, Committed);
      }
    }
  }

  // The steps of a callback: only its own entry and its user's lock change.

  ghost predicate Advances(w: World, v: World, id: nat)
    requires id in w.callbacks
  {
    && v.tables == w.tables
    && (forall i | i != id :: (i in v.callbacks <==> i in w.callbacks) && (i in v.callbacks ==>
        v.callbacks[i] == w.callbacks[i]))
    && (forall u | u != w.callbacks[id].0 :: (u in v.locks <==> u in w.locks) && (u in v.locks ==>
        v.locks[u] == w.locks[u]))
    && (w.callbacks[id].0 in v.locks ==> v.locks[w.callbacks[id].0] == Callback(id))
    && V.Valid(v.voice)
    && forall c | c in v.voice.participants :: c in w.voice.participants &&
        v.voice.participants[c] == w.voice.participants[c]
  }

  /** No participant that this callback guarded is dropped unchecked. */
  ghost predicate HandsOver(w: World, v: World, id: nat)
    requires id in w.callbacks
  {
    forall c | c in v.voice.participants && c.user == w.callbacks[id].0 ::
      var d := v.voice.participants[c].device;
      Guards(w.callbacks[id].1, c, d) ==>
        d == NO_DEVICE || IsActive(w, c.user, d) || (id in v.callbacks && v.callbacks[id].0 == c.user &&
            Guards(v.callbacks[id].1, c, d))
  }

  lemma AdvanceInv(w: World, v: World, id: nat)
    requires Inv(w) && id in w.callbacks && Advances(w, v, id) && HandsOver(w, v, id)
    requires id in v.callbacks ==> CallbackSound(v, id) && !v.callbacks[id].1.Committed?
    requires w.callbacks[id].1.Committed? ==> w.callbacks[id].0 !in w.locks
    requires !w.callbacks[id].1.Committed? ==> Holds(w, w.callbacks[id].0, Callback(id))
    ensures Inv(v)
  {
    forall i | i in v.callbacks ensures CallbackSound(v, i) { if i != id { assert CallbackSound(w, i); } }
    forall c | c in v.voice.participants ensures Fine(v, c, v.voice.participants[c].device) {
      var d := v.voice.participants[c].device;
      assert TableOf(v, c.user) == TableOf(w, c.user) && Fine(w, c, d);
      if Watched(w, c, d) { AdvanceFine(w, v, id, c, d); }
    }
    SameTables(w, v);
    WaitsKept(w, v);
  }

  lemma AdvanceFine(w: World, v: World, id: nat, c: Client, d: DeviceId)
    requires id in w.callbacks && Advances(w, v, id) && HandsOver(w, v, id)
    requires c in v.voice.participants && d == v.voice.participants[c].device && Watched(w, c, d)
    ensures Fine(v, c, d)
  {
    var i :| i in w.callbacks && w.callbacks[i].0 == c.user && Guards(w.callbacks[i].1, c, d);
    assert TableOf(v, c.user) == TableOf(w, c.user);
    if i != id { assert i in v.callbacks && v.callbacks[i] == w.callbacks[i]; }
  }

  lemma EnterInv(w: World, id: nat)
    requires Inv(w)
    ensures Inv(Apply(w, Enter(id)))
  {
    if In(w, id, Committed) && w.callbacks[id].0 !in w.locks {
      AdvanceInv(w, Apply(w, Enter(id)), id);
    }
  }

  lemma LookInv(w: World, id: nat, seen: Option<Client>)
    requires Inv(w)
    ensures Inv(Apply(w, Look(id, seen)))
  {
    if In(w, id, Entered) && Sees(w, w.callbacks[id].0, seen) {
      assert CallbackSound(w, id);
      AdvanceInv(w, Looked(w, id, seen), id);
    }
  }

  lemma QueryInv(w: World, id: nat, fails: bool)
    requires Inv(w)
    ensures Inv(Apply(w, Query(id, fails)))
  {
    if id in w.callbacks && w.callbacks[id].1.Found? {
      assert CallbackSound(w, id);
      AdvanceInv(w, Queried(w, id, fails), id);
    }
  }

  lemma EvictInv(w: World, id: nat)
    requires Inv(w)
    ensures Inv(Apply(w, Evict(id)))
  {
    if id in w.callbacks && w.callbacks[id].1.Evicting? {
      assert CallbackSound(w, id);
      V.WithoutValid(w.voice, {w.callbacks[id].1.client});
      AdvanceInv(w, Apply(w, Evict(id)), id);
    }
  }

  lemma TransactionInv(w: World, step: Step)
    requires Inv(w) && (step.Register? || step.Revoke?)
    ensures Inv(Apply(w, step))
  {
    var t := TableOf(w, step.user);
    if Apply(w, step) != w {
      match step {
        case Register(user, device, publicKey, now, out, callback) =>
          D.RegisterBounded(t, device, publicKey, now, out);
          CommitInv(w, user, D.Register(t, device, publicKey, now, out), callback);
        case Revoke(user, device, callback) =>
          D.RevokeBounded(t, device);
          CommitInv(w, user, D.Revoke(t, device), callback);
      }
    }
  }

  lemma JoinLocksInv(w: World, step: Step)
    requires Inv(w) && (step.LockJoin? || step.CheckJoin? || step.Abort?)
    ensures Inv(Apply(w, step))
  {
    var v := Apply(w, step);
    if v != w { LocksInv(w, if step.CheckJoin? then step.client.user else step.user, v.locks); }
  }

  lemma LeaveInv(w: World, clients: set<Client>)
    requires Inv(w)
    ensures Inv(Apply(w, Leave(clients)))
  {
    V.WithoutValid(w.voice, clients);
    VoiceInv(w, V.Without(w.voice, clients));
    assert Apply(w, Leave(clients)) == w.(voice := V.Without(w.voice, clients));
  }

  lemma UpdateInv(w: World, client: Client, mute: bool, deaf: bool, video: Option<bool>)
    requires Inv(w)
    ensures Inv(Apply(w, Update(client, mute, deaf, video)))
  {
    V.UpdateValid(w.voice, client, mute, deaf, video);
    UpdatedDevices(w.voice, client, mute, deaf, video);
    VoiceInv(w, V.Update(w.voice, client, mute, deaf, video));
    assert Apply(w, Update(client, mute, deaf, video)) == w.(voice := V.Update(w.voice, client, mute, deaf, video));
  }

  lemma ApplyInv(w: World, step: Step)
    requires Inv(w)
    ensures Inv(Apply(w, step))
  {
    match step {
      case Register(_, _, _, _, _, _) => TransactionInv(w, step);
      case Revoke(_, _, _) => TransactionInv(w, step);
      case LockJoin(_) => JoinLocksInv(w, step);
      case CheckJoin(_, _, _) => JoinLocksInv(w, step);
      case Abort(_) => JoinLocksInv(w, step);
      case FinishJoin(user, server, channel, mute, deaf) => FinishInv(w, user, server, channel, mute, deaf);
      case Enter(callback) => EnterInv(w, callback);
      case Look(callback, seen) => LookInv(w, callback, seen);
      case Query(callback, fails) => QueryInv(w, callback, fails);
      case Evict(callback) => EvictInv(w, callback);
      case Leave(clients) => LeaveInv(w, clients);
      case Update(client, mute, deaf, video) => UpdateInv(w, client, mute, deaf, video);
    }
  }

  lemma {:induction false} ExecInv(w: World, steps: seq<Step>)
    requires Inv(w)
    ensures Inv(Exec(w, steps))
    decreases |steps|
  {
    if steps != [] {
      ApplyInv(w, steps[0]);
      ExecInv(Apply(w, steps[0]), steps[1..]);
    }
  }

  // ---- Calls that run without interruption ----

  /** The join of a device that does not encrypt, or that the database says is active. */
  ghost predicate Joinable(w: World, client: Client, device: DeviceId, fails: bool) {
    device == NO_DEVICE || (!fails && client.user in w.tables && device in w.tables[client.user]
                            && !w.tables[client.user][device].revoked)
  }

  /** Main result: a join under its own lock takes effect exactly if its device may join; it gives the lock
      back either way, and changes nothing else. */
  lemma JoinsExactly(w: World, client: Client, device: DeviceId, fails: bool, server: ServerId, channel: ChannelId,
                     mute: bool, deaf: bool)
    requires client.user !in w.locks
    ensures var locked := Apply(w, LockJoin(client.user));
            var v := Apply(Apply(locked, CheckJoin(client, device, fails)),
                           FinishJoin(client.user, server, channel, mute, deaf));
            v == if Joinable(w, client, device, fails)
                 then w.(voice := V.Join(w.voice, client, server, channel, mute, deaf, device)) else w
  {
    var locked := Apply(w, LockJoin(client.user));
    var checked := Apply(locked, CheckJoin(client, device, fails));
    assert locked.locks - {client.user} == w.locks;
    assert checked.locks - {client.user} == w.locks;
  }

  /** A join that gives up gives its lock back. */
  lemma AbortsExactly(w: World, user: UserId)
    requires user !in w.locks
    ensures Apply(Apply(w, LockJoin(user)), Abort(user)) == w
  {
    assert Apply(w, LockJoin(user)).locks - {user} == w.locks;
  }

  ghost function AfterCallback(w: World, id: nat, seen: Option<Client>, fails: bool): World {
    Apply(Apply(Apply(Apply(w, Enter(id)), Look(id, seen)), Query(id, fails)), Evict(id))
  }

  /** Main result: the callback of a device change makes the participant of its user leave exactly if it
      encrypts with a device that is not active, or whose check fails; then callback and lock are gone. */
  lemma CallbackActsExactly(w: World, id: nat, seen: Option<Client>, fails: bool)
    requires In(w, id, Committed) && w.callbacks[id].0 !in w.locks && Sees(w, w.callbacks[id].0, seen)
    ensures var user, v := w.callbacks[id].0, AfterCallback(w, id, seen, fails);
            && v.callbacks == w.callbacks - {id} && v.locks == w.locks && v.tables == w.tables
            && v.voice == if seen.Some? && (fails || !IsActive(w, user, w.voice.participants[seen.value].device))
                          then V.Without(w.voice, {seen.value}) else w.voice
  {
    var user := w.callbacks[id].0;
    var entered := Apply(w, Enter(id));
    var looked := Apply(entered, Look(id, seen));
    var queried := Apply(looked, Query(id, fails));
    assert entered.locks - {user} == w.locks && entered.callbacks - {id} == w.callbacks - {id};
    assert looked.callbacks - {id} == w.callbacks - {id};
    assert queried.callbacks - {id} == w.callbacks - {id};
  }

  /** What it looks for: the participant of the user, if it encrypts. */
  lemma SeesExactly(w: World, user: UserId, c: Client)
    ensures Sees(w, user, Some(c)) <==>
            c in w.voice.participants && c.user == user && w.voice.participants[c].device != NO_DEVICE
    ensures Sees(w, user, None) <==>
            forall d: Client | d in w.voice.participants && d.user == user ::
              w.voice.participants[d].device == NO_DEVICE
  {
    if Sees(w, user, None) {
      forall d: Client | d in w.voice.participants && d.user == user
        ensures w.voice.participants[d].device == NO_DEVICE
      {
        assert d in V.OfUser(w.voice, user);
      }
    }
  }

  /** A device change takes effect exactly as in the table, and leaves a callback behind. */
  lemma ChangesExactly(w: World, user: UserId, device: DeviceId, publicKey: nat, now: int, out: set<DeviceId>, id: nat)
    requires id !in w.callbacks
    ensures var t, v := TableOf(w, user), Apply(w, Revoke(user, device, id));
            v == if device in D.Active(t) then Commit(w, user, D.Revoke(t, device), id) else w
    ensures var t, v := TableOf(w, user), Apply(w, Register(user, device, publicKey, now, out, id));
            && (D.RegisterOutcome(t, device, publicKey).Conflict? ==> v == w)
            && (D.RegisterOutcome(t, device, publicKey).Touched? ==>
                  v == Commit(w, user, D.Register(t, device, publicKey, now, out), id))
            && (D.RegisterOutcome(t, device, publicKey).Registered? && D.LeastRecent(t, D.Excess(t), out) ==>
                  v == Commit(w, user, D.Register(t, device, publicKey, now, out), id))
  {
  }

  // ---- Main results ----

  ghost predicate NothingPending(w: World, user: UserId) {
    forall id | id in w.callbacks :: w.callbacks[id].0 != user
  }

  /** Main result: whenever no device change of a user is waiting for its check, every participant of
      that user that encrypts does so with an active device. */
  lemma ParticipantsActive(steps: seq<Step>, c: Client)
    requires var w := Exec(START, steps); c in w.voice.participants && NothingPending(w, c.user)
    ensures var w := Exec(START, steps);
            var d := w.voice.participants[c].device;
            d == NO_DEVICE || (c.user in w.tables && d in w.tables[c.user] && !w.tables[c.user][d].revoked)
  {
    assert Inv(START);
    ExecInv(START, steps);
    var w := Exec(START, steps);
    assert Fine(w, c, w.voice.participants[c].device);
  }

  /** Main result: a user never has more than ten active devices. */
  lemma DevicesBounded(steps: seq<Step>, user: UserId)
    ensures |D.Active(TableOf(Exec(START, steps), user))| <= 10
  {
    assert Inv(START);
    ExecInv(START, steps);
  }

  /** Main result: a revoked device never becomes active again. */
  lemma {:induction false} RevokedForGood(w: World, steps: seq<Step>, user: UserId)
    ensures D.StaysRevoked(TableOf(w, user), TableOf(Exec(w, steps), user))
    decreases |steps|
  {
    if steps != [] {
      var v := Apply(w, steps[0]);
      RevokedStep(w, steps[0], user);
      RevokedForGood(v, steps[1..], user);
    }
  }

  lemma RevokedStep(w: World, step: Step, user: UserId)
    ensures D.StaysRevoked(TableOf(w, user), TableOf(Apply(w, step), user))
  {
    var v := Apply(w, step);
    if v.tables != w.tables {
      match step {
        case Register(u, device, publicKey, now, out, callback) =>
          D.TransactionsStayRevoked(TableOf(w, u), device, publicKey, now, out);
        case Revoke(u, device, callback) =>
      }
    }
  }
}
