/** Who is alerted about a channel message. Recipients are found from a union of indexed candidate
    sets instead of a scan of all members, and each delivery is recorded so that delivering the same
    message again alerts nobody twice. */
module Notifications {
  import opened Options

  type UserId = nat
  type MessageId = nat
  type Name = nat

  datatype Role = Owner | Admin | Member

  datatype Mode = All | Mentions | Off

  datatype User = User(name: Name, deleted: bool, banned: bool)

  /** The tables a delivery reads, for one channel and the thread of the message. */
  datatype Tables = Tables(
    users: map<UserId, User>,
    members: map<UserId, Role>,
    settings: map<UserId, Mode>,
    access: set<UserId>,
    following: set<UserId>,
    news: bool)

  datatype Targets = Targets(users: set<UserId>, names: set<Name>, roles: set<Role>)

  datatype Reply = Reply(author: UserId, deleted: bool)

  datatype Message = Message(author: UserId, thread: Option<MessageId>, forwarded: bool, targets: Targets,
      reply: Option<Reply>)

  // ---- Eligibility ----

  function DefaultMode(news: bool): Mode { if news then All else Mentions }

  function ModeOf(t: Tables, u: UserId): Mode { if u in t.settings then t.settings[u] else DefaultMode(t.news) }

  /** Only owners and admins may mention roles. */
  function Allowed(t: Tables, m: Message): Targets {
    if m.author in t.members && (t.members[m.author].Owner? || t.members[m.author].Admin?) then m.targets
    else m.targets.(roles := {})
  }

  predicate Matches(targets: Targets, u: UserId, name: Name, role: Role) {
    u in targets.users || role in targets.roles || name in targets.names
  }

  /** A thread's followers; an ordinary message has none. */
  predicate Follows(t: Tables, m: Message, u: UserId) { m.thread.Some? && u in t.following }

  /** The conditions on the account that hold for every recipient. */
  predicate Reachable(t: Tables, m: Message, u: UserId) {
    && u in t.users && u in t.members && u != m.author && !t.users[u].deleted && !t.users[u].banned
    && !ModeOf(t, u).Off? && u in t.access
  }

  predicate Mentioned(t: Tables, m: Message, u: UserId)
    requires u in t.users && u in t.members
  {
    && !m.forwarded
    && (Matches(Allowed(t, m), u, t.users[u].name, t.members[u]) ||
        (m.reply.Some? && !m.reply.value.deleted && m.reply.value.author == u))
  }

  /** Mode "all" counts outside threads only. */
  predicate Wanted(t: Tables, m: Message, u: UserId)
    requires u in t.users && u in t.members
  {
    (ModeOf(t, u).All? && m.thread.None?) || Mentioned(t, m, u) || Follows(t, m, u)
  }

  predicate Eligible(t: Tables, m: Message, u: UserId) { Reachable(t, m, u) && Wanted(t, m, u) }

  /** The recipients a scan of all members would select. */
  function Scan(t: Tables, m: Message): set<UserId> { set u | u in t.members && Eligible(t, m, u) }

  /** Main result: who is alerted, in terms of the tables alone. It is a member with an account in good
      standing and access, other than the author, that has not turned alerts off; and it wants all
      messages of the channel, or follows the thread, or is mentioned by an original message: by
      identity, by name, by a role that the author may mention, or by a reply. */
  lemma RecipientsExactly(t: Tables, m: Message, u: UserId)
    ensures u in Scan(t, m) <==>
            && u in t.users && u in t.members && u in t.access && u != m.author
            && !t.users[u].deleted && !t.users[u].banned
            && (if u in t.settings then t.settings[u] != Off else true)
            && (|| (m.thread.None? && (if u in t.settings then t.settings[u] == All else t.news))
                || (m.thread.Some? && u in t.following)
                || (&& !m.forwarded
                    && (|| u in m.targets.users
                        || t.users[u].name in m.targets.names
                        || (t.members[u] in m.targets.roles && m.author in t.members && t.members[m.author] != Member)
                        || (m.reply.Some? && m.reply.value.author == u && !m.reply.value.deleted))))
  {
  }

  // ---- Candidates ----

  function NamedUsers(m: Message, targets: Targets): set<UserId> {
    if m.forwarded then {}
    else targets.users + (if m.reply.Some? && !m.reply.value.deleted then {m.reply.value.author} else {})
  }

  function Candidates(t: Tables, m: Message): set<UserId> {
    var targets := Allowed(t, m);
    var names := if m.forwarded then {} else targets.names;
    var roles := if m.forwarded then {} else targets.roles;
    (if t.news && m.thread.None? then t.members.Keys else {})
    + (if m.thread.None? then set u | u in t.settings && t.settings[u].All? else {})
    + NamedUsers(m, targets)
    + (set u | u in t.users && t.users[u].name in names)
    + (set u | u in t.members && t.members[u] in roles)
    + (if m.thread.Some? then t.following else {})
  }

  /** Nobody eligible is missing from the candidates. */
  lemma EligibleIsCandidate(t: Tables, m: Message, u: UserId)
    requires Eligible(t, m, u)
    ensures u in Candidates(t, m)
  {
    if Mentioned(t, m, u) {
      var targets := Allowed(t, m);
      assert u in targets.users ==> u in NamedUsers(m, targets);
    }
  }

  /** Main result: filtering the candidate union selects exactly the recipients of a full scan. */
  lemma CandidatesExact(t: Tables, m: Message)
    ensures (set u | u in Candidates(t, m) && Eligible(t, m, u)) == Scan(t, m)
  {
    forall u | u in Scan(t, m) ensures u in Candidates(t, m) { EligibleIsCandidate(t, m, u); }
  }

  /** A candidate with an account and a membership wants the message, unless all members of a news
      channel are candidates. */
  lemma CandidatesWant(t: Tables, m: Message, u: UserId)
    requires u in Candidates(t, m) && u in t.users && u in t.members
    ensures Wanted(t, m, u) || (t.news && m.thread.None?)
  {
  }

  /** An ordinary message without mentions has no candidates beyond those with mode "all". */
  lemma OrdinaryCandidates(t: Tables, m: Message)
    requires !t.news && m.thread.None? && m.targets == Targets({}, {}, {}) && m.reply.None?
    ensures Candidates(t, m) == set u | u in t.settings && t.settings[u].All?
  {
  }

  /** The delivery loop: one pass over the joined candidate rows. */
  method SelectRecipients(t: Tables, m: Message) returns (ids: set<UserId>)
    ensures ids == Scan(t, m)
  {
    var targets := Allowed(t, m);
    ids := {};
    var left := Candidates(t, m);
    ghost var all := left;
    while left != {}
      invariant left <= all && ids == set u | u in all && u !in left && Eligible(t, m, u)
      decreases left
    {
      var id :| id in left;
      left := left - {id};
      if id in t.users && id in t.members && id != m.author && !t.users[id].deleted && !t.users[id].banned
         && ModeOf(t, id) != Off && id in t.access {
        var mentioned := !m.forwarded && (Matches(targets, id, t.users[id].name, t.members[id])
                         || (m.reply.Some? && !m.reply.value.deleted && m.reply.value.author == id));
        var following := m.thread.Some? && id in t.following;
        if !((ModeOf(t, id) != All || m.thread.Some?) && !mentioned && !following) {
          ids := ids + {id};
        }
      }
    }
    CandidatesExact(t, m);
  }

  // ---- Recording deliveries ----

  /** `rows` are the recorded notifications, `cursors` the read cursors, `alerts` what was delivered. */
  datatype Log = Log(
    messages: set<MessageId>,
    reach: set<UserId>,
    rows: set<(UserId, MessageId)>,
    cursors: map<UserId, MessageId>,
    alerts: seq<(UserId, MessageId)>,
    removed: set<UserId>)

  const EMPTY := Log({}, {}, {}, map[], [], {})

  predicate Unread(s: Log, u: UserId, m: MessageId) { u !in s.cursors || s.cursors[u] < m }

  /** A row is inserted for a live message, a user with access, beyond the cursor, and only once. */
  predicate Insertable(s: Log, u: UserId, m: MessageId) {
    m in s.messages && u in s.reach && Unread(s, u, m) && (u, m) !in s.rows
  }

  function DeliverTo(s: Log, m: MessageId, u: UserId): Log {
    if Insertable(s, u, m) then s.(rows := s.rows + {(u, m)}, alerts := s.alerts + [(u, m)]) else s
  }

  function Deliver(s: Log, m: MessageId, ids: seq<UserId>): Log
    decreases |ids|
  {
    if ids == [] then s else Deliver(DeliverTo(s, m, ids[0]), m, ids[1..])
  }

  /** Reading moves the cursor forward and clears the rows behind it. */
  function MarkRead(s: Log, u: UserId, m: MessageId): Log {
    if u !in s.reach || m !in s.messages || !Unread(s, u, m) then s
    else s.(cursors := s.cursors[u := m], rows := (set p | p in s.rows && !(p.0 == u && p.1 <= m)))
  }

  /** Leaving the server, or being removed from it, clears the user's rows and cursors. */
  function RemoveMember(s: Log, u: UserId): Log {
    s.(reach := s.reach - {u}, rows := (set p | p in s.rows && p.0 != u), cursors := s.cursors - {u},
        removed := s.removed + {u})
  }

  /** A delivery alerts exactly the listed users with access that have neither read past the live message
      nor been alerted, and it records them; nothing else changes. */
  lemma {:induction false} DeliversExactly(s: Log, m: MessageId, ids: seq<UserId>, u: UserId, n: MessageId)
    ensures var t := Deliver(s, m, ids);
            && t.messages == s.messages && t.reach == s.reach && t.cursors == s.cursors && t.removed == s.removed
            && ((u, n) in t.rows && (u, n) !in s.rows <==>
                  && n == m && u in ids && m in s.messages && u in s.reach && (u, m) !in s.rows
                  && (u in s.cursors ==> s.cursors[u] < m))
            && ((u, n) in s.rows ==> (u, n) in t.rows)
    decreases |ids|
  {
    if ids != [] { DeliversExactly(DeliverTo(s, m, ids[0]), m, ids[1..], u, n); }
  }

  /** Reading takes effect exactly for a user with access and a live message beyond the cursor: the cursor
      moves there, and exactly the user's rows up to it are cleared. */
  lemma ReadsExactly(s: Log, u: UserId, m: MessageId, p: (UserId, MessageId))
    ensures var t := MarkRead(s, u, m);
            if u in s.reach && m in s.messages && (u in s.cursors ==> s.cursors[u] < m)
            then && t == s.(cursors := s.cursors[u := m], rows := t.rows)
                 && (p in t.rows <==> p in s.rows && !(p.0 == u && p.1 <= m))
            else t == s
  {
  }

  /** The end of a membership forgets the user's access, cursor and rows, and nothing else. */
  lemma RemovesExactly(s: Log, u: UserId, v: UserId, p: (UserId, MessageId))
    ensures var t := RemoveMember(s, u);
            && t.messages == s.messages && t.alerts == s.alerts
            && (v in t.reach <==> v in s.reach && v != u) && (p in t.rows <==> p in s.rows && p.0 != u)
            && (v in t.cursors <==> v in s.cursors && v != u) && (v in t.cursors ==> t.cursors[v] == s.cursors[v])
  {
  }

  datatype Step =
    | Post(message: MessageId)
    | Erase(message: MessageId)
    | Delivering(message: MessageId, ids: seq<UserId>)
    | Reading(user: UserId, message: MessageId)
    | Admit(user: UserId)
    | Lose(user: UserId)
    | Remove(user: UserId)

  /** Message numbers are not reused; access may come and go without the membership ending. */
  function Apply(s: Log, step: Step): Log {
    match step
    case Post(message) =>
      if exists p | p in s.alerts :: p.1 == message then s else s.(messages := s.messages + {message})
    case Erase(message) => s.(messages := s.messages - {message}, rows := (set p | p in s.rows && p.1 != message))
    case Delivering(message, ids) => Deliver(s, message, ids)
    case Reading(user, message) => MarkRead(s, user, message)
    case Admit(user) => s.(reach := s.reach + {user})
    case Lose(user) => s.(reach := s.reach - {user})
    case Remove(user) => RemoveMember(s, user)
  }

  function Exec(s: Log, steps: seq<Step>): Log
    decreases |steps|
  {
    if steps == [] then s else Exec(Apply(s, steps[0]), steps[1..])
  }

  /** Something still tells that the alert was given. */
  predicate Guarded(s: Log, u: UserId, m: MessageId) { (u, m) in s.rows || !Unread(s, u, m) || m !in s.messages }

  ghost predicate Inv(s: Log) {
    && (forall i | 0 <= i < |s.alerts| :: Guarded(s, s.alerts[i].0, s.alerts[i].1) || s.alerts[i].0 in s.removed)
    && (forall i, j | 0 <= i < j < |s.alerts| && s.alerts[i] == s.alerts[j] :: s.alerts[i].0 in s.removed)
  }

  lemma {:induction false} DeliverInv(s: Log, m: MessageId, ids: seq<UserId>)
    requires Inv(s)
    ensures Inv(Deliver(s, m, ids)) && Deliver(s, m, ids).removed == s.removed
    decreases |ids|
  {
    if ids != [] {
      if Insertable(s, ids[0], m) {
        var t := s.(rows := s.rows + {(ids[0], m)}, alerts := s.alerts + [(ids[0], m)]);
        forall i | 0 <= i < |t.alerts| ensures Guarded(t, t.alerts[i].0, t.alerts[i].1) || t.alerts[i].0 in t.removed {
          if i < |s.alerts| { assert t.alerts[i] == s.alerts[i]; }
        }
        forall i, j | 0 <= i < j < |t.alerts| && t.alerts[i] == t.alerts[j] ensures t.alerts[i].0 in t.removed {
          assert t.alerts[i] == s.alerts[i];
        }
        DeliverInv(t, m, ids[1..]);
      } else {
        DeliverInv(s, m, ids[1..]);
      }
    }
  }

  lemma ApplyInv(s: Log, step: Step)
    requires Inv(s)
    ensures Inv(Apply(s, step))
  {
    match step {
      case Post(message) =>
      case Erase(message) =>
      case Delivering(message, ids) => DeliverInv(s, message, ids);
      case Reading(user, message) =>
      case Admit(user) =>
      case Lose(user) =>
      case Remove(user) =>
    }
  }

  lemma {:induction false} ExecInv(s: Log, steps: seq<Step>)
    requires Inv(s)
    ensures Inv(Exec(s, steps))
    decreases |steps|
  {
    if steps != [] {
      ApplyInv(s, steps[0]);
      ExecInv(Apply(s, steps[0]), steps[1..]);
    }
  }

  /** Main result: however often and in whatever order messages are delivered, read and erased, a user
      whose membership never ended is alerted at most once about each message. */
  lemma AlertedOnce(steps: seq<Step>, i: nat, j: nat)
    requires var s := Exec(EMPTY, steps);
        i < |s.alerts| && j < |s.alerts| && s.alerts[i] == s.alerts[j] && s.alerts[i].0 !in s.removed
    ensures i == j
  {
    ExecInv(EMPTY, steps);
  }

  /** Main result: delivering a message again alerts a user again exactly when nothing tells any more
      that it was delivered, which takes the end of the membership in between. */
  lemma RepeatsExactly(s: Log, u: UserId, m: MessageId)
    requires Inv(s) && (u, m) in s.alerts && u in s.reach
    ensures |Deliver(s, m, [u]).alerts| > |s.alerts| <==> !Guarded(s, u, m)
    ensures !Guarded(s, u, m) ==> u in s.removed
  {
    var i :| 0 <= i < |s.alerts| && s.alerts[i] == (u, m);
    assert [u][1..] == [];
    assert Deliver(s, m, [u]).alerts == if Insertable(s, u, m) then s.alerts + [(u, m)] else s.alerts;
  }

  /** How often a user was alerted about a message. */
  ghost function Times(s: Log, u: UserId, m: MessageId): nat { multiset(s.alerts)[(u, m)] }

  lemma DeliverToTimes(s: Log, m: MessageId, to: UserId, u: UserId, n: MessageId)
    ensures var t := DeliverTo(s, m, to);
            && (Guarded(s, u, n) ==> Guarded(t, u, n) && Times(t, u, n) == Times(s, u, n))
            && Times(s, u, n) <= Times(t, u, n) <= Times(s, u, n) + 1
            && (Times(t, u, n) > Times(s, u, n) ==> Guarded(t, u, n))
  {
  }

  /** One delivery alerts a user at most once, and leaves a trace of it. */
  lemma {:induction false} DeliverTimes(s: Log, m: MessageId, ids: seq<UserId>, u: UserId, n: MessageId)
    ensures var t := Deliver(s, m, ids);
            && (Guarded(s, u, n) ==> Guarded(t, u, n) && Times(t, u, n) == Times(s, u, n))
            && Times(s, u, n) <= Times(t, u, n) <= Times(s, u, n) + 1
            && (Times(t, u, n) > Times(s, u, n) ==> Guarded(t, u, n))
    decreases |ids|
  {
    if ids != [] {
      DeliverToTimes(s, m, ids[0], u, n);
      DeliverTimes(DeliverTo(s, m, ids[0]), m, ids[1..], u, n);
    }
  }

  lemma {:induction false} DeliverKeepsAlerts(s: Log, m: MessageId, ids: seq<UserId>)
    ensures s.alerts <= Deliver(s, m, ids).alerts
    decreases |ids|
  {
    if ids != [] { DeliverKeepsAlerts(DeliverTo(s, m, ids[0]), m, ids[1..]); }
  }

  lemma StepTimes(s: Log, step: Step, u: UserId, m: MessageId)
    ensures s.alerts <= Apply(s, step).alerts
    ensures Times(s, u, m) <= Times(Apply(s, step), u, m) <= Times(s, u, m) + 1
    ensures Times(Apply(s, step), u, m) > Times(s, u, m) ==> Guarded(Apply(s, step), u, m)
    ensures (u, m) in s.alerts && Guarded(s, u, m) && step != Remove(u) ==>
              Guarded(Apply(s, step), u, m) && Times(Apply(s, step), u, m) == Times(s, u, m)
  {
    if step.Delivering? {
      DeliverTimes(s, step.message, step.ids, u, m);
      DeliverKeepsAlerts(s, step.message, step.ids);
    }
  }

  /** While the membership lasts, an alert that left its trace is not given again. */
  lemma {:induction false} NoRepeat(s: Log, steps: seq<Step>, u: UserId, m: MessageId)
    requires (u, m) in s.alerts && Guarded(s, u, m) && Remove(u) !in steps
    ensures Guarded(Exec(s, steps), u, m) && Times(Exec(s, steps), u, m) == Times(s, u, m)
    ensures (u, m) in Exec(s, steps).alerts
    decreases |steps|
  {
    if steps != [] {
      StepTimes(s, steps[0], u, m);
      NoRepeat(Apply(s, steps[0]), steps[1..], u, m);
    }
  }

  lemma {:induction false} ExecSplit(s: Log, before: seq<Step>, after: seq<Step>)
    ensures Exec(s, before + after) == Exec(Exec(s, before), after)
    decreases |before|
  {
    if before == [] {
      assert before + after == after;
    } else {
      assert (before + after)[0] == before[0] && (before + after)[1..] == before[1..] + after;
      ExecSplit(Apply(s, before[0]), before[1..], after);
    }
  }

  /** The step at this place of a run alerts the user about the message. */
  ghost predicate AlertsAt(s: Log, steps: seq<Step>, i: nat, u: UserId, m: MessageId)
    requires i < |steps|
  {
    var t := Exec(s, steps[..i]);
    Times(Apply(t, steps[i]), u, m) > Times(t, u, m)
  }

  /** Main result: over every run, one step alerts a user about a message at most once, and a second
      step does so only if the membership ended since the first. */
  lemma RepeatNeedsRemoval(s: Log, steps: seq<Step>, first: nat, second: nat, u: UserId, m: MessageId)
    requires first < second < |steps| && AlertsAt(s, steps, first, u, m) && AlertsAt(s, steps, second, u, m)
    ensures Remove(u) in steps[first + 1..second]
    ensures Times(Exec(s, steps[..first + 1]), u, m) == Times(Exec(s, steps[..first]), u, m) + 1
  {
    var t := Exec(s, steps[..first]);
    var after := Exec(s, steps[..first + 1]);
    assert steps[..first + 1] == steps[..first] + [steps[first]];
    ExecSplit(s, steps[..first], [steps[first]]);
    assert after == Apply(t, steps[first]);
    StepTimes(t, steps[first], u, m);
    assert steps[..second] == steps[..first + 1] + steps[first + 1..second];
    ExecSplit(s, steps[..first + 1], steps[first + 1..second]);
    if Remove(u) !in steps[first + 1..second] {
      assert (u, m) in multiset(after.alerts);
      NoRepeat(after, steps[first + 1..second], u, m);
      StepTimes(Exec(s, steps[..second]), steps[second], u, m);
    }
  }

  lemma Then(s: Log, step: Step, rest: seq<Step>)
    ensures Exec(s, [step] + rest) == Exec(Apply(s, step), rest)
  {
    assert ([step] + rest)[0] == step && ([step] + rest)[1..] == rest;
  }

  lemma DeliverOne(s: Log, u: UserId, m: MessageId)
    requires Insertable(s, u, m)
    ensures Deliver(s, m, [u]) == s.(rows := s.rows + {(u, m)}, alerts := s.alerts + [(u, m)])
  {
    assert [u][1..] == [];
  }

  lemma AdmitAndDeliver(s: Log, rest: seq<Step>)
    requires s.messages == {1} && s.reach == {} && s.rows == {} && s.cursors == map[]
    ensures Exec(s, [Admit(1)] + ([Delivering(1, [1])] + rest))
            == Exec(s.(reach := {1}, rows := {(1, 1)}, alerts := s.alerts + [(1, 1)]), rest)
  {
    var t := s.(reach := {1});
    Then(s, Admit(1), [Delivering(1, [1])] + rest);
    assert Apply(s, Admit(1)) == t;
    Then(t, Delivering(1, [1]), rest);
    DeliverOne(t, 1, 1);
    assert t.rows + {(1, 1)} == {(1, 1)};
  }

  lemma LeaveAndReturn()
    ensures var s := Log({1}, {1}, {(1, 1)}, map[], [(1, 1)], {});
            Exec(s, [Remove(1)] + ([Admit(1)] + ([Delivering(1, [1])] + []))).alerts == [(1, 1), (1, 1)]
  {
    var s := Log({1}, {1}, {(1, 1)}, map[], [(1, 1)], {});
    Then(s, Remove(1), [Admit(1)] + ([Delivering(1, [1])] + []));
    var t := Log({1}, {}, {}, map[], [(1, 1)], {1});
    assert Apply(s, Remove(1)) == t;
    AdmitAndDeliver(t, []);
  }

  /** It does happen: a member who leaves and comes back is alerted again. */
  lemma ReturningMemberAlertedTwice()
    ensures exists steps: seq<Step> :: |Exec(EMPTY, steps).alerts| == 2 && Exec(EMPTY, steps).alerts == [(1, 1), (1, 1)]
  {
    var again := [Remove(1)] + ([Admit(1)] + ([Delivering(1, [1])] + []));
    var steps := [Post(1)] + ([Admit(1)] + ([Delivering(1, [1])] + again));
    Then(EMPTY, Post(1), [Admit(1)] + ([Delivering(1, [1])] + again));
    var s1 := EMPTY.(messages := {1});
    assert Apply(EMPTY, Post(1)) == s1;
    AdmitAndDeliver(s1, again);
    assert s1.alerts + [(1, 1)] == [(1, 1)];
    LeaveAndReturn();
    assert Exec(EMPTY, steps).alerts == [(1, 1), (1, 1)];
  }

  /** Cursors only move forward while the membership lasts. */
  lemma {:induction false} CursorMonotone(s: Log, steps: seq<Step>, u: UserId)
    requires u in s.cursors && u !in Exec(s, steps).removed
    ensures u in Exec(s, steps).cursors && s.cursors[u] <= Exec(s, steps).cursors[u]
    decreases |steps|
  {
    if steps != [] {
      var t := Apply(s, steps[0]);
      CursorStep(s, steps[0], u);
      RemovedGrows(t, steps[1..], u);
      CursorMonotone(t, steps[1..], u);
    }
  }

  lemma CursorStep(s: Log, step: Step, u: UserId)
    requires u in s.cursors
    ensures var t := Apply(s, step); u in t.removed || (u in t.cursors && s.cursors[u] <= t.cursors[u])
  {
    if step.Delivering? { DeliverReads(s, step.message, step.ids); }
  }

  lemma {:induction false} DeliverReads(s: Log, m: MessageId, ids: seq<UserId>)
    ensures Deliver(s, m, ids).cursors == s.cursors && Deliver(s, m, ids).removed == s.removed
    decreases |ids|
  {
    if ids != [] {
      DeliverReads(DeliverTo(s, m, ids[0]), m, ids[1..]);
    }
  }

  lemma {:induction false} RemovedGrows(s: Log, steps: seq<Step>, u: UserId)
    ensures u in s.removed ==> u in Exec(s, steps).removed
    decreases |steps|
  {
    if steps != [] {
      if steps[0].Delivering? { DeliverReads(s, steps[0].message, steps[0].ids); }
      RemovedGrows(Apply(s, steps[0]), steps[1..], u);
    }
  }

  /** The table of recorded deliveries; one transaction per call. */
  class Recorder {
    var log: Log

    constructor ()
      ensures log == EMPTY
    {
      log := EMPTY;
    }

    /** Returns the users that are to be alerted now. */
    method PersistDeliveries(m: MessageId, ids: seq<UserId>) returns (inserted: set<UserId>)
      modifies this
      ensures log == Deliver(old(log), m, ids)
      ensures inserted == set u | u in ids && Insertable(old(log), u, m)
    {
      inserted := {};
      var i := 0;
      while i < |ids|
        invariant 0 <= i <= |ids| && Deliver(old(log), m, ids) == Deliver(log, m, ids[i..])
        invariant log == old(log).(rows := log.rows, alerts := log.alerts)
        invariant log.rows == old(log).rows + (set u | u in inserted :: (u, m))
        invariant inserted == set u | u in ids[..i] && Insertable(old(log), u, m)
      {
        var u := ids[i];
        assert ids[i..][0] == u && ids[i..][1..] == ids[i + 1..] && ids[..i + 1] == ids[..i] + [u];
        if Insertable(log, u, m) {
          log := log.(rows := log.rows + {(u, m)}, alerts := log.alerts + [(u, m)]);
          inserted := inserted + {u};
        }
        i := i + 1;
      }
      assert ids[..i] == ids;
    }
  }
}
