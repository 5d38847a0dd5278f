/** Order, fairness and secrecy of the outgoing queue over whole runs. */
module OutgoingOrder {
  import opened Options
  import opened OutgoingEvents
  import opened OutgoingQueue
  import opened OutgoingRuns
  import opened Sequences

  /** Ordinary events the queue may neither coalesce, shed nor compact. */
  predicate Critical(e: Event) {
    !e.kind.MediaType? && ReplacementKey(e) == NoKey && !Transient(e) && !Delta(e) && !e.kind.SyncRequired?
  }

  predicate Media(e: Event) { e.kind.MediaType? }

  // ---- Hidden channels ----

  lemma {:induction false} SiftVisible(access: Access, s: seq<Event>)
    ensures forall x <- Sift(Censor(access), s) :: Visible(access, x)
  {
    if s != [] {
      SiftVisible(access, s[..|s| - 1]);
    }
  }

  ghost predicate AllVisible(l: Ledger) {
    && Bounded(l.queue)
    && (forall x <- l.queue.outgoing :: Visible(l.access, x))
    && (forall x <- l.queue.priority :: Visible(l.access, x))
  }

  lemma StepVisible(l: Ledger, op: Op)
    requires AllVisible(l)
    ensures AllVisible(Step(l, op))
  {
    StepBounded(l, op);
    match op
    case Send(event, ctx) =>
      var (e, allowed) := FilterChannelEvent(l.access, event);
      var lane := Step(l, op).queue.outgoing;
      if allowed && !Media(e) {
        AdmittedMembers(l.queue.outgoing, ctx, e);
        forall i | 0 <= i < |lane| ensures Visible(l.access, lane[i]) {
          if lane[i] !in l.queue.outgoing && lane[i] != e {
            var d :| d in l.queue.outgoing && Reducible(ctx, d) && lane[i] == MarkerOf(ctx, MessageChannel(d));
          }
        }
      }
    case Receive =>
    case SetAccess(access) =>
      SiftVisible(access, l.queue.outgoing);
      SiftVisible(access, l.queue.priority);
  }

  lemma {:induction false} ExecVisible(l: Ledger, ops: seq<Op>)
    requires AllVisible(l)
    ensures AllVisible(Exec(l, ops))
    decreases |ops|
  {
    if ops != [] {
      StepVisible(l, ops[0]);
      ExecVisible(Step(l, ops[0]), ops[1..]);
    }
  }

  /** Main result: after any run, the next event the writer pops shows nothing of a channel that
      the policy in force hides, even if it was queued under an earlier policy. */
  lemma PopRespectsPolicy(ops: seq<Op>)
    ensures var l := Exec(START, ops);
            var event := Pop(l.queue).event;
            event.Some? ==> forall c: int | Shows(event.value.data, c) :: CanAccess(l.access, c)
  {
    ExecVisible(START, ops);
    var l := Exec(START, ops);
    assert Pop(l.queue).event.Some? ==> Visible(l.access, Pop(l.queue).event.value);
  }

  // ---- Exactly once, in order ----

  lemma {:induction false} CompactFromCritical(ctx: Context, s: seq<Event>, i: nat, channelID: int)
    requires i <= |s| == BUFFER
    ensures Filter(Critical, CompactFrom(ctx, s, i, channelID).lane) == Filter(Critical, s)
    ensures CompactFrom(ctx, s, i, channelID).covered ==> channelID > 0
    decreases BUFFER - i
  {
    if i < |s| {
      if !Reducible(ctx, s[i]) {
        CompactFromCritical(ctx, s, i + 1, channelID);
      } else {
        var c := MessageChannel(s[i]);
        CollapseFilter(DeltaOf(c), s, MarkerOf(ctx, c), Critical);
        var lane := Compact(ctx, s, c);
        if c != channelID && |lane| == BUFFER {
          CompactFromCritical(ctx, lane, i + 1, channelID);
        }
      }
    }
  }

  /** What an admission replaces, suppresses or sheds is not critical, and compaction moves nothing
      critical. */
  ghost predicate SparesCritical(s: seq<Event>, e: Event, a: Admission) {
    match a
    case Replaces(i) => i < |s| && !Critical(s[i]) && !Critical(e)
    case UnderMarker => !Critical(e)
    case Ignored => !Critical(e)
    case Appended => true
    case Sheds(t) => t < |s| && !Critical(s[t])
    case Compacts(c) => Filter(Critical, c.lane) == Filter(Critical, s) && (c.covered ==> !Critical(e))
  }

  lemma SparedInOrder(s: seq<Event>, e: Event, a: Admission)
    requires SparesCritical(s, e, a)
    ensures Filter(Critical, Admitted(s, e, a)) ==
            Filter(Critical, s) + (if Accepted(a) && Critical(e) then [e] else [])
  {
    match a
    case Replaces(i) => FilterReplace(Critical, s, i, e);
    case UnderMarker =>
    case Ignored =>
    case Appended => FilterPush(Critical, s, e);
    case Sheds(t) =>
      FilterDropAt(Critical, s, t);
      FilterPush(Critical, Drop(s, t), e);
    case Compacts(c) =>
      FilterPush(Critical, c.lane, e);
  }

  lemma AdmitSpares(s: seq<Event>, ctx: Context, e: Event)
    requires |s| <= BUFFER && !e.kind.SyncRequired? && !e.kind.MediaType?
    ensures SparesCritical(s, e, Admit(s, ctx, e))
  {
    match Admit(s, ctx, e)
    case Replaces(i) =>
    case UnderMarker =>
    case Ignored =>
    case Appended =>
    case Sheds(t) =>
    case Compacts(c) => CompactFromCritical(ctx, s, 0, MessageChannel(e));
  }

  /** Admitting an event adds an accepted critical one at the end and moves no other one. */
  lemma AdmitCritical(s: seq<Event>, ctx: Context, e: Event)
    requires |s| <= BUFFER && !e.kind.SyncRequired? && !e.kind.MediaType?
    ensures var a := Admit(s, ctx, e);
            Filter(Critical, Admitted(s, e, a)) ==
            Filter(Critical, s) + (if Accepted(a) && Critical(e) then [e] else [])
  {
    AdmitSpares(s, ctx, e);
    SparedInOrder(s, e, Admit(s, ctx, e));
  }

  function Events(accepted: seq<(Event, nat)>): (r: seq<Event>)
    ensures |r| == |accepted|
  {
    seq(|accepted|, i requires 0 <= i < |accepted| => accepted[i].0)
  }

  /** What was accepted of either kind is what was popped followed by what is still queued. */
  ghost predicate CriticalInOrder(l: Ledger) {
    Filter(Critical, Events(l.accepted)) == Filter(Critical, l.popped) + Filter(Critical, l.queue.outgoing)
  }

  ghost predicate MediaInOrder(l: Ledger) {
    Filter(Media, Events(l.accepted)) == Filter(Media, l.popped) + l.queue.priority
  }

  ghost predicate LanesApart(q: Queue) {
    && Bounded(q)
    && (forall x <- q.outgoing :: !Media(x))
    && (forall x <- q.priority :: Media(x))
  }

  /** A run that revokes nothing: every installed policy shows at least what the one before showed.
      Markers come only from compaction. */
  ghost predicate Unrevoked(access: Access, ops: seq<Op>)
    decreases |ops|
  {
    ops == [] ||
    match ops[0]
    case Send(e, _) => !e.kind.SyncRequired? && Unrevoked(access, ops[1..])
    case Receive => Unrevoked(access, ops[1..])
    case SetAccess(after) => Widens(access, after) && Unrevoked(after, ops[1..])
  }

  /** Installing a wider policy leaves a lane alone. */
  lemma WiderLane(before: Access, after: Access, s: seq<Event>)
    requires Widens(before, after) && forall x <- s :: Visible(before, x)
    ensures Sift(Censor(after), s) == s
  {
    forall i | 0 <= i < |s| ensures Censor(after)(s[i]) == (s[i], true) {
      assert Visible(before, s[i]);
      FilterExactly(after, s[i]);
    }
    SiftSame(Censor(after), s);
  }

  lemma WiderInstall(l: Ledger, after: Access)
    requires AllVisible(l) && Widens(l.access, after)
    ensures Step(l, SetAccess(after)) == l.(access := after)
  {
    WiderLane(l.access, after, l.queue.outgoing);
    WiderLane(l.access, after, l.queue.priority);
  }

  lemma EnqueueApart(q: Queue, ctx: Context, e: Event)
    requires LanesApart(q)
    ensures LanesApart(Enqueue(q, ctx, e).queue)
  {
    if !Media(e) {
      AdmittedMembers(q.outgoing, ctx, e);
      EnqueueBounded(q, ctx, e);
    }
  }

  lemma SendInOrder(l: Ledger, op: Op)
    requires LanesApart(l.queue) && CriticalInOrder(l) && MediaInOrder(l) && op.Send? && !op.event.kind.SyncRequired?
    ensures LanesApart(Step(l, op).queue) && CriticalInOrder(Step(l, op)) && MediaInOrder(Step(l, op))
  {
    var (e, allowed) := FilterChannelEvent(l.access, op.event);
    var q, r := l.queue, Enqueue(l.queue, op.ctx, e);
    if allowed {
      EnqueueApart(q, op.ctx, e);
      if !Media(e) { AdmitCritical(q.outgoing, op.ctx, e); }
      SendExtends(l, r.queue, e, r.accepted);
    }
  }

  /** The two order equations survive an accepted event that went to the end of its lane. */
  lemma SendExtends(l: Ledger, q: Queue, e: Event, accepted: bool)
    requires CriticalInOrder(l) && MediaInOrder(l)
    requires Filter(Critical, q.outgoing) ==
             Filter(Critical, l.queue.outgoing) + (if accepted && Critical(e) then [e] else [])
    requires q.priority == l.queue.priority + (if accepted && Media(e) then [e] else [])
    ensures var l' := l.(queue := q, accepted := if accepted then l.accepted + [(e, |l.popped|)] else l.accepted);
            CriticalInOrder(l') && MediaInOrder(l')
  {
    if accepted {
      var known := Events(l.accepted);
      assert Events(l.accepted + [(e, |l.popped|)]) == known + [e];
      PushBehind(Critical, known, Filter(Critical, l.popped), Filter(Critical, l.queue.outgoing), e);
      PushBehind(Media, known, Filter(Media, l.popped), l.queue.priority, e);
    }
  }

  lemma PushBehind(p: Event -> bool, known: seq<Event>, popped: seq<Event>, lane: seq<Event>, e: Event)
    requires Filter(p, known) == popped + lane
    ensures Filter(p, known + [e]) == popped + (lane + (if p(e) then [e] else []))
  {
    FilterPush(p, known, e);
    Reassociate(popped, lane, e);
  }

  lemma Reassociate(a: seq<Event>, b: seq<Event>, x: Event)
    ensures a + (b + [x]) == (a + b) + [x]
    ensures a + ([x] + b) == (a + [x]) + b
  {
  }

  lemma MediaTaken(l: Ledger)
    requires LanesApart(l.queue) && CriticalInOrder(l) && MediaInOrder(l) && PopsMedia(l.queue)
    ensures LanesApart(Step(l, Receive).queue) && CriticalInOrder(Step(l, Receive)) && MediaInOrder(Step(l, Receive))
  {
    var x := l.queue.priority[0];
    assert Media(x) && !Critical(x);
    FilterPush(Critical, l.popped, x);
    FilterPush(Media, l.popped, x);
    TakeHead(Filter(Media, l.popped), l.queue.priority);
  }

  lemma OrdinaryTaken(l: Ledger)
    requires LanesApart(l.queue) && CriticalInOrder(l) && MediaInOrder(l)
    requires !PopsMedia(l.queue) && l.queue.outgoing != []
    ensures LanesApart(Step(l, Receive).queue) && CriticalInOrder(Step(l, Receive)) && MediaInOrder(Step(l, Receive))
  {
    var x := l.queue.outgoing[0];
    assert !Media(x);
    FilterPush(Media, l.popped, x);
    MoveHead(Critical, l.popped, l.queue.outgoing);
  }

  /** Moving the head of one sequence to the end of another keeps the order of what is selected. */
  lemma MoveHead(p: Event -> bool, a: seq<Event>, b: seq<Event>)
    requires b != []
    ensures Filter(p, a + [b[0]]) + Filter(p, b[1..]) == Filter(p, a) + Filter(p, b)
  {
    FilterPush(p, a, b[0]);
    FilterHead(p, b);
    if p(b[0]) { Reassociate(Filter(p, a), Filter(p, b[1..]), b[0]); }
  }

  lemma ReceiveInOrder(l: Ledger)
    requires LanesApart(l.queue) && CriticalInOrder(l) && MediaInOrder(l)
    ensures LanesApart(Step(l, Receive).queue) && CriticalInOrder(Step(l, Receive)) && MediaInOrder(Step(l, Receive))
  {
    if PopsMedia(l.queue) {
      MediaTaken(l);
    } else if l.queue.outgoing != [] {
      OrdinaryTaken(l);
    }
  }

  lemma TakeHead(a: seq<Event>, b: seq<Event>)
    requires b != []
    ensures a + b == (a + [b[0]]) + b[1..]
  {
  }

  lemma {:induction false} ExecInOrder(l: Ledger, ops: seq<Op>)
    requires LanesApart(l.queue) && CriticalInOrder(l) && MediaInOrder(l)
    requires AllVisible(l) && Unrevoked(l.access, ops)
    ensures LanesApart(Exec(l, ops).queue) && CriticalInOrder(Exec(l, ops)) && MediaInOrder(Exec(l, ops))
    decreases |ops|
  {
    if ops != [] {
      StepVisible(l, ops[0]);
      match ops[0] {
        case Send(_, _) => SendInOrder(l, ops[0]);
        case Receive => ReceiveInOrder(l);
        case SetAccess(after) => WiderInstall(l, after);
      }
      ExecInOrder(Step(l, ops[0]), ops[1..]);
    }
  }

  /** Main result: over any run that revokes no access, critical events and media events leave their
      lanes exactly once each and in the order they were accepted. */
  lemma CriticalExactlyOnceInOrder(access: Access, ops: seq<Op>)
    requires Unrevoked(access, ops)
    ensures var l := Exec(START.(access := access), ops); CriticalInOrder(l) && MediaInOrder(l)
  {
    ExecInOrder(START.(access := access), ops);
  }

  // ---- Bounded waiting ----

  /** Where compacting the channel of the delta at `i` moves another channel's entry at `k`. */
  function Shifted(ctx: Context, s: seq<Event>, i: nat, k: nat): nat
    requires i < |s| && k < |s| && Reducible(ctx, s[i])
  {
    |Compact(ctx, s[..k], MessageChannel(s[i]))|
  }

  /** Where compaction moves the entry at index `k`; `None` when it is replaced by a marker. */
  function AfterCompact(ctx: Context, s: seq<Event>, i: nat, channelID: int, k: nat): Option<nat>
    requires i <= |s| == BUFFER && k < |s|
    decreases BUFFER - i
  {
    if i == |s| then Some(k)
    else if !Reducible(ctx, s[i]) then AfterCompact(ctx, s, i + 1, channelID, k)
    else if MessageChannel(s[k]) == MessageChannel(s[i]) then None
    else
      var c := MessageChannel(s[i]);
      var lane := Compact(ctx, s, c);
      if c == channelID || |lane| != BUFFER then Some(Shifted(ctx, s, i, k))
      else
        CollapsePrefix(DeltaOf(c), s, MarkerOf(ctx, c), k);
        AfterCompact(ctx, lane, i + 1, channelID, Shifted(ctx, s, i, k))
  }

  /** Where admitting an event moves the ordinary entry at index `k`; `None` when the entry is
      replaced by a newer state, shed or compacted. */
  function After(s: seq<Event>, ctx: Context, e: Event, k: nat): Option<nat>
    requires k < |s| <= BUFFER
  {
    match Admit(s, ctx, e)
    case Replaces(i) => if i == k && !Outdated(s[i], e) then None else Some(k)
    case Sheds(t) => if k < t then Some(k) else if k == t then None else Some(k - 1)
    case Compacts(_) => AfterCompact(ctx, s, 0, MessageChannel(e), k)
    case _ => Some(k)
  }

  lemma {:induction false} AfterCompactTracks(ctx: Context, s: seq<Event>, i: nat, channelID: int, k: nat)
    requires i <= |s| == BUFFER && k < |s|
    ensures var a, lane := AfterCompact(ctx, s, i, channelID, k), CompactFrom(ctx, s, i, channelID).lane;
            && (a.Some? ==> a.value <= k && a.value < |lane| && lane[a.value] == s[k])
            && (a.None? ==> Delta(s[k]))
    decreases BUFFER - i
  {
    if i < |s| {
      if !Reducible(ctx, s[i]) {
        AfterCompactTracks(ctx, s, i + 1, channelID, k);
      } else if MessageChannel(s[k]) != MessageChannel(s[i]) {
        var c := MessageChannel(s[i]);
        CollapsePrefix(DeltaOf(c), s, MarkerOf(ctx, c), k);
        var lane := Compact(ctx, s, c);
        if c != channelID && |lane| == BUFFER {
          AfterCompactTracks(ctx, lane, i + 1, channelID, Shifted(ctx, s, i, k));
        }
      }
    }
  }

  /** An entry is never moved back, and a critical one is never taken out by an enqueue. */
  lemma AfterTracks(s: seq<Event>, ctx: Context, e: Event, k: nat)
    requires k < |s| <= BUFFER
    ensures var a, lane := After(s, ctx, e, k), Admitted(s, e, Admit(s, ctx, e));
            && (a.Some? ==> a.value <= k && a.value < |lane| && lane[a.value] == s[k])
            && (Critical(s[k]) ==> a.Some?)
  {
    match Admit(s, ctx, e)
    case Replaces(i) =>
    case UnderMarker =>
    case Ignored =>
    case Appended =>
    case Sheds(t) =>
    case Compacts(c) => AfterCompactTracks(ctx, s, 0, MessageChannel(e), k);
  }

  /** Two different entries stay different and keep their order. */
  lemma {:induction false} AfterCompactOrdered(ctx: Context, s: seq<Event>, i: nat, channelID: int, j: nat, k: nat)
    requires i <= |s| == BUFFER && j < k < |s|
    ensures var a, b := AfterCompact(ctx, s, i, channelID, j), AfterCompact(ctx, s, i, channelID, k);
            a.Some? && b.Some? ==> a.value < b.value
    decreases BUFFER - i
  {
    if i < |s| {
      if !Reducible(ctx, s[i]) {
        AfterCompactOrdered(ctx, s, i + 1, channelID, j, k);
      } else if MessageChannel(s[j]) != MessageChannel(s[i]) && MessageChannel(s[k]) != MessageChannel(s[i]) {
        var c := MessageChannel(s[i]);
        var p, marker := DeltaOf(c), MarkerOf(ctx, c);
        CollapsePrefix(p, s, marker, j);
        CollapsePrefix(p, s, marker, k);
        CollapsePrefix(p, s[..k], marker, j);
        assert s[..k][..j] == s[..j];
        var lane := Compact(ctx, s, c);
        if c != channelID && |lane| == BUFFER {
          AfterCompactOrdered(ctx, lane, i + 1, channelID, Shifted(ctx, s, i, j), Shifted(ctx, s, i, k));
        }
      }
    }
  }

  lemma AfterOrdered(s: seq<Event>, ctx: Context, e: Event, j: nat, k: nat)
    requires j < k < |s| <= BUFFER
    ensures var a, b := After(s, ctx, e, j), After(s, ctx, e, k);
            a.Some? && b.Some? ==> a.value < b.value
  {
    if |s| == BUFFER {
      AfterCompactOrdered(ctx, s, 0, MessageChannel(e), j, k);
    }
  }

  /** The same for any policy that is installed: hidden entries go, the others move up. */
  function AfterInstall(access: Access, s: seq<Event>, k: nat): (a: Option<nat>)
    requires k < |s|
    ensures a.Some? ==> a.value <= k && a.value < |Sift(Censor(access), s)|
  {
    if !Censor(access)(s[k]).1 then None
    else
      SiftAt(Censor(access), s, k);
      Some(|Sift(Censor(access), s[..k])|)
  }

  /** Where one operation moves the ordinary entry at index `k`; filtered and media events leave the
      lane alone. Pops of the entry itself are not asked about. */
  function AfterOp(l: Ledger, op: Op, k: nat): (a: Option<nat>)
    requires Bounded(l.queue) && k < |l.queue.outgoing|
    requires op.Receive? && !PopsMedia(l.queue) ==> k > 0
    ensures a.Some? ==> a.value <= k && a.value < |Step(l, op).queue.outgoing|
  {
    match op
    case Send(event, ctx) =>
      var (e, allowed) := FilterChannelEvent(l.access, event);
      if !allowed || Media(e) then Some(k)
      else
        AfterTracks(l.queue.outgoing, ctx, e, k);
        After(l.queue.outgoing, ctx, e, k)
    case Receive => if PopsMedia(l.queue) then Some(k) else Some(k - 1)
    case SetAccess(access) => AfterInstall(access, l.queue.outgoing, k)
  }

  /** An operation that revokes nothing keeps a critical entry, as it is. */
  lemma AfterOpKeeps(l: Ledger, op: Op, k: nat)
    requires AllVisible(l) && k < |l.queue.outgoing| && Critical(l.queue.outgoing[k])
    requires op.Receive? && !PopsMedia(l.queue) ==> k > 0
    requires op.SetAccess? ==> Widens(l.access, op.access)
    ensures var a, lane := AfterOp(l, op, k), Step(l, op).queue.outgoing;
            a.Some? && lane[a.value] == l.queue.outgoing[k]
  {
    match op
    case Send(event, ctx) =>
      var (e, allowed) := FilterChannelEvent(l.access, event);
      if allowed && !Media(e) { AfterTracks(l.queue.outgoing, ctx, e, k); }
    case Receive =>
    case SetAccess(access) =>
      assert Visible(l.access, l.queue.outgoing[k]);
      FilterExactly(access, l.queue.outgoing[k]);
      SiftAt(Censor(access), l.queue.outgoing, k);
  }

  lemma AfterOpOrdered(l: Ledger, op: Op, j: nat, k: nat)
    requires Bounded(l.queue) && j < k < |l.queue.outgoing|
    requires op.Receive? && !PopsMedia(l.queue) ==> j > 0
    ensures var a, b := AfterOp(l, op, j), AfterOp(l, op, k);
            a.Some? && b.Some? ==> a.value < b.value
  {
    match op
    case Send(event, ctx) =>
      var (e, allowed) := FilterChannelEvent(l.access, event);
      if allowed && !Media(e) { AfterOrdered(l.queue.outgoing, ctx, e, j, k); }
    case Receive =>
    case SetAccess(access) =>
      if Censor(access)(l.queue.outgoing[j]).1 { SiftOrdered(Censor(access), l.queue.outgoing, j, k); }
  }

  /** How an entry ends up: still queued at a position, popped, or taken out early. */
  datatype Fate = Waiting(index: nat) | Delivered(event: Event) | Removed

  function Follow(l: Ledger, ops: seq<Op>, k: nat): Fate
    requires Bounded(l.queue) && k < |l.queue.outgoing|
    decreases |ops|
  {
    if ops == [] then Waiting(k)
    else if ops[0].Receive? && !PopsMedia(l.queue) && k == 0 then Delivered(l.queue.outgoing[0])
    else
      StepBounded(l, ops[0]);
      var a := AfterOp(l, ops[0], k);
      if a.None? then Removed else Follow(Step(l, ops[0]), ops[1..], a.value)
  }

  function Receives(ops: seq<Op>): nat {
    if ops == [] then 0 else Receives(ops[1..]) + (if ops[0].Receive? then 1 else 0)
  }

  /** Pops that may still pass before the entry at index `k` must have left. */
  function Patience(burst: nat, k: nat): nat {
    9 * k + 1 + (if burst < 8 then 8 - burst else 0)
  }

  /** Main result: whatever is sent, however much media is queued and whatever policies are installed,
      the ordinary entry at index `k` has left its lane after 9(k+1) pops. */
  lemma {:induction false} BoundedWait(l: Ledger, ops: seq<Op>, k: nat)
    requires Bounded(l.queue) && k < |l.queue.outgoing|
    ensures Patience(l.queue.burst, k) <= 9 * (k + 1)
    ensures Receives(ops) >= Patience(l.queue.burst, k) ==> !Follow(l, ops, k).Waiting?
    decreases |ops|
  {
    if ops != [] && !(ops[0].Receive? && !PopsMedia(l.queue) && k == 0) {
      StepBounded(l, ops[0]);
      var a := AfterOp(l, ops[0], k);
      if a.Some? {
        BoundedWait(Step(l, ops[0]), ops[1..], a.value);
      }
    }
  }

  /** Main result: over any run that revokes no access, a critical entry leaves its lane only by being
      popped, unchanged, and within that bound. */
  lemma {:induction false} CriticalWait(l: Ledger, ops: seq<Op>, k: nat)
    requires AllVisible(l) && k < |l.queue.outgoing| && Critical(l.queue.outgoing[k]) && Unrevoked(l.access, ops)
    ensures !Follow(l, ops, k).Removed?
    ensures Follow(l, ops, k).Delivered? ==> Follow(l, ops, k).event == l.queue.outgoing[k]
    ensures Receives(ops) >= 9 * (k + 1) ==> Follow(l, ops, k) == Delivered(l.queue.outgoing[k])
    decreases |ops|
  {
    BoundedWait(l, ops, k);
    if ops != [] && !(ops[0].Receive? && !PopsMedia(l.queue) && k == 0) {
      StepVisible(l, ops[0]);
      AfterOpKeeps(l, ops[0], k);
      CriticalWait(Step(l, ops[0]), ops[1..], AfterOp(l, ops[0], k).value);
    }
  }

  /** Main result: over any run at all, no entry overtakes one that was queued before it. */
  lemma {:induction false} NoOvertaking(l: Ledger, ops: seq<Op>, j: nat, k: nat)
    requires Bounded(l.queue) && j < k < |l.queue.outgoing|
    ensures var a, b := Follow(l, ops, j), Follow(l, ops, k);
            && (a.Waiting? ==> !b.Delivered?)
            && (a.Waiting? && b.Waiting? ==> a.index < b.index)
    decreases |ops|
  {
    if ops != [] && !(ops[0].Receive? && !PopsMedia(l.queue) && j == 0) {
      StepBounded(l, ops[0]);
      AfterOpOrdered(l, ops[0], j, k);
      var a, b := AfterOp(l, ops[0], j), AfterOp(l, ops[0], k);
      if a.Some? && b.Some? {
        NoOvertaking(Step(l, ops[0]), ops[1..], a.value, b.value);
      }
    }
  }

  // ---- Turns ----

  /** How many media events the writer has taken in a row: an ordinary event or an idle turn ends it. */
  ghost function Streak(access: Access, ops: seq<Op>): nat
    decreases |ops|
  {
    if ops == [] then 0
    else
      var front := ops[..|ops| - 1];
      if !ops[|ops| - 1].Receive? then Streak(access, front)
      else
        var taken := Pop(Exec(START.(access := access), front).queue).event;
        if taken.Some? && Media(taken.value) then Streak(access, front) + 1 else 0
  }

  lemma {:induction false} ExecLast(l: Ledger, ops: seq<Op>)
    requires Bounded(l.queue) && ops != []
    ensures Exec(l, ops) == Step(Exec(l, ops[..|ops| - 1]), ops[|ops| - 1])
    decreases |ops|
  {
    if |ops| > 1 {
      var front, rest := ops[..|ops| - 1], ops[1..];
      assert front[1..] == rest[..|rest| - 1] && front[0] == ops[0] && rest[|rest| - 1] == ops[|ops| - 1];
      StepBounded(l, ops[0]);
      ExecLast(Step(l, ops[0]), rest);
    } else {
      assert ops[..0] == [] && ops[1..] == [];
    }
  }

  lemma {:induction false} ExecApart(l: Ledger, ops: seq<Op>)
    requires LanesApart(l.queue)
    ensures LanesApart(Exec(l, ops).queue)
    decreases |ops|
  {
    if ops != [] {
      StepApart(l, ops[0]);
      ExecApart(Step(l, ops[0]), ops[1..]);
    }
  }

  lemma StepApart(l: Ledger, op: Op)
    requires LanesApart(l.queue)
    ensures LanesApart(Step(l, op).queue)
  {
    StepBounded(l, op);
    match op {
      case Send(event, ctx) => EnqueueApart(l.queue, ctx, FilterChannelEvent(l.access, event).0);
      case Receive =>
      case SetAccess(access) =>
        SiftKinds(access, l.queue.outgoing);
        SiftKinds(access, l.queue.priority);
    }
  }

  /** A policy leaves only what it found, of the kinds it found. */
  lemma {:induction false} SiftKinds(access: Access, s: seq<Event>)
    ensures forall x <- Sift(Censor(access), s) :: exists y <- s :: y.kind == x.kind
  {
    if s != [] {
      SiftKinds(access, s[..|s| - 1]);
      forall x | x in Sift(Censor(access), s) ensures exists y <- s :: y.kind == x.kind {
        if x in Sift(Censor(access), s[..|s| - 1]) {
          var y :| y in s[..|s| - 1] && y.kind == x.kind;
          assert y in s;
        } else {
          assert s[|s| - 1] in s;
        }
      }
    }
  }

  lemma {:induction false} BurstIsStreak(access: Access, ops: seq<Op>)
    ensures Exec(START.(access := access), ops).queue.burst == Streak(access, ops)
    decreases |ops|
  {
    if ops != [] {
      var front := ops[..|ops| - 1];
      BurstIsStreak(access, front);
      ExecLast(START.(access := access), ops);
      ExecApart(START.(access := access), front);
    }
  }

  /** Main result: over every run the writer takes the first media event, unless it has taken eight in a row
      and an ordinary event waits; then, and when there is no media, it takes the first ordinary event;
      and it is idle only if both lanes are empty. */
  lemma WriterTurns(access: Access, ops: seq<Op>)
    ensures var q := Exec(START.(access := access), ops).queue;
            var turn := q.priority != [] && (Streak(access, ops) < 8 || q.outgoing == []);
            && Pop(q).event == (if turn then Some(q.priority[0])
                                else if q.outgoing != [] then Some(q.outgoing[0]) else None)
            && Pop(q).queue.priority == (if turn then q.priority[1..] else q.priority)
            && Pop(q).queue.outgoing == (if !turn && q.outgoing != [] then q.outgoing[1..] else q.outgoing)
  {
    BurstIsStreak(access, ops);
  }

  // ---- The media lane ----

  /** The media entry at index `k`, which only pops and policies can move. */
  function FollowMedia(l: Ledger, ops: seq<Op>, k: nat): Fate
    requires Bounded(l.queue) && k < |l.queue.priority|
    decreases |ops|
  {
    if ops == [] then Waiting(k)
    else
      StepBounded(l, ops[0]);
      var l' := Step(l, ops[0]);
      match ops[0]
      case Send(_, _) => FollowMedia(l', ops[1..], k)
      case Receive =>
        if !PopsMedia(l.queue) then FollowMedia(l', ops[1..], k)
        else if k == 0 then Delivered(l.queue.priority[0])
        else FollowMedia(l', ops[1..], k - 1)
      case SetAccess(access) =>
        var a := AfterInstall(access, l.queue.priority, k);
        if a.None? then Removed else FollowMedia(l', ops[1..], a.value)
  }

  /** One pop for each media event up to index `k`, and one for each ordinary turn in between. */
  function MediaPatience(burst: nat, k: nat): nat {
    k + 1 + ((if burst < 8 then burst else 8) + k) / 8
  }

  /** The same, turn by turn. */
  function Turns(burst: nat, k: nat): nat
    decreases k, if burst < 8 then 0 else 1
  {
    if burst >= 8 then 1 + Turns(0, k) else if k == 0 then 1 else 1 + Turns(burst + 1, k - 1)
  }

  lemma {:induction false} TurnsExactly(burst: nat, k: nat)
    ensures Turns(burst, k) == MediaPatience(burst, k)
    decreases k, if burst < 8 then 0 else 1
  {
    if burst >= 8 {
      TurnsExactly(0, k);
    } else if k > 0 {
      TurnsExactly(burst + 1, k - 1);
    }
  }

  lemma FewerTurns(burst: nat, j: nat, k: nat)
    requires j <= k
    ensures Turns(burst, j) <= Turns(burst, k)
    ensures j < k ==> Turns(burst + 1, j) < Turns(burst, k)
  {
    TurnsExactly(burst, j);
    TurnsExactly(burst + 1, j);
    TurnsExactly(burst, k);
  }

  lemma {:induction false} MediaTurns(l: Ledger, ops: seq<Op>, k: nat)
    requires Bounded(l.queue) && k < |l.queue.priority| && Receives(ops) >= Turns(l.queue.burst, k)
    ensures !FollowMedia(l, ops, k).Waiting?
    decreases |ops|
  {
    StepBounded(l, ops[0]);
    var l' := Step(l, ops[0]);
    match ops[0] {
      case Send(_, _) => MediaTurns(l', ops[1..], k);
      case Receive =>
        if !PopsMedia(l.queue) {
          MediaTurns(l', ops[1..], k);
        } else if k > 0 {
          FewerTurns(l.queue.burst, k - 1, k);
          MediaTurns(l', ops[1..], k - 1);
        }
      case SetAccess(access) =>
        var a := AfterInstall(access, l.queue.priority, k);
        if a.Some? {
          FewerTurns(l.queue.burst, a.value, k);
          MediaTurns(l', ops[1..], a.value);
        }
    }
  }

  /** The partner of BoundedWait, over any run: ordinary events take at most every ninth turn from
      media. */
  lemma MediaWait(l: Ledger, ops: seq<Op>, k: nat)
    requires Bounded(l.queue) && k < |l.queue.priority|
    ensures Receives(ops) >= MediaPatience(l.queue.burst, k) ==> !FollowMedia(l, ops, k).Waiting?
  {
    TurnsExactly(l.queue.burst, k);
    if Receives(ops) >= MediaPatience(l.queue.burst, k) { MediaTurns(l, ops, k); }
  }

  /** The partner of CriticalWait: without revocation every media entry is delivered, unchanged, and
      within that bound. */
  lemma MediaDelivered(l: Ledger, ops: seq<Op>, k: nat)
    requires AllVisible(l) && k < |l.queue.priority| && Unrevoked(l.access, ops)
    ensures !FollowMedia(l, ops, k).Removed?
    ensures FollowMedia(l, ops, k).Delivered? ==> FollowMedia(l, ops, k).event == l.queue.priority[k]
    ensures Receives(ops) >= MediaPatience(l.queue.burst, k) ==>
            FollowMedia(l, ops, k) == Delivered(l.queue.priority[k])
  {
    MediaWait(l, ops, k);
    MediaUnchanged(l, ops, k);
  }

  lemma WiderMedia(l: Ledger, access: Access, k: nat)
    requires AllVisible(l) && k < |l.queue.priority| && Widens(l.access, access)
    ensures Step(l, SetAccess(access)).queue.priority == l.queue.priority
    ensures AfterInstall(access, l.queue.priority, k) == Some(k)
  {
    WiderInstall(l, access);
    WiderLane(l.access, access, l.queue.priority[..k]);
    assert Visible(l.access, l.queue.priority[k]);
    FilterExactly(access, l.queue.priority[k]);
  }

  lemma {:induction false} MediaUnchanged(l: Ledger, ops: seq<Op>, k: nat)
    requires AllVisible(l) && k < |l.queue.priority| && Unrevoked(l.access, ops)
    ensures !FollowMedia(l, ops, k).Removed?
    ensures FollowMedia(l, ops, k).Delivered? ==> FollowMedia(l, ops, k).event == l.queue.priority[k]
    decreases |ops|
  {
    if ops != [] {
      StepVisible(l, ops[0]);
      var l' := Step(l, ops[0]);
      match ops[0] {
        case Send(_, _) => MediaUnchanged(l', ops[1..], k);
        case Receive =>
          if !PopsMedia(l.queue) {
            MediaUnchanged(l', ops[1..], k);
          } else if k > 0 {
            MediaUnchanged(l', ops[1..], k - 1);
          }
        case SetAccess(access) =>
          WiderMedia(l, access, k);
          MediaUnchanged(l', ops[1..], k);
      }
    }
  }
}
