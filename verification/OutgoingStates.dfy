/** Whole runs of one client's queue: of the states that may replace each other in the queue, the
    newest always reaches the client. */
module OutgoingStates {
  import opened Options
  import opened OutgoingEvents
  import opened OutgoingQueue
  import opened OutgoingRuns
  import opened Sequences

  /** A state that is neither transient nor a chat delta: presence, read position or settings. */
  predicate State(e: Event) {
    && e.requestID == ""
    && (|| (e.kind.PresenceUpdated? && e.data.PresenceData?)
        || (e.kind.ChannelRead? && e.data.ReadData?)
        || (e.kind.NotificationSettingsUpdated? && EventChannel(e.data).Some? && !e.data.Reactions?))
  }

  /** The position that a read event reports. */
  predicate NoLower(x: Event, d: Event) {
    x.data.ReadData? && d.data.ReadData? ==> x.data.lastRead >= d.data.lastRead
  }

  predicate Higher(x: Event, d: Event) { x.data.ReadData? && d.data.ReadData? && x.data.lastRead > d.data.lastRead }

  /** `x` was accepted as number `i` or later. */
  ghost predicate Since(accepted: seq<(Event, nat)>, i: nat, x: Event) {
    exists j | i <= j < |accepted| :: accepted[j].0 == x
  }

  /** `x` is the accepted event number `i`, or a later state of the same thing, or one whose read
      position was ahead already. */
  ghost predicate Supersedes(accepted: seq<(Event, nat)>, i: nat, x: Event)
    requires i < |accepted|
  {
    && SameSubject(x, accepted[i].0) && NoLower(x, accepted[i].0)
    && (Since(accepted, i, x) || Higher(x, accepted[i].0))
  }

  ghost predicate Told(l: Ledger, i: nat)
    requires i < |l.accepted|
  {
    || (exists p | l.accepted[i].1 <= p < |l.popped| :: Supersedes(l.accepted, i, l.popped[p]))
    || (exists k | 0 <= k < |l.queue.outgoing| :: Supersedes(l.accepted, i, l.queue.outgoing[k]))
  }

  /** Everything the payload shows stays readable. */
  ghost predicate Within(readable: set<int>, d: Data) { forall c: int | Shows(d, c) :: c in readable }

  ghost predicate Keeps(readable: set<int>, op: Op) {
    op.SetAccess? ==> forall c <- readable :: CanAccess(op.access, c)
  }

  ghost predicate Tracked(readable: set<int>, e: Event) { State(e) && Within(readable, e.data) }

  ghost predicate Inv(readable: set<int>, l: Ledger) {
    && Bounded(l.queue)
    && (forall i | 0 <= i < |l.accepted| :: l.accepted[i].1 <= |l.popped|)
    && (forall i | 0 <= i < |l.accepted| && Tracked(readable, l.accepted[i].0) :: Told(l, i))
  }

  // ---- One admission ----

  /** The lane has something that supersedes it. */
  ghost predicate Queued(accepted: seq<(Event, nat)>, i: nat, s: seq<Event>)
    requires i < |accepted|
  {
    exists k | 0 <= k < |s| :: Supersedes(accepted, i, s[k])
  }

  lemma SupersedesLonger(accepted: seq<(Event, nat)>, more: seq<(Event, nat)>, i: nat, x: Event)
    requires i < |accepted| && Supersedes(accepted, i, x)
    ensures Supersedes(accepted + more, i, x)
  {
    if Since(accepted, i, x) {
      var j :| i <= j < |accepted| && accepted[j].0 == x;
      assert (accepted + more)[j].0 == x;
    }
  }

  lemma QueuedLonger(accepted: seq<(Event, nat)>, more: seq<(Event, nat)>, i: nat, s: seq<Event>)
    requires i < |accepted| && Queued(accepted, i, s)
    ensures Queued(accepted + more, i, s)
  {
    var k :| 0 <= k < |s| && Supersedes(accepted, i, s[k]);
    SupersedesLonger(accepted, more, i, s[k]);
  }

  /** A superseding entry of a state is itself neither transient nor a delta. */
  lemma SubjectStays(x: Event, d: Event)
    requires SameSubject(x, d) && State(d)
    ensures !Transient(x) && !Delta(x)
  {
  }

  lemma ReplacedStays(accepted: seq<(Event, nat)>, i: nat, s: seq<Event>, k: nat, e: Event, since: nat)
    requires i < |accepted| && k < |s| && State(accepted[i].0) && Queued(accepted, i, s)
    requires ReplacementKey(e) == ReplacementKey(s[k]) != NoKey && !Outdated(s[k], e)
    ensures Queued(accepted + [(e, since)], i, s[k := e])
  {
    var j :| 0 <= j < |s| && Supersedes(accepted, i, s[j]);
    var t, more := s[k := e], accepted + [(e, since)];
    if j == k {
      KeysExact(e, s[k]);
      SubjectStays(s[k], accepted[i].0);
      assert more[|accepted|].0 == e;
      assert Supersedes(more, i, t[k]);
    } else {
      SupersedesLonger(accepted, [(e, since)], i, s[j]);
      assert t[j] == s[j];
    }
  }

  /** The event reports an older revision or read position than the queued one. */
  predicate Older(e: Event, queued: Event) {
    match (e.data, queued.data)
    case (Reactions(_, _, revision), Reactions(_, _, latest)) => revision < latest
    case (ReadData(_, _, position), ReadData(_, _, latest)) => position < latest
    case _ => false
  }

  /** An event takes the place of the first queued state of the same thing, and only of such a one. */
  lemma ReplacesExactly(s: seq<Event>, ctx: Context, e: Event)
    requires |s| <= BUFFER
    ensures var a := Admit(s, ctx, e);
            && (a.Replaces? <==> exists k | 0 <= k < |s| :: SameSubject(s[k], e))
            && (a.Replaces? ==>
                  && SameSubject(s[a.index], e) && (forall k | 0 <= k < a.index :: !SameSubject(s[k], e))
                  && Admitted(s, e, a) == if Older(e, s[a.index]) then s else s[a.index := e])
  {
    forall k | 0 <= k < |s| ensures SameKey(e)(s[k]) <==> SameSubject(s[k], e) { KeysExact(s[k], e); }
  }

  // ---- The counters ----

  /** An event counts as coalesced exactly if a state of the same thing or, for a delta, a marker of its
      channel is queued. */
  lemma CoalescedExactly(q: Queue, ctx: Context, e: Event)
    requires Bounded(q) && !e.kind.MediaType?
    ensures Enqueue(q, ctx, e).queue.coalesced == q.coalesced +
            if || (exists k | 0 <= k < |q.outgoing| :: SameSubject(q.outgoing[k], e))
               || (Delta(e) && exists k | 0 <= k < |q.outgoing| :: MarkerFor(q.outgoing[k], MessageChannel(e)))
            then 1 else 0
  {
    ReplacesExactly(q.outgoing, ctx, e);
    Searches(q.outgoing, e);
  }

  lemma MarkersCompacted(ctx: Context, s: seq<Event>, i: nat)
    requires i < |s| && Reducible(ctx, s[i])
    ensures Count(IsMarker, Compact(ctx, s, MessageChannel(s[i]))) == Count(IsMarker, s) + 1
  {
    var p := DeltaOf(MessageChannel(s[i]));
    CountAt(p, s, i);
    assert forall x: Event | p(x) :: !IsMarker(x);
    CollapseCount(p, IsMarker, s, MarkerOf(ctx, MessageChannel(s[i])));
  }

  lemma {:induction false} MarkersCounted(ctx: Context, s: seq<Event>, i: nat, channelID: int)
    requires i <= |s| == BUFFER
    ensures var c := CompactFrom(ctx, s, i, channelID); Count(IsMarker, c.lane) == Count(IsMarker, s) + c.count
    decreases BUFFER - i
  {
    if i < |s| {
      if !Reducible(ctx, s[i]) {
        MarkersCounted(ctx, s, i + 1, channelID);
      } else {
        MarkersCompacted(ctx, s, i);
        var lane := Compact(ctx, s, MessageChannel(s[i]));
        if |lane| == BUFFER { MarkersCounted(ctx, lane, i + 1, channelID); }
      }
    }
  }

  /** The resyncs counted are exactly the markers that compaction adds to the lane; without compaction none
      is counted. */
  lemma ResyncsExactly(q: Queue, ctx: Context, e: Event)
    requires Bounded(q) && !IsMarker(e)
    ensures var after := Enqueue(q, ctx, e).queue;
            after.resyncs - q.resyncs ==
              if !e.kind.MediaType? && Admit(q.outgoing, ctx, e).Compacts?
              then Count(IsMarker, after.outgoing) - Count(IsMarker, q.outgoing) else 0
  {
    if !e.kind.MediaType? && Admit(q.outgoing, ctx, e).Compacts? {
      var c := CompactFrom(ctx, q.outgoing, 0, MessageChannel(e));
      MarkersCounted(ctx, q.outgoing, 0, MessageChannel(e));
      CountPush(IsMarker, c.lane, e);
    }
  }

  /** What can be compacted: a delta of a channel that the client follows on a numbered server, if it
      understands markers. */
  lemma ReducibleExactly(ctx: Context, e: Event)
    ensures Reducible(ctx, e) <==>
            && ctx.messageSync && Delta(e) && MessageChannel(e) in ctx.subscriptions
            && ctx.subscriptions[MessageChannel(e)] >= 1
  {
  }

  lemma MemberStays(accepted: seq<(Event, nat)>, i: nat, s: seq<Event>, t: seq<Event>, k: nat)
    requires i < |accepted| && k < |s| && Supersedes(accepted, i, s[k]) && s[k] in t
    ensures Queued(accepted, i, t)
  {
    var j :| 0 <= j < |t| && t[j] == s[k];
  }

  /** Shedding and compacting spare it. */
  lemma AdmitSparesStates(accepted: seq<(Event, nat)>, i: nat, s: seq<Event>, ctx: Context, e: Event)
    requires i < |accepted| && |s| <= BUFFER && State(accepted[i].0) && Queued(accepted, i, s)
    requires !Admit(s, ctx, e).Replaces?
    ensures Queued(accepted, i, Admitted(s, e, Admit(s, ctx, e)))
  {
    var k :| 0 <= k < |s| && Supersedes(accepted, i, s[k]);
    SubjectStays(s[k], accepted[i].0);
    var t := Admitted(s, e, Admit(s, ctx, e));
    match Admit(s, ctx, e)
    case UnderMarker =>
    case Ignored =>
    case Appended => MemberStays(accepted, i, s, t, k);
    case Sheds(index) =>
      DropSpares(s, index, k);
      MemberStays(accepted, i, s, t, k);
    case Compacts(c) =>
      CompactSpares(ctx, s, e, k);
      MemberStays(accepted, i, s, t, k);
  }

  lemma DropSpares(s: seq<Event>, index: nat, k: nat)
    requires index < |s| && k < |s| && k != index
    ensures s[k] in Drop(s, index)
  {
    assert Drop(s, index)[if k < index then k else k - 1] == s[k];
  }

  lemma CompactSpares(ctx: Context, s: seq<Event>, e: Event, k: nat)
    requires |s| == BUFFER && k < |s| && !Delta(s[k])
    ensures s[k] in CompactFrom(ctx, s, 0, MessageChannel(e)).lane
  {
    CompactFromMembers(ctx, s, 0, MessageChannel(e), s[k]);
  }

  /** Whatever is accepted, what superseded a state is still there, or a later state is. */
  lemma AdmitTells(accepted: seq<(Event, nat)>, i: nat, s: seq<Event>, ctx: Context, e: Event, since: nat)
    requires i < |accepted| && |s| <= BUFFER && State(accepted[i].0) && Queued(accepted, i, s)
    ensures var more := if Accepted(Admit(s, ctx, e)) then accepted + [(e, since)] else accepted;
            Queued(more, i, Admitted(s, e, Admit(s, ctx, e)))
  {
    var a := Admit(s, ctx, e);
    if a.Replaces? {
      if Outdated(s[a.index], e) { QueuedLonger(accepted, [(e, since)], i, s); }
      else { ReplacedStays(accepted, i, s, a.index, e, since); }
    } else {
      AdmitSparesStates(accepted, i, s, ctx, e);
      if Accepted(a) { QueuedLonger(accepted, [(e, since)], i, Admitted(s, e, a)); }
    }
  }

  /** An accepted state is in the lane, or one that is ahead of it. */
  lemma AdmitTakesState(accepted: seq<(Event, nat)>, s: seq<Event>, ctx: Context, e: Event, since: nat)
    requires |s| <= BUFFER && State(e) && Accepted(Admit(s, ctx, e))
    ensures Queued(accepted + [(e, since)], |accepted|, Admitted(s, e, Admit(s, ctx, e)))
  {
    var a, t := Admit(s, ctx, e), Admitted(s, e, Admit(s, ctx, e));
    assert MessageChannel(e) == 0;
    match a
    case Replaces(k) =>
      KeysExact(s[k], e);
      TakenAt(accepted, t, k, e, since);
    case UnderMarker =>
    case Ignored =>
    case Appended => TakenAt(accepted, t, |s|, e, since);
    case Sheds(_) => TakenAt(accepted, t, |s| - 1, e, since);
    case Compacts(c) =>
      CoverNeedsChannel(ctx, s, 0, 0);
      TakenAt(accepted, t, |c.lane|, e, since);
  }

  lemma TakenAt(accepted: seq<(Event, nat)>, t: seq<Event>, k: nat, e: Event, since: nat)
    requires State(e) && k < |t| && (t[k] == e || (SameSubject(t[k], e) && Higher(t[k], e)))
    ensures Queued(accepted + [(e, since)], |accepted|, t)
  {
    var more := accepted + [(e, since)];
    assert more[|accepted|].0 == e;
    assert Supersedes(more, |accepted|, t[k]);
  }

  lemma {:induction false} CoverNeedsChannel(ctx: Context, s: seq<Event>, i: nat, channelID: int)
    requires i <= |s| == BUFFER
    ensures CompactFrom(ctx, s, i, channelID).covered ==> channelID > 0
    decreases BUFFER - i
  {
    if i < |s| {
      if !Reducible(ctx, s[i]) {
        CoverNeedsChannel(ctx, s, i + 1, channelID);
      } else {
        var lane := Compact(ctx, s, MessageChannel(s[i]));
        if |lane| == BUFFER { CoverNeedsChannel(ctx, lane, i + 1, channelID); }
      }
    }
  }

  // ---- Installing a policy ----

  lemma SiftSparesStates(readable: set<int>, access: Access, accepted: seq<(Event, nat)>, i: nat, s: seq<Event>)
    requires i < |accepted| && Tracked(readable, accepted[i].0) && Queued(accepted, i, s)
    requires forall c <- readable :: CanAccess(access, c)
    ensures Queued(accepted, i, Sift(Censor(access), s))
  {
    var k :| 0 <= k < |s| && Supersedes(accepted, i, s[k]);
    assert Visible(access, s[k]) by { SubjectShows(s[k], accepted[i].0); }
    FilterExactly(access, s[k]);
    SiftAt(Censor(access), s, k);
    assert Sift(Censor(access), s)[|Sift(Censor(access), s[..k])|] == s[k];
  }

  /** States of the same thing show the same channels. */
  lemma SubjectShows(x: Event, d: Event)
    requires SameSubject(x, d) && State(d)
    ensures forall c: int :: Shows(x.data, c) <==> Shows(d.data, c)
  {
  }

  // ---- Whole runs ----

  lemma SendTells(readable: set<int>, l: Ledger, op: Op)
    requires Inv(readable, l) && op.Send?
    ensures Inv(readable, Step(l, op))
  {
    StepBounded(l, op);
    var (e, allowed) := FilterChannelEvent(l.access, op.event);
    var l' := Step(l, op);
    if allowed {
      forall i | 0 <= i < |l'.accepted| && Tracked(readable, l'.accepted[i].0) ensures Told(l', i) {
        SendTellsOne(readable, l, op, i);
      }
    }
  }

  lemma SendTellsOne(readable: set<int>, l: Ledger, op: Op, i: nat)
    requires Inv(readable, l) && op.Send? && FilterChannelEvent(l.access, op.event).1
    requires i < |Step(l, op).accepted| && Tracked(readable, Step(l, op).accepted[i].0)
    ensures Told(Step(l, op), i)
  {
    var e := FilterChannelEvent(l.access, op.event).0;
    var l', s := Step(l, op), l.queue.outgoing;
    if i < |l.accepted| {
      assert Told(l, i) && l'.accepted[i] == l.accepted[i];
      if Queued(l.accepted, i, s) {
        if e.kind.MediaType? {
          QueuedLonger(l.accepted, l'.accepted[|l.accepted|..], i, s);
          assert l'.accepted == l.accepted + l'.accepted[|l.accepted|..];
        } else {
          AdmitTells(l.accepted, i, s, op.ctx, e, |l.popped|);
        }
      } else {
        var p :| l.accepted[i].1 <= p < |l.popped| && Supersedes(l.accepted, i, l.popped[p]);
        SupersedesLonger(l.accepted, l'.accepted[|l.accepted|..], i, l.popped[p]);
        assert l'.accepted == l.accepted + l'.accepted[|l.accepted|..];
      }
    } else {
      AdmitTakesState(l.accepted, s, op.ctx, e, |l.popped|);
    }
  }

  lemma ReceiveTells(readable: set<int>, l: Ledger)
    requires Inv(readable, l)
    ensures Inv(readable, Step(l, Receive))
  {
    var l' := Step(l, Receive);
    assert forall p | 0 <= p < |l.popped| :: l'.popped[p] == l.popped[p];
    forall i | 0 <= i < |l'.accepted| && Tracked(readable, l'.accepted[i].0) ensures Told(l', i) {
      assert Told(l, i);
      if Queued(l.accepted, i, l.queue.outgoing) {
        var k :| 0 <= k < |l.queue.outgoing| && Supersedes(l.accepted, i, l.queue.outgoing[k]);
        var x := l.queue.outgoing[k];
        if PopsMedia(l.queue) {
          assert l'.queue.outgoing[k] == x;
        } else if k == 0 {
          assert l'.popped[|l.popped|] == x;
        } else {
          assert l'.queue.outgoing[k - 1] == x;
        }
      }
    }
  }

  lemma AccessTells(readable: set<int>, l: Ledger, op: Op)
    requires Inv(readable, l) && op.SetAccess? && Keeps(readable, op)
    ensures Inv(readable, Step(l, op))
  {
    StepBounded(l, op);
    var l' := Step(l, op);
    forall i | 0 <= i < |l'.accepted| && Tracked(readable, l'.accepted[i].0) ensures Told(l', i) {
      assert Told(l, i);
      if Queued(l.accepted, i, l.queue.outgoing) {
        SiftSparesStates(readable, op.access, l.accepted, i, l.queue.outgoing);
      }
    }
  }

  lemma {:induction false} ExecTells(readable: set<int>, l: Ledger, ops: seq<Op>)
    requires Inv(readable, l) && forall op <- ops :: Keeps(readable, op)
    ensures Inv(readable, Exec(l, ops))
    decreases |ops|
  {
    if ops != [] {
      assert Keeps(readable, ops[0]);
      match ops[0] {
        case Send(_, _) => SendTells(readable, l, ops[0]);
        case Receive => ReceiveTells(readable, l);
        case SetAccess(_) => AccessTells(readable, l, ops[0]);
      }
      ExecTells(readable, Step(l, ops[0]), ops[1..]);
    }
  }

  /** Main result: over every run, each accepted presence, read or settings event that stays readable was
      popped later, or a later state of the same thing was, or one with a higher read position; or such
      an event is still queued. */
  lemma StatesDelivered(readable: set<int>, ops: seq<Op>, i: nat)
    requires forall op <- ops :: Keeps(readable, op)
    requires i < |Exec(START, ops).accepted| && Tracked(readable, Exec(START, ops).accepted[i].0)
    ensures Told(Exec(START, ops), i)
  {
    ExecTells(readable, START, ops);
  }
}
