/** Whole runs of one client's queue: every accepted chat delta reaches the client. */
module OutgoingRuns {
  import opened Options
  import opened OutgoingEvents
  import opened OutgoingQueue
  import opened Sequences

  /** One call on the queue. Subscriptions may differ from call to call. */
  datatype Op = Send(event: Event, ctx: Context) | Receive | SetAccess(access: Access)

  /** The queue, the policy in force and what happened so far: the events popped, in order, and
      each accepted event with the number of events popped before it was accepted. */
  datatype Ledger = Ledger(queue: Queue, access: Access, popped: seq<Event>, accepted: seq<(Event, nat)>)

  const START := Ledger(EMPTY_QUEUE, None, [], [])

  function Step(l: Ledger, op: Op): Ledger
    requires Bounded(l.queue)
  {
    match op
    case Send(e, ctx) =>
      var (event, allowed) := FilterChannelEvent(l.access, e);
      if !allowed then l
      else
        var r := Enqueue(l.queue, ctx, event);
        if r.accepted then l.(queue := r.queue, accepted := l.accepted + [(event, |l.popped|)])
        else l.(queue := r.queue)
    case Receive =>
      var r := Pop(l.queue);
      l.(queue := r.queue, popped := if r.event.Some? then l.popped + [r.event.value] else l.popped)
    case SetAccess(access) => l.(queue := InstallAccess(l.queue, access), access := access)
  }

  lemma StepBounded(l: Ledger, op: Op)
    requires Bounded(l.queue)
    ensures Bounded(Step(l, op).queue)
  {
    if op.Send? {
      EnqueueBounded(l.queue, op.ctx, FilterChannelEvent(l.access, op.event).0);
    }
  }

  function Exec(l: Ledger, ops: seq<Op>): (r: Ledger)
    requires Bounded(l.queue)
    ensures Bounded(r.queue)
    decreases |ops|
  {
    if ops == [] then l
    else
      StepBounded(l, ops[0]);
      Exec(Step(l, ops[0]), ops[1..])
  }

  /** What the producers guarantee: markers come only from compaction, and reactions always travel
      as reactions_changed for a message that belongs to one channel. */
  ghost predicate Offered(channelOf: int -> int, e: Event) {
    && !e.kind.SyncRequired?
    && (e.data.Reactions? ==> e.kind.ReactionsChanged? && e.data.channelID == channelOf(e.data.messageID))
  }

  predicate IsMarker(e: Event) { e.kind.SyncRequired? && e.data.Subscription? }

  /** Queued events are offered ones or markers. */
  ghost predicate Genuine(channelOf: int -> int, e: Event) {
    Offered(channelOf, e) || (IsMarker(e) && e.data.channelID > 0)
  }

  /** Receiving `x` tells the client everything the delta `d` would have told it. */
  predicate Carries(x: Event, d: Event) {
    || x == d
    || (Delta(x) && Delta(d) && x.data.Reactions? && d.data.Reactions?
        && x.data.messageID == d.data.messageID && x.data.revision >= d.data.revision)
    || (Delta(d) && MarkerFor(x, MessageChannel(d)))
  }

  ghost predicate Carried(s: seq<Event>, d: Event) { exists x <- s :: Carries(x, d) }

  /** `x` is a marker and `y` is another marker or a delta of the same channel. */
  predicate Clash(x: Event, y: Event) {
    IsMarker(x) && (MarkerFor(y, x.data.channelID) || MessageChannel(y) == x.data.channelID)
  }

  /** At most one marker per channel, and none beside a delta of its channel. */
  ghost predicate MarkersApart(s: seq<Event>) {
    forall i, j | 0 <= i < |s| && 0 <= j < |s| && i != j :: !Clash(s[i], s[j])
  }

  ghost predicate LaneInv(channelOf: int -> int, s: seq<Event>) {
    && (forall i | 0 <= i < |s| :: Genuine(channelOf, s[i]))
    && MarkersApart(s)
  }

  // ---- Markers stay apart ----

  lemma PushInv(channelOf: int -> int, s: seq<Event>, e: Event)
    requires LaneInv(channelOf, s) && Genuine(channelOf, e)
    requires forall i | 0 <= i < |s| :: !Clash(s[i], e) && !Clash(e, s[i])
    ensures LaneInv(channelOf, s + [e])
  {
    var t := s + [e];
    assert forall i | 0 <= i < |s| :: t[i] == s[i];
  }

  lemma DropInv(channelOf: int -> int, s: seq<Event>, i: nat)
    requires LaneInv(channelOf, s) && i < |s|
    ensures LaneInv(channelOf, Drop(s, i))
  {
    var t := Drop(s, i);
    assert forall j | 0 <= j < |t| :: t[j] == if j < i then s[j] else s[j + 1];
  }

  /** An event with the key of a queued one belongs to the same channel, so it may take its place. */
  lemma ReplaceInv(channelOf: int -> int, s: seq<Event>, i: nat, e: Event)
    requires LaneInv(channelOf, s) && i < |s| && Offered(channelOf, e)
    requires ReplacementKey(e) == ReplacementKey(s[i]) != NoKey
    ensures LaneInv(channelOf, s[i := e])
  {
    assert Genuine(channelOf, s[i]);
    var t := s[i := e];
    forall j, k | 0 <= j < |t| && 0 <= k < |t| && j != k ensures !Clash(t[j], t[k]) {
      assert !Clash(s[j], s[k]);
    }
  }

  /** A lane with a delta has no marker for its channel, so its compaction adds the only one. */
  lemma CompactInv(channelOf: int -> int, ctx: Context, s: seq<Event>, i: nat)
    requires LaneInv(channelOf, s) && i < |s| && Reducible(ctx, s[i])
    ensures LaneInv(channelOf, Compact(ctx, s, MessageChannel(s[i])))
  {
    var c := MessageChannel(s[i]);
    forall j | 0 <= j < |s| ensures !MarkerFor(s[j], c) {
      if j != i { assert !Clash(s[j], s[i]); }
    }
    CollapseInv(channelOf, s, c, ctx.subscriptions[c]);
  }

  lemma {:induction false} CollapseInv(channelOf: int -> int, s: seq<Event>, channelID: int, server: int)
    requires LaneInv(channelOf, s) && channelID > 0
    requires forall j | 0 <= j < |s| :: !MarkerFor(s[j], channelID)
    ensures LaneInv(channelOf, Collapse(DeltaOf(channelID), s, Marker(server, channelID)))
  {
    var p, marker := DeltaOf(channelID), Marker(server, channelID);
    if s != [] {
      var front, last := s[..|s| - 1], s[|s| - 1];
      CollapseInv(channelOf, front, channelID, server);
      var done := Collapse(p, front, marker);
      forall k | 0 <= k < |done|
        ensures (done[k] == marker && Count(p, front) > 0)
             || (exists j | 0 <= j < |front| :: done[k] == s[j] && MessageChannel(s[j]) != channelID)
      {
        CollapseMembers(p, front, marker, done[k]);
      }
      if MessageChannel(last) != channelID {
        PushInv(channelOf, done, last);
      } else if Count(p, front) == 0 {
        PushInv(channelOf, done, marker);
      }
    }
  }

  /** The loop keeps markers apart, and makes a marker for the new delta's channel only as cover. */
  lemma {:induction false} CompactFromInv(channelOf: int -> int, ctx: Context, s: seq<Event>, i: nat, channelID: int)
    requires i <= |s| == BUFFER && LaneInv(channelOf, s)
    ensures var c := CompactFrom(ctx, s, i, channelID);
            && LaneInv(channelOf, c.lane)
            && (c.covered ==> channelID > 0 && exists m <- c.lane :: MarkerFor(m, channelID))
            && (!c.covered && (forall j | 0 <= j < |s| :: !MarkerFor(s[j], channelID)) ==>
                  forall j | 0 <= j < |c.lane| :: !MarkerFor(c.lane[j], channelID))
    decreases BUFFER - i
  {
    if i < |s| {
      if !Reducible(ctx, s[i]) {
        CompactFromInv(channelOf, ctx, s, i + 1, channelID);
      } else {
        CompactInv(channelOf, ctx, s, i);
        CompactOne(ctx, s, i);
        var lane := Compact(ctx, s, MessageChannel(s[i]));
        assert MarkerOf(ctx, MessageChannel(s[i])) in lane;
        if MessageChannel(s[i]) != channelID && |lane| == BUFFER {
          CompactFromInv(channelOf, ctx, lane, i + 1, channelID);
        }
      }
    }
  }

  /** An offered event may join a lane that has no marker for its channel. */
  lemma JoinInv(channelOf: int -> int, s: seq<Event>, e: Event)
    requires LaneInv(channelOf, s) && Offered(channelOf, e)
    requires Delta(e) ==> forall i | 0 <= i < |s| :: !MarkerFor(s[i], MessageChannel(e))
    ensures LaneInv(channelOf, s + [e])
  {
    forall i | 0 <= i < |s| ensures !Clash(s[i], e) && !Clash(e, s[i]) {
      assert Genuine(channelOf, s[i]);
    }
    PushInv(channelOf, s, e);
  }

  lemma AdmitInv(channelOf: int -> int, s: seq<Event>, ctx: Context, e: Event)
    requires |s| <= BUFFER && LaneInv(channelOf, s) && Offered(channelOf, e)
    ensures LaneInv(channelOf, Admitted(s, e, Admit(s, ctx, e)))
  {
    match Admit(s, ctx, e)
    case Replaces(i) => ReplaceInv(channelOf, s, i, e);
    case UnderMarker =>
    case Ignored =>
    case Appended => JoinInv(channelOf, s, e);
    case Sheds(t) =>
      DropInv(channelOf, s, t);
      JoinInv(channelOf, Drop(s, t), e);
    case Compacts(c) =>
      CompactFromInv(channelOf, ctx, s, 0, MessageChannel(e));
      if !c.covered { JoinInv(channelOf, c.lane, e); }
  }

  // ---- A carried delta stays carried ----

  lemma ReplaceKeeps(channelOf: int -> int, s: seq<Event>, i: nat, e: Event, d: Event)
    requires LaneInv(channelOf, s) && i < |s| && Offered(channelOf, e) && Delta(d)
    requires ReplacementKey(e) == ReplacementKey(s[i]) != NoKey && !Outdated(s[i], e)
    requires Carried(s, d)
    ensures Carried(s[i := e], d)
  {
    var k :| 0 <= k < |s| && Carries(s[k], d);
    var t := s[i := e];
    assert Genuine(channelOf, s[i]);
    if k == i {
      assert Carries(t[i], d);
    } else {
      assert t[k] == s[k];
    }
  }

  lemma ShedKeeps(s: seq<Event>, i: nat, d: Event)
    requires i < |s| && Transient(s[i]) && Delta(d) && Carried(s, d)
    ensures Carried(Drop(s, i), d)
  {
    var k :| 0 <= k < |s| && Carries(s[k], d);
    assert k != i;
    assert Drop(s, i)[if k < i then k else k - 1] == s[k];
  }

  lemma CompactFromKeeps(channelOf: int -> int, ctx: Context, s: seq<Event>, channelID: int, d: Event)
    requires |s| == BUFFER && LaneInv(channelOf, s)
    requires Offered(channelOf, d) && Delta(d) && Carried(s, d)
    ensures Carried(CompactFrom(ctx, s, 0, channelID).lane, d)
  {
    var k :| 0 <= k < |s| && Carries(s[k], d);
    var lane := CompactFrom(ctx, s, 0, channelID).lane;
    CompactFromMembers(ctx, s, 0, channelID, s[k]);
    if s[k] !in lane {
      var m :| m in lane && MarkerFor(m, MessageChannel(s[k]));
      assert Genuine(channelOf, s[k]);
      assert Carries(m, d);
    }
  }

  lemma PushKeeps(s: seq<Event>, e: Event, d: Event)
    requires Carried(s, d)
    ensures Carried(s + [e], d)
  {
    var x :| x in s && Carries(x, d);
    assert x in s + [e];
  }

  /** Whatever admitting an event does to the lane, a delta the lane carried it still carries. */
  lemma AdmitKeeps(channelOf: int -> int, s: seq<Event>, ctx: Context, e: Event, d: Event)
    requires |s| <= BUFFER && LaneInv(channelOf, s)
    requires Offered(channelOf, e) && Offered(channelOf, d) && Delta(d)
    requires Carried(s, d)
    ensures Carried(Admitted(s, e, Admit(s, ctx, e)), d)
  {
    match Admit(s, ctx, e)
    case Replaces(i) => if !Outdated(s[i], e) { ReplaceKeeps(channelOf, s, i, e, d); }
    case UnderMarker =>
    case Ignored =>
    case Appended => PushKeeps(s, e, d);
    case Sheds(t) =>
      ShedKeeps(s, t, d);
      PushKeeps(Drop(s, t), e, d);
    case Compacts(c) =>
      CompactFromKeeps(channelOf, ctx, s, MessageChannel(e), d);
      PushKeeps(c.lane, e, d);
  }

  /** An accepted delta is carried by the lane that accepted it. */
  lemma AdmitTakes(channelOf: int -> int, s: seq<Event>, ctx: Context, e: Event)
    requires |s| <= BUFFER && LaneInv(channelOf, s) && Offered(channelOf, e) && Delta(e)
    requires Accepted(Admit(s, ctx, e))
    ensures Carried(Admitted(s, e, Admit(s, ctx, e)), e)
  {
    var t := Admitted(s, e, Admit(s, ctx, e));
    match Admit(s, ctx, e)
    case Replaces(i) =>
      assert Genuine(channelOf, s[i]);
      assert Carries(t[i], e);
    case UnderMarker =>
      var i :| 0 <= i < |s| && MarkerFor(s[i], MessageChannel(e));
      assert Carries(t[i], e);
    case Appended => assert Carries(t[|s|], e);
    case Sheds(_) => assert Carries(t[|s| - 1], e);
    case Compacts(c) =>
      if c.covered {
        CompactFromInv(channelOf, ctx, s, 0, MessageChannel(e));
        var m :| m in t && MarkerFor(m, MessageChannel(e));
        assert Carries(m, e);
      } else {
        assert Carries(t[|c.lane|], e);
      }
  }

  // ---- Installing a policy ----

  /** `x` is what a policy leaves of some entry. */
  ghost predicate From(s: seq<Event>, x: Event) {
    exists j | 0 <= j < |s| ::
      s[j].kind == x.kind && s[j].requestID == x.requestID && (s[j].data == x.data || x.data.Snapshot?)
  }

  lemma FromApart(channelOf: int -> int, access: Access, s: seq<Event>, x: Event)
    requires s != [] && Genuine(channelOf, s[|s| - 1]) && From(s[..|s| - 1], x)
    requires forall j | 0 <= j < |s| - 1 :: !Clash(s[j], s[|s| - 1]) && !Clash(s[|s| - 1], s[j])
    ensures var e := FilterChannelEvent(access, s[|s| - 1]).0; From(s, x) && !Clash(x, e) && !Clash(e, x)
  {
    var front := s[..|s| - 1];
    var j :| 0 <= j < |front| && front[j].kind == x.kind && front[j].requestID == x.requestID
             && (front[j].data == x.data || x.data.Snapshot?);
    assert front[j] == s[j];
  }

  lemma {:induction false} SiftInv(channelOf: int -> int, access: Access, s: seq<Event>)
    requires LaneInv(channelOf, s)
    ensures LaneInv(channelOf, Sift(Censor(access), s))
    ensures forall k | 0 <= k < |Sift(Censor(access), s)| :: From(s, Sift(Censor(access), s)[k])
  {
    if s != [] {
      var front, last := s[..|s| - 1], s[|s| - 1];
      SiftInv(channelOf, access, front);
      var (e, allowed) := FilterChannelEvent(access, last);
      var done := Sift(Censor(access), front);
      assert Genuine(channelOf, last);
      forall k | 0 <= k < |done| ensures From(s, done[k]) && !Clash(done[k], e) && !Clash(e, done[k]) {
        FromApart(channelOf, access, s, done[k]);
      }
      if allowed { PushInv(channelOf, done, e); }
    }
  }

  /** A policy that still shows the delta's channel leaves what carries the delta in the lane. */
  lemma {:induction false} SiftKeeps(channelOf: int -> int, access: Access, s: seq<Event>, d: Event)
    requires forall i | 0 <= i < |s| :: Genuine(channelOf, s[i])
    requires Offered(channelOf, d) && Delta(d)
    requires CanAccess(access, MessageChannel(d)) && Carried(s, d)
    ensures Carried(Sift(Censor(access), s), d)
  {
    var front, last := s[..|s| - 1], s[|s| - 1];
    var done := Sift(Censor(access), front);
    assert Genuine(channelOf, last);
    if Carries(last, d) {
      assert Sift(Censor(access), s) == done + [last];
      assert (done + [last])[|done|] == last;
    } else {
      assert Carried(front, d);
      SiftKeeps(channelOf, access, front, d);
      var x :| x in done && Carries(x, d);
      assert x in Sift(Censor(access), s);
    }
  }

  // ---- Whole runs ----

  /** Popped since it was accepted, or still on its way. */
  ghost predicate Accounted(l: Ledger, d: Event, since: nat) {
    || (exists p | since <= p < |l.popped| :: Carries(l.popped[p], d))
    || Carried(l.queue.outgoing, d)
  }

  ghost predicate LedgerInv(channelOf: int -> int, readable: set<int>, l: Ledger) {
    && Bounded(l.queue)
    && LaneInv(channelOf, l.queue.outgoing)
    && (forall c <- readable :: CanAccess(l.access, c))
    && (forall a <- l.accepted :: Offered(channelOf, a.0) && a.1 <= |l.popped|)
    && (forall a <- l.accepted :: Delta(a.0) && MessageChannel(a.0) in readable ==> Accounted(l, a.0, a.1))
  }

  /** The producers keep their side and the channels in `readable` stay readable. */
  ghost predicate Fair(channelOf: int -> int, readable: set<int>, op: Op) {
    match op
    case Send(e, _) => Offered(channelOf, e)
    case Receive => true
    case SetAccess(access) => forall c <- readable :: CanAccess(access, c)
  }

  lemma SendLedger(channelOf: int -> int, readable: set<int>, l: Ledger, op: Op)
    requires LedgerInv(channelOf, readable, l) && op.Send? && Fair(channelOf, readable, op)
    ensures LedgerInv(channelOf, readable, Step(l, op))
  {
    StepBounded(l, op);
    var l' := Step(l, op);
    var (event, allowed) := FilterChannelEvent(l.access, op.event);
    if allowed {
      AdmitInv(channelOf, l.queue.outgoing, op.ctx, event);
      forall a | a in l'.accepted && Delta(a.0) && MessageChannel(a.0) in readable
        ensures Accounted(l', a.0, a.1)
      {
        if a in l.accepted {
          assert Accounted(l, a.0, a.1);
          if Carried(l.queue.outgoing, a.0) {
            AdmitKeeps(channelOf, l.queue.outgoing, op.ctx, event, a.0);
          }
        } else {
          AdmitTakes(channelOf, l.queue.outgoing, op.ctx, event);
        }
      }
    }
  }

  lemma ReceiveLedger(channelOf: int -> int, readable: set<int>, l: Ledger)
    requires LedgerInv(channelOf, readable, l)
    ensures LedgerInv(channelOf, readable, Step(l, Receive))
  {
    var l' := Step(l, Receive);
    var s, t := l.queue.outgoing, l'.queue.outgoing;
    if s != t {
      assert t == Drop(s, 0);
      DropInv(channelOf, s, 0);
    }
    forall a | a in l'.accepted && Delta(a.0) && MessageChannel(a.0) in readable
      ensures Accounted(l', a.0, a.1)
    {
      assert a.1 <= |l.popped|;
      ReceiveAccounted(l, a.0, a.1);
    }
  }

  lemma ReceiveAccounted(l: Ledger, d: Event, since: nat)
    requires Bounded(l.queue) && Accounted(l, d, since) && since <= |l.popped|
    ensures Accounted(Step(l, Receive), d, since)
  {
    var l' := Step(l, Receive);
    assert forall p | 0 <= p < |l.popped| :: l'.popped[p] == l.popped[p];
    if !(exists p | since <= p < |l.popped| :: Carries(l.popped[p], d)) {
      var x :| x in l.queue.outgoing && Carries(x, d);
      if x !in l'.queue.outgoing { assert l'.popped[|l.popped|] == x; }
    }
  }

  lemma AccessLedger(channelOf: int -> int, readable: set<int>, l: Ledger, op: Op)
    requires LedgerInv(channelOf, readable, l) && op.SetAccess? && Fair(channelOf, readable, op)
    ensures LedgerInv(channelOf, readable, Step(l, op))
  {
    var l' := Step(l, op);
    SiftInv(channelOf, op.access, l.queue.outgoing);
    forall a | a in l'.accepted && Delta(a.0) && MessageChannel(a.0) in readable
      ensures Accounted(l', a.0, a.1)
    {
      assert Accounted(l, a.0, a.1);
      if Carried(l.queue.outgoing, a.0) {
        SiftKeeps(channelOf, op.access, l.queue.outgoing, a.0);
      }
    }
  }

  lemma {:induction false} ExecLedger(channelOf: int -> int, readable: set<int>, l: Ledger, ops: seq<Op>)
    requires LedgerInv(channelOf, readable, l)
    requires forall op <- ops :: Fair(channelOf, readable, op)
    ensures LedgerInv(channelOf, readable, Exec(l, ops))
    decreases |ops|
  {
    if ops != [] {
      assert Fair(channelOf, readable, ops[0]);
      match ops[0] {
        case Send(_, _) => SendLedger(channelOf, readable, l, ops[0]);
        case Receive => ReceiveLedger(channelOf, readable, l);
        case SetAccess(_) => AccessLedger(channelOf, readable, l, ops[0]);
      }
      ExecLedger(channelOf, readable, Step(l, ops[0]), ops[1..]);
    }
  }

  /** Main result: the lossy queue delivers what a queue that keeps every delta would tell the
      client. After any run, each accepted delta of a channel that stayed readable was popped
      later, or something popped later or still queued supersedes or covers it; and markers are
      unique per channel and never queued beside a delta of theirs. */
  lemma DeltasDelivered(channelOf: int -> int, readable: set<int>, ops: seq<Op>)
    requires forall op <- ops :: Fair(channelOf, readable, op)
    ensures var l := Exec(START, ops);
            && (forall a <- l.accepted :: Delta(a.0) && MessageChannel(a.0) in readable ==> Accounted(l, a.0, a.1))
            && MarkersApart(l.queue.outgoing)
  {
    ExecLedger(channelOf, readable, START, ops);
  }

  /** In particular nothing is missing once the ordinary lane has drained. */
  lemma DrainedMeansDelivered(channelOf: int -> int, readable: set<int>, ops: seq<Op>, a: (Event, nat))
    requires forall op <- ops :: Fair(channelOf, readable, op)
    requires Exec(START, ops).queue.outgoing == []
    requires a in Exec(START, ops).accepted && Delta(a.0) && MessageChannel(a.0) in readable
    ensures var popped := Exec(START, ops).popped;
            exists p | a.1 <= p < |popped| :: Carries(popped[p], a.0)
  {
    DeltasDelivered(channelOf, readable, ops);
    assert Accounted(Exec(START, ops), a.0, a.1);
  }
}
