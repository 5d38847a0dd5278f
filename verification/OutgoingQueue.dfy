/** The two bounded lanes of one client as values: what enqueueing, compacting, popping and
    installing an access policy do to them, and when the ordinary lane refuses an event. */
module OutgoingQueue {
  import opened Options
  import opened OutgoingEvents
  import opened Sequences

  const BUFFER: nat := 128

  datatype Queue = Queue(outgoing: seq<Event>, priority: seq<Event>, burst: nat,
                         coalesced: nat, resyncs: nat)

  const EMPTY_QUEUE := Queue([], [], 0, 0, 0)

  /** What the queue reads from the rest of the client while it holds its lock. */
  datatype Context = Context(messageSync: bool, subscriptions: map<int, int>)

  datatype Outcome = Outcome(queue: Queue, accepted: bool)

  predicate Bounded(q: Queue) { |q.outgoing| <= BUFFER && |q.priority| <= BUFFER }

  predicate Compactable(ctx: Context, channelID: int) {
    ctx.messageSync && channelID in ctx.subscriptions && ctx.subscriptions[channelID] > 0
  }

  function SameKey(e: Event): Event -> bool {
    var key := ReplacementKey(e);
    (x: Event) => key != NoKey && ReplacementKey(x) == key
  }

  function AnyMarker(channelID: int): Event -> bool {
    (x: Event) => channelID > 0 && MarkerFor(x, channelID)
  }

  function DeltaOf(channelID: int): Event -> bool {
    (x: Event) => MessageChannel(x) == channelID
  }

  function MarkerOf(ctx: Context, channelID: int): Event
    requires Compactable(ctx, channelID)
  {
    Marker(ctx.subscriptions[channelID], channelID)
  }

  /** The first delta of the channel becomes its marker, the others disappear. */
  function Compact(ctx: Context, s: seq<Event>, channelID: int): seq<Event>
    requires Compactable(ctx, channelID)
  {
    Collapse(DeltaOf(channelID), s, MarkerOf(ctx, channelID))
  }

  /** A delta that compaction can turn into a marker. */
  predicate Reducible(ctx: Context, e: Event) {
    Delta(e) && Compactable(ctx, MessageChannel(e))
  }

  datatype Compaction = Compaction(lane: seq<Event>, count: nat, covered: bool)

  /** Compact channel after channel from index `i` on until a slot is free or the new delta's own
      channel was compacted. The lane under the loop is the one the compaction rewrites. */
  function CompactFrom(ctx: Context, s: seq<Event>, i: nat, channelID: int): Compaction
    requires i <= |s| == BUFFER
    decreases BUFFER - i
  {
    if i == |s| then Compaction(s, 0, false)
    else if !Reducible(ctx, s[i]) then CompactFrom(ctx, s, i + 1, channelID)
    else
      var lane := Compact(ctx, s, MessageChannel(s[i]));
      if MessageChannel(s[i]) == channelID then Compaction(lane, 1, true)
      else if |lane| != BUFFER then Compaction(lane, 1, false)
      else
        var rest := CompactFrom(ctx, lane, i + 1, channelID);
        rest.(count := rest.count + 1)
  }

  /** An older reactions revision or read position never replaces a newer queued one. */
  predicate Outdated(queued: Event, e: Event) {
    || (queued.data.Reactions? && e.data.Reactions? && e.data.revision < queued.data.revision)
    || (queued.data.ReadData? && e.data.ReadData? && e.data.lastRead < queued.data.lastRead)
  }

  /** How the ordinary lane takes an event: in the place of a queued state, under a queued marker,
      at the end, not at all because it is transient, in the place of a transient entry, or after
      trying to compact other entries away. */
  datatype Admission =
    | Replaces(index: nat) | UnderMarker | Appended | Ignored | Sheds(index: nat) | Compacts(result: Compaction)

  function Admit(s: seq<Event>, ctx: Context, e: Event): (a: Admission)
    requires |s| <= BUFFER
    ensures a.Replaces? ==> a.index < |s| && ReplacementKey(s[a.index]) == ReplacementKey(e) != NoKey
    ensures a.UnderMarker? ==> Delta(e) && exists i | 0 <= i < |s| :: MarkerFor(s[i], MessageChannel(e))
    ensures a.Appended? ==> |s| < BUFFER
    ensures a.Ignored? ==> Transient(e)
    ensures a.Sheds? ==> |s| == BUFFER && a.index < |s| && Transient(s[a.index])
    ensures a.Compacts? ==> |s| == BUFFER && a.result == CompactFrom(ctx, s, 0, MessageChannel(e))
    ensures Delta(e) && !a.Replaces? && !a.UnderMarker? ==>
              forall i | 0 <= i < |s| :: !MarkerFor(s[i], MessageChannel(e))
  {
    var i, m, t := First(SameKey(e), s), First(AnyMarker(MessageChannel(e)), s), First(Transient, s);
    assert forall j | 0 <= j < m :: !AnyMarker(MessageChannel(e))(s[j]);
    if i < |s| then Replaces(i)
    else if m < |s| then UnderMarker
    else if |s| < BUFFER then Appended
    else if Transient(e) then Ignored
    else if t < |s| then Sheds(t)
    else Compacts(CompactFrom(ctx, s, 0, MessageChannel(e)))
  }

  predicate Accepted(a: Admission) {
    a.Compacts? ==> a.result.covered || |a.result.lane| < BUFFER
  }

  function Admitted(s: seq<Event>, e: Event, a: Admission): seq<Event>
    requires (a.Replaces? || a.Sheds?) ==> a.index < |s|
  {
    match a
    case Replaces(i) => if Outdated(s[i], e) then s else s[i := e]
    case UnderMarker => s
    case Appended => s + [e]
    case Ignored => s
    case Sheds(t) => Drop(s, t) + [e]
    case Compacts(c) => if c.covered || |c.lane| >= BUFFER then c.lane else c.lane + [e]
  }

  function Enqueue(q: Queue, ctx: Context, e: Event): Outcome
    requires Bounded(q)
  {
    if e.kind.MediaType? then
      if |q.priority| == BUFFER then Outcome(q, false)
      else Outcome(q.(priority := q.priority + [e]), true)
    else
      var a := Admit(q.outgoing, ctx, e);
      Outcome(q.(outgoing := Admitted(q.outgoing, e, a),
                 coalesced := q.coalesced + (if a.Replaces? || a.UnderMarker? then 1 else 0),
                 resyncs := q.resyncs + (if a.Compacts? then a.result.count else 0)),
              Accepted(a))
  }

  datatype Popped = Popped(queue: Queue, event: Option<Event>)

  predicate PopsMedia(q: Queue) { q.priority != [] && (q.burst < 8 || q.outgoing == []) }

  function Pop(q: Queue): Popped {
    if PopsMedia(q) then
      Popped(q.(priority := q.priority[1..], burst := q.burst + 1), Some(q.priority[0]))
    else if q.outgoing == [] then Popped(q.(burst := 0), None)
    else Popped(q.(outgoing := q.outgoing[1..], burst := 0), Some(q.outgoing[0]))
  }

  function Censor(access: Access): Event -> (Event, bool) {
    (e: Event) => FilterChannelEvent(access, e)
  }

  function InstallAccess(q: Queue, access: Access): Queue {
    q.(outgoing := Sift(Censor(access), q.outgoing), priority := Sift(Censor(access), q.priority))
  }

  // ---- The compaction loop ----

  /** One compaction either replaces the delta at `i` where it stands or shortens the lane. */
  lemma CompactOne(ctx: Context, s: seq<Event>, i: nat)
    requires i < |s| && Reducible(ctx, s[i])
    ensures var c := MessageChannel(s[i]);
            var lane := Compact(ctx, s, c);
            && |lane| <= |s|
            && (|lane| == |s| <==> Count(DeltaOf(c), s) == 1)
            && (|lane| == |s| ==> lane == s[i := MarkerOf(ctx, c)] && forall j | 0 <= j < |s| &&
                j != i :: MessageChannel(s[j]) != c)
            && MarkerOf(ctx, c) in lane
            && (forall x :: x in lane <==> (x in s && MessageChannel(x) != c) || x == MarkerOf(ctx, c))
  {
    var c := MessageChannel(s[i]);
    var p, marker := DeltaOf(c), MarkerOf(ctx, c);
    CountAt(p, s, i);
    CollapseLength(p, s, marker);
    if Count(p, s) == 1 {
      CollapseSingle(p, s, marker, i);
      forall j | 0 <= j < |s| && j != i ensures MessageChannel(s[j]) != c {
        assert !p(s[j]);
      }
    }
    forall x ensures x in Compact(ctx, s, c) <==> (x in s && MessageChannel(x) != c) || x == marker {
      CollapseMembers(p, s, marker, x);
    }
  }

  /** The loop turns deltas of compactable channels into markers and touches nothing else. */
  lemma {:induction false} CompactFromMembers(ctx: Context, s: seq<Event>, i: nat, channelID: int, x: Event)
    requires i <= |s| == BUFFER
    ensures var lane := CompactFrom(ctx, s, i, channelID).lane;
            && |lane| <= BUFFER
            && (x in s && x !in lane ==> Delta(x) && exists m <- lane :: MarkerFor(m, MessageChannel(x)))
            && (x in lane && x !in s ==> exists d <- s :: Reducible(ctx, d) && x == MarkerOf(ctx, MessageChannel(d)))
    decreases BUFFER - i
  {
    if i < |s| {
      if !Reducible(ctx, s[i]) {
        CompactFromMembers(ctx, s, i + 1, channelID, x);
      } else {
        CompactOne(ctx, s, i);
        var c := MessageChannel(s[i]);
        var lane, marker := Compact(ctx, s, c), MarkerOf(ctx, c);
        assert s[i] in s;
        if c != channelID && |lane| == BUFFER {
          CompactFromMembers(ctx, lane, i + 1, channelID, x);
          CompactFromMembers(ctx, lane, i + 1, channelID, marker);
        }
      }
    }
  }

  /** No slot can be freed: each compactable channel has one delta, and none is `channelID`. */
  ghost predicate Stuck(ctx: Context, s: seq<Event>, channelID: int) {
    forall i | 0 <= i < |s| && Reducible(ctx, s[i]) ::
      MessageChannel(s[i]) != channelID && Count(DeltaOf(MessageChannel(s[i])), s) == 1
  }

  lemma StuckAfterOne(ctx: Context, s: seq<Event>, i: nat, channelID: int)
    requires i < |s| && Reducible(ctx, s[i]) && MessageChannel(s[i]) != channelID
    requires Count(DeltaOf(MessageChannel(s[i])), s) == 1
    ensures Stuck(ctx, Compact(ctx, s, MessageChannel(s[i])), channelID) <==> Stuck(ctx, s, channelID)
  {
    CompactOne(ctx, s, i);
    var c := MessageChannel(s[i]);
    var t, marker := Compact(ctx, s, c), MarkerOf(ctx, c);
    forall j | 0 <= j < |s| && j != i && Reducible(ctx, s[j])
      ensures t[j] == s[j] && Count(DeltaOf(MessageChannel(s[j])), t) == Count(DeltaOf(MessageChannel(s[j])), s)
    {
      CountReplace(DeltaOf(MessageChannel(s[j])), s, i, marker);
    }
    assert !Reducible(ctx, t[i]);
  }

  /** The loop ends with a full lane and no cover exactly when the lane was stuck, and then
      nothing in it can be compacted any more. The entries before `i` are already out of reach. */
  lemma {:induction false} CompactFromStuck(ctx: Context, s: seq<Event>, i: nat, channelID: int)
    requires i <= |s| == BUFFER
    requires forall j | 0 <= j < i :: !Reducible(ctx, s[j])
    ensures var c := CompactFrom(ctx, s, i, channelID);
            && (!c.covered && |c.lane| == BUFFER <==> Stuck(ctx, s, channelID))
            && (Stuck(ctx, s, channelID) ==> forall j | 0 <= j < BUFFER :: !Reducible(ctx, c.lane[j]))
    decreases BUFFER - i
  {
    if i < |s| {
      if !Reducible(ctx, s[i]) {
        CompactFromStuck(ctx, s, i + 1, channelID);
      } else {
        CompactOne(ctx, s, i);
        var c := MessageChannel(s[i]);
        var lane := Compact(ctx, s, c);
        if c != channelID && |lane| == BUFFER {
          StuckAfterOne(ctx, s, i, channelID);
          assert forall j | 0 <= j <= i :: !Reducible(ctx, lane[j]);
          CompactFromStuck(ctx, lane, i + 1, channelID);
        }
      }
    }
  }

  // ---- Refusals ----

  /** The lane can neither replace, cover, shed nor compact anything for `e`. */
  ghost predicate NoWayIn(s: seq<Event>, ctx: Context, e: Event) {
    && |s| == BUFFER
    && !Transient(e)
    && (forall i | 0 <= i < |s| :: !Transient(s[i]))
    && (ReplacementKey(e) != NoKey ==> forall i | 0 <= i < |s| :: ReplacementKey(s[i]) != ReplacementKey(e))
    && (Delta(e) ==> forall i | 0 <= i < |s| :: !MarkerFor(s[i], MessageChannel(e)))
    && Stuck(ctx, s, MessageChannel(e))
  }

  lemma Searches(s: seq<Event>, e: Event)
    ensures First(SameKey(e), s) == |s| <==>
            (ReplacementKey(e) != NoKey ==> forall i | 0 <= i < |s| :: ReplacementKey(s[i]) != ReplacementKey(e))
    ensures First(AnyMarker(MessageChannel(e)), s) == |s| <==>
            (Delta(e) ==> forall i | 0 <= i < |s| :: !MarkerFor(s[i], MessageChannel(e)))
  {
    assert forall i | 0 <= i < |s| :: SameKey(e)(s[i]) <==>
        ReplacementKey(e) != NoKey && ReplacementKey(s[i]) == ReplacementKey(e);
    assert forall i | 0 <= i < |s| :: AnyMarker(MessageChannel(e))(s[i]) <==>
        Delta(e) && MarkerFor(s[i], MessageChannel(e));
  }

  /** An ordinary event is refused exactly when the lane is full of entries that can neither be
      replaced, shed nor compacted into a free slot; the lane the refusal leaves behind still has
      128 entries, none of them transient and none a delta that could be compacted. */
  lemma RefusedExactly(q: Queue, ctx: Context, e: Event)
    requires Bounded(q) && !e.kind.MediaType?
    ensures !Enqueue(q, ctx, e).accepted <==> NoWayIn(q.outgoing, ctx, e)
    ensures !Enqueue(q, ctx, e).accepted ==>
            var lane := Enqueue(q, ctx, e).queue.outgoing;
            |lane| == BUFFER && forall i | 0 <= i < BUFFER :: !Transient(lane[i]) && !Reducible(ctx, lane[i])
  {
    Searches(q.outgoing, e);
    if |q.outgoing| == BUFFER {
      CompactFromStuck(ctx, q.outgoing, 0, MessageChannel(e));
      var lane := CompactFrom(ctx, q.outgoing, 0, MessageChannel(e)).lane;
      forall i | 0 <= i < |lane| && First(Transient, q.outgoing) == BUFFER ensures !Transient(lane[i]) {
        CompactFromMembers(ctx, q.outgoing, 0, MessageChannel(e), lane[i]);
      }
      CompactFromMembers(ctx, q.outgoing, 0, MessageChannel(e), e);
    }
  }

  /** Every entry was there before, is the new event, or is a marker for one of the deltas. */
  lemma AdmittedMembers(s: seq<Event>, ctx: Context, e: Event)
    requires |s| <= BUFFER
    ensures var lane := Admitted(s, e, Admit(s, ctx, e));
            && |lane| <= BUFFER
            && forall i | 0 <= i < |lane| ::
                 lane[i] in s || lane[i] == e || exists d <- s ::
                     Reducible(ctx, d) && lane[i] == MarkerOf(ctx, MessageChannel(d))
  {
    if |s| == BUFFER {
      var compacted := CompactFrom(ctx, s, 0, MessageChannel(e)).lane;
      CompactFromMembers(ctx, s, 0, MessageChannel(e), e);
      forall i | 0 <= i < |compacted|
        ensures compacted[i] in s || exists d <- s ::
            Reducible(ctx, d) && compacted[i] == MarkerOf(ctx, MessageChannel(d))
      {
        CompactFromMembers(ctx, s, 0, MessageChannel(e), compacted[i]);
      }
    }
  }

  lemma EnqueueBounded(q: Queue, ctx: Context, e: Event)
    requires Bounded(q)
    ensures Bounded(Enqueue(q, ctx, e).queue)
  {
    AdmittedMembers(q.outgoing, ctx, e);
  }
}
