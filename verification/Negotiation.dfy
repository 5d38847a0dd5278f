/** Server-driven offer/answer negotiation of one media session. Every operation below is one
    critical section of the session's negotiation lock; the peer is its set of sending tracks and
    its signaling state, and its calls succeed. Requests that meet an outstanding offer are
    deferred and carried out by a continuation of the call that accepts the answer. */
module Negotiation {

  /** Tracks are told apart by their IDs. */
  type Track = nat

  datatype Kind = Voice | Viewer | Publisher

  /** What a session was asked and what it did, in order. `Asked` is a call that names the tracks to
      send, and insists on an offer if forced. An offer describes the senders at that time. */
  datatype Event =
    | Asked(desired: set<Track>, force: bool)
    | SendersChanged(senders: set<Track>)
    | RestartRequested
    | Offer(described: set<Track>, restart: bool)
    | AnswerAccepted

  /** `media` tells whether the peer of a viewer has a transceiver; `continuations` counts the
      accepted answers whose deferred work has not run yet. */
  datatype Core = Core(
    kind: Kind,
    senders: set<Track>,
    media: bool,
    stable: bool,
    negotiationPending: bool,
    iceRestartPending: bool,
    closed: bool,
    continuations: nat)

  datatype Op =
    | Synchronize(desired: set<Track>, force: bool)
    | RestartIce
    | CreateOffer
    | AcceptAnswer
    | Continue(desired: set<Track>)
    | Close

  function MakeOffer(c: Core, restart: bool): (Core, seq<Event>) {
    (c.(stable := false, negotiationPending := false, iceRestartPending := false), [Offer(c.senders, restart)])
  }

  /** A viewer peer without a transceiver waits for the first track of its room. */
  predicate Waits(c: Core, desired: set<Track>) { c.kind.Viewer? && desired == {} && !c.media }

  function Sync(c: Core, desired: set<Track>, force: bool): (Core, seq<Event>) {
    if c.closed || c.kind.Publisher? || Waits(c, desired) then (c, [])
    else
      var changed := c.senders != desired;
      var d := c.(senders := desired, media := c.media || desired != {});
      var change := if changed then [SendersChanged(desired)] else [];
      if !changed && !force && !c.negotiationPending && !c.iceRestartPending then (d, [])
      else if !c.stable then (d.(negotiationPending := true), change)
      else
        var (e, offer) := MakeOffer(d, d.iceRestartPending);
        (e, change + offer)
  }

  /** Voice sessions mark a deferred restart with both flags, stream sessions with one. */
  function Restart(c: Core): (Core, seq<Event>) {
    if c.closed then (c, [])
    else if !c.stable then
      (c.(iceRestartPending := true, negotiationPending := c.negotiationPending || c.kind.Voice?), [])
    else MakeOffer(c, true)
  }

  /** The first offer of a publisher, made right after its callbacks are installed; the function itself
      does not look at the signaling state. */
  function First(c: Core): (Core, seq<Event>) {
    if c.closed || !c.kind.Publisher? then (c, []) else MakeOffer(c, false)
  }

  /** An answer is an error unless an offer is outstanding. */
  predicate Answerable(c: Core) { !c.closed && !c.stable }

  function Answer(c: Core): (Core, seq<Event>) {
    if !Answerable(c) then (c, [])
    else
      var deferred := c.iceRestartPending || (c.negotiationPending && !c.kind.Publisher?);
      (c.(stable := true, continuations := c.continuations + if deferred then 1 else 0), [AnswerAccepted])
  }

  function Resume(c: Core, desired: set<Track>): (Core, seq<Event>) {
    if c.continuations == 0 then (c, [])
    else
      var d := c.(continuations := c.continuations - 1);
      if c.kind.Publisher? then Restart(d) else Sync(d, desired, false)
  }

  function Act(c: Core, op: Op): (Core, seq<Event>) {
    match op
    case Synchronize(desired, force) => Sync(c, desired, force)
    case RestartIce => Restart(c)
    case CreateOffer => First(c)
    case AcceptAnswer => Answer(c)
    case Continue(desired) => Resume(c, desired)
    case Close => (c.(closed := true), [])
  }

  /** What a call asks of an open session, whatever comes of it. A viewer that waits for media is asked
      nothing by a call that finds its room empty. */
  function Asks(c: Core, op: Op): seq<Event> {
    if c.closed then []
    else match op
      case Synchronize(desired, force) =>
        if c.kind.Publisher? || Waits(c, desired) then [] else [Asked(desired, force)]
      case RestartIce => [RestartRequested]
      case CreateOffer => if c.kind.Publisher? then [Asked({}, true)] else []
      case Continue(desired) =>
        if c.continuations == 0 then []
        else if c.kind.Publisher? then [RestartRequested]
        else if Waits(c, desired) then []
        else [Asked(desired, false)]
      case _ => []
  }

  function Take(c: Core, op: Op): (Core, seq<Event>) {
    var (d, events) := Act(c, op);
    (d, Asks(c, op) + events)
  }

  /** The session and its history after the operations, in any order and number. */
  function Run(c: Core, ops: seq<Op>): (Core, seq<Event>)
    decreases |ops|
  {
    if ops == [] then (c, [])
    else
      var (d, log) := Run(c, ops[..|ops| - 1]);
      var (e, events) := Take(d, ops[|ops| - 1]);
      (e, log + events)
  }

  ghost predicate Fresh(c: Core) {
    && c.senders == {} && c.stable && !c.negotiationPending && !c.iceRestartPending && !c.closed
    && c.continuations == 0
  }

  // ---- What a history says ----

  ghost function Init(log: seq<Event>): seq<Event>
    requires log != []
  {
    log[..|log| - 1]
  }

  ghost function Last(log: seq<Event>): Event
    requires log != []
  {
    log[|log| - 1]
  }

  /** An offer has been made and not answered. */
  ghost predicate Outstanding(log: seq<Event>) {
    log != [] && (Last(log).Offer? || (!Last(log).AnswerAccepted? && Outstanding(Init(log))))
  }

  ghost function SendersAt(log: seq<Event>): set<Track> {
    if log == [] then {} else if Last(log).SendersChanged? then Last(log).senders else SendersAt(Init(log))
  }

  /** The senders changed, or a restart was requested, since the last offer. */
  ghost predicate ChangeWaiting(log: seq<Event>) {
    log != [] && (Last(log).SendersChanged? || (!Last(log).Offer? && ChangeWaiting(Init(log))))
  }

  /** The tracks that were asked for last. */
  ghost function DesiredAt(log: seq<Event>): set<Track> {
    if log == [] then {} else if Last(log).Asked? then Last(log).desired else DesiredAt(Init(log))
  }

  /** An offer was asked for since the last one. */
  ghost predicate OfferWaiting(log: seq<Event>) {
    log != [] && ((Last(log).Asked? && Last(log).force) || (!Last(log).Offer? && OfferWaiting(Init(log))))
  }

  ghost predicate RestartWaiting(log: seq<Event>) {
    log != [] && (Last(log).RestartRequested? || (!Last(log).Offer? && RestartWaiting(Init(log))))
  }

  /** No offer was made while another was outstanding. */
  ghost predicate Alternating(log: seq<Event>) {
    log == [] || (Alternating(Init(log)) && (Last(log).Offer? ==> !Outstanding(Init(log))))
  }

  /** Every offer describes the senders of its time and carries the restarts requested before it. */
  ghost predicate Faithful(log: seq<Event>) {
    log == [] || (
      && Faithful(Init(log))
      && (Last(log).Offer? ==>
            Last(log).described == SendersAt(Init(log)) && (RestartWaiting(Init(log)) ==> Last(log).restart)))
  }

  /** All of the above in one value, which grows with the history one event at a time. */
  datatype Summary = Summary(
    outstanding: bool, senders: set<Track>, desired: set<Track>, change: bool, offer: bool, restart: bool,
    alternating: bool, faithful: bool)

  ghost function SummaryOf(log: seq<Event>): Summary {
    Summary(Outstanding(log), SendersAt(log), DesiredAt(log), ChangeWaiting(log), OfferWaiting(log),
            RestartWaiting(log), Alternating(log), Faithful(log))
  }

  ghost function Next(h: Summary, e: Event): Summary {
    match e
    case Asked(desired, force) => h.(desired := desired, offer := h.offer || force)
    case SendersChanged(senders) => h.(senders := senders, change := true)
    case RestartRequested => h.(restart := true)
    case Offer(described, restart) =>
      Summary(true, h.senders, h.desired, false, false, false, h.alternating && !h.outstanding,
              h.faithful && described == h.senders && (h.restart ==> restart))
    case AnswerAccepted => h.(outstanding := false)
  }

  ghost function NextAll(h: Summary, events: seq<Event>): Summary {
    if events == [] then h else Next(NextAll(h, events[..|events| - 1]), events[|events| - 1])
  }

  lemma SummaryPush(log: seq<Event>, e: Event)
    ensures SummaryOf(log + [e]) == Next(SummaryOf(log), e)
  {
    assert Init(log + [e]) == log && Last(log + [e]) == e;
  }

  lemma {:induction false} SummaryAppend(log: seq<Event>, events: seq<Event>)
    ensures SummaryOf(log + events) == NextAll(SummaryOf(log), events)
    decreases |events|
  {
    if events == [] {
      assert log + events == log;
    } else {
      var front, e := events[..|events| - 1], events[|events| - 1];
      SummaryAppend(log, front);
      SummaryPush(log + front, e);
      assert log + events == (log + front) + [e];
    }
  }

  lemma NextTwo(h: Summary, events: seq<Event>)
    requires |events| <= 2
    ensures |events| == 1 ==> NextAll(h, events) == Next(h, events[0])
    ensures |events| == 2 ==> NextAll(h, events) == Next(Next(h, events[0]), events[1])
  {
    if |events| == 2 {
      assert events[..1] == [events[0]] && NextAll(h, [events[0]]) == Next(h, events[0]);
    }
  }

  lemma {:induction false} NextAppend(h: Summary, a: seq<Event>, b: seq<Event>)
    ensures NextAll(h, a + b) == NextAll(NextAll(h, a), b)
    decreases |b|
  {
    if b == [] {
      assert a + b == a;
    } else {
      var front := b[..|b| - 1];
      NextAppend(h, a, front);
      assert (a + b)[..|a + b| - 1] == a + front;
    }
  }

  // ---- The invariant that ties a session to its history ----

  ghost predicate Tracks(c: Core, h: Summary) {
    && c.stable == !h.outstanding
    && c.senders == h.senders
    && c.iceRestartPending == h.restart
    && c.senders == h.desired
    && (h.change || h.offer ==> c.negotiationPending)
    && (c.negotiationPending ==> h.change || h.offer || h.restart)
  }

  /** Deferred work always has a continuation that will run it, or an offer whose answer will
      start one. The exception is a viewer whose peer has no transceiver. */
  ghost predicate Promised(c: Core) {
    && (c.stable && !c.closed && (c.negotiationPending || c.iceRestartPending) ==>
          c.continuations > 0 || (c.kind.Viewer? && !c.media))
    && (c.kind.Viewer? && !c.media ==> c.senders == {} && !c.negotiationPending)
    && (c.kind.Publisher? ==> c.senders == {} && !c.negotiationPending)
  }

  ghost predicate Overlaps(c: Core, op: Op) { op.CreateOffer? && !c.closed && c.kind.Publisher? && !c.stable }

  ghost predicate DropsRestart(c: Core, op: Op) {
    op.CreateOffer? && !c.closed && c.kind.Publisher? && c.iceRestartPending
  }

  lemma SyncTracks(c: Core, h: Summary, desired: set<Track>, force: bool)
    requires Tracks(c, h) && !c.closed && !c.kind.Publisher? && !Waits(c, desired)
    ensures var (d, events) := Sync(c, desired, force);
            var g := NextAll(Next(h, Asked(desired, force)), events);
            Tracks(d, g) && g.faithful == h.faithful && g.alternating == h.alternating
  {
    NextTwo(Next(h, Asked(desired, force)), Sync(c, desired, force).1);
  }

  lemma RestartTracks(c: Core, h: Summary)
    requires Tracks(c, h) && !c.closed
    ensures var (d, events) := Restart(c);
            var g := NextAll(Next(h, RestartRequested), events);
            Tracks(d, g) && g.faithful == h.faithful && g.alternating == h.alternating
  {
    NextTwo(Next(h, RestartRequested), Restart(c).1);
  }

  lemma FirstTracks(c: Core, h: Summary)
    requires Tracks(c, h) && c.senders == {} && !c.closed && c.kind.Publisher?
    ensures var (d, events) := First(c);
            var g := NextAll(Next(h, Asked({}, true)), events);
            && Tracks(d, g)
            && g.faithful == (h.faithful && !DropsRestart(c, CreateOffer))
            && g.alternating == (h.alternating && !Overlaps(c, CreateOffer))
  {
    NextTwo(Next(h, Asked({}, true)), First(c).1);
  }

  lemma AnswerTracks(c: Core, h: Summary)
    requires Tracks(c, h)
    ensures var (d, events) := Answer(c);
            var g := NextAll(h, events);
            Tracks(d, g) && g.faithful == h.faithful && g.alternating == h.alternating
  {
    NextTwo(h, Answer(c).1);
  }

  lemma ResumeTracks(c: Core, h: Summary, desired: set<Track>)
    requires Tracks(c, h) && !c.closed && c.continuations > 0 && !c.kind.Publisher? && !Waits(c, desired)
    ensures var (d, events) := Resume(c, desired);
            var g := NextAll(Next(h, Asked(desired, false)), events);
            Tracks(d, g) && g.faithful == h.faithful && g.alternating == h.alternating
  {
    SyncTracks(c.(continuations := c.continuations - 1), h, desired, false);
  }

  lemma RestartedTracks(c: Core, h: Summary, desired: set<Track>)
    requires Tracks(c, h) && !c.closed && c.continuations > 0 && c.kind.Publisher?
    ensures var (d, events) := Resume(c, desired);
            var g := NextAll(Next(h, RestartRequested), events);
            Tracks(d, g) && g.faithful == h.faithful && g.alternating == h.alternating
  {
    RestartTracks(c.(continuations := c.continuations - 1), h);
  }

  /** What a call asks and does keeps session and history together. */
  ghost predicate Keeps(c: Core, h: Summary, op: Op) {
    var (d, events) := Act(c, op);
    var g := NextAll(NextAll(h, Asks(c, op)), events);
    && Tracks(d, g)
    && g.faithful == (h.faithful && !DropsRestart(c, op))
    && g.alternating == (h.alternating && !Overlaps(c, op))
  }

  lemma SynchronizeKeeps(c: Core, h: Summary, desired: set<Track>, force: bool)
    requires Tracks(c, h)
    ensures Keeps(c, h, Synchronize(desired, force))
  {
    NextTwo(h, Asks(c, Synchronize(desired, force)));
    if !c.closed && !c.kind.Publisher? && !Waits(c, desired) { SyncTracks(c, h, desired, force); }
  }

  lemma RestartKeeps(c: Core, h: Summary)
    requires Tracks(c, h)
    ensures Keeps(c, h, RestartIce)
  {
    NextTwo(h, Asks(c, RestartIce));
    if !c.closed { RestartTracks(c, h); }
  }

  lemma FirstKeeps(c: Core, h: Summary)
    requires Tracks(c, h) && Promised(c)
    ensures Keeps(c, h, CreateOffer)
  {
    NextTwo(h, Asks(c, CreateOffer));
    if !c.closed && c.kind.Publisher? { FirstTracks(c, h); }
  }

  lemma ContinueKeeps(c: Core, h: Summary, desired: set<Track>)
    requires Tracks(c, h)
    ensures Keeps(c, h, Continue(desired))
  {
    NextTwo(h, Asks(c, Continue(desired)));
    if !c.closed && c.continuations > 0 && c.kind.Publisher? {
      RestartedTracks(c, h, desired);
    } else if !c.closed && c.continuations > 0 && !Waits(c, desired) {
      ResumeTracks(c, h, desired);
    }
  }

  lemma AnswerKeeps(c: Core, h: Summary)
    requires Tracks(c, h)
    ensures Keeps(c, h, AcceptAnswer)
  {
    AnswerTracks(c, h);
  }

  lemma ActKeeps(c: Core, h: Summary, op: Op)
    requires Tracks(c, h) && Promised(c)
    ensures Keeps(c, h, op)
  {
    match op {
      case Synchronize(desired, force) => SynchronizeKeeps(c, h, desired, force);
      case RestartIce => RestartKeeps(c, h);
      case CreateOffer => FirstKeeps(c, h);
      case AcceptAnswer => AnswerKeeps(c, h);
      case Continue(desired) => ContinueKeeps(c, h, desired);
      case Close =>
    }
  }

  lemma ActTracks(c: Core, h: Summary, op: Op)
    requires Tracks(c, h) && Promised(c)
    ensures var (d, events) := Take(c, op);
            var g := NextAll(h, events);
            && Tracks(d, g)
            && g.faithful == (h.faithful && !DropsRestart(c, op))
            && g.alternating == (h.alternating && !Overlaps(c, op))
  {
    NextAppend(h, Asks(c, op), Act(c, op).1);
    ActKeeps(c, h, op);
  }

  lemma ActPromised(c: Core, op: Op)
    requires Promised(c)
    ensures Promised(Act(c, op).0)
  {
  }

  /** Every first offer of the run found the peer stable, or found no restart waiting. */
  ghost predicate FirstWhenStable(c: Core, ops: seq<Op>)
    decreases |ops|
  {
    ops == [] || (
      var d := Run(c, ops[..|ops| - 1]).0;
      && FirstWhenStable(c, ops[..|ops| - 1])
      && !Overlaps(d, ops[|ops| - 1]))
  }

  ghost predicate FirstWhenNoRestart(c: Core, ops: seq<Op>)
    decreases |ops|
  {
    ops == [] || (
      var d := Run(c, ops[..|ops| - 1]).0;
      && FirstWhenNoRestart(c, ops[..|ops| - 1])
      && !DropsRestart(d, ops[|ops| - 1]))
  }

  lemma ActInv(c: Core, log: seq<Event>, op: Op)
    requires Tracks(c, SummaryOf(log)) && Promised(c)
    ensures var (d, events) := Take(c, op);
            && Tracks(d, SummaryOf(log + events)) && Promised(d) && d.kind == c.kind
            && Faithful(log + events) == (Faithful(log) && !DropsRestart(c, op))
            && Alternating(log + events) == (Alternating(log) && !Overlaps(c, op))
  {
    SummaryAppend(log, Take(c, op).1);
    ActTracks(c, SummaryOf(log), op);
    ActPromised(c, op);
  }

  lemma {:induction false} RunInv(c: Core, ops: seq<Op>)
    requires Fresh(c)
    ensures var (d, log) := Run(c, ops);
            && Tracks(d, SummaryOf(log)) && Promised(d) && d.kind == c.kind
            && (Alternating(log) <==> FirstWhenStable(c, ops))
            && (Faithful(log) <==> FirstWhenNoRestart(c, ops))
    decreases |ops|
  {
    if ops != [] {
      var front, op := ops[..|ops| - 1], ops[|ops| - 1];
      RunInv(c, front);
      var (d, log) := Run(c, front);
      ActInv(d, log, op);
    }
  }

  // ---- No second outstanding offer ----

  /** How a publisher begins: its first offer is made once, and a restart needs a connection that has
      failed or an answer that was accepted, so none comes before it. */
  ghost predicate Begun(c: Core, ops: seq<Op>) {
    c.kind.Publisher? ==>
      forall i, j | 0 <= j < i < |ops| && ops[i].CreateOffer? :: !ops[j].CreateOffer? && !ops[j].RestartIce?
  }

  lemma NothingStep(c: Core, op: Op)
    requires c.kind.Publisher? && c.stable && c.continuations == 0 && !op.CreateOffer? && !op.RestartIce?
    ensures Take(c, op).0 == c.(closed := Take(c, op).0.closed)
  {
  }

  /** Before its first offer nothing happens to a publisher, except that it may be closed. */
  lemma {:induction false} NothingBefore(c: Core, ops: seq<Op>)
    requires Fresh(c) && c.kind.Publisher? && forall j | 0 <= j < |ops| :: !ops[j].CreateOffer? && !ops[j].RestartIce?
    ensures Run(c, ops).0 == c.(closed := Run(c, ops).0.closed)
    decreases |ops|
  {
    if ops != [] {
      NothingBefore(c, ops[..|ops| - 1]);
      assert !ops[|ops| - 1].CreateOffer? && !ops[|ops| - 1].RestartIce?;
      NothingStep(Run(c, ops[..|ops| - 1]).0, ops[|ops| - 1]);
    }
  }

  /** In the runs of the code every first offer finds the peer stable and no restart waiting. */
  lemma {:induction false} BegunWell(c: Core, ops: seq<Op>)
    requires Fresh(c) && Begun(c, ops)
    ensures FirstWhenStable(c, ops) && FirstWhenNoRestart(c, ops)
    decreases |ops|
  {
    if ops != [] {
      var front := ops[..|ops| - 1];
      BegunWell(c, front);
      RunInv(c, front);
      if c.kind.Publisher? && ops[|ops| - 1].CreateOffer? {
        NothingBefore(c, front);
      }
    }
  }

  lemma {:induction false} AlternatingAt(log: seq<Event>, n: nat)
    requires Alternating(log) && n < |log| && log[n].Offer?
    ensures !Outstanding(log[..n])
  {
    if n < |log| - 1 {
      AlternatingAt(Init(log), n);
      assert Init(log)[..n] == log[..n];
    }
  }

  lemma {:induction false} FaithfulAt(log: seq<Event>, n: nat)
    requires Faithful(log) && n < |log| && log[n].Offer?
    ensures FaithfulOffer(log, n)
  {
    if n < |log| - 1 {
      FaithfulAt(Init(log), n);
      assert Init(log)[..n] == log[..n];
    }
  }

  /** Main result: a session never makes an offer while one is outstanding. */
  lemma OffersNeverOverlap(c: Core, ops: seq<Op>)
    requires Fresh(c) && Begun(c, ops)
    ensures var log := Run(c, ops).1; forall n: nat | n < |log| && log[n].Offer? :: !Outstanding(log[..n])
  {
    BegunWell(c, ops);
    RunInv(c, ops);
    var log := Run(c, ops).1;
    forall n: nat | n < |log| && log[n].Offer? ensures !Outstanding(log[..n]) { AlternatingAt(log, n); }
  }

  lemma {:induction false} AlternatingFrom(log: seq<Event>)
    requires forall n: nat | n < |log| && log[n].Offer? :: !Outstanding(log[..n])
    ensures Alternating(log)
  {
    if log != [] {
      var init := Init(log);
      forall n: nat | n < |init| && init[n].Offer? ensures !Outstanding(init[..n]) {
        assert init[..n] == log[..n] && log[n].Offer?;
      }
      AlternatingFrom(init);
    }
  }

  ghost predicate FaithfulOffer(log: seq<Event>, n: nat)
    requires n < |log| && log[n].Offer?
  {
    log[n].described == SendersAt(log[..n]) && (RestartWaiting(log[..n]) ==> log[n].restart)
  }

  /** Main result: every offer describes the senders of its time and carries every restart requested
      since the offer before it. */
  lemma OffersFaithful(c: Core, ops: seq<Op>)
    requires Fresh(c) && Begun(c, ops)
    ensures var log := Run(c, ops).1; forall n: nat | n < |log| && log[n].Offer? :: FaithfulOffer(log, n)
  {
    BegunWell(c, ops);
    RunInv(c, ops);
    var log := Run(c, ops).1;
    forall n: nat | n < |log| && log[n].Offer? ensures FaithfulOffer(log, n) { FaithfulAt(log, n); }
  }

  /** Remark: the two results rest on that beginning exactly as far as the first offer itself does not
      check it. In any order of calls they hold if and only if every first offer finds the peer
      stable, and no restart waiting. */
  lemma FirstOfferUnguarded(c: Core, ops: seq<Op>)
    requires Fresh(c)
    ensures var log := Run(c, ops).1;
            (forall n: nat | n < |log| && log[n].Offer? :: !Outstanding(log[..n])) <==> FirstWhenStable(c, ops)
    ensures var log := Run(c, ops).1;
            (forall n: nat | n < |log| && log[n].Offer? :: FaithfulOffer(log, n)) <==> FirstWhenNoRestart(c, ops)
  {
    RunInv(c, ops);
    var log := Run(c, ops).1;
    if Alternating(log) {
      forall n: nat | n < |log| && log[n].Offer? ensures !Outstanding(log[..n]) { AlternatingAt(log, n); }
    }
    if forall n: nat | n < |log| && log[n].Offer? :: !Outstanding(log[..n]) { AlternatingFrom(log); }
    if Faithful(log) {
      forall n: nat | n < |log| && log[n].Offer? ensures FaithfulOffer(log, n) { FaithfulAt(log, n); }
    }
    if forall n: nat | n < |log| && log[n].Offer? :: FaithfulOffer(log, n) { FaithfulFrom(log); }
  }

  lemma {:induction false} FaithfulFrom(log: seq<Event>)
    requires forall n: nat | n < |log| && log[n].Offer? :: FaithfulOffer(log, n)
    ensures Faithful(log)
  {
    if log != [] {
      var init := Init(log);
      forall n: nat | n < |init| && init[n].Offer? ensures FaithfulOffer(init, n) {
        assert init[..n] == log[..n] && FaithfulOffer(log, n);
      }
      FaithfulFrom(init);
      assert Last(log).Offer? ==> FaithfulOffer(log, |log| - 1);
    }
  }

  // ---- When a restart is stranded ----

  /** A restart waits with neither an offer to be answered nor a continuation to carry it. */
  ghost predicate Stranded(d: Core, log: seq<Event>) {
    !d.closed && d.stable && d.continuations == 0 && RestartWaiting(log)
  }

  /** The last continuation in flight finds a viewer without a transceiver on an empty room. */
  ghost predicate Strands(c: Core, op: Op) {
    op.Continue? && Waits(c, op.desired) && !c.closed && c.stable && c.iceRestartPending && c.continuations == 1
  }

  ghost predicate NeverStrands(c: Core, ops: seq<Op>)
    decreases |ops|
  {
    ops == [] || (
      && NeverStrands(c, ops[..|ops| - 1])
      && !Strands(Run(c, ops[..|ops| - 1]).0, ops[|ops| - 1]))
  }

  ghost predicate NeverStranded(c: Core, ops: seq<Op>)
    decreases |ops|
  {
    !Stranded(Run(c, ops).0, Run(c, ops).1) && (ops == [] || NeverStranded(c, ops[..|ops| - 1]))
  }

  lemma StrandStep(c: Core, op: Op)
    requires Promised(c) && !(!c.closed && c.stable && c.continuations == 0 && c.iceRestartPending)
    ensures var d := Act(c, op).0;
            !d.closed && d.stable && d.continuations == 0 && d.iceRestartPending <==> Strands(c, op)
  {
  }

  /** Main result: no restart is stranded at any point of a run exactly when no last continuation finds
      a viewer without a transceiver on an empty room. */
  lemma {:induction false} StrandedInRuns(c: Core, ops: seq<Op>)
    requires Fresh(c)
    ensures NeverStranded(c, ops) <==> NeverStrands(c, ops)
    decreases |ops|
  {
    RunInv(c, ops);
    if ops != [] {
      var front := ops[..|ops| - 1];
      RunInv(c, front);
      StrandedInRuns(c, front);
      if NeverStranded(c, front) { StrandStep(Run(c, front).0, ops[|ops| - 1]); }
    }
  }

  // ---- Deferred requests are carried ----

  ghost predicate Forced(e: Event) { e.Asked? && e.force }

  ghost predicate Request(e: Event) { e.SendersChanged? || e.RestartRequested? || Forced(e) }

  ghost predicate Waiting(log: seq<Event>, e: Event) {
    || (e.SendersChanged? && ChangeWaiting(log))
    || (e.RestartRequested? && RestartWaiting(log))
    || (Forced(e) && OfferWaiting(log))
  }

  /** Until the next offer a request waits. */
  lemma {:induction false} WaitsUntilOffer(log: seq<Event>, k: nat, n: nat)
    requires k < n <= |log| && Request(log[k]) && forall i | k < i < n :: !log[i].Offer?
    ensures Waiting(log[..n], log[k])
    decreases n
  {
    var prefix := log[..n];
    assert Last(prefix) == log[n - 1] && Init(prefix) == log[..n - 1];
    if k < n - 1 { WaitsUntilOffer(log, k, n - 1); }
  }

  lemma {:induction false} OutstandingUntilAnswer(log: seq<Event>, k: nat, n: nat)
    requires k <= n <= |log| && Outstanding(log[..k]) && forall i | k <= i < n :: !log[i].AnswerAccepted?
    ensures Outstanding(log[..n])
    decreases n
  {
    if k < n {
      OutstandingUntilAnswer(log, k, n - 1);
      assert Last(log[..n]) == log[n - 1] && Init(log[..n]) == log[..n - 1];
    }
  }

  /** After an answer nothing is outstanding until the next offer. */
  lemma {:induction false} ClearUntilOffer(log: seq<Event>, m: nat, n: nat)
    requires m < n <= |log| && log[m].AnswerAccepted? && forall i | m < i < n :: !log[i].Offer?
    ensures !Outstanding(log[..n])
    decreases n
  {
    assert Last(log[..n]) == log[n - 1] && Init(log[..n]) == log[..n - 1];
    if m < n - 1 { ClearUntilOffer(log, m, n - 1); }
  }

  lemma FirstOffer(log: seq<Event>, k: nat) returns (n: nat)
    requires k < |log|
    ensures k < n <= |log| && (forall i | k < i < n :: !log[i].Offer?) && (n < |log| ==> log[n].Offer?)
  {
    n := k + 1;
    while n < |log| && !log[n].Offer?
      invariant k < n <= |log| && forall i | k < i < n :: !log[i].Offer?
    {
      n := n + 1;
    }
  }

  /** Carried by the first offer after the answer that ended the outstanding one. */
  ghost predicate CarriedAfter(log: seq<Event>, k: nat, m: nat, n: nat)
    requires k < |log|
  {
    && k < m < n < |log| && log[n].Offer?
    && log[n].described == SendersAt(log[..n])
    && (log[k].RestartRequested? ==> log[n].restart)
  }

  /** Main result: every sender change, every restart and every offer requested while an offer is
      outstanding is carried by an offer made after its answer, once no continuation is in flight. */
  lemma RequestsCarried(c: Core, ops: seq<Op>, k: nat, m: nat) returns (n: nat)
    requires Fresh(c) && Begun(c, ops)
    requires var (d, log) := Run(c, ops);
             && !d.closed && d.continuations == 0
             && k < m < |log| && Request(log[k]) && Outstanding(log[..k])
             && log[m].AnswerAccepted? && (forall i | k <= i < m :: !log[i].AnswerAccepted?)
             && (d.kind.Viewer? && log[k].RestartRequested? ==> d.media || NeverStrands(c, ops))
    ensures CarriedAfter(Run(c, ops).1, k, m, n)
  {
    var (d, log) := Run(c, ops);
    BegunWell(c, ops);
    RunInv(c, ops);
    StrandedInRuns(c, ops);
    n := FirstOffer(log, k);
    if n <= m {
      OutstandingUntilAnswer(log, k, n);
      AlternatingAt(log, n);
      assert false;
    }
    assert log[..|log|] == log;
    if n == |log| {
      WaitsUntilOffer(log, k, n);
      ClearUntilOffer(log, m, n);
      assert false;
    }
    WaitsUntilOffer(log, k, n);
    FaithfulAt(log, n);
  }

  /** At rest every change, requested offer and restart has been carried. */
  lemma RestMeansSettled(c: Core, ops: seq<Op>)
    requires Fresh(c)
    ensures var (d, log) := Run(c, ops);
            !d.closed && d.stable && d.continuations == 0 ==>
              && !ChangeWaiting(log) && !OfferWaiting(log)
              && (RestartWaiting(log) ==> d.kind.Viewer? && !d.media)
  {
    RunInv(c, ops);
  }

  lemma {:induction false} SameSince(log: seq<Event>, n: nat, m: nat)
    requires n < m <= |log| && !ChangeWaiting(log[..m]) && log[n].Offer? && forall i | n < i < m :: !log[i].Offer?
    ensures SendersAt(log[..m]) == SendersAt(log[..n])
    decreases m
  {
    assert Last(log[..m]) == log[m - 1] && Init(log[..m]) == log[..m - 1];
    if n < m - 1 { SameSince(log, n, m - 1); }
  }

  /** Main result: at rest the last offer describes exactly the tracks that were asked for last. */
  lemma RestOffersDesired(c: Core, ops: seq<Op>, n: nat)
    requires Fresh(c) && Begun(c, ops)
    requires var (d, log) := Run(c, ops);
             && !d.closed && d.stable && d.continuations == 0
             && n < |log| && log[n].Offer? && forall i | n < i < |log| :: !log[i].Offer?
    ensures var log := Run(c, ops).1; log[n].described == DesiredAt(log)
  {
    var (d, log) := Run(c, ops);
    RunInv(c, ops);
    BegunWell(c, ops);
    FaithfulAt(log, n);
    assert log[..|log|] == log;
    SameSince(log, n, |log|);
  }

  // ---- Requests that meet no outstanding offer ----

  /** The offer comes next, after at most the change of senders that was asked for, and it carries the
      request. */
  ghost predicate OfferedAtOnce(log: seq<Event>, k: nat)
    requires k < |log|
  {
    && (Forced(log[k]) ==>
          || (k + 1 < |log| && log[k + 1].Offer? && log[k + 1].described == log[k].desired)
          || (k + 2 < |log| && log[k + 1].SendersChanged?
              && log[k + 2].Offer? && log[k + 2].described == log[k].desired))
    && (log[k].RestartRequested? ==> k + 1 < |log| && log[k + 1].Offer? && log[k + 1].restart)
  }

  ghost predicate Prompt(log: seq<Event>) {
    forall k: nat | k < |log| && !Outstanding(log[..k]) :: OfferedAtOnce(log, k)
  }

  /** Something was waiting for the offer. */
  ghost predicate Called(log: seq<Event>, n: nat)
    requires n < |log|
  {
    log[n].Offer? ==> ChangeWaiting(log[..n]) || OfferWaiting(log[..n]) || RestartWaiting(log[..n])
  }

  lemma OfferCalled(c: Core, h: Summary, op: Op, i: nat)
    requires Tracks(c, h) && Promised(c) && i < |Take(c, op).1| && Take(c, op).1[i].Offer?
    ensures var g := NextAll(h, Take(c, op).1[..i]); g.change || g.offer || g.restart
  {
    NextTwo(h, Take(c, op).1[..i]);
  }

  lemma TakeCalled(c: Core, log: seq<Event>, op: Op, n: nat)
    requires Tracks(c, SummaryOf(log)) && Promised(c) && |log| <= n < |log + Take(c, op).1|
    ensures Called(log + Take(c, op).1, n)
  {
    var events := Take(c, op).1;
    var before := events[..n - |log|];
    assert (log + events)[..n] == log + before && (log + events)[n] == events[n - |log|];
    SummaryAppend(log, before);
    if events[n - |log|].Offer? { OfferCalled(c, SummaryOf(log), op, n - |log|); }
  }

  lemma TakePrompt(c: Core, log: seq<Event>, op: Op)
    requires Tracks(c, SummaryOf(log)) && Promised(c) && Prompt(log)
    ensures Prompt(log + Take(c, op).1)
  {
    var events := Take(c, op).1;
    var more := log + events;
    forall k: nat | k < |more| && !Outstanding(more[..k]) ensures OfferedAtOnce(more, k) {
      if k < |log| {
        assert more[..k] == log[..k] && OfferedAtOnce(log, k);
      } else if k == |log| {
        assert more[..k] == log;
        TakenAtOnce(c, op);
      } else {
        AskedFirst(c, op, k - |log|);
      }
    }
  }

  /** Only the first event of a call is a request for an offer. */
  lemma AskedFirst(c: Core, op: Op, i: nat)
    requires 0 < i < |Take(c, op).1|
    ensures var e := Take(c, op).1[i]; !Forced(e) && !e.RestartRequested?
  {
  }

  lemma TakenAtOnce(c: Core, op: Op)
    requires Promised(c) && c.stable && Take(c, op).1 != []
    ensures OfferedAtOnce(Take(c, op).1, 0)
  {
  }

  lemma {:induction false} RunPrompt(c: Core, ops: seq<Op>)
    requires Fresh(c)
    ensures Prompt(Run(c, ops).1)
    decreases |ops|
  {
    if ops != [] {
      var front := ops[..|ops| - 1];
      RunInv(c, front);
      RunPrompt(c, front);
      TakePrompt(Run(c, front).0, Run(c, front).1, ops[|ops| - 1]);
    }
  }

  /** Main result: over every run, a forced synchronize and a restart that meet no outstanding offer are
      answered by an offer at once, which describes the tracks asked for, or restarts. */
  lemma OffersAtOnce(c: Core, ops: seq<Op>, k: nat)
    requires Fresh(c) && k < |Run(c, ops).1| && !Outstanding(Run(c, ops).1[..k])
    ensures OfferedAtOnce(Run(c, ops).1, k)
  {
    RunPrompt(c, ops);
  }

  /** Main result: over every run, each offer is made because the senders changed, or an offer or a restart
      was asked for, since the offer before. */
  lemma {:induction false} OffersCalledFor(c: Core, ops: seq<Op>, n: nat)
    requires Fresh(c) && n < |Run(c, ops).1|
    ensures Called(Run(c, ops).1, n)
    decreases |ops|
  {
    if ops != [] {
      var front, op := ops[..|ops| - 1], ops[|ops| - 1];
      var (d, log) := Run(c, front);
      RunInv(c, front);
      if n < |log| {
        OffersCalledFor(c, front, n);
        assert Run(c, ops).1[..n] == log[..n];
      } else {
        TakeCalled(d, log, op, n);
      }
    }
  }

  /** A closed session is silent: whatever is called after closing, nothing is offered, changed or accepted. */
  lemma {:induction false} ClosedIsSilent(c: Core, ops: seq<Op>)
    ensures var d := Take(c, Close).0;
            Run(d, ops).1 == [] && Run(d, ops).0 == c.(closed := true, continuations := Run(d, ops).0.continuations)
    decreases |ops|
  {
    if ops != [] {
      var front := ops[..|ops| - 1];
      ClosedIsSilent(c, front);
      SilentStep(Run(Take(c, Close).0, front).0, ops[|ops| - 1]);
    }
  }

  lemma SilentStep(c: Core, op: Op)
    requires c.closed
    ensures Take(c, op).1 == [] && Take(c, op).0 == c.(continuations := Take(c, op).0.continuations)
  {
  }

  /** Main result: after every run an answer is accepted exactly while an offer is outstanding, it starts a
      continuation exactly if something was asked for since that offer, and the senders are the tracks
      that were asked for last. */
  lemma AnswersExactly(c: Core, ops: seq<Op>)
    requires Fresh(c)
    ensures var (d, log) := Run(c, ops);
            && (AnswerAccepted in Take(d, AcceptAnswer).1 <==> !d.closed && Outstanding(log))
            && Take(d, AcceptAnswer).0.continuations == d.continuations +
                 (if !d.closed && Outstanding(log) && (ChangeWaiting(log) || OfferWaiting(log) || RestartWaiting(log))
                  then 1 else 0)
            && d.senders == DesiredAt(log)
  {
    RunInv(c, ops);
    assert Asks(Run(c, ops).0, AcceptAnswer) == [];
  }

  // ---- A viewer without media ----

  /** Anything that may happen while the room has no track. */
  ghost predicate OnEmptyRoom(op: Op) {
    match op
    case Synchronize(desired, _) => desired == {}
    case Continue(desired) => desired == {}
    case _ => true
  }

  /** Exactly the continuations of a viewer without a transceiver on an empty room strand the
      restart they were started for. */
  lemma StrandedExactly(c: Core, desired: set<Track>)
    requires Promised(c) && !c.closed && c.stable && c.continuations > 0 && c.iceRestartPending
    ensures var (d, events) := Act(c, Continue(desired));
            (exists i: nat :: i < |events| && events[i].Offer? && events[i].restart) <==> !Waits(c, desired)
  {
    var (d, events) := Act(c, Continue(desired));
    if !Waits(c, desired) {
      assert events[|events| - 1].Offer? && events[|events| - 1].restart;
    }
  }

  /** The offer answers a restart request directly, and carries it. */
  ghost predicate ByRestart(log: seq<Event>, n: nat)
    requires n < |log|
  {
    0 < n && log[n - 1].RestartRequested? && log[n] == Offer({}, true)
  }

  /** While its room stays empty, such a viewer makes an offer only when a restart is requested anew,
      and that offer carries the restart that was waiting; nothing else makes one. */
  lemma {:induction false} EmptyRoomOffers(c: Core, ops: seq<Op>)
    requires c.kind.Viewer? && !c.media && c.senders == {} && forall i | 0 <= i < |ops| :: OnEmptyRoom(ops[i])
    ensures var (d, log) := Run(c, ops);
            && d.kind.Viewer? && !d.media && d.senders == {}
            && (forall n: nat | n < |log| && log[n].Offer? :: ByRestart(log, n))
    decreases |ops|
  {
    if ops != [] {
      var front, op := ops[..|ops| - 1], ops[|ops| - 1];
      EmptyRoomOffers(c, front);
      assert OnEmptyRoom(op);
      var (d, log) := Run(c, front);
      var events := Take(d, op).1;
      forall n: nat | n < |log + events| && (log + events)[n].Offer? ensures ByRestart(log + events, n) {
        if n < |log| {
          assert ByRestart(log, n);
        } else {
          assert op.RestartIce? && events == [RestartRequested, Offer({}, true)];
        }
      }
    }
  }

  /** So until a restart is requested again, nothing happens to it at all. */
  lemma {:induction false} EmptyRoomStrands(c: Core, ops: seq<Op>)
    requires c.kind.Viewer? && !c.media && c.stable
    requires forall i | 0 <= i < |ops| :: OnEmptyRoom(ops[i]) && !ops[i].RestartIce?
    ensures Run(c, ops).1 == []
    ensures var d := Run(c, ops).0; d == c.(continuations := d.continuations, closed := d.closed)
    decreases |ops|
  {
    if ops != [] {
      EmptyRoomStrands(c, ops[..|ops| - 1]);
      assert OnEmptyRoom(ops[|ops| - 1]) && !ops[|ops| - 1].RestartIce?;
    }
  }

  /** Such a run exists: recovery makes an offer, asks for another restart before its answer, and
      the answer's continuation finds no media. */
  lemma ViewerRestartStranded()
    ensures exists c, ops :: Fresh(c) && c.kind.Viewer? && Stranded(Run(c, ops).0, Run(c, ops).1)
  {
    var c := Core(Viewer, {}, false, true, false, false, false, 0);
    var ops := [RestartIce, RestartIce, AcceptAnswer, Continue({})];
    var three, two, one := [RestartIce, RestartIce, AcceptAnswer], [RestartIce, RestartIce], [RestartIce];
    assert ops[..3] == three && three[..2] == two && two[..1] == one && one[..0] == [];
    assert Run(c, []) == (c, []);
    assert Run(c, one).0 == c.(stable := false);
    assert Run(c, two).0 == c.(stable := false, iceRestartPending := true);
    assert Run(c, three).0 == c.(stable := true, iceRestartPending := true, continuations := 1);
    RunInv(c, ops);
    assert Run(c, ops).0 == c.(iceRestartPending := true);
    assert Fresh(c) && Stranded(Run(c, ops).0, Run(c, ops).1);
  }

  // ---- The session object ----

  class Session {
    const kind: Kind
    var senders: set<Track>
    var media: bool
    var stable: bool
    var negotiationPending: bool
    var iceRestartPending: bool
    var closed: bool
    var continuations: nat

    ghost function View(): Core
      reads this
    {
      Core(kind, senders, media, stable, negotiationPending, iceRestartPending, closed, continuations)
    }

    /** A sender belongs to a transceiver. */
    ghost predicate Valid()
      reads this
    {
      senders != {} ==> media
    }

    constructor (kind: Kind, media: bool)
      ensures Valid() && Fresh(View()) && this.kind == kind && this.media == media
    {
      this.kind := kind;
      this.media := media;
      senders := {};
      stable := true;
      negotiationPending, iceRestartPending, closed := false, false, false;
      continuations := 0;
    }

    method CreateOfferLocked(restart: bool) returns (events: seq<Event>)
      modifies this`stable, this`negotiationPending, this`iceRestartPending
      ensures (View(), events) == MakeOffer(old(View()), restart)
    {
      events := [Offer(senders, restart)];
      stable := false;
      negotiationPending := false;
      iceRestartPending := false;
    }

    method DropUnwanted(desired: set<Track>) returns (existing: set<Track>, changed: bool)
      modifies this`senders
      ensures senders == existing == old(senders) * desired
      ensures changed <==> !(old(senders) <= desired)
    {
      changed, existing := false, {};
      var left := senders;
      ghost var dropped: set<Track> := {};
      while left != {}
        invariant old(senders) == left + existing + dropped && senders == left + existing
        invariant left !! existing && existing <= desired && dropped !! desired && changed == (dropped != {})
        decreases left
      {
        var track :| track in left;
        left := left - {track};
        if track !in desired {
          senders := senders - {track};
          dropped := dropped + {track};
          changed := true;
        } else {
          existing := existing + {track};
        }
      }
      assert changed ==> exists t :: t in dropped;
    }

    method AddMissing(desired: set<Track>, existing: set<Track>) returns (changed: bool)
      requires senders == existing <= desired
      modifies this`senders, this`media
      ensures senders == desired && media == (old(media) || changed)
      ensures changed <==> !(desired <= existing)
    {
      changed := false;
      var rest := desired;
      ghost var added: set<Track> := {};
      while rest != {}
        invariant rest <= desired && senders == existing + added && desired <= senders + rest && added <= desired
        invariant added !! existing && changed == (added != {}) && media == (old(media) || changed)
        decreases rest
      {
        var track :| track in rest;
        rest := rest - {track};
        if track !in existing {
          senders := senders + {track};
          added := added + {track};
          media := true;
          changed := true;
        }
      }
      assert changed ==> exists t :: t in added;
    }

    /** Removes the senders that are no longer wanted, then adds the missing ones. */
    method ReplaceSenders(desired: set<Track>) returns (changed: bool)
      modifies this`senders, this`media
      ensures senders == desired && changed == (old(senders) != desired)
      ensures media == (old(media) || !(desired <= old(senders)))
    {
      var existing, removed := DropUnwanted(desired);
      var added := AddMissing(desired, existing);
      changed := removed || added;
    }

    method SynchronizeTracks(desired: set<Track>, force: bool) returns (events: seq<Event>)
      requires Valid()
      modifies this
      ensures Valid() && (View(), events) == Sync(old(View()), desired, force)
    {
      events := [];
      if closed || kind.Publisher? || (kind.Viewer? && desired == {} && !media) { return; }
      var changed := ReplaceSenders(desired);
      if changed { events := [SendersChanged(desired)]; }
      if !changed && !force && !negotiationPending && !iceRestartPending { return; }
      if !stable {
        negotiationPending := true;
        return;
      }
      var offer := CreateOfferLocked(iceRestartPending);
      events := events + offer;
    }

    method FirstOffer() returns (events: seq<Event>)
      requires Valid()
      modifies this
      ensures Valid() && (View(), events) == First(old(View()))
    {
      if closed || !kind.Publisher? { return []; }
      events := CreateOfferLocked(false);
    }

    method RestartICE() returns (events: seq<Event>)
      requires Valid()
      modifies this
      ensures Valid() && (View(), events) == Restart(old(View()))
    {
      if closed { return []; }
      if !stable {
        iceRestartPending := true;
        if kind.Voice? { negotiationPending := true; }
        return [];
      }
      events := CreateOfferLocked(true);
    }

    /** The locked part of an answer: what is deferred is decided here, and runs later. */
    method Accept() returns (events: seq<Event>, ok: bool)
      modifies this`stable, this`continuations
      ensures (View(), events) == Answer(old(View()))
      ensures ok == old(Answerable(View()))
    {
      if closed || stable { return [], false; }
      stable := true;
      var pending, restartPending := negotiationPending, iceRestartPending;
      if (pending && !kind.Publisher?) || restartPending {
        continuations := continuations + 1;
      }
      return [AnswerAccepted], true;
    }

    /** The deferred part of an answer. */
    method FinishAnswer(desired: set<Track>) returns (events: seq<Event>)
      requires Valid()
      modifies this
      ensures Valid() && (View(), events) == Resume(old(View()), desired)
    {
      if continuations == 0 { return []; }
      continuations := continuations - 1;
      if kind.Publisher? {
        events := RestartICE();
      } else {
        events := SynchronizeTracks(desired, false);
      }
    }
  }
}
