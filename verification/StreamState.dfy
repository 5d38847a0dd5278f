/** Who publishes and who watches which stream. The state is the role of each client; the object
    keeps two further indices, the streams of each channel and the viewers of each stream, which
    are proved to be determined by it. */
module StreamState {
  import opened Clients
  import opened Index
  import opened Options
  import opened Sets

  datatype Mode = ServerMode | P2P

  datatype Limits = Limits(server: nat, p2p: nat)

  const MAX_CHANNEL_PUBLISHERS: nat := 8

  /** A stream object: what never changes about it. Its number tells it apart from later streams of
      the same publisher. */
  datatype Stream = Stream(number: nat, server: ServerId, channel: ChannelId, mode: Mode, publisher: Client,
      startedAt: nat)

  datatype Role = Role(generation: nat, stream: Stream, publishes: bool, rendition: nat)

  datatype Streams = Streams(roles: map<Client, Role>, nextGeneration: nat)

  const NO_STREAMS := Streams(map[], 0)

  function MaxViewers(limits: Limits, mode: Mode): nat { if mode.P2P? then limits.p2p else limits.server }

  function Published(roles: map<Client, Role>): map<Client, Stream> {
    map c | c in roles && roles[c].publishes :: roles[c].stream
  }

  function StreamChannel(t: Stream): nat { t.channel }

  function OnAir(roles: map<Client, Role>, channel: ChannelId): set<Client> {
    set c | c in roles && roles[c].publishes && roles[c].stream.channel == channel
  }

  function Audience(roles: map<Client, Role>, stream: Stream): set<Client> {
    set c | c in roles && !roles[c].publishes && roles[c].stream == stream
  }

  predicate Live(roles: map<Client, Role>, stream: Stream) {
    stream.publisher in roles && roles[stream.publisher].publishes && roles[stream.publisher].stream == stream
  }

  // ---- Operations ----

  datatype StartError = Started | AlreadyActive | PublisherLimit

  function StartOutcome(s: Streams, client: Client, several: bool, channel: ChannelId): StartError {
    if client in s.roles then AlreadyActive
    else if !several && OnAir(s.roles, channel) != {} then AlreadyActive
    else if |OnAir(s.roles, channel)| >= MAX_CHANNEL_PUBLISHERS then PublisherLimit
    else Started
  }

  function NewStream(s: Streams, client: Client, server: ServerId, channel: ChannelId, mode: Mode, now: nat): Stream {
    Stream(s.nextGeneration + 1, server, channel, mode, client, now)
  }

  function Start(s: Streams, client: Client, several: bool, server: ServerId, channel: ChannelId, mode: Mode,
                 now: nat): Streams {
    if !StartOutcome(s, client, several, channel).Started? then s
    else
      var role := Role(s.nextGeneration + 1, NewStream(s, client, server, channel, mode, now), true, 0);
      Streams(s.roles[client := role], s.nextGeneration + 1)
  }

  datatype WatchError = Watching | Unavailable | ViewerLimit | RenditionUnavailable

  /** `choice` is the stream found for the channel, `rendition` the one selected from it. */
  function WatchOutcome(s: Streams, limits: Limits, client: Client, server: ServerId, choice: Option<Stream>,
                        rendition: Option<nat>): WatchError {
    if choice.None? || choice.value.publisher == client || choice.value.server != server ||
        client in s.roles then Unavailable
    else if |Audience(s.roles, choice.value)| >= MaxViewers(limits, choice.value.mode) then ViewerLimit
    else if rendition.None? then RenditionUnavailable
    else Watching
  }

  function Watch(s: Streams, limits: Limits, client: Client, server: ServerId, choice: Option<Stream>,
                 rendition: Option<nat>): Streams {
    if !WatchOutcome(s, limits, client, server, choice, rendition).Watching? then s
    else
      Streams(s.roles[client := Role(s.nextGeneration + 1, choice.value, false, rendition.value)], s.nextGeneration + 1)
  }

  /** A publisher ends the stream for all of its viewers; a viewer leaves alone. */
  function Departing(s: Streams, client: Client): set<Client> {
    if client !in s.roles then {}
    else if s.roles[client].publishes then Audience(s.roles, s.roles[client].stream) + {client}
    else {client}
  }

  function LeaveStream(s: Streams, client: Client): Streams { s.(roles := s.roles - Departing(s, client)) }

  /** The stream a watcher gets: the earliest of the channel, ties broken by connection, among those
      of the named publisher if one is named. */
  ghost predicate Candidate(s: Streams, channel: ChannelId, publisher: Option<nat>, t: Stream) {
    Live(s.roles, t) && t.channel == channel && Eligible(publisher, t)
  }

  predicate Before(t: Stream, u: Stream) {
    t.startedAt < u.startedAt || (t.startedAt == u.startedAt && t.publisher.connection <= u.publisher.connection)
  }

  ghost predicate Chosen(s: Streams, channel: ChannelId, publisher: Option<nat>, choice: Option<Stream>) {
    match choice
    case None => forall t: Stream :: !Candidate(s, channel, publisher, t)
    case Some(t) =>
      Candidate(s, channel, publisher, t) && forall u: Stream | Candidate(s, channel, publisher, u) :: Before(t, u)
  }

  // ---- What each operation does ----

  /** A start takes effect exactly if the client has no role and the channel has room: for one publisher,
      or for eight if several are wanted. It puts the new stream on air and changes nothing else. */
  lemma StartsExactly(s: Streams, client: Client, several: bool, server: ServerId, channel: ChannelId, mode: Mode,
                      now: nat)
    ensures var u := Start(s, client, several, server, channel, mode, now);
            var room := if several then 8 else 1;
            && (u != s <==> client !in s.roles && |OnAir(s.roles, channel)| < room)
            && (u != s ==>
                  && client in u.roles && u.roles - {client} == s.roles && u.nextGeneration == s.nextGeneration + 1
                  && var t := u.roles[client].stream;
                  && u.roles[client].publishes && u.roles[client].rendition == 0
                  && u.roles[client].generation == t.number == u.nextGeneration
                  && t.publisher == client && t.server == server && t.channel == channel
                  && t.mode == mode && t.startedAt == now)
            && (StartOutcome(s, client, several, channel).PublisherLimit? <==>
                  several && client !in s.roles && |OnAir(s.roles, channel)| >= 8)
  {
    var u := Start(s, client, several, server, channel, mode, now);
    if u != s { assert u.roles - {client} == s.roles; }
  }

  /** A watch takes effect exactly on a stream of another client on that server, within its limit, by a
      client without a role and with a rendition. It adds the viewer and changes nothing else. */
  lemma WatchesExactly(s: Streams, limits: Limits, client: Client, server: ServerId, choice: Option<Stream>,
                       rendition: Option<nat>)
    ensures var u := Watch(s, limits, client, server, choice, rendition);
            && (u != s <==>
                  && choice.Some? && rendition.Some? && client !in s.roles
                  && choice.value.publisher != client && choice.value.server == server
                  && |Audience(s.roles, choice.value)| < match choice.value.mode
                                                         case P2P => limits.p2p
                                                         case ServerMode => limits.server)
            && (u != s ==>
                  && client in u.roles && u.roles - {client} == s.roles && u.nextGeneration == s.nextGeneration + 1
                  && u.roles[client].stream == choice.value && !u.roles[client].publishes
                  && u.roles[client].generation == u.nextGeneration && u.roles[client].rendition == rendition.value)
            && (WatchOutcome(s, limits, client, server, choice, rendition).RenditionUnavailable? ==> rendition.None?)
            && (WatchOutcome(s, limits, client, server, choice, rendition).ViewerLimit? ==>
                  choice.Some? && |Audience(s.roles, choice.value)| >= MaxViewers(limits, choice.value.mode))
  {
    var u := Watch(s, limits, client, server, choice, rendition);
    if u != s { assert u.roles - {client} == s.roles; }
  }

  /** Who leaves ends its own role and, if it publishes, those of the viewers of its stream. */
  lemma LeavesExactly(s: Streams, client: Client, c: Client)
    ensures var u := LeaveStream(s, client);
            && u.nextGeneration == s.nextGeneration
            && (c in u.roles ==> c in s.roles && u.roles[c] == s.roles[c])
            && (c in s.roles && c !in u.roles <==>
                  && client in s.roles && c in s.roles
                  && (c == client || (s.roles[client].publishes && !s.roles[c].publishes
                                      && s.roles[c].stream == s.roles[client].stream)))
  {
  }

  /** Main result: the stream chosen for a channel is on air there, from the named publisher if one is
      named, and none of these started earlier, or as early on a smaller connection; and one is chosen
      if there is any. */
  lemma ChosenIsEarliest(s: Streams, channel: ChannelId, publisher: Option<nat>, choice: Option<Stream>, c: Client)
    requires RolesSound(s) && Chosen(s, channel, publisher, choice)
    requires c in s.roles && s.roles[c].publishes && s.roles[c].stream.channel == channel
    requires publisher.Some? ==> c.connection == publisher.value
    ensures choice.Some?
    ensures var t, u := choice.value, s.roles[c].stream;
            && t.publisher in s.roles && s.roles[t.publisher].publishes && s.roles[t.publisher].stream == t
            && t.channel == channel && (publisher.Some? ==> t.publisher.connection == publisher.value)
            && t.startedAt <= u.startedAt
            && (t.startedAt == u.startedAt ==> t.publisher.connection <= c.connection)
  {
    assert RoleSound(s.roles, c);
    assert Candidate(s, channel, publisher, s.roles[c].stream);
  }

  /** The role is the one that the operation asks for. */
  ghost predicate AskedBy(role: Role, c: Client, op: Op) {
    match op
    case Publishing(client, _, server, channel, mode, now) =>
      && client == c && role.publishes && role.stream.publisher == c && role.stream.server == server
      && role.stream.channel == channel && role.stream.mode == mode && role.stream.startedAt == now
    case Viewing(client, server, channel, choice, rendition) =>
      && client == c && !role.publishes && role.stream == choice && choice.publisher != c
      && choice.server == server && choice.channel == channel && rendition == Some(role.rendition)
    case Leaving(_) => false
  }

  lemma StepAsked(s: Streams, limits: Limits, op: Op, c: Client)
    requires c in Apply(s, limits, op).roles
    ensures var role := Apply(s, limits, op).roles[c];
            (c in s.roles && role == s.roles[c]) || AskedBy(role, c, op)
  {
  }

  /** Main result: after every run each role is one that its client asked for: a stream of its own, or one it
      watches of another client in its server and channel. */
  lemma {:induction false} RolesAskedFor(s: Streams, limits: Limits, ops: seq<Op>, c: Client)
    requires c in Exec(s, limits, ops).roles
    ensures var role := Exec(s, limits, ops).roles[c];
            (c in s.roles && role == s.roles[c]) || exists op <- ops :: AskedBy(role, c, op)
    decreases |ops|
  {
    if ops != [] {
      var u := Apply(s, limits, ops[0]);
      RolesAskedFor(u, limits, ops[1..], c);
      var role := Exec(s, limits, ops).roles[c];
      if c in u.roles && role == u.roles[c] {
        StepAsked(s, limits, ops[0], c);
      } else {
        var op :| op in ops[1..] && AskedBy(role, c, op);
        assert op in ops;
      }
    }
  }

  // ---- The invariant ----

  /** Publishers publish their own stream; viewers watch a stream whose publisher is on air with it. */
  ghost predicate RoleSound(roles: map<Client, Role>, c: Client)
    requires c in roles
  {
    if roles[c].publishes then roles[c].stream.publisher == c else Live(roles, roles[c].stream)
  }

  ghost predicate RolesSound(s: Streams) { forall c | c in s.roles :: RoleSound(s.roles, c) }

  ghost predicate Numbered(s: Streams) {
    && (forall c | c in s.roles ::
           s.roles[c].generation <= s.nextGeneration && s.roles[c].stream.number <= s.nextGeneration)
    && (forall c, d | c in s.roles && d in s.roles && s.roles[c].generation == s.roles[d].generation :: c == d)
  }

  ghost predicate Bounded(s: Streams, limits: Limits) {
    && (forall channel: ChannelId :: |OnAir(s.roles, channel)| <= MAX_CHANNEL_PUBLISHERS)
    && (forall t: Stream :: |Audience(s.roles, t)| <= MaxViewers(limits, t.mode))
  }

  datatype Op =
    | Publishing(client: Client, several: bool, server: ServerId, channel: ChannelId, mode: Mode, now: nat)
    | Viewing(client: Client, server: ServerId, channel: ChannelId, choice: Stream, rendition: Option<nat>)
    | Leaving(client: Client)

  /** A watch is offered only streams that are on air in the watcher's channel. */
  function Apply(s: Streams, limits: Limits, op: Op): Streams {
    match op
    case Publishing(client, several, server, channel, mode, now) =>
      Start(s, client, several, server, channel, mode, now)
    case Viewing(client, server, channel, choice, rendition) =>
      if Live(s.roles, choice) && choice.channel == channel
      then Watch(s, limits, client, server, Some(choice), rendition) else s
    case Leaving(client) => LeaveStream(s, client)
  }

  function Exec(s: Streams, limits: Limits, ops: seq<Op>): Streams
    decreases |ops|
  {
    if ops == [] then s else Exec(Apply(s, limits, ops[0]), limits, ops[1..])
  }

  lemma RoleAddedOnAir(roles: map<Client, Role>, client: Client, role: Role, channel: ChannelId)
    requires client !in roles
    ensures OnAir(roles[client := role], channel)
            == OnAir(roles, channel) + (if role.publishes && role.stream.channel == channel then {client} else {})
  {
  }

  lemma RoleAddedAudience(roles: map<Client, Role>, client: Client, role: Role, t: Stream)
    requires client !in roles
    ensures Audience(roles[client := role], t) == Audience(roles, t) + (if !role.publishes &&
        role.stream == t then {client} else {})
  {
  }

  lemma RoleAddedBounded(s: Streams, limits: Limits, client: Client, role: Role, next: nat)
    requires Bounded(s, limits) && client !in s.roles
    requires role.publishes ==> |OnAir(s.roles, role.stream.channel)| < MAX_CHANNEL_PUBLISHERS
    requires !role.publishes ==> |Audience(s.roles, role.stream)| < MaxViewers(limits, role.stream.mode)
    ensures Bounded(Streams(s.roles[client := role], next), limits)
  {
    var v := Streams(s.roles[client := role], next);
    forall ch: ChannelId ensures |OnAir(v.roles, ch)| <= MAX_CHANNEL_PUBLISHERS {
      RoleAddedOnAir(s.roles, client, role, ch);
    }
    forall t: Stream ensures |Audience(v.roles, t)| <= MaxViewers(limits, t.mode) {
      RoleAddedAudience(s.roles, client, role, t);
    }
  }

  lemma LeaveBounded(s: Streams, limits: Limits, client: Client)
    requires Bounded(s, limits)
    ensures Bounded(LeaveStream(s, client), limits)
  {
    var v := LeaveStream(s, client);
    forall ch: ChannelId ensures |OnAir(v.roles, ch)| <= MAX_CHANNEL_PUBLISHERS {
      SubsetSize(OnAir(v.roles, ch), OnAir(s.roles, ch));
    }
    forall t: Stream ensures |Audience(v.roles, t)| <= MaxViewers(limits, t.mode) {
      SubsetSize(Audience(v.roles, t), Audience(s.roles, t));
    }
  }

  lemma ApplyBounded(s: Streams, limits: Limits, op: Op)
    requires Bounded(s, limits)
    ensures Bounded(Apply(s, limits, op), limits)
  {
    var v := Apply(s, limits, op);
    match op {
      case Publishing(client, several, server, channel, mode, now) =>
        if v != s { RoleAddedBounded(s, limits, client, v.roles[client], v.nextGeneration); }
      case Viewing(client, server, channel, choice, rendition) =>
        if v != s { RoleAddedBounded(s, limits, client, v.roles[client], v.nextGeneration); }
      case Leaving(client) => LeaveBounded(s, limits, client);
    }
  }

  lemma RoleAddedSound(s: Streams, client: Client, role: Role)
    requires RolesSound(s) && Numbered(s) && client !in s.roles && role.generation == s.nextGeneration + 1
    requires role.stream.number <= s.nextGeneration + 1
    requires if role.publishes then role.stream.publisher == client else Live(s.roles, role.stream)
    ensures var v := Streams(s.roles[client := role], s.nextGeneration + 1); RolesSound(v) && Numbered(v)
  {
    var v := Streams(s.roles[client := role], s.nextGeneration + 1);
    forall c | c in v.roles ensures RoleSound(v.roles, c) {
      assert c != client ==> RoleSound(s.roles, c);
    }
  }

  /** Leaving takes along exactly those whose stream ends. */
  lemma LeaveSound(s: Streams, client: Client)
    requires RolesSound(s) && Numbered(s)
    ensures RolesSound(LeaveStream(s, client)) && Numbered(LeaveStream(s, client))
  {
    var v := LeaveStream(s, client);
    forall c | c in v.roles ensures RoleSound(v.roles, c) {
      assert RoleSound(s.roles, c);
    }
  }

  lemma ApplySound(s: Streams, limits: Limits, op: Op)
    requires RolesSound(s) && Numbered(s)
    ensures RolesSound(Apply(s, limits, op)) && Numbered(Apply(s, limits, op))
  {
    var v := Apply(s, limits, op);
    match op {
      case Publishing(client, several, server, channel, mode, now) =>
        if v != s { RoleAddedSound(s, client, v.roles[client]); }
      case Viewing(client, server, channel, choice, rendition) =>
        if v != s {
          assert choice.number <= s.nextGeneration;
          RoleAddedSound(s, client, v.roles[client]);
        }
      case Leaving(client) => LeaveSound(s, client);
    }
  }

  lemma {:induction false} ExecInv(s: Streams, limits: Limits, ops: seq<Op>)
    requires RolesSound(s) && Numbered(s) && Bounded(s, limits)
    ensures var v := Exec(s, limits, ops); RolesSound(v) && Numbered(v) && Bounded(v, limits)
    decreases |ops|
  {
    if ops != [] {
      ApplySound(s, limits, ops[0]);
      ApplyBounded(s, limits, ops[0]);
      ExecInv(Apply(s, limits, ops[0]), limits, ops[1..]);
    }
  }

  /** Main result: in every reachable state each viewer is on exactly one live stream, nobody both
      publishes and watches, and both limits hold. */
  lemma StreamsReachable(limits: Limits, ops: seq<Op>)
    ensures var s := Exec(NO_STREAMS, limits, ops);
            && (forall c | c in s.roles :: RoleSound(s.roles, c))
            && (forall channel: ChannelId :: |OnAir(s.roles, channel)| <= 8)
            && (forall t: Stream :: |Audience(s.roles, t)| <= MaxViewers(limits, t.mode))
            && (forall t: Stream :: Audience(s.roles, t) != {} ==> Live(s.roles, t))
  {
    forall channel: ChannelId ensures OnAir(NO_STREAMS.roles, channel) == {} {}
    forall t: Stream ensures Audience(NO_STREAMS.roles, t) == {} {}
    ExecInv(NO_STREAMS, limits, ops);
    var s := Exec(NO_STREAMS, limits, ops);
    forall t: Stream | Audience(s.roles, t) != {} ensures Live(s.roles, t) {
      var c :| c in Audience(s.roles, t);
      assert RoleSound(s.roles, c);
    }
  }

  lemma GenerationKept(s: Streams, limits: Limits, op: Op, client: Client)
    ensures var v := Apply(s, limits, op);
            && s.nextGeneration <= v.nextGeneration
            && (client in v.roles && v.roles[client].generation <= s.nextGeneration ==>
                  client in s.roles && v.roles[client] == s.roles[client])
  {
  }

  /** Only the client of an operation gets a role; for all others roles just end. */
  lemma GenerationKeptFor(s: Streams, limits: Limits, op: Op)
    ensures var v := Apply(s, limits, op);
            forall c | c in v.roles && c != op.client :: c in s.roles && v.roles[c] == s.roles[c]
  {
  }

  /** Generations name a role: once it ends, no later role has its generation. */
  lemma {:induction false} GenerationsEnd(s: Streams, limits: Limits, ops: seq<Op>, client: Client)
    requires RolesSound(s) && Numbered(s)
    ensures var v := Exec(s, limits, ops);
            && s.nextGeneration <= v.nextGeneration
            && (client in v.roles && v.roles[client].generation <= s.nextGeneration ==>
                  client in s.roles && v.roles[client] == s.roles[client])
    decreases |ops|
  {
    if ops != [] {
      ApplySound(s, limits, ops[0]);
      GenerationKept(s, limits, ops[0], client);
      GenerationsEnd(Apply(s, limits, ops[0]), limits, ops[1..], client);
    }
  }

  // ---- The indexed state ----

  datatype Listing = Listing(
    byChannel: map<ChannelId, map<Client, Stream>>, viewers: map<Stream, set<Client>>, byClient: map<Client, Role>)

  /** The channel index holds exactly the streams on air and no empty channels; the viewer set of a
      live stream holds exactly those who watch it. */
  ghost predicate ViewersMatch(viewers: map<Stream, set<Client>>, roles: map<Client, Role>) {
    forall t: Stream | Live(roles, t) :: t in viewers && viewers[t] == Audience(roles, t)
  }

  ghost predicate Consistent(i: Listing) {
    Groups(i.byChannel, Published(i.byClient), StreamChannel) && ViewersMatch(i.viewers, i.byClient)
  }

  function Add(i: Listing, client: Client, role: Role): Listing {
    var t := role.stream;
    if role.publishes
    then Listing(Inserted(i.byChannel, t.channel, client, t), i.viewers[t := {}], i.byClient[client := role])
    else
      var audience := if t in i.viewers then i.viewers[t] else {};
      Listing(i.byChannel, i.viewers[t := audience + {client}], i.byClient[client := role])
  }

  function Remove(i: Listing, client: Client): Listing
    requires client in i.byClient
  {
    var t := i.byClient[client].stream;
    var watching := if t in i.viewers then i.viewers[t] else {};
    if i.byClient[client].publishes
    then Listing(Removed(i.byChannel, t.channel, client), i.viewers, i.byClient - (watching + {client}))
    else Listing(i.byChannel, i.viewers[t := watching - {client}], i.byClient - {client})
  }

  /** Main result: the indices of live streams are determined by the roles. */
  lemma ListingDetermined(i: Listing, j: Listing, t: Stream)
    requires Consistent(i) && Consistent(j) && i.byClient == j.byClient
    ensures i.byChannel == j.byChannel
    ensures Live(i.byClient, t) ==> t in i.viewers && t in j.viewers && i.viewers[t] == j.viewers[t]
  {
    GroupsUnique(i.byChannel, j.byChannel, Published(i.byClient), StreamChannel);
  }

  lemma ChannelSize(i: Listing, channel: ChannelId)
    requires Consistent(i)
    ensures OnAir(i.byClient, channel) == if channel in i.byChannel then i.byChannel[channel].Keys else {}
  {
    assert Group(Published(i.byClient), StreamChannel, channel).Keys == OnAir(i.byClient, channel);
  }

  lemma PublishedMore(roles: map<Client, Role>, client: Client, role: Role)
    requires client !in roles
    ensures Published(roles[client := role]) == if role.publishes
      then Published(roles)[client := role.stream] else Published(roles)
  {
  }

  lemma PublishViewers(viewers: map<Stream, set<Client>>, roles: map<Client, Role>, client: Client, role: Role)
    requires ViewersMatch(viewers, roles) && client !in roles && role.publishes && role.stream.publisher == client
    requires forall c | c in roles :: roles[c].stream != role.stream
    ensures ViewersMatch(viewers[role.stream := {}], roles[client := role])
  {
    var more, seen := roles[client := role], viewers[role.stream := {}];
    forall t: Stream | Live(more, t) ensures t in seen && seen[t] == Audience(more, t) {
      RoleAddedAudience(roles, client, role, t);
      if t == role.stream {
        assert Audience(roles, t) == {};
      } else {
        assert Live(roles, t);
      }
    }
  }

  lemma PublishConsistent(i: Listing, client: Client, role: Role)
    requires Consistent(i) && client !in i.byClient && role.publishes && role.stream.publisher == client
    requires forall c | c in i.byClient :: i.byClient[c].stream != role.stream
    ensures Consistent(Add(i, client, role))
  {
    InsertedGroups(i.byChannel, Published(i.byClient), StreamChannel, client, role.stream);
    PublishedMore(i.byClient, client, role);
    PublishViewers(i.viewers, i.byClient, client, role);
  }

  lemma ViewConsistent(i: Listing, client: Client, role: Role)
    requires Consistent(i) && client !in i.byClient && !role.publishes && Live(i.byClient, role.stream)
    ensures Consistent(Add(i, client, role))
  {
    var j := Add(i, client, role);
    assert Published(j.byClient) == Published(i.byClient);
    forall t: Stream | Live(j.byClient, t) ensures t in j.viewers && j.viewers[t] == Audience(j.byClient, t) {
      assert Live(i.byClient, t);
      RoleAddedAudience(i.byClient, client, role, t);
    }
  }

  /** Removing does what the operation on roles does. */
  lemma RemoveRoles(i: Listing, client: Client, n: nat)
    requires Consistent(i) && RolesSound(Streams(i.byClient, n)) && client in i.byClient
    ensures Remove(i, client).byClient == LeaveStream(Streams(i.byClient, n), client).roles
  {
    assert RoleSound(i.byClient, client);
    assert Live(i.byClient, i.byClient[client].stream);
  }

  lemma RemoveConsistent(i: Listing, client: Client)
    requires Consistent(i) && RolesSound(Streams(i.byClient, 0)) && client in i.byClient
    ensures Consistent(Remove(i, client))
  {
    assert RoleSound(i.byClient, client);
    RemoveRoles(i, client, 0);
    var j := Remove(i, client);
    if i.byClient[client].publishes {
      RemovedGroups(i.byChannel, Published(i.byClient), StreamChannel, client);
      assert Published(j.byClient) == Published(i.byClient) - {client};
    } else {
      assert Published(j.byClient) == Published(i.byClient);
    }
    forall t: Stream | Live(j.byClient, t) ensures t in j.viewers && j.viewers[t] == Audience(j.byClient, t) {
      assert Live(i.byClient, t);
      LeaveAudience(Streams(i.byClient, 0), client, t);
    }
  }

  lemma LeaveAudience(s: Streams, client: Client, t: Stream)
    requires RolesSound(s) && client in s.roles && Live(LeaveStream(s, client).roles, t)
    ensures Audience(LeaveStream(s, client).roles, t)
            == if s.roles[client].stream == t then Audience(s.roles, t) - {client} else Audience(s.roles, t)
  {
    assert RoleSound(s.roles, client);
  }

  predicate Eligible(publisher: Option<nat>, t: Stream) {
    publisher.Some? ==> t.publisher.connection == publisher.value
  }

  /** The earliest eligible stream of a channel, whatever the order in which they are visited. */
  method Earliest(streams: map<Client, Stream>, publisher: Option<nat>) returns (choice: Option<Stream>)
    ensures choice.Some? ==> choice.value in streams.Values && Eligible(publisher, choice.value)
    ensures forall c | c in streams && Eligible(publisher, streams[c]) ::
        choice.Some? && Before(choice.value, streams[c])
  {
    choice := None;
    var left := streams.Keys;
    while left != {}
      invariant left <= streams.Keys
      invariant choice.Some? ==> choice.value in streams.Values && Eligible(publisher, choice.value)
      invariant forall c | c in streams && c !in left && Eligible(publisher, streams[c]) ::
                  choice.Some? && Before(choice.value, streams[c])
      decreases left
    {
      var c :| c in left;
      left := left - {c};
      var candidate := streams[c];
      if !(publisher.Some? && candidate.publisher.connection != publisher.value) {
        if choice.None? || candidate.startedAt < choice.value.startedAt
           || (candidate.startedAt == choice.value.startedAt
               && candidate.publisher.connection < choice.value.publisher.connection) {
          choice := Some(candidate);
        }
      }
    }
  }

  lemma EarliestIsChosen(s: Streams, channel: ChannelId, publisher: Option<nat>, streams: map<Client, Stream>,
                         choice: Option<Stream>)
    requires RolesSound(s) && streams == Group(Published(s.roles), StreamChannel, channel)
    requires choice.Some? ==> choice.value in streams.Values && Eligible(publisher, choice.value)
    requires forall c | c in streams && Eligible(publisher, streams[c]) ::
        choice.Some? && Before(choice.value, streams[c])
    ensures Chosen(s, channel, publisher, choice)
  {
    if choice.Some? {
      var c :| c in streams && streams[c] == choice.value;
      assert RoleSound(s.roles, c);
    }
    forall u: Stream | Candidate(s, channel, publisher, u) ensures choice.Some? && Before(choice.value, u) {
      assert u.publisher in streams && streams[u.publisher] == u;
    }
  }

  class Registry {
    const limits: Limits
    var nextGeneration: nat
    var byChannel: map<ChannelId, map<Client, Stream>>
    var viewers: map<Stream, set<Client>>
    var byClient: map<Client, Role>

    ghost function Lists(): Listing
      reads this
    {
      Listing(byChannel, viewers, byClient)
    }

    ghost function View(): Streams
      reads this
    {
      Streams(byClient, nextGeneration)
    }

    ghost predicate Ok()
      reads this
    {
      Consistent(Lists()) && RolesSound(View()) && Numbered(View())
    }

    constructor (limits: Limits)
      ensures Ok() && View() == NO_STREAMS && this.limits == limits
    {
      this.limits := limits;
      nextGeneration, byChannel, viewers, byClient := 0, map[], map[], map[];
      new;
      assert Published(byClient) == map[];
      assert forall g: nat :: Group(Published(byClient), StreamChannel, g) == map[];
    }

    method Begin(client: Client, role: Role)
      requires role.publishes || role.stream in viewers
      modifies this
      ensures Lists() == Add(old(Lists()), client, role) && nextGeneration == old(nextGeneration) + 1
    {
      var t := role.stream;
      if role.publishes {
        var streams: map<Client, Stream> := map[];
        if t.channel in byChannel {
          streams := byChannel[t.channel];
        }
        viewers := viewers[t := {}];
        byChannel := byChannel[t.channel := streams[client := t]];
      } else {
        viewers := viewers[t := viewers[t] + {client}];
      }
      nextGeneration := nextGeneration + 1;
      byClient := byClient[client := role];
    }

    method StartStream(client: Client, several: bool, server: ServerId, channel: ChannelId, mode: Mode, now: nat)
      returns (outcome: StartError)
      requires Ok()
      modifies this
      ensures outcome == StartOutcome(old(View()), client, several, channel)
      ensures View() == Start(old(View()), client, several, server, channel, mode, now) && Ok()
    {
      ChannelSize(Lists(), channel);
      if client in byClient { return AlreadyActive; }
      var count := 0;
      if channel in byChannel {
        count := |byChannel[channel].Keys|;
      }
      if !several && count > 0 { return AlreadyActive; }
      if count >= MAX_CHANNEL_PUBLISHERS { return PublisherLimit; }
      var role := Role(nextGeneration + 1, Stream(nextGeneration + 1, server, channel, mode, client, now), true, 0);
      PublishConsistent(Lists(), client, role);
      RoleAddedSound(View(), client, role);
      Begin(client, role);
      outcome := Started;
    }

    method Choose(channel: ChannelId, publisher: Option<nat>) returns (choice: Option<Stream>)
      requires Ok()
      ensures Chosen(View(), channel, publisher, choice)
    {
      var streams: map<Client, Stream> := map[];
      if channel in byChannel {
        streams := byChannel[channel];
      }
      choice := Earliest(streams, publisher);
      EarliestIsChosen(View(), channel, publisher, streams, choice);
    }

    method Attach(client: Client, t: Stream, rendition: nat)
      requires Ok() && client !in byClient && Live(byClient, t)
      modifies this
      ensures View() == Streams(old(byClient)[client := Role(old(nextGeneration) + 1, t, false, rendition)],
                                old(nextGeneration) + 1)
      ensures Ok()
    {
      var role := Role(nextGeneration + 1, t, false, rendition);
      ViewConsistent(Lists(), client, role);
      RoleAddedSound(View(), client, role);
      Begin(client, role);
    }

    method WatchStream(client: Client, server: ServerId, channel: ChannelId, publisher: Option<nat>,
                       rendition: Option<nat>)
      returns (outcome: WatchError, ghost choice: Option<Stream>)
      requires Ok()
      modifies this
      ensures Chosen(old(View()), channel, publisher, choice)
      ensures outcome == WatchOutcome(old(View()), limits, client, server, choice, rendition)
      ensures View() == Watch(old(View()), limits, client, server, choice, rendition) && Ok()
    {
      var found := Choose(channel, publisher);
      choice := found;
      if found.None? || found.value.publisher == client || found.value.server != server || client in byClient {
        return Unavailable, choice;
      }
      var t := found.value;
      var maximum := if t.mode.P2P? then limits.p2p else limits.server;
      if |viewers[t]| >= maximum { return ViewerLimit, choice; }
      if rendition.None? { return RenditionUnavailable, choice; }
      Attach(client, t, rendition.value);
      outcome := Watching;
    }

    method End(client: Client)
      requires client in byClient && byClient[client].stream in viewers
      modifies this`byChannel, this`viewers, this`byClient
      ensures Lists() == Remove(old(Lists()), client)
    {
      var t := byClient[client].stream;
      if byClient[client].publishes {
        var streams: map<Client, Stream> := map[];
        if t.channel in byChannel {
          streams := byChannel[t.channel] - {client};
          byChannel := byChannel[t.channel := streams];
        }
        if streams == map[] {
          byChannel := byChannel - {t.channel};
        }
        assert byChannel == Removed(old(byChannel), t.channel, client);
        byClient := byClient - {client};
        DropRoles(viewers[t]);
        assert byClient == old(byClient) - (viewers[t] + {client});
      } else {
        viewers := viewers[t := viewers[t] - {client}];
        byClient := byClient - {client};
      }
    }

    method DropRoles(gone: set<Client>)
      modifies this`byClient
      ensures byClient == old(byClient) - gone
    {
      var left := gone;
      while left != {}
        invariant left <= gone && byClient == old(byClient) - (gone - left)
        decreases left
      {
        var c :| c in left;
        ghost var done := gone - left;
        left := left - {c};
        byClient := byClient - {c};
        assert gone - left == done + {c};
      }
      assert gone - left == gone;
    }

    method LeaveStreams(client: Client) returns (left: bool)
      requires Ok()
      modifies this`byChannel, this`viewers, this`byClient
      ensures left == (client in old(byClient))
      ensures View() == LeaveStream(old(View()), client) && Ok()
    {
      if client !in byClient { return false; }
      assert RoleSound(byClient, client);
      RemoveConsistent(Lists(), client);
      RemoveRoles(Lists(), client, nextGeneration);
      LeaveSound(View(), client);
      End(client);
      left := true;
    }
  }
}
