/** The hub's media operations over voice and stream state, each taken as one step. Every event a
    hub operation publishes may find a full or closed client queue, and such a client is
    unregistered on the spot, which leaves voice and streams and publishes further events. */
module HubMedia {
  import opened Clients
  import opened Options
  import V = VoiceState
  import S = StreamState

  datatype Hub = Hub(voice: V.Voice, streams: S.Streams)

  const IDLE := Hub(V.NONE, S.NO_STREAMS)

  /** The clients that a round of publishing turns out, one after the other: each leaves its stream,
      which turns out others, then voice, which turns out others again. */
  datatype Cascade = Calm | Fall(victim: Client, stream: Cascade, voice: Cascade, rest: Cascade)

  function Size(cascade: Cascade): nat {
    match cascade
    case Calm => 0
    case Fall(_, stream, voice, rest) => 1 + Size(stream) + Size(voice) + Size(rest)
  }

  function Settle(h: Hub, cascade: Cascade): Hub
    decreases Size(cascade), 0
  {
    match cascade
    case Calm => h
    case Fall(victim, stream, voice, rest) => Settle(LeaveVoice(h, victim, stream, voice), rest)
  }

  /** Leaving a stream publishes only if the client had one. */
  function LeaveStream(h: Hub, client: Client, published: Cascade): Hub
    decreases Size(published), 1
  {
    if client !in h.streams.roles then h
    else Settle(h.(streams := S.LeaveStream(h.streams, client)), published)
  }

  /** Leaving voice leaves the stream first. */
  function LeaveVoice(h: Hub, client: Client, stream: Cascade, left: Cascade): Hub
    decreases Size(stream) + Size(left), 2
  {
    var g := LeaveStream(h, client, stream);
    if client !in g.voice.participants then g
    else Settle(g.(voice := V.Without(g.voice, {client})), left)
  }

  // ---- Operations ----

  predicate At(v: V.Voice, client: Client, server: ServerId, channel: ChannelId) {
    client in v.participants && v.participants[client].server == server && v.participants[client].channel == channel
  }

  /** Which clients fall while a join publishes: leaving the stream of another channel, the departure,
      the stream of a replaced connection, its notice, and the arrival. */
  datatype JoinFalls = JoinFalls(moved: Cascade, left: Cascade, replaced: Cascade, notice: Cascade, joined: Cascade)

  datatype Seat = Seat(server: ServerId, channel: ChannelId, mute: bool, deaf: bool, device: DeviceId)

  /** The other connection of the client's user that a join replaces. */
  predicate Replaces(v: V.Voice, client: Client, replaced: Option<Client>) {
    match replaced
    case None => V.OfUser(v, client.user) <= {client}
    case Some(c) => c != client && c in V.OfUser(v, client.user)
  }

  /** A client that is elsewhere leaves its stream before it joins. */
  function BeforeJoin(h: Hub, client: Client, seat: Seat, moved: Cascade): Hub {
    if client in h.voice.participants && !At(h.voice, client, seat.server, seat.channel)
    then LeaveStream(h, client, moved) else h
  }

  function AfterJoin(h: Hub, replaced: Option<Client>, falls: JoinFalls): Hub {
    var g := Settle(h, falls.left);
    var k := if replaced.Some? then Settle(LeaveStream(g, replaced.value, falls.replaced), falls.notice) else g;
    Settle(k, falls.joined)
  }

  function JoinVoice(h: Hub, client: Client, seat: Seat, replaced: Option<Client>, falls: JoinFalls): Hub {
    var g := BeforeJoin(h, client, seat, falls.moved);
    if !Replaces(g.voice, client, replaced) then h
    else
      AfterJoin(g.(voice := V.Join(g.voice, client, seat.server, seat.channel, seat.mute, seat.deaf, seat.device)),
                replaced, Heard(g.voice, client, seat, falls))
  }

  predicate Stays(v: V.Voice, client: Client, seat: Seat) { V.Stays(v, client, seat.server, seat.channel, seat.device) }

  /** A departure is published only if the user was somewhere, an arrival or update only if there is one. */
  function Heard(v: V.Voice, client: Client, seat: Seat, falls: JoinFalls): JoinFalls {
    var stays := Stays(v, client, seat);
    falls.(left := if !stays && V.OfUser(v, client.user) != {} then falls.left else Calm,
           joined := if !stays || v.participants[client].mute != seat.mute || v.participants[client].deaf != seat.deaf
                     then falls.joined else Calm)
  }

  function LeaveVoiceForServer(h: Hub, client: Client, server: ServerId, stream: Cascade, left: Cascade): Hub {
    if client in h.voice.participants && h.voice.participants[client].server == server
    then
      var g := LeaveStream(h, client, stream);
      if client in g.voice.participants then Settle(g.(voice := V.Without(g.voice, {client})), left) else g
    else h
  }

  /** Only a participant of the channel may start a stream in it, or watch one. */
  function StartStream(h: Hub, client: Client, several: bool, server: ServerId, channel: ChannelId, mode: S.Mode,
                       now: nat, published: Cascade): Hub {
    if !At(h.voice, client, server, channel) then h
    else Settle(h.(streams := S.Start(h.streams, client, several, server, channel, mode, now)), published)
  }

  function WatchStream(h: Hub, limits: S.Limits, client: Client, server: ServerId, channel: ChannelId,
                       choice: S.Stream, rendition: Option<nat>, published: Cascade): Hub {
    if !At(h.voice, client, server, channel) || !S.Live(h.streams.roles, choice) || choice.channel != channel then h
    else Settle(h.(streams := S.Watch(h.streams, limits, client, server, Some(choice), rendition)), published)
  }

  /** One publisher to stop, and who falls when the stop is published. */
  datatype Stop = Stop(publisher: Client, published: Cascade)

  function StopEach(h: Hub, stops: seq<Stop>): Hub
    decreases |stops|
  {
    if stops == [] then h else StopEach(LeaveStream(h, stops[0].publisher, stops[0].published), stops[1..])
  }

  predicate StopsAll(h: Hub, channel: ChannelId, stops: seq<Stop>) {
    forall c | c in S.OnAir(h.streams.roles, channel) :: exists i | 0 <= i < |stops| :: stops[i].publisher == c
  }

  function RemoveChannel(h: Hub, channel: ChannelId, stops: seq<Stop>): Hub {
    if !StopsAll(h, channel, stops) then h
    else
      var g := StopEach(h, stops);
      g.(voice := V.Without(g.voice, V.InChannel(g.voice, channel)))
  }

  /** The streams of the channels of all removed participants are stopped, channel by channel. */
  datatype ChannelStop = ChannelStop(channel: ChannelId, stops: seq<Stop>)

  predicate Planned(h: Hub, plan: seq<ChannelStop>)
    decreases |plan|
  {
    plan == [] || (StopsAll(h, plan[0].channel, plan[0].stops) && Planned(StopEach(h, plan[0].stops), plan[1..]))
  }

  function StopChannels(h: Hub, plan: seq<ChannelStop>): Hub
    decreases |plan|
  {
    if plan == [] then h else StopChannels(StopEach(h, plan[0].stops), plan[1..])
  }

  predicate CoversServer(v: V.Voice, server: ServerId, plan: seq<ChannelStop>) {
    forall c | c in V.InServer(v, server) :: exists i | 0 <= i < |plan| :: plan[i].channel == v.participants[c].channel
  }

  function RevokeServer(h: Hub, server: ServerId, plan: seq<ChannelStop>): Hub {
    var g := h.(voice := V.Without(h.voice, V.InServer(h.voice, server)));
    if !CoversServer(h.voice, server, plan) || !Planned(g, plan) then h else StopChannels(g, plan)
  }

  // ---- The invariant ----

  ghost predicate Sane(h: Hub) { V.Valid(h.voice) && S.RolesSound(h.streams) && S.Numbered(h.streams) }

  ghost predicate Fits(h: Hub, c: Client)
    requires c in h.streams.roles
  {
    At(h.voice, c, h.streams.roles[c].stream.server, h.streams.roles[c].stream.channel)
  }

  /** Every publisher and viewer is a voice participant of its stream's server and channel, except
      possibly some clients that an operation is still about to deal with. */
  ghost predicate Covered(h: Hub, except: set<Client>) {
    forall c | c in h.streams.roles && c !in except :: Fits(h, c)
  }

  /** Nobody joins or starts anything. */
  ghost predicate Shrinks(h: Hub, g: Hub) {
    && (forall c | c in g.streams.roles :: c in h.streams.roles && g.streams.roles[c] == h.streams.roles[c])
    && (forall c | c in g.voice.participants ::
           c in h.voice.participants && g.voice.participants[c] == h.voice.participants[c])
    && g.voice.nextGeneration == h.voice.nextGeneration && g.streams.nextGeneration == h.streams.nextGeneration
  }

  lemma DropRole(h: Hub, client: Client, except: set<Client>)
    requires Sane(h) && Covered(h, except)
    ensures var g := h.(streams := S.LeaveStream(h.streams, client));
            Sane(g) && Covered(g, except) && Shrinks(h, g) && client !in g.streams.roles
  {
    S.LeaveSound(h.streams, client);
    var g := h.(streams := S.LeaveStream(h.streams, client));
    forall c | c in g.streams.roles && c !in except ensures Fits(g, c) { assert Fits(h, c); }
  }

  lemma DropSeat(h: Hub, clients: set<Client>, except: set<Client>)
    requires Sane(h) && Covered(h, except) && forall c | c in clients :: c !in h.streams.roles
    ensures var g := h.(voice := V.Without(h.voice, clients)); Sane(g) && Covered(g, except) && Shrinks(h, g)
  {
    V.WithoutValid(h.voice, clients);
    var g := h.(voice := V.Without(h.voice, clients));
    forall c | c in g.streams.roles && c !in except ensures Fits(g, c) { assert Fits(h, c); }
  }

  lemma {:induction false} SettleKeeps(h: Hub, cascade: Cascade, except: set<Client>)
    requires Sane(h) && Covered(h, except)
    ensures var g := Settle(h, cascade); Sane(g) && Covered(g, except) && Shrinks(h, g)
    decreases Size(cascade), 0
  {
    match cascade {
      case Calm =>
      case Fall(victim, stream, voice, rest) =>
        LeaveVoiceKeeps(h, victim, stream, voice, except);
        SettleKeeps(LeaveVoice(h, victim, stream, voice), rest, except);
    }
  }

  lemma {:induction false} LeaveStreamKeeps(h: Hub, client: Client, published: Cascade, except: set<Client>)
    requires Sane(h) && Covered(h, except)
    ensures var g := LeaveStream(h, client, published);
            Sane(g) && Covered(g, except) && Shrinks(h, g) && client !in g.streams.roles
    decreases Size(published), 1
  {
    DropRole(h, client, except);
    SettleKeeps(h.(streams := S.LeaveStream(h.streams, client)), published, except);
  }

  lemma {:induction false} LeaveVoiceKeeps(h: Hub, client: Client, stream: Cascade, left: Cascade, except: set<Client>)
    requires Sane(h) && Covered(h, except)
    ensures var g := LeaveVoice(h, client, stream, left);
            Sane(g) && Covered(g, except) && Shrinks(h, g) && client !in g.streams.roles &&
                client !in g.voice.participants
    decreases Size(stream) + Size(left), 2
  {
    LeaveStreamKeeps(h, client, stream, except);
    var g := LeaveStream(h, client, stream);
    DropSeat(g, {client}, except);
    SettleKeeps(g.(voice := V.Without(g.voice, {client})), left, except);
  }

  // ---- Every operation keeps it ----

  ghost predicate Inv(h: Hub) { Sane(h) && Covered(h, {}) }

  /** A new voice state in which the clients with a stream keep their place. */
  lemma NewVoiceKeeps(g: Hub, voice: V.Voice, except: set<Client>)
    requires Sane(g) && Covered(g, {}) && V.Valid(voice)
    requires forall c | c in g.streams.roles && c !in except && c in g.voice.participants ::
               At(voice, c, g.voice.participants[c].server, g.voice.participants[c].channel)
    ensures Sane(g.(voice := voice)) && Covered(g.(voice := voice), except)
  {
    var j := g.(voice := voice);
    forall c | c in j.streams.roles && c !in except ensures Fits(j, c) { assert Fits(g, c); }
  }

  lemma JoinPlaces(v: V.Voice, client: Client, seat: Seat, c: Client)
    requires c in v.participants && c !in V.OfUser(v, client.user) - {client}
    requires c == client ==> At(v, client, seat.server, seat.channel)
    ensures At(V.Join(v, client, seat.server, seat.channel, seat.mute, seat.deaf, seat.device), c,
               v.participants[c].server, v.participants[c].channel)
  {
  }

  /** The joining client itself stays covered: either it stays in its channel or it has no stream. */
  lemma JoinCovers(g: Hub, client: Client, seat: Seat)
    requires Sane(g) && Covered(g, {}) && (client in g.streams.roles ==> At(g.voice, client, seat.server, seat.channel))
    ensures var j := g.(voice := V.Join(g.voice, client, seat.server, seat.channel, seat.mute, seat.deaf, seat.device));
            Sane(j) && Covered(j, V.OfUser(g.voice, client.user) - {client})
  {
    var voice := V.Join(g.voice, client, seat.server, seat.channel, seat.mute, seat.deaf, seat.device);
    var except := V.OfUser(g.voice, client.user) - {client};
    V.JoinValid(g.voice, client, seat.server, seat.channel, seat.mute, seat.deaf, seat.device);
    forall c | c in g.streams.roles && c !in except && c in g.voice.participants
      ensures At(voice, c, g.voice.participants[c].server, g.voice.participants[c].channel)
    {
      JoinPlaces(g.voice, client, seat, c);
    }
    NewVoiceKeeps(g, voice, except);
  }

  lemma AfterJoinKeeps(h: Hub, replaced: Option<Client>, falls: JoinFalls, except: set<Client>)
    requires Sane(h) && Covered(h, except) && except <= if replaced.Some? then {replaced.value} else {}
    ensures Inv(AfterJoin(h, replaced, falls))
  {
    SettleKeeps(h, falls.left, except);
    var g := Settle(h, falls.left);
    if replaced.Some? {
      LeaveStreamKeeps(g, replaced.value, falls.replaced, except);
      var k := LeaveStream(g, replaced.value, falls.replaced);
      assert Covered(k, {});
      SettleKeeps(k, falls.notice, {});
      SettleKeeps(Settle(k, falls.notice), falls.joined, {});
    } else {
      SettleKeeps(g, falls.joined, {});
    }
  }

  lemma BeforeJoinKeeps(h: Hub, client: Client, seat: Seat, moved: Cascade)
    requires Inv(h)
    ensures var g := BeforeJoin(h, client, seat, moved);
            Inv(g) && (client in g.streams.roles ==> At(g.voice, client, seat.server, seat.channel))
  {
    if client in h.voice.participants && !At(h.voice, client, seat.server, seat.channel) {
      LeaveStreamKeeps(h, client, moved, {});
    } else if client in h.streams.roles {
      assert Fits(h, client);
    }
  }

  lemma JoinKeeps(h: Hub, client: Client, seat: Seat, replaced: Option<Client>, falls: JoinFalls)
    requires Inv(h)
    ensures Inv(JoinVoice(h, client, seat, replaced, falls))
  {
    var g := BeforeJoin(h, client, seat, falls.moved);
    BeforeJoinKeeps(h, client, seat, falls.moved);
    if Replaces(g.voice, client, replaced) {
      JoinCovers(g, client, seat);
      AfterJoinKeeps(
        g.(voice := V.Join(g.voice, client, seat.server, seat.channel, seat.mute, seat.deaf, seat.device)),
        replaced, Heard(g.voice, client, seat, falls), V.OfUser(g.voice, client.user) - {client});
    }
  }

  lemma UpdateKeeps(h: Hub, client: Client, mute: bool, deaf: bool, video: Option<bool>)
    requires Inv(h)
    ensures Inv(h.(voice := V.Update(h.voice, client, mute, deaf, video)))
  {
    V.UpdateValid(h.voice, client, mute, deaf, video);
    NewVoiceKeeps(h, V.Update(h.voice, client, mute, deaf, video), {});
  }

  lemma LeaveForServerKeeps(h: Hub, client: Client, server: ServerId, stream: Cascade, left: Cascade)
    requires Inv(h)
    ensures Inv(LeaveVoiceForServer(h, client, server, stream, left))
  {
    LeaveStreamKeeps(h, client, stream, {});
    var g := LeaveStream(h, client, stream);
    DropSeat(g, {client}, {});
    SettleKeeps(g.(voice := V.Without(g.voice, {client})), left, {});
  }

  lemma NewRoleKeeps(h: Hub, streams: S.Streams, client: Client, published: Cascade)
    requires Inv(h) && S.RolesSound(streams) && S.Numbered(streams)
    requires client in streams.roles && streams.roles - {client} == h.streams.roles - {client}
    requires At(h.voice, client, streams.roles[client].stream.server, streams.roles[client].stream.channel)
    ensures Inv(Settle(h.(streams := streams), published))
  {
    var g := h.(streams := streams);
    forall c | c in g.streams.roles ensures Fits(g, c) {
      if c != client {
        assert c in streams.roles - {client};
        assert Fits(h, c) && (h.streams.roles - {client})[c] == h.streams.roles[c];
      }
    }
    SettleKeeps(g, published, {});
  }

  ghost predicate AddsRole(s: S.Streams, streams: S.Streams, client: Client, server: ServerId, channel: ChannelId) {
    && S.RolesSound(streams) && S.Numbered(streams)
    && client in streams.roles && streams.roles - {client} == s.roles - {client}
    && streams.roles[client].stream.server == server && streams.roles[client].stream.channel == channel
  }

  lemma StartedRole(s: S.Streams, client: Client, several: bool, server: ServerId, channel: ChannelId, mode: S.Mode,
                    now: nat)
    requires S.RolesSound(s) && S.Numbered(s)
    ensures var streams := S.Start(s, client, several, server, channel, mode, now);
            streams == s || AddsRole(s, streams, client, server, channel)
  {
    S.ApplySound(s, S.Limits(0, 0), S.Publishing(client, several, server, channel, mode, now));
  }

  lemma WatchedRole(s: S.Streams, limits: S.Limits, client: Client, server: ServerId, choice: S.Stream,
                    rendition: Option<nat>)
    requires S.RolesSound(s) && S.Numbered(s) && S.Live(s.roles, choice)
    ensures var streams := S.Watch(s, limits, client, server, Some(choice), rendition);
            streams == s || AddsRole(s, streams, client, server, choice.channel)
  {
    S.ApplySound(s, limits, S.Viewing(client, server, choice.channel, choice, rendition));
  }

  lemma StartKeeps(h: Hub, client: Client, several: bool, server: ServerId, channel: ChannelId, mode: S.Mode,
                   now: nat, published: Cascade)
    requires Inv(h)
    ensures Inv(StartStream(h, client, several, server, channel, mode, now, published))
  {
    var streams := S.Start(h.streams, client, several, server, channel, mode, now);
    StartedRole(h.streams, client, several, server, channel, mode, now);
    if streams == h.streams {
      SettleKeeps(h, published, {});
    } else if At(h.voice, client, server, channel) {
      NewRoleKeeps(h, streams, client, published);
    }
  }

  lemma WatchKeeps(h: Hub, limits: S.Limits, client: Client, server: ServerId, channel: ChannelId, choice: S.Stream,
                   rendition: Option<nat>, published: Cascade)
    requires Inv(h)
    ensures Inv(WatchStream(h, limits, client, server, channel, choice, rendition, published))
  {
    if At(h.voice, client, server, channel) && S.Live(h.streams.roles, choice) && choice.channel == channel {
      var streams := S.Watch(h.streams, limits, client, server, Some(choice), rendition);
      WatchedRole(h.streams, limits, client, server, choice, rendition);
      if streams == h.streams {
        SettleKeeps(h, published, {});
      } else {
        NewRoleKeeps(h, streams, client, published);
      }
    }
  }

  // ---- Channels and servers end ----

  lemma {:induction false} StopEachKeeps(h: Hub, stops: seq<Stop>, except: set<Client>)
    requires Sane(h) && Covered(h, except)
    ensures var g := StopEach(h, stops);
            && Sane(g) && Covered(g, except) && Shrinks(h, g)
            && forall i | 0 <= i < |stops| :: stops[i].publisher !in g.streams.roles
    decreases |stops|
  {
    if stops != [] {
      LeaveStreamKeeps(h, stops[0].publisher, stops[0].published, except);
      StopEachKeeps(LeaveStream(h, stops[0].publisher, stops[0].published), stops[1..], except);
      forall i | 0 < i < |stops| ensures stops[i].publisher !in StopEach(h, stops).streams.roles {
        assert stops[i] == stops[1..][i - 1];
      }
    }
  }

  ghost predicate Silent(h: Hub, channel: ChannelId) {
    forall c | c in h.streams.roles :: h.streams.roles[c].stream.channel != channel
  }

  /** When all publishers of a channel have stopped, nobody is left on a stream there. */
  lemma StopsSilence(h: Hub, channel: ChannelId, stops: seq<Stop>, except: set<Client>)
    requires Sane(h) && Covered(h, except) && StopsAll(h, channel, stops)
    ensures Silent(StopEach(h, stops), channel)
  {
    StopEachKeeps(h, stops, except);
    var g := StopEach(h, stops);
    forall c | c in g.streams.roles ensures g.streams.roles[c].stream.channel != channel {
      var t := g.streams.roles[c].stream;
      assert S.RoleSound(g.streams.roles, c);
      assert t.publisher in S.OnAir(h.streams.roles, t.channel);
    }
  }

  lemma RemoveChannelKeeps(h: Hub, channel: ChannelId, stops: seq<Stop>)
    requires Inv(h)
    ensures Inv(RemoveChannel(h, channel, stops))
  {
    if StopsAll(h, channel, stops) {
      StopEachKeeps(h, stops, {});
      StopsSilence(h, channel, stops, {});
      var g := StopEach(h, stops);
      forall c | c in g.streams.roles ensures c !in V.InChannel(g.voice, channel) { assert Fits(g, c); }
      DropSeat(g, V.InChannel(g.voice, channel), {});
    }
  }

  lemma {:induction false} StopChannelsKeeps(h: Hub, plan: seq<ChannelStop>, except: set<Client>)
    requires Sane(h) && Covered(h, except) && Planned(h, plan)
    ensures var g := StopChannels(h, plan);
            && Sane(g) && Covered(g, except) && Shrinks(h, g)
            && forall i | 0 <= i < |plan| :: Silent(g, plan[i].channel)
    decreases |plan|
  {
    if plan != [] {
      StopEachKeeps(h, plan[0].stops, except);
      StopsSilence(h, plan[0].channel, plan[0].stops, except);
      var k := StopEach(h, plan[0].stops);
      StopChannelsKeeps(k, plan[1..], except);
      var g := StopChannels(h, plan);
      assert Shrinks(k, g);
      forall i | 0 <= i < |plan| ensures Silent(g, plan[i].channel) {
        if i > 0 { assert plan[i] == plan[1..][i - 1]; }
      }
    }
  }

  lemma RevokeServerKeeps(h: Hub, server: ServerId, plan: seq<ChannelStop>)
    requires Inv(h)
    ensures Inv(RevokeServer(h, server, plan))
  {
    var gone := V.InServer(h.voice, server);
    var g := h.(voice := V.Without(h.voice, gone));
    if CoversServer(h.voice, server, plan) && Planned(g, plan) {
      V.WithoutValid(h.voice, gone);
      forall c | c in g.streams.roles && c !in gone ensures Fits(g, c) { assert Fits(h, c); }
      StopChannelsKeeps(g, plan, gone);
      var k := StopChannels(g, plan);
      forall c | c in gone ensures c !in k.streams.roles {
        var i :| 0 <= i < |plan| && plan[i].channel == h.voice.participants[c].channel;
        assert Silent(k, plan[i].channel);
        assert c in h.streams.roles ==> Fits(h, c);
      }
    }
  }

  // ---- What the operations do ----

  const QUIET := JoinFalls(Calm, Calm, Calm, Calm, Calm)

  /** What a join replaces: another connection of the same user, if there is one. */
  lemma ReplacesExactly(v: V.Voice, client: Client, c: Client)
    ensures Replaces(v, client, Some(c)) <==> c in v.participants && c.user == client.user && c != client
    ensures Replaces(v, client, None) <==>
            forall d: Client | d in v.participants && d.user == client.user :: d == client
  {
    if Replaces(v, client, None) {
      forall d: Client | d in v.participants && d.user == client.user ensures d == client {
        assert d in V.OfUser(v, client.user);
      }
    }
  }

  /** Main result: when nobody falls, a join gives the client its seat and takes every other connection of the
      user out of voice; it ends the stream roles of those, and the client's own if it changes its place,
      each with the viewers that hang on it. Everybody else stays as they were. */
  lemma JoinsExactly(h: Hub, client: Client, seat: Seat, replaced: Option<Client>)
    requires Inv(h) && Replaces(h.voice, client, replaced)
    ensures var v := JoinVoice(h, client, seat, replaced, QUIET);
            && v.voice == V.Join(h.voice, client, seat.server, seat.channel, seat.mute, seat.deaf, seat.device)
            && var own := if At(h.voice, client, seat.server, seat.channel) then h.streams
                          else S.LeaveStream(h.streams, client);
            && v.streams == if replaced.Some? then S.LeaveStream(own, replaced.value) else own
  {
    assert client in h.streams.roles ==> Fits(h, client);
    RoleGone(h.streams, client);
    if replaced.Some? {
      RoleGone(h.streams, replaced.value);
      RoleGone(S.LeaveStream(h.streams, client), replaced.value);
    }
  }

  lemma RoleGone(s: S.Streams, client: Client)
    ensures client !in s.roles ==> S.LeaveStream(s, client) == s
  {
    if client !in s.roles { assert s.roles - {} == s.roles; }
  }

  /** Who is told: of a departure exactly if the user was somewhere else than where it joins, with another
      device or on another connection; of an arrival exactly if it was not there already with these flags. */
  lemma HeardExactly(v: V.Voice, client: Client, seat: Seat, falls: JoinFalls)
    ensures var there := && client in v.participants
                         && v.participants[client].server == seat.server
                         && v.participants[client].channel == seat.channel
                         && v.participants[client].device == seat.device;
            var told := Heard(v, client, seat, falls);
            && told.moved == falls.moved && told.replaced == falls.replaced && told.notice == falls.notice
            && told.left == (if !there && exists c: Client :: c in v.participants && c.user == client.user
                             then falls.left else Calm)
            && told.joined == (if there && v.participants[client].mute == seat.mute
                                  && v.participants[client].deaf == seat.deaf
                               then Calm else falls.joined)
  {
    if c: Client :| c in v.participants && c.user == client.user {
      assert c in V.OfUser(v, client.user);
    }
  }

  /** Leaving voice for a server takes effect exactly on a client that is in voice there: it is then gone from
      voice and streams, whoever else falls. */
  lemma LeavesForServerExactly(h: Hub, client: Client, server: ServerId, stream: Cascade, left: Cascade)
    requires Inv(h)
    ensures var g := LeaveVoiceForServer(h, client, server, stream, left);
            if client in h.voice.participants && h.voice.participants[client].server == server
            then client !in g.voice.participants && client !in g.streams.roles && Shrinks(h, g)
            else g == h
  {
    LeaveStreamKeeps(h, client, stream, {});
    var g := LeaveStream(h, client, stream);
    DropSeat(g, {client}, {});
    SettleKeeps(g.(voice := V.Without(g.voice, {client})), left, {});
  }

  /** Main result: once a channel is removed nobody is in voice there and no stream is on air there, whoever
      else falls. */
  lemma RemovalEmpties(h: Hub, channel: ChannelId, stops: seq<Stop>, c: Client)
    requires Inv(h) && StopsAll(h, channel, stops)
    ensures var g := RemoveChannel(h, channel, stops);
            && Shrinks(h, g)
            && (c in g.voice.participants ==> g.voice.participants[c].channel != channel)
            && (c in g.streams.roles ==> g.streams.roles[c].stream.channel != channel)
  {
    RemoveChannelKeeps(h, channel, stops);
    StopEachKeeps(h, stops, {});
    var g := RemoveChannel(h, channel, stops);
    if c in g.streams.roles { assert Fits(g, c); }
  }

  /** Main result: the same for a server. */
  lemma RevocationEmpties(h: Hub, server: ServerId, plan: seq<ChannelStop>, c: Client)
    requires Inv(h) && CoversServer(h.voice, server, plan)
    requires Planned(h.(voice := V.Without(h.voice, V.InServer(h.voice, server))), plan)
    ensures var g := RevokeServer(h, server, plan);
            && (c in g.voice.participants ==>
                  c in h.voice.participants && g.voice.participants[c] == h.voice.participants[c]
                  && g.voice.participants[c].server != server)
            && (c in g.streams.roles ==> g.streams.roles[c].stream.server != server)
  {
    RevokeServerKeeps(h, server, plan);
    var gone := V.InServer(h.voice, server);
    var g := h.(voice := V.Without(h.voice, gone));
    V.WithoutValid(h.voice, gone);
    forall d | d in g.streams.roles && d !in gone ensures Fits(g, d) { assert Fits(h, d); }
    StopChannelsKeeps(g, plan, gone);
    if c in RevokeServer(h, server, plan).streams.roles { assert Fits(RevokeServer(h, server, plan), c); }
  }

  /** The stops name every publisher on air in the channel. */
  lemma StopsAllExactly(h: Hub, channel: ChannelId, stops: seq<Stop>)
    ensures StopsAll(h, channel, stops) <==>
            S.OnAir(h.streams.roles, channel) <= set i | 0 <= i < |stops| :: stops[i].publisher
    ensures forall c: Client :: c in S.OnAir(h.streams.roles, channel) <==>
              && c in h.streams.roles && h.streams.roles[c].publishes
              && h.streams.roles[c].stream.channel == channel
  {
  }

  /** The plan names every channel in which the server has participants. */
  lemma CoversServerExactly(v: V.Voice, server: ServerId, plan: seq<ChannelStop>)
    ensures CoversServer(v, server, plan) <==>
            (set c | c in v.participants && v.participants[c].server == server :: v.participants[c].channel)
            <= set i | 0 <= i < |plan| :: plan[i].channel
  {
    var channels := set i | 0 <= i < |plan| :: plan[i].channel;
    var used := set c | c in v.participants && v.participants[c].server == server :: v.participants[c].channel;
    if used <= channels {
      forall c | c in V.InServer(v, server)
        ensures exists i | 0 <= i < |plan| :: plan[i].channel == v.participants[c].channel
      {
        assert v.participants[c].channel in used;
      }
    }
    if CoversServer(v, server, plan) {
      forall channel | channel in used ensures channel in channels {
        var c :| c in v.participants && v.participants[c].server == server && v.participants[c].channel == channel;
        assert c in V.InServer(v, server);
      }
    }
  }

  // ---- Whole runs ----

  datatype Op =
    | Join(client: Client, seat: Seat, replaced: Option<Client>, falls: JoinFalls)
    | Update(client: Client, mute: bool, deaf: bool, video: Option<bool>)
    | Leave(client: Client, stream: Cascade, left: Cascade)
    | LeaveForServer(client: Client, server: ServerId, stream: Cascade, left: Cascade)
    | Start(client: Client, several: bool, server: ServerId, channel: ChannelId, mode: S.Mode, now: nat,
        published: Cascade)
    | Watch(client: Client, server: ServerId, channel: ChannelId, choice: S.Stream, rendition: Option<nat>,
        published: Cascade)
    | StopWatching(client: Client, published: Cascade)
    | DeleteChannel(channel: ChannelId, stops: seq<Stop>)
    | DeleteServer(server: ServerId, plan: seq<ChannelStop>)
    | Publish(cascade: Cascade)

  function Apply(h: Hub, limits: S.Limits, op: Op): Hub {
    match op
    case Join(client, seat, replaced, falls) => JoinVoice(h, client, seat, replaced, falls)
    case Update(client, mute, deaf, video) => h.(voice := V.Update(h.voice, client, mute, deaf, video))
    case Leave(client, stream, left) => LeaveVoice(h, client, stream, left)
    case LeaveForServer(client, server, stream, left) => LeaveVoiceForServer(h, client, server, stream, left)
    case Start(client, several, server, channel, mode, now, published) =>
      StartStream(h, client, several, server, channel, mode, now, published)
    case Watch(client, server, channel, choice, rendition, published) =>
      WatchStream(h, limits, client, server, channel, choice, rendition, published)
    case StopWatching(client, published) => LeaveStream(h, client, published)
    case DeleteChannel(channel, stops) => RemoveChannel(h, channel, stops)
    case DeleteServer(server, plan) => RevokeServer(h, server, plan)
    case Publish(cascade) => Settle(h, cascade)
  }

  function Exec(h: Hub, limits: S.Limits, ops: seq<Op>): Hub
    decreases |ops|
  {
    if ops == [] then h else Exec(Apply(h, limits, ops[0]), limits, ops[1..])
  }

  /** An update is one of the voice state alone. */
  lemma UpdatesExactly(h: Hub, limits: S.Limits, client: Client, mute: bool, deaf: bool, video: Option<bool>)
    ensures Apply(h, limits, Update(client, mute, deaf, video))
            == h.(voice := V.Apply(h.voice, V.Updating(client, mute, deaf, video)))
  {
  }

  lemma VoiceOpInv(h: Hub, limits: S.Limits, op: Op)
    requires Inv(h) && (op.Join? || op.Update? || op.Leave? || op.LeaveForServer?)
    ensures Inv(Apply(h, limits, op))
  {
    match op {
      case Join(client, seat, replaced, falls) => JoinKeeps(h, client, seat, replaced, falls);
      case Update(client, mute, deaf, video) => UpdateKeeps(h, client, mute, deaf, video);
      case Leave(client, stream, left) => LeaveVoiceKeeps(h, client, stream, left, {});
      case LeaveForServer(client, server, stream, left) => LeaveForServerKeeps(h, client, server, stream, left);
    }
  }

  lemma StreamOpInv(h: Hub, limits: S.Limits, op: Op)
    requires Inv(h) && (op.Start? || op.Watch? || op.StopWatching?)
    ensures Inv(Apply(h, limits, op))
  {
    match op {
      case Start(client, several, server, channel, mode, now, published) =>
        StartKeeps(h, client, several, server, channel, mode, now, published);
      case Watch(client, server, channel, choice, rendition, published) =>
        WatchKeeps(h, limits, client, server, channel, choice, rendition, published);
      case StopWatching(client, published) => LeaveStreamKeeps(h, client, published, {});
    }
  }

  lemma DeleteChannelInv(h: Hub, limits: S.Limits, channel: ChannelId, stops: seq<Stop>)
    requires Inv(h)
    ensures Inv(Apply(h, limits, DeleteChannel(channel, stops)))
  {
    if StopsAll(h, channel, stops) { RemoveChannelKeeps(h, channel, stops); }
  }

  lemma DeleteServerInv(h: Hub, limits: S.Limits, server: ServerId, plan: seq<ChannelStop>)
    requires Inv(h)
    ensures Inv(Apply(h, limits, DeleteServer(server, plan)))
  {
    RevokeServerKeeps(h, server, plan);
  }

  lemma PublishInv(h: Hub, limits: S.Limits, cascade: Cascade)
    requires Inv(h)
    ensures Inv(Apply(h, limits, Publish(cascade)))
  {
    SettleKeeps(h, cascade, {});
  }

  lemma ApplyInv(h: Hub, limits: S.Limits, op: Op)
    requires Inv(h)
    ensures Inv(Apply(h, limits, op))
  {
    match op {
      case Join(_, _, _, _) => VoiceOpInv(h, limits, op);
      case Update(_, _, _, _) => VoiceOpInv(h, limits, op);
      case Leave(_, _, _) => VoiceOpInv(h, limits, op);
      case LeaveForServer(_, _, _, _) => VoiceOpInv(h, limits, op);
      case Start(_, _, _, _, _, _, _) => StreamOpInv(h, limits, op);
      case Watch(_, _, _, _, _, _) => StreamOpInv(h, limits, op);
      case StopWatching(_, _) => StreamOpInv(h, limits, op);
      case DeleteChannel(channel, stops) => DeleteChannelInv(h, limits, channel, stops);
      case DeleteServer(server, plan) => DeleteServerInv(h, limits, server, plan);
      case Publish(cascade) => PublishInv(h, limits, cascade);
    }
  }

  lemma {:induction false} ExecInv(h: Hub, limits: S.Limits, ops: seq<Op>)
    requires Inv(h)
    ensures Inv(Exec(h, limits, ops))
    decreases |ops|
  {
    if ops != [] {
      ApplyInv(h, limits, ops[0]);
      ExecInv(Apply(h, limits, ops[0]), limits, ops[1..]);
    }
  }

  /** Main result: in every reachable state each publisher and each viewer is a voice participant of
      the server and channel of its stream, and a viewer's publisher is on air in that channel. */
  lemma StreamsNeedVoice(limits: S.Limits, ops: seq<Op>, c: Client)
    requires c in Exec(IDLE, limits, ops).streams.roles
    ensures var h := Exec(IDLE, limits, ops);
            var t := h.streams.roles[c].stream;
            && c in h.voice.participants
            && h.voice.participants[c].server == t.server && h.voice.participants[c].channel == t.channel
            && S.Live(h.streams.roles, t) && At(h.voice, t.publisher, t.server, t.channel)
  {
    ExecInv(IDLE, limits, ops);
    var h := Exec(IDLE, limits, ops);
    assert Fits(h, c) && S.RoleSound(h.streams.roles, c);
    var p := h.streams.roles[c].stream.publisher;
    assert Fits(h, p);
  }
}
