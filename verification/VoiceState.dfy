/** Who takes part in voice. The state is the participants by client; the object keeps two further
    indices, by channel and by user, which are proved to be determined by it. */
module VoiceState {
  import opened Clients
  import opened Index
  import opened Options

  datatype Participant = Participant(
    generation: nat, client: Client, server: ServerId, channel: ChannelId,
    mute: bool, deaf: bool, video: bool, device: DeviceId)

  datatype Voice = Voice(participants: map<Client, Participant>, nextGeneration: nat)

  const NONE := Voice(map[], 0)

  // ---- Operations ----

  predicate Stays(v: Voice, client: Client, server: ServerId, channel: ChannelId, device: DeviceId) {
    && client in v.participants
    && var p := v.participants[client];
    p.server == server && p.channel == channel && p.device == device
  }

  function OfUser(v: Voice, user: UserId): set<Client> {
    set c | c in v.participants && c.user == user
  }

  /** A client that stays where it is keeps its camera state; in any case it gets the next
      generation. */
  function Entry(v: Voice, client: Client, server: ServerId, channel: ChannelId, mute: bool, deaf: bool,
                 device: DeviceId): Participant {
    Participant(v.nextGeneration + 1, client, server, channel, mute, deaf,
                Stays(v, client, server, channel, device) && v.participants[client].video, device)
  }

  /** Joining replaces every other connection of the user. */
  function Join(v: Voice, client: Client, server: ServerId, channel: ChannelId, mute: bool, deaf: bool,
                device: DeviceId): Voice {
    Voice((v.participants - OfUser(v, client.user))[client := Entry(v, client, server, channel, mute, deaf, device)],
          v.nextGeneration + 1)
  }

  function Flagged(p: Participant, mute: bool, deaf: bool, video: Option<bool>): Participant {
    p.(mute := mute, deaf := deaf, video := if video.Some? then video.value else p.video)
  }

  function Update(v: Voice, client: Client, mute: bool, deaf: bool, video: Option<bool>): Voice {
    if client !in v.participants then v
    else v.(participants := v.participants[client := Flagged(v.participants[client], mute, deaf, video)])
  }

  function Without(v: Voice, clients: set<Client>): Voice { v.(participants := v.participants - clients) }

  function InServer(v: Voice, server: ServerId): set<Client> {
    set c | c in v.participants && v.participants[c].server == server
  }

  function InChannel(v: Voice, channel: ChannelId): set<Client> {
    set c | c in v.participants && v.participants[c].channel == channel
  }

  /** One connection per user, and distinct generations that have been handed out. */
  ghost predicate Valid(v: Voice) {
    && (forall c | c in v.participants ::
          v.participants[c].client == c && 0 < v.participants[c].generation <= v.nextGeneration)
    && (forall c, d | c in v.participants && d in v.participants && c.user == d.user :: c == d)
    && (forall c, d | c in v.participants && d in v.participants &&
          v.participants[c].generation == v.participants[d].generation :: c == d)
  }

  lemma JoinValid(v: Voice, client: Client, server: ServerId, channel: ChannelId, mute: bool, deaf: bool,
                  device: DeviceId)
    requires Valid(v)
    ensures Valid(Join(v, client, server, channel, mute, deaf, device))
  {
  }

  lemma UpdateValid(v: Voice, client: Client, mute: bool, deaf: bool, video: Option<bool>)
    requires Valid(v)
    ensures Valid(Update(v, client, mute, deaf, video))
  {
  }

  lemma WithoutValid(v: Voice, clients: set<Client>)
    requires Valid(v)
    ensures Valid(Without(v, clients))
  {
  }

  // ---- Whole runs ----

  datatype Op =
    | Joining(client: Client, server: ServerId, channel: ChannelId, mute: bool, deaf: bool, device: DeviceId)
    | Updating(client: Client, mute: bool, deaf: bool, video: Option<bool>)
    | Removing(clients: set<Client>)

  function Apply(v: Voice, op: Op): Voice {
    match op
    case Joining(client, server, channel, mute, deaf, device) => Join(v, client, server, channel, mute, deaf, device)
    case Updating(client, mute, deaf, video) => Update(v, client, mute, deaf, video)
    case Removing(clients) => Without(v, clients)
  }

  function Exec(v: Voice, ops: seq<Op>): Voice
    decreases |ops|
  {
    if ops == [] then v else Exec(Apply(v, ops[0]), ops[1..])
  }

  lemma ApplyValid(v: Voice, op: Op)
    requires Valid(v)
    ensures Valid(Apply(v, op))
  {
    match op {
      case Joining(client, server, channel, mute, deaf, device) =>
        JoinValid(v, client, server, channel, mute, deaf, device);
      case Updating(client, mute, deaf, video) => UpdateValid(v, client, mute, deaf, video);
      case Removing(clients) => WithoutValid(v, clients);
    }
  }

  lemma {:induction false} ExecValid(v: Voice, ops: seq<Op>)
    requires Valid(v)
    ensures Valid(Exec(v, ops))
    decreases |ops|
  {
    if ops != [] {
      ApplyValid(v, ops[0]);
      ExecValid(Apply(v, ops[0]), ops[1..]);
    }
  }

  /** Removing a server or a channel ends exactly the participations there. */
  lemma RemovesExactly(v: Voice, server: ServerId, channel: ChannelId, c: Client)
    ensures c in Without(v, InServer(v, server)).participants <==>
            c in v.participants && v.participants[c].server != server
    ensures c in Without(v, InChannel(v, channel)).participants <==>
            c in v.participants && v.participants[c].channel != channel
  {
  }

  // ---- What a history says ----

  ghost function Init(ops: seq<Op>): seq<Op>
    requires ops != []
  {
    ops[..|ops| - 1]
  }

  ghost function Last(ops: seq<Op>): Op
    requires ops != []
  {
    ops[|ops| - 1]
  }

  /** The client joined, and since then neither left nor was replaced by another connection of its user. */
  ghost predicate Present(ops: seq<Op>, c: Client) {
    && ops != []
    && match Last(ops)
       case Joining(client, _, _, _, _, _) => client == c || (client.user != c.user && Present(Init(ops), c))
       case Updating(_, _, _, _) => Present(Init(ops), c)
       case Removing(clients) => c !in clients && Present(Init(ops), c)
  }

  /** Where the client joined last, and with which device. */
  ghost function Place(ops: seq<Op>, c: Client): (ServerId, ChannelId, DeviceId) {
    if ops == [] then (0, 0, 0)
    else match Last(ops)
      case Joining(client, server, channel, _, _, device) =>
        if client == c then (server, channel, device) else Place(Init(ops), c)
      case _ => Place(Init(ops), c)
  }

  /** Whether the client is muted, and whether deafened, as it said last. */
  ghost function Flags(ops: seq<Op>, c: Client): (bool, bool) {
    if ops == [] then (false, false)
    else match Last(ops)
      case Joining(client, _, _, mute, deaf, _) => if client == c then (mute, deaf) else Flags(Init(ops), c)
      case Updating(client, mute, deaf, _) => if client == c then (mute, deaf) else Flags(Init(ops), c)
      case Removing(_) => Flags(Init(ops), c)
  }

  /** Whether its camera is on: off when it comes to a new place, then as it said last. */
  ghost predicate Camera(ops: seq<Op>, c: Client) {
    && ops != []
    && match Last(ops)
       case Joining(client, server, channel, _, _, device) =>
         if client == c
         then Present(Init(ops), c) && Place(Init(ops), c) == (server, channel, device) && Camera(Init(ops), c)
         else Camera(Init(ops), c)
       case Updating(client, _, _, video) =>
         if client == c && video.Some? then video.value else Camera(Init(ops), c)
       case Removing(_) => Camera(Init(ops), c)
  }

  /** How many joins there were up to the last one of the client. */
  ghost function Numbered(ops: seq<Op>, c: Client): nat {
    if ops == [] then 0
    else if Last(ops).Joining? && Last(ops).client == c then Joins(ops) else Numbered(Init(ops), c)
  }

  ghost function Joins(ops: seq<Op>): nat {
    if ops == [] then 0 else Joins(Init(ops)) + (if Last(ops).Joining? then 1 else 0)
  }

  lemma {:induction false} ExecLast(v: Voice, ops: seq<Op>)
    requires ops != []
    ensures Exec(v, ops) == Apply(Exec(v, Init(ops)), Last(ops))
    decreases |ops|
  {
    if |ops| > 1 {
      assert Init(ops)[1..] == Init(ops[1..]) && Last(ops[1..]) == Last(ops) && Init(ops)[0] == ops[0];
      ExecLast(Apply(v, ops[0]), ops[1..]);
    } else {
      assert ops[1..] == [];
    }
  }

  ghost predicate AsTold(v: Voice, ops: seq<Op>, c: Client) {
    && v.nextGeneration == Joins(ops)
    && (c in v.participants <==> Present(ops, c))
    && (c in v.participants ==>
          var p := v.participants[c];
          && p.client == c && p.generation == Numbered(ops, c)
          && (p.server, p.channel, p.device) == Place(ops, c)
          && (p.mute, p.deaf) == Flags(ops, c) && p.video == Camera(ops, c))
  }

  /** Main result: after every run the participants are exactly the clients that joined and have not left
      or been replaced since, each with the place and device of its last join, the flags it gave last,
      and its camera as it was last set there. */
  lemma {:induction false} StateFollowsHistory(ops: seq<Op>, c: Client)
    ensures AsTold(Exec(NONE, ops), ops, c)
    decreases |ops|
  {
    if ops != [] {
      StateFollowsHistory(Init(ops), c);
      ExecLast(NONE, ops);
    }
  }

  /** The generation names a participation: it ends for good when its client leaves or joins again,
      and updates keep both it and the place it stands for. */
  lemma {:induction false} GenerationsNeverReturn(v: Voice, ops: seq<Op>, client: Client)
    requires Valid(v)
    ensures var w := Exec(v, ops);
            && v.nextGeneration <= w.nextGeneration
            && (client in w.participants && w.participants[client].generation <= v.nextGeneration ==>
                  && client in v.participants
                  && w.participants[client].generation == v.participants[client].generation
                  && w.participants[client].server == v.participants[client].server
                  && w.participants[client].channel == v.participants[client].channel
                  && w.participants[client].device == v.participants[client].device)
    decreases |ops|
  {
    if ops != [] {
      ApplyValid(v, ops[0]);
      GenerationsNeverReturn(Apply(v, ops[0]), ops[1..], client);
    }
  }

  // ---- The indexed state ----

  type Room = map<Client, Participant>

  datatype Indices = Indices(byChannel: map<ChannelId, Room>, byClient: map<Client, Participant>,
      byUser: map<UserId, Client>)

  function ChannelOf(p: Participant): nat { p.channel }

  function UserOf(c: Client): nat { c.user }

  /** The channel index holds exactly the participants of each channel and no empty rooms; the user
      index holds exactly the connection of each user. */
  ghost predicate Consistent(i: Indices) {
    Groups(i.byChannel, i.byClient, ChannelOf) && Inverse(i.byUser, i.byClient.Keys, UserOf)
  }

  /** Main result: the participants determine both other indices, so the three are mutually inverse. */
  lemma IndicesDetermined(i: Indices, j: Indices)
    requires Consistent(i) && Consistent(j) && i.byClient == j.byClient
    ensures i == j
  {
    GroupsUnique(i.byChannel, j.byChannel, i.byClient, ChannelOf);
    InverseUnique(i.byUser, j.byUser, i.byClient.Keys, UserOf);
  }

  /** What the indices say, entry by entry. */
  lemma IndicesAgree(i: Indices, c: Client, ch: ChannelId, u: UserId)
    requires Consistent(i)
    ensures (ch in i.byChannel && c in i.byChannel[ch]) <==> (c in i.byClient && i.byClient[c].channel == ch)
    ensures ch in i.byChannel ==> i.byChannel[ch] != map[] && (c in i.byChannel[ch] ==>
        i.byChannel[ch][c] == i.byClient[c])
    ensures (u in i.byUser && i.byUser[u] == c) <==> (c in i.byClient && c.user == u)
  {
    assert c in Group(i.byClient, ChannelOf, ch) <==> c in i.byClient && i.byClient[c].channel == ch;
    assert c in i.byClient ==> UserOf(c) in i.byUser && i.byUser[UserOf(c)] == c;
    assert u in i.byUser ==> UserOf(i.byUser[u]) == u;
  }

  function Delete(i: Indices, client: Client): Indices
    requires client in i.byClient
  {
    Indices(Removed(i.byChannel, i.byClient[client].channel, client), i.byClient - {client},
            if client.user in i.byUser && i.byUser[client.user] == client then i.byUser - {client.user} else i.byUser)
  }

  function Insert(i: Indices, p: Participant): Indices {
    Indices(Inserted(i.byChannel, p.channel, p.client, p), i.byClient[p.client := p],
        i.byUser[p.client.user := p.client])
  }

  lemma DeleteConsistent(i: Indices, client: Client)
    requires Consistent(i) && client in i.byClient
    ensures Consistent(Delete(i, client)) && Delete(i, client).byUser == i.byUser - {client.user}
  {
    RemovedGroups(i.byChannel, i.byClient, ChannelOf, client);
    DroppedInverse(i.byUser, i.byClient.Keys, UserOf, {client});
    assert UserOf(client) in i.byUser && i.byUser[UserOf(client)] == client;
    assert Numbers({client}, UserOf) == {client.user};
    assert (i.byClient - {client}).Keys == i.byClient.Keys - {client};
  }

  /** Inserting a user without a connection, or again in the same channel. */
  lemma InsertConsistent(i: Indices, p: Participant)
    requires Consistent(i)
    requires p.client.user !in i.byUser || (p.client in i.byClient && i.byClient[p.client].channel == p.channel)
    ensures Consistent(Insert(i, p))
  {
    assert p.client in i.byClient ==> UserOf(p.client) in i.byUser && i.byUser[UserOf(p.client)] == p.client;
    InsertedGroups(i.byChannel, i.byClient, ChannelOf, p.client, p);
    InsertedInverse(i.byUser, i.byClient.Keys, UserOf, p.client);
    assert i.byClient[p.client := p].Keys == i.byClient.Keys + {p.client};
  }

  /** The indices after a join: the client's own entry goes first, then another one of its user. */
  function Vacate(i: Indices, client: Client): Indices {
    var j := if client in i.byClient then Delete(i, client) else i;
    if client.user in j.byUser && j.byUser[client.user] != client && j.byUser[client.user] in j.byClient
    then Delete(j, j.byUser[client.user]) else j
  }

  /** The connection of the user that loses its place to another one. */
  function Evicted(i: Indices, client: Client): Option<Client> {
    var j := if client in i.byClient then Delete(i, client) else i;
    if client.user in j.byUser && j.byUser[client.user] != client && j.byUser[client.user] in j.byClient
    then Some(j.byUser[client.user]) else None
  }

  /** The participation that ends: the user's, wherever it was. */
  function Ended(i: Indices, client: Client): Option<Participant> {
    match Evicted(i, client)
    case Some(c) => if c in i.byClient then Some(i.byClient[c]) else None
    case None => if client in i.byClient then Some(i.byClient[client]) else None
  }

  lemma EndedExactly(i: Indices, client: Client)
    requires Consistent(i)
    ensures Evicted(i, client) == if client.user in i.byUser && i.byUser[client.user] != client
      then Some(i.byUser[client.user]) else None
    ensures Ended(i, client) == if client.user in i.byUser then Some(i.byClient[i.byUser[client.user]]) else None
  {
    assert client in i.byClient ==> UserOf(client) in i.byUser && i.byUser[UserOf(client)] == client;
    assert client.user in i.byUser ==> UserOf(i.byUser[client.user]) == client.user;
    if client in i.byClient { DeleteConsistent(i, client); }
  }

  lemma VacateConsistent(i: Indices, client: Client)
    requires Consistent(i)
    ensures var j := Vacate(i, client);
            && Consistent(j) && client.user !in j.byUser
            && j.byClient == i.byClient - (if client.user in i.byUser then {i.byUser[client.user]} else {})
  {
    assert client in i.byClient ==> UserOf(client) in i.byUser && i.byUser[UserOf(client)] == client;
    if client in i.byClient {
      DeleteConsistent(i, client);
    } else if client.user in i.byUser {
      assert UserOf(i.byUser[client.user]) == client.user;
      DeleteConsistent(i, i.byUser[client.user]);
    }
  }

  class Registry {
    var nextGeneration: nat
    var byChannel: map<ChannelId, Room>
    var byClient: map<Client, Participant>
    var byUser: map<UserId, Client>

    ghost function Lists(): Indices
      reads this
    {
      Indices(byChannel, byClient, byUser)
    }

    ghost function View(): Voice
      reads this
    {
      Voice(byClient, nextGeneration)
    }

    constructor ()
      ensures Consistent(Lists()) && View() == NONE
    {
      nextGeneration, byChannel, byClient, byUser := 0, map[], map[], map[];
      new;
      assert forall g: nat :: Group(byClient, ChannelOf, g) == map[];
    }

    method RemoveLocked(client: Client)
      requires client in byClient
      modifies this`byChannel, this`byClient, this`byUser
      ensures Lists() == Delete(old(Lists()), client)
    {
      var channel := byClient[client].channel;
      byClient := byClient - {client};
      if client.user in byUser && byUser[client.user] == client {
        byUser := byUser - {client.user};
      }
      var room: Room := map[];
      if channel in byChannel {
        room := byChannel[channel] - {client};
        byChannel := byChannel[channel := room];
      }
      if room == map[] {
        byChannel := byChannel - {channel};
      }
      assert byChannel == Removed(old(byChannel), channel, client);
    }

    method Put(p: Participant)
      modifies this`byChannel, this`byClient, this`byUser
      ensures Lists() == Insert(old(Lists()), p)
    {
      var room: Room := map[];
      if p.channel in byChannel {
        room := byChannel[p.channel];
      }
      byChannel := byChannel[p.channel := room[p.client := p]];
      byClient := byClient[p.client := p];
      byUser := byUser[p.client.user := p.client];
    }

    /** The client gives up its own place, or takes it from another connection of its user. */
    method MakeRoom(client: Client) returns (previous: Option<Participant>, replaced: Option<Client>)
      modifies this`byChannel, this`byClient, this`byUser
      ensures Lists() == Vacate(old(Lists()), client)
      ensures previous == Ended(old(Lists()), client) && replaced == Evicted(old(Lists()), client)
    {
      previous, replaced := None, None;
      if client in byClient {
        previous := Some(byClient[client]);
        RemoveLocked(client);
      }
      if client.user in byUser && byUser[client.user] != client && byUser[client.user] in byClient {
        var other := byUser[client.user];
        previous, replaced := Some(byClient[other]), Some(other);
        RemoveLocked(other);
      }
    }

    method JoinVoice(client: Client, server: ServerId, channel: ChannelId, mute: bool, deaf: bool, device: DeviceId)
      returns (previous: Option<Participant>, replaced: Option<Client>, joined: bool, updated: bool)
      modifies this
      ensures nextGeneration == old(nextGeneration) + 1
      ensures Lists() == Joined(old(Lists()), Entry(old(View()), client, server, channel, mute, deaf, device))
      ensures joined == !Stays(old(View()), client, server, channel, device)
      ensures updated == (!joined && (old(byClient)[client].mute != mute || old(byClient)[client].deaf != deaf))
      ensures joined ==> previous == Ended(old(Lists()), client) && replaced == Evicted(old(Lists()), client)
    {
      previous, replaced, joined, updated := None, None, false, false;
      nextGeneration := nextGeneration + 1;
      var p := Participant(nextGeneration, client, server, channel, mute, deaf, false, device);
      if client in byClient {
        var before := byClient[client];
        if before.server == server && before.channel == channel && before.device == device {
          updated := before.mute != mute || before.deaf != deaf;
          Put(p.(video := before.video));
          return;
        }
      }
      previous, replaced := MakeRoom(client);
      Put(p);
      joined := true;
    }

    method UpdateFlags(client: Client, mute: bool, deaf: bool, video: Option<bool>) returns (changed: bool, found: bool)
      modifies this`byChannel, this`byClient, this`byUser
      ensures found == (client in old(byClient))
      ensures Lists() == if found then Insert(old(Lists()), Flagged(old(byClient)[client], mute, deaf, video))
                        else old(Lists())
      ensures changed == (found && Flagged(old(byClient)[client], mute, deaf, video) != old(byClient)[client])
    {
      if client !in byClient { return false, false; }
      var p := byClient[client];
      changed := p.mute != mute || p.deaf != deaf;
      var q := p.(mute := mute, deaf := deaf);
      if video.Some? {
        changed := changed || p.video != video.value;
        q := q.(video := video.value);
      }
      Put(q);
      found := true;
    }

    /** Leaves, wherever the client is or only if it is in the given server. */
    method Leave(client: Client, server: Option<ServerId>) returns (left: Option<Participant>)
      modifies this`byChannel, this`byClient, this`byUser
      ensures left.Some? <==> client in old(byClient) && (server.Some? ==> old(byClient)[client].server == server.value)
      ensures left.Some? ==> left.value == old(byClient)[client]
      ensures Lists() == if left.Some? then Delete(old(Lists()), client) else old(Lists())
    {
      if client !in byClient || (server.Some? && byClient[client].server != server.value) { return None; }
      left := Some(byClient[client]);
      RemoveLocked(client);
    }

    /** Clears a channel's room, and each of its clients from the other indices. */
    method RemoveChannel(channel: ChannelId)
      modifies this`byChannel, this`byClient, this`byUser
      ensures Lists() == Cleared(old(Lists()), channel)
    {
      var left: set<Client> := {};
      if channel in byChannel {
        left := byChannel[channel].Keys;
      }
      ghost var all := left;
      while left != {}
        invariant left <= all && byChannel == old(byChannel)
        invariant byClient == old(byClient) - (all - left) && byUser == Purge(old(byUser), all - left)
        decreases left
      {
        var client :| client in left;
        ghost var done := all - left;
        left := left - {client};
        assert all - left == done + {client};
        byClient := byClient - {client};
        if client.user in byUser && byUser[client.user] == client {
          byUser := byUser - {client.user};
        }
      }
      assert all - left == all;
      byChannel := byChannel - {channel};
    }

    method RemoveServer(server: ServerId)
      requires Consistent(Lists())
      modifies this`byChannel, this`byClient, this`byUser
      ensures Consistent(Lists()) && View() == Without(old(View()), InServer(old(View()), server))
    {
      var left := byClient.Keys;
      ghost var all, gone: set<Client> := InServer(View(), server), {};
      while left != {}
        invariant left <= byClient.Keys && Consistent(Lists()) && gone !! left
        invariant byClient == old(byClient) - gone && gone <= all <= gone + left
        decreases left
      {
        var client :| client in left;
        left := left - {client};
        if byClient[client].server == server {
          DeleteConsistent(Lists(), client);
          RemoveLocked(client);
          gone := gone + {client};
        }
      }
      assert gone == all;
    }
  }

  // ---- The object keeps its indices consistent and implements the operations ----

  function Joined(i: Indices, p: Participant): Indices {
    var stays := Stays(Voice(i.byClient, 0), p.client, p.server, p.channel, p.device);
    Insert(if stays then i else Vacate(i, p.client), p)
  }

  function Purge(byUser: map<UserId, Client>, clients: set<Client>): map<UserId, Client> {
    map u | u in byUser && !(byUser[u] in clients && byUser[u].user == u) :: byUser[u]
  }

  function Cleared(i: Indices, channel: ChannelId): Indices {
    var clients := if channel in i.byChannel then i.byChannel[channel].Keys else {};
    Indices(i.byChannel - {channel}, i.byClient - clients, Purge(i.byUser, clients))
  }

  lemma UserAlone(i: Indices, u: UserId)
    requires Consistent(i)
    ensures OfUser(Voice(i.byClient, 0), u) == if u in i.byUser then {i.byUser[u]} else {}
  {
    assert forall c | c in i.byClient.Keys :: UserOf(c) in i.byUser && i.byUser[UserOf(c)] == c;
    assert u in i.byUser ==> UserOf(i.byUser[u]) == u;
  }

  /** Main result: a join keeps the indices consistent and replaces the user's connection. */
  lemma JoinedConsistent(i: Indices, n: nat, client: Client, server: ServerId, channel: ChannelId, mute: bool,
                         deaf: bool, device: DeviceId)
    requires Consistent(i)
    ensures var v := Voice(i.byClient, n);
            var j := Joined(i, Entry(v, client, server, channel, mute, deaf, device));
            Consistent(j) && Voice(j.byClient, n + 1) == Join(v, client, server, channel, mute, deaf, device)
  {
    var v := Voice(i.byClient, n);
    var p := Entry(v, client, server, channel, mute, deaf, device);
    UserAlone(i, client.user);
    assert OfUser(v, client.user) == OfUser(Voice(i.byClient, 0), client.user);
    if Stays(v, client, server, channel, device) {
      assert UserOf(client) in i.byUser && i.byUser[UserOf(client)] == client;
      InsertConsistent(i, p);
      assert i.byClient[client := p] == (i.byClient - {client})[client := p];
    } else {
      VacateConsistent(i, client);
      InsertConsistent(Vacate(i, client), p);
    }
  }

  lemma ClearedConsistent(i: Indices, channel: ChannelId)
    requires Consistent(i)
    ensures var j := Cleared(i, channel);
            Consistent(j) && j.byClient == i.byClient - InChannel(Voice(i.byClient, 0), channel)
  {
    var clients := Group(i.byClient, ChannelOf, channel).Keys;
    assert clients == InChannel(Voice(i.byClient, 0), channel);
    assert clients == if channel in i.byChannel then i.byChannel[channel].Keys else {};
    DroppedGroups(i.byChannel, i.byClient, ChannelOf, channel);
    DroppedInverse(i.byUser, i.byClient.Keys, UserOf, clients);
    PurgeExactly(i, clients);
    assert (i.byClient - clients).Keys == i.byClient.Keys - clients;
  }

  lemma PurgeExactly(i: Indices, clients: set<Client>)
    requires Consistent(i) && clients <= i.byClient.Keys
    ensures Purge(i.byUser, clients) == i.byUser - Numbers(clients, UserOf)
  {
    forall u | u in i.byUser ensures u in Numbers(clients, UserOf) <==> i.byUser[u] in clients {
      assert UserOf(i.byUser[u]) == u;
      if u in Numbers(clients, UserOf) {
        var k :| k in clients && UserOf(k) == u;
        assert k in i.byClient.Keys && i.byUser[UserOf(k)] == k;
      }
    }
  }
}
