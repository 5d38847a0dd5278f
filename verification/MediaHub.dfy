/** The hub object: voice and stream registries updated in the order of the hub's methods, proved
    against the operations on values. The cascade parameters stand for the clients whose queues
    refuse what a method publishes. */
module MediaHub {
  import opened Clients
  import opened Options
  import V = VoiceState
  import S = StreamState
  import M = HubMedia

  class Hub {
    const voice: V.Registry
    const streams: S.Registry

    ghost function View(): M.Hub
      reads this, voice, streams
    {
      M.Hub(voice.View(), streams.View())
    }

    ghost predicate Ok()
      reads this, voice, streams
    {
      V.Consistent(voice.Lists()) && streams.Ok()
    }

    constructor (limits: S.Limits)
      ensures Ok() && View() == M.IDLE && fresh(voice) && fresh(streams)
    {
      voice := new V.Registry();
      streams := new S.Registry(limits);
    }

    method LeaveSeat(client: Client) returns (left: bool)
      requires Ok()
      modifies voice
      ensures Ok() && left == (client in old(voice.byClient))
      ensures View() == if left then old(View()).(voice := V.Without(old(View()).voice, {client})) else old(View())
    {
      ghost var before := voice.Lists();
      var gone := voice.Leave(client, None);
      if gone.Some? { V.DeleteConsistent(before, client); }
      left := gone.Some?;
    }

    method Unregister(cascade: M.Cascade)
      requires Ok()
      modifies voice, streams
      ensures Ok() && View() == M.Settle(old(View()), cascade)
      decreases M.Size(cascade), 0
    {
      match cascade {
        case Calm =>
        case Fall(victim, stream, left, rest) =>
          LeaveVoice(victim, stream, left);
          Unregister(rest);
      }
    }

    method LeaveStream(client: Client, published: M.Cascade)
      requires Ok()
      modifies voice, streams
      ensures Ok() && View() == M.LeaveStream(old(View()), client, published)
      decreases M.Size(published), 1
    {
      var left := streams.LeaveStreams(client);
      if left {
        Unregister(published);
      }
    }

    method LeaveVoice(client: Client, stream: M.Cascade, left: M.Cascade)
      requires Ok()
      modifies voice, streams
      ensures Ok() && View() == M.LeaveVoice(old(View()), client, stream, left)
      decreases M.Size(stream) + M.Size(left), 2
    {
      LeaveStream(client, stream);
      var gone := LeaveSeat(client);
      if gone {
        Unregister(left);
      }
    }

    /** The voice registry part of a join, with the connection it replaces. */
    method TakeSeat(client: Client, seat: M.Seat) returns (departed: bool, replaced: Option<Client>, announced: bool)
      requires Ok()
      modifies voice
      ensures Ok()
      ensures View() == old(View()).(voice := V.Join(old(View()).voice, client, seat.server, seat.channel,
                                                     seat.mute, seat.deaf, seat.device))
      ensures M.Replaces(old(View()).voice, client, replaced)
      ensures departed == (!M.Stays(old(View()).voice, client, seat) && V.OfUser(old(View()).voice, client.user) != {})
      ensures announced == (!M.Stays(old(View()).voice, client, seat) ||
          old(voice.byClient)[client].mute != seat.mute || old(voice.byClient)[client].deaf != seat.deaf)
    {
      ghost var before, v := voice.Lists(), voice.View();
      V.EndedExactly(before, client);
      V.UserAlone(before, client.user);
      assert V.OfUser(v, client.user) == V.OfUser(V.Voice(before.byClient, 0), client.user);
      V.JoinedConsistent(before, v.nextGeneration, client, seat.server, seat.channel, seat.mute, seat.deaf,
          seat.device);
      V.IndicesAgree(before, client, seat.channel, client.user);
      var previous, other, joined, updated := voice.JoinVoice(client, seat.server, seat.channel, seat.mute,
          seat.deaf, seat.device);
      departed, announced := joined && previous.Some?, joined || updated;
      replaced := if joined then other else None;
    }

    method LeaveOldPlace(client: Client, seat: M.Seat, moved: M.Cascade)
      requires Ok()
      modifies voice, streams
      ensures Ok() && View() == M.BeforeJoin(old(View()), client, seat, moved)
    {
      if client in voice.byClient
         && (voice.byClient[client].server != seat.server || voice.byClient[client].channel != seat.channel) {
        LeaveStream(client, moved);
      }
    }

    method Announce(departed: bool, replaced: Option<Client>, announced: bool, falls: M.JoinFalls)
      requires Ok()
      modifies voice, streams
      ensures Ok()
      ensures View() == M.AfterJoin(old(View()), replaced,
                                    falls.(left := if departed then falls.left else M.Calm,
                                           joined := if announced then falls.joined else M.Calm))
    {
      if departed {
        Unregister(falls.left);
      }
      if replaced.Some? {
        LeaveStream(replaced.value, falls.replaced);
        Unregister(falls.notice);
      }
      if announced {
        Unregister(falls.joined);
      }
    }

    method JoinVoice(client: Client, seat: M.Seat, falls: M.JoinFalls) returns (replaced: Option<Client>)
      requires Ok()
      modifies voice, streams
      ensures Ok() && View() == M.JoinVoice(old(View()), client, seat, replaced, falls)
    {
      LeaveOldPlace(client, seat, falls.moved);
      ghost var g := View();
      var departed, other, announced := TakeSeat(client, seat);
      replaced := other;
      assert M.Heard(g.voice, client, seat, falls)
          == falls.(left := if departed then falls.left else M.Calm,
                    joined := if announced then falls.joined else M.Calm);
      Announce(departed, replaced, announced, falls);
    }

    method LeaveVoiceForServer(client: Client, server: ServerId, stream: M.Cascade, left: M.Cascade)
      requires Ok()
      modifies voice, streams
      ensures Ok() && View() == M.LeaveVoiceForServer(old(View()), client, server, stream, left)
    {
      if client in voice.byClient && voice.byClient[client].server == server {
        LeaveStream(client, stream);
        var gone := LeaveSeat(client);
        if gone {
          Unregister(left);
        }
      }
    }

    method StartStream(client: Client, several: bool, server: ServerId, channel: ChannelId, mode: S.Mode, now: nat,
                       published: M.Cascade)
      returns (outcome: Option<S.StartError>)
      requires Ok()
      modifies voice, streams
      ensures Ok() && outcome.Some? == M.At(old(View()).voice, client, server, channel)
      ensures outcome.Some? ==> outcome.value == S.StartOutcome(old(View()).streams, client, several, channel)
      ensures View() == M.StartStream(old(View()), client, several, server, channel, mode, now,
                                      if outcome == Some(S.Started) then published else M.Calm)
    {
      if client !in voice.byClient || voice.byClient[client].server != server ||
          voice.byClient[client].channel != channel {
        return None;
      }
      var started := streams.StartStream(client, several, server, channel, mode, now);
      outcome := Some(started);
      if started.Started? {
        Unregister(published);
      }
    }

    method WatchStream(client: Client, server: ServerId, channel: ChannelId, publisher: Option<nat>,
                       rendition: Option<nat>, published: M.Cascade)
      returns (outcome: Option<S.WatchError>, ghost choice: Option<S.Stream>)
      requires Ok()
      modifies voice, streams
      ensures Ok() && outcome.Some? == M.At(old(View()).voice, client, server, channel)
      ensures outcome.Some? ==>
        && S.Chosen(old(View()).streams, channel, publisher, choice)
        && outcome.value == S.WatchOutcome(old(View()).streams, streams.limits, client, server, choice, rendition)
      ensures View() == if outcome == Some(S.Watching)
                        then M.WatchStream(old(View()), streams.limits, client, server, channel, choice.value,
                            rendition, published)
                        else old(View())
    {
      choice := None;
      if client !in voice.byClient || voice.byClient[client].server != server ||
          voice.byClient[client].channel != channel {
        return None, choice;
      }
      var watched, found := streams.WatchStream(client, server, channel, publisher, rendition);
      choice := found;
      outcome := Some(watched);
      if watched.Watching? {
        Unregister(published);
      }
    }

    method StopEach(stops: seq<M.Stop>)
      requires Ok()
      modifies voice, streams
      ensures Ok() && View() == M.StopEach(old(View()), stops)
      decreases |stops|
    {
      if stops != [] {
        LeaveStream(stops[0].publisher, stops[0].published);
        StopEach(stops[1..]);
      }
    }

    /** `stops` lists the publishers of the channel in the order in which they are visited. */
    method RemoveChannel(channel: ChannelId, stops: seq<M.Stop>)
      requires Ok() && M.StopsAll(View(), channel, stops)
      modifies voice, streams
      ensures Ok() && View() == M.RemoveChannel(old(View()), channel, stops)
    {
      StopEach(stops);
      ghost var before := voice.Lists();
      V.ClearedConsistent(before, channel);
      assert V.InChannel(V.Voice(before.byClient, 0), channel) == V.InChannel(voice.View(), channel);
      voice.RemoveChannel(channel);
    }

    method StopChannels(plan: seq<M.ChannelStop>)
      requires Ok()
      modifies voice, streams
      ensures Ok() && View() == M.StopChannels(old(View()), plan)
      decreases |plan|
    {
      if plan != [] {
        StopEach(plan[0].stops);
        StopChannels(plan[1..]);
      }
    }

    method RevokeServer(server: ServerId, plan: seq<M.ChannelStop>)
      requires Ok() && M.CoversServer(View().voice, server, plan)
      requires M.Planned(View().(voice := V.Without(View().voice, V.InServer(View().voice, server))), plan)
      modifies voice, streams
      ensures Ok() && View() == M.RevokeServer(old(View()), server, plan)
    {
      voice.RemoveServer(server);
      StopChannels(plan);
    }
  }
}
