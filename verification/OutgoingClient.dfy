/** The client's queue as it is kept: two fixed buffers rewritten in place. Each method is proved
    to do to the buffers what the value-level operation of OutgoingQueue says. */
module OutgoingClient {
  import opened Options
  import opened OutgoingEvents
  import opened OutgoingQueue
  import opened Sequences
  import opened Buffers

  class Client {
    const outgoing: array<Event>
    const priority: array<Event>
    var outgoingLen: nat
    var priorityLen: nat
    var priorityBurst: nat
    var queueCoalesced: nat
    var queueResyncs: nat
    var messageSync: bool
    var subscriptions: map<int, int>
    var channelAccess: Access
    var closed: bool

    ghost predicate Valid()
      reads this, outgoing, priority
    {
      && outgoing.Length == priority.Length == BUFFER && outgoing != priority
      && outgoingLen <= BUFFER && priorityLen <= BUFFER
      && (forall k | outgoingLen <= k < BUFFER :: outgoing[k] == ZERO_EVENT)
      && (forall k | priorityLen <= k < BUFFER :: priority[k] == ZERO_EVENT)
    }

    ghost function Lane(): seq<Event>
      requires Valid()
      reads this, outgoing, priority
    {
      outgoing[..outgoingLen]
    }

    ghost function State(): (q: Queue)
      requires Valid()
      reads this, outgoing, priority
    {
      Queue(Lane(), priority[..priorityLen], priorityBurst, queueCoalesced, queueResyncs)
    }

    ghost function Ctx(): Context
      reads this
    {
      Context(messageSync, subscriptions)
    }

    constructor ()
      ensures Valid() && fresh(outgoing) && fresh(priority)
      ensures State() == EMPTY_QUEUE && Ctx() == Context(false, map[])
      ensures channelAccess == None && !closed
    {
      outgoing := new Event[BUFFER](_ => ZERO_EVENT);
      priority := new Event[BUFFER](_ => ZERO_EVENT);
      outgoingLen, priorityLen, priorityBurst := 0, 0, 0;
      queueCoalesced, queueResyncs := 0, 0;
      messageSync, subscriptions, channelAccess, closed := false, map[], None, false;
    }

    method PopOutgoing() returns (event: Option<Event>)
      requires Valid()
      modifies this`outgoingLen, this`priorityLen, this`priorityBurst, outgoing, priority
      ensures Valid()
      ensures State() == Pop(old(State())).queue && event == Pop(old(State())).event
    {
      if priorityLen > 0 && (priorityBurst < 8 || outgoingLen == 0) {
        priorityBurst := priorityBurst + 1;
        event := Some(priority[0]);
        RemoveAt(priority, priorityLen, 0, ZERO_EVENT);
        priorityLen := priorityLen - 1;
      } else {
        priorityBurst := 0;
        if outgoingLen == 0 { return None; }
        event := Some(outgoing[0]);
        RemoveAt(outgoing, outgoingLen, 0, ZERO_EVENT);
        outgoingLen := outgoingLen - 1;
      }
    }

    method CompactChannel(channelID: int) returns (inserted: bool)
      requires Valid() && channelID > 0
      modifies this`outgoingLen, this`queueResyncs, outgoing
      ensures Valid()
      ensures inserted == (Compactable(Ctx(), channelID) && Count(DeltaOf(channelID), old(Lane())) > 0)
      ensures Lane() == if inserted then Compact(Ctx(), old(Lane()), channelID) else old(Lane())
      ensures queueResyncs == old(queueResyncs) + (if inserted then 1 else 0)
    {
      inserted := false;
      var serverID := if channelID in subscriptions then subscriptions[channelID] else 0;
      if !messageSync || serverID <= 0 { return; }
      var marker := Marker(serverID, channelID);
      outgoingLen, inserted := CollapseInPlace(outgoing, outgoingLen, DeltaOf(channelID), marker, ZERO_EVENT);
      if inserted {
        queueResyncs := queueResyncs + 1;
      } else {
        CollapseNone(DeltaOf(channelID), old(Lane()), Marker(serverID, channelID));
      }
    }

    /** One turn of the loop: the channel of the entry is compacted if it can be. */
    method CompactAt(index: nat) returns (candidate: int, compacted: bool)
      requires Valid() && index < outgoingLen
      modifies this`outgoingLen, this`queueResyncs, outgoing
      ensures Valid() && candidate == MessageChannel(old(Lane())[index])
      ensures compacted == Reducible(Ctx(), old(Lane())[index])
      ensures Lane() == if compacted then Compact(Ctx(), old(Lane()), candidate) else old(Lane())
      ensures queueResyncs == old(queueResyncs) + (if compacted then 1 else 0)
    {
      ghost var lane := Lane();
      assert outgoing[index] == lane[index];
      candidate, compacted := MessageChannel(outgoing[index]), false;
      if candidate > 0 {
        CountAt(DeltaOf(candidate), lane, index);
        compacted := CompactChannel(candidate);
      }
    }

    /** The loop ranges over the slice that compaction rewrites under it: as long as it goes on the
        lane keeps its length, so the entry it reads next is the one of the rewritten lane. */
    method CompactUntilFree(channelID: int) returns (covered: bool)
      requires Valid() && outgoingLen == BUFFER
      modifies this`outgoingLen, this`queueResyncs, outgoing
      ensures Valid()
      ensures var c := CompactFrom(Ctx(), old(Lane()), 0, channelID);
              covered == c.covered && Lane() == c.lane && queueResyncs == old(queueResyncs) + c.count
    {
      ghost var ctx, lane := Ctx(), Lane();
      ghost var goal := CompactFrom(ctx, lane, 0, channelID);
      var i := 0;
      while i < BUFFER
        invariant 0 <= i <= BUFFER && Valid() && outgoingLen == BUFFER && Lane() == lane
        invariant var rest := CompactFrom(ctx, lane, i, channelID);
                  && rest.lane == goal.lane && rest.covered == goal.covered
                  && queueResyncs + rest.count == old(queueResyncs) + goal.count
      {
        var candidate, compacted := CompactAt(i);
        if compacted {
          lane := Compact(ctx, lane, candidate);
          if candidate == channelID { return true; }
          if outgoingLen < BUFFER { return false; }
        }
        i := i + 1;
      }
      covered := false;
    }

    method Push(event: Event)
      requires Valid() && outgoingLen < BUFFER
      modifies this`outgoingLen, outgoing
      ensures Valid() && Lane() == old(Lane()) + [event]
    {
      outgoing[outgoingLen] := event;
      outgoingLen := outgoingLen + 1;
    }

    method Shed(index: nat)
      requires Valid() && index < outgoingLen
      modifies this`outgoingLen, outgoing
      ensures Valid() && outgoingLen == old(outgoingLen) - 1 && Lane() == Drop(old(Lane()), index)
    {
      RemoveAt(outgoing, outgoingLen, index, ZERO_EVENT);
      outgoingLen := outgoingLen - 1;
    }

    method Replace(index: nat, event: Event)
      requires Valid() && index < outgoingLen
      modifies this`queueCoalesced, outgoing
      ensures Valid() && queueCoalesced == old(queueCoalesced) + 1
      ensures Lane() == if Outdated(old(Lane())[index], event) then old(Lane()) else old(Lane())[index := event]
    {
      if !Outdated(outgoing[index], event) {
        outgoing[index] := event;
        assert Lane() == old(Lane())[index := event];
      }
      queueCoalesced := queueCoalesced + 1;
    }

    /** Make room in a full lane for an event that is neither coalesced nor covered. */
    method EnqueueFull(event: Event) returns (accepted: bool)
      requires Valid() && outgoingLen == BUFFER
      requires First(SameKey(event), Lane()) == First(AnyMarker(MessageChannel(event)), Lane()) == BUFFER
      modifies this`outgoingLen, this`queueResyncs, outgoing
      ensures Valid()
      ensures var a := Admit(old(Lane()), Ctx(), event);
              && accepted == Accepted(a) && Lane() == Admitted(old(Lane()), event, a)
              && (a.Ignored? || a.Sheds? || a.Compacts?)
              && queueResyncs == old(queueResyncs) + (if a.Compacts? then a.result.count else 0)
    {
      ghost var a := Admit(Lane(), Ctx(), event);
      if Transient(event) {
        assert a == Ignored;
        return true;
      }
      var index := Find(outgoing, outgoingLen, Transient);
      if index < outgoingLen {
        assert a == Sheds(index);
        Shed(index);
      } else {
        assert a.Compacts?;
        var covered := CompactUntilFree(MessageChannel(event));
        if covered { return true; }
        if outgoingLen == BUFFER { return false; }
      }
      Push(event);
      accepted := true;
    }

    method EnqueueOrdinary(event: Event) returns (accepted: bool)
      requires Valid()
      modifies this`outgoingLen, this`queueCoalesced, this`queueResyncs, outgoing
      ensures Valid()
      ensures var a := Admit(old(Lane()), Ctx(), event);
              && accepted == Accepted(a) && Lane() == Admitted(old(Lane()), event, a)
              && queueCoalesced == old(queueCoalesced) + (if a.Replaces? || a.UnderMarker? then 1 else 0)
              && queueResyncs == old(queueResyncs) + (if a.Compacts? then a.result.count else 0)
    {
      var index := Find(outgoing, outgoingLen, SameKey(event));
      if index < outgoingLen {
        Replace(index, event);
        return true;
      }
      index := Find(outgoing, outgoingLen, AnyMarker(MessageChannel(event)));
      if index < outgoingLen {
        queueCoalesced := queueCoalesced + 1;
        return true;
      }
      if outgoingLen == BUFFER {
        accepted := EnqueueFull(event);
      } else {
        Push(event);
        accepted := true;
      }
    }

    method EnqueueLocked(event: Event) returns (accepted: bool)
      requires Valid()
      modifies this`outgoingLen, this`priorityLen, this`queueCoalesced, this`queueResyncs, outgoing, priority
      ensures Valid()
      ensures var r := Enqueue(old(State()), Ctx(), event);
              State() == r.queue && accepted == r.accepted
    {
      if event.kind.MediaType? {
        if priorityLen == BUFFER { return false; }
        priority[priorityLen] := event;
        priorityLen := priorityLen + 1;
        return true;
      }
      accepted := EnqueueOrdinary(event);
    }

    method ReplaceChannelAccess(access: Access)
      requires Valid()
      modifies this`channelAccess, this`outgoingLen, this`priorityLen, outgoing, priority
      ensures Valid() && channelAccess == access
      ensures State() == InstallAccess(old(State()), access)
    {
      channelAccess := access;
      outgoingLen := SiftInPlace(outgoing, outgoingLen, Censor(access), ZERO_EVENT);
      priorityLen := SiftInPlace(priority, priorityLen, Censor(access), ZERO_EVENT);
    }

    method Close()
      modifies this`closed
      ensures closed
    {
      closed := true;
    }

    /** A closed client takes nothing. A hidden event counts as sent; otherwise only a full lane is
        reported. */
    method Send(event: Event) returns (sent: bool)
      requires Valid()
      modifies this`outgoingLen, this`priorityLen, this`queueCoalesced, this`queueResyncs, outgoing, priority
      ensures Valid()
      ensures var (e, allowed) := FilterChannelEvent(channelAccess, event);
              if closed then !sent && State() == old(State())
              else if !allowed then sent && State() == old(State())
              else State() == Enqueue(old(State()), Ctx(), e).queue && sent == Enqueue(old(State()), Ctx(), e).accepted
    {
      if closed { return false; }
      var (e, allowed) := FilterChannelEvent(channelAccess, event);
      if !allowed { return true; }
      sent := EnqueueLocked(e);
    }
  }
}
