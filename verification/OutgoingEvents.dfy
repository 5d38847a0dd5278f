/** Events queued for one WebSocket client: their types, payloads and the three
    classifications the queue is built on (coalescing key, chat channel, access). */
module OutgoingEvents {
  import opened Options

  /** `MediaType` stands for every type whose name starts with "voice." or "stream.". */
  datatype EventType =
    | MediaType(name: string)
    | NotificationMessage | NotificationSettingsUpdated | Typing | ChannelActivity
    | MessageCreated | MessageUpdated | MessageDeleted | MessagePinned | MessageUnpinned
    | ReactionsChanged | PresenceUpdated | ChannelRead | SyncRequired
    | OtherType(name: string)

  /** The dynamic type of the payload, with the fields the queue inspects. `Channelled` is any
      other payload with an EventChannelID method, `Scoped` any other payload whose channel the
      access filter knows, `Snapshot` a list payload given by the channels of its items. */
  datatype Data =
    | Reactions(channelID: int, messageID: int, revision: int)
    | MessageData(channelID: int, messageID: int)
    | DeletedData(channelID: int, messageID: int)
    | PinnedData(channelID: int, messageID: int)
    | UnpinnedData(channelID: int, messageID: int)
    | Subscription(serverID: int, channelID: int)
    | ReadData(channelID: int, userID: int, lastRead: int)
    | PresenceData(serverID: int, userID: int)
    | ActivityData(channelID: int)
    | TypingData(channelID: int, userID: int)
    | Channelled(channelID: int)
    | Scoped(channelID: int)
    | Snapshot(items: seq<int>)
    | Opaque

  /** `body` stands for the payload fields the queue never looks at. */
  datatype Event = Event(requestID: string, kind: EventType, data: Data, body: int)

  const ZERO_EVENT := Event("", OtherType(""), Opaque, 0)

  predicate Transient(e: Event) {
    e.kind.NotificationMessage? || e.kind.Typing? || e.kind.ChannelActivity?
  }

  predicate HasEventChannelID(d: Data) {
    d.Reactions? || d.ActivityData? || d.TypingData? || d.Channelled?
  }

  datatype Key =
    | NoKey
    | NotificationKey(channelID: int) | SettingsKey(channelID: int) | ReactionsKey(messageID: int)
    | PresenceKey(serverID: int, userID: int) | ReadKey(channelID: int, userID: int)
    | ActivityKey(channelID: int) | TypingKey(channelID: int, userID: int)

  /** Two queued events with the same key are states of the same thing; only the newest matters. */
  function ReplacementKey(e: Event): Key {
    if e.requestID != "" then NoKey
    else if HasEventChannelID(e.data) && e.kind.NotificationMessage? then NotificationKey(e.data.channelID)
    else if HasEventChannelID(e.data) && e.kind.NotificationSettingsUpdated? then SettingsKey(e.data.channelID)
    else match e.data
      case Reactions(_, m, _) => ReactionsKey(m)
      case PresenceData(s, u) => if e.kind.PresenceUpdated? then PresenceKey(s, u) else NoKey
      case ReadData(c, u, _) => if e.kind.ChannelRead? then ReadKey(c, u) else NoKey
      case ActivityData(c) => ActivityKey(c)
      case TypingData(c, u) => if e.kind.Typing? then TypingKey(c, u) else NoKey
      case _ => NoKey
  }

  /** The channel of a payload that tells it through an EventChannelID method. */
  function EventChannel(d: Data): Option<int> {
    match d
    case Reactions(channelID, _, _) => Some(channelID)
    case ActivityData(channelID) => Some(channelID)
    case TypingData(channelID, _) => Some(channelID)
    case Channelled(channelID) => Some(channelID)
    case _ => None
  }

  /** Both events are unsolicited states of one thing: alerts or settings of a channel, reactions to a
      message, presence of a user on a server, read position or typing of a user in a channel, or
      activity of a channel. */
  predicate SameSubject(x: Event, y: Event) {
    && x.requestID == "" && y.requestID == ""
    && if x.kind.NotificationMessage? && EventChannel(x.data).Some? then
         y.kind.NotificationMessage? && EventChannel(y.data) == EventChannel(x.data)
       else if x.kind.NotificationSettingsUpdated? && EventChannel(x.data).Some? then
         y.kind.NotificationSettingsUpdated? && EventChannel(y.data) == EventChannel(x.data)
       else if (y.kind.NotificationMessage? || y.kind.NotificationSettingsUpdated?) && EventChannel(y.data).Some? then
         false
       else match (x.data, y.data)
         case (Reactions(_, m, _), Reactions(_, n, _)) => m == n
         case (PresenceData(s, u), PresenceData(t, v)) => x.kind == y.kind == PresenceUpdated && s == t && u == v
         case (ReadData(c, u, _), ReadData(d, v, _)) => x.kind == y.kind == ChannelRead && c == d && u == v
         case (ActivityData(c), ActivityData(d)) => c == d
         case (TypingData(c, u), TypingData(d, v)) => x.kind == y.kind == Typing && c == d && u == v
         case _ => false
  }

  /** The keys say exactly that. */
  lemma KeysExact(x: Event, y: Event)
    ensures ReplacementKey(x) == ReplacementKey(y) != NoKey <==> SameSubject(x, y)
  {
  }

  /** The channel of a chat delta, or 0. An unpinned event carries `UnpinnedData`, which the
      source's type assertion does not accept, so it is never a delta. */
  function MessageChannel(e: Event): int {
    if e.requestID != "" then 0
    else match e.kind
      case ReactionsChanged => if e.data.Reactions? then e.data.channelID else 0
      case MessageCreated => if e.data.MessageData? then e.data.channelID else 0
      case MessageUpdated => if e.data.MessageData? then e.data.channelID else 0
      case MessageDeleted => if e.data.DeletedData? then e.data.channelID else 0
      case MessageUnpinned => if e.data.DeletedData? then e.data.channelID else 0
      case MessagePinned => if e.data.PinnedData? then e.data.channelID else 0
      case _ => 0
  }

  predicate Delta(e: Event) { MessageChannel(e) > 0 }

  /** The deltas: unsolicited chat events whose payload fits their type, of a numbered channel. */
  lemma DeltasExactly(e: Event, c: int)
    ensures Delta(e) && MessageChannel(e) == c <==>
            && e.requestID == "" && c > 0
            && (|| (e.kind == ReactionsChanged && e.data.Reactions? && e.data.channelID == c)
                || (e.kind in {MessageCreated, MessageUpdated} && e.data.MessageData? && e.data.channelID == c)
                || (e.kind in {MessageDeleted, MessageUnpinned} && e.data.DeletedData? && e.data.channelID == c)
                || (e.kind == MessagePinned && e.data.PinnedData? && e.data.channelID == c))
  {
  }

  predicate MarkerFor(e: Event, channelID: int) {
    e.kind.SyncRequired? && e.data.Subscription? && e.data.channelID == channelID
  }

  function Marker(serverID: int, channelID: int): Event {
    Event("", SyncRequired, Subscription(serverID, channelID), 0)
  }

  /** The channels a client may read; `None` when no policy is installed. */
  type Access = Option<set<int>>

  predicate CanAccess(access: Access, channelID: int) {
    access.None? || channelID in access.value
  }

  function Channels(access: Access, items: seq<int>): (r: seq<int>)
    ensures forall c <- r :: CanAccess(access, c)
  {
    if items == [] then []
    else
      var front := Channels(access, items[..|items| - 1]);
      if CanAccess(access, items[|items| - 1]) then front + [items[|items| - 1]] else front
  }

  /** The channel that decides whether an event may be delivered, or 0. */
  function AccessChannel(e: Event): int {
    match e.data
    case PresenceData(_, _) => 0
    case Snapshot(_) => 0
    case Opaque => 0
    case _ => e.data.channelID
  }

  function FilterChannelEvent(access: Access, e: Event): (Event, bool) {
    var filtered := if e.data.Snapshot? then e.(data := Snapshot(Channels(access, e.data.items))) else e;
    (filtered, AccessChannel(e) == 0 || CanAccess(access, AccessChannel(e)))
  }

  /** The payload tells something about the channel. */
  predicate Shows(d: Data, c: int) {
    match d
    case Reactions(channelID, _, _) => c == channelID != 0
    case MessageData(channelID, _) => c == channelID != 0
    case DeletedData(channelID, _) => c == channelID != 0
    case PinnedData(channelID, _) => c == channelID != 0
    case UnpinnedData(channelID, _) => c == channelID != 0
    case Subscription(_, channelID) => c == channelID != 0
    case ReadData(channelID, _, _) => c == channelID != 0
    case PresenceData(_, _) => false
    case ActivityData(channelID) => c == channelID != 0
    case TypingData(channelID, _) => c == channelID != 0
    case Channelled(channelID) => c == channelID != 0
    case Scoped(channelID) => c == channelID != 0
    case Snapshot(items) => c in items
    case Opaque => false
  }

  /** Nothing in the event belongs to a channel the policy hides. */
  ghost predicate Visible(access: Access, e: Event) {
    forall c: int | Shows(e.data, c) :: CanAccess(access, c)
  }

  /** A policy that shows at least what another one shows. */
  predicate Widens(before: Access, after: Access) {
    after.None? || (before.Some? && before.value <= after.value)
  }

  lemma {:induction false} ChannelsAll(access: Access, items: seq<int>)
    requires forall i | 0 <= i < |items| :: CanAccess(access, items[i])
    ensures Channels(access, items) == items
  {
    if items != [] {
      ChannelsAll(access, items[..|items| - 1]);
    }
  }

  /** Filtering leaves an event alone exactly when all of it is visible. Of the others it refuses those
      that are no lists, and of a list it takes the hidden items away. */
  lemma FilterExactly(access: Access, e: Event)
    ensures FilterChannelEvent(access, e) == (e, true) <==> Visible(access, e)
    ensures FilterChannelEvent(access, e).1 <==> e.data.Snapshot? || Visible(access, e)
    ensures FilterChannelEvent(access, e).1 ==> Visible(access, FilterChannelEvent(access, e).0)
  {
    var (filtered, allowed) := FilterChannelEvent(access, e);
    if e.data.Snapshot? {
      if Visible(access, e) {
        forall i | 0 <= i < |e.data.items| ensures CanAccess(access, e.data.items[i]) {
          assert Shows(e.data, e.data.items[i]);
        }
        ChannelsAll(access, e.data.items);
      }
      forall c | Shows(filtered.data, c) ensures CanAccess(access, c) { assert c in Channels(access, e.data.items); }
    } else if allowed {
      forall c | Shows(e.data, c) ensures CanAccess(access, c) { assert c == AccessChannel(e); }
    } else {
      assert Shows(e.data, AccessChannel(e));
    }
  }

  /** A list loses exactly its hidden items: the accessible ones are left, each from its own place and in
      order, and nothing else of the event changes. */
  lemma ItemsLeft(access: Access, e: Event) returns (places: seq<nat>)
    requires e.data.Snapshot?
    ensures var (filtered, allowed) := FilterChannelEvent(access, e);
            && allowed && filtered.data.Snapshot? && filtered == e.(data := filtered.data)
            && Picks(e.data.items, places, filtered.data.items)
            && forall k: nat | k < |e.data.items| :: CanAccess(access, e.data.items[k]) <==> k in places
  {
    places := ChannelsLeft(access, e.data.items);
  }

  lemma {:induction false} ChannelsLeft(access: Access, items: seq<int>) returns (places: seq<nat>)
    ensures Picks(items, places, Channels(access, items))
    ensures forall k: nat | k < |items| :: CanAccess(access, items[k]) <==> k in places
  {
    places := [];
    if items != [] {
      var last := |items| - 1;
      places := ChannelsLeft(access, items[..last]);
      PicksLonger(items, places, Channels(access, items[..last]));
      if CanAccess(access, items[last]) { places := places + [last]; }
    }
  }

  /** The items at these places, in order. */
  ghost predicate Picks(items: seq<int>, places: seq<nat>, left: seq<int>) {
    && |places| == |left|
    && (forall i | 0 <= i < |left| :: places[i] < |items| && items[places[i]] == left[i])
    && (forall i, j | 0 <= i < j < |places| :: places[i] < places[j])
  }

  lemma PicksLonger(items: seq<int>, places: seq<nat>, left: seq<int>)
    requires items != [] && Picks(items[..|items| - 1], places, left)
    ensures Picks(items, places, left) && |items| - 1 !in places
    ensures Picks(items, places + [|items| - 1], left + [items[|items| - 1]])
  {
  }
}
