/**
 The client half of the subscription protocol: `SessionProxy`, its one `SubscriptionProxy` and the
 `MonitoredItemProxy` objects it hands out. Every function is one handler run to completion.
 A failed `base::Check` sets `panicked`.
 */
module SubscriptionClient {
  import opened DataValues

  type ItemRef = nat

  /** What an item monitors; the handler it is subscribed with has the matching kind. */
  datatype Kind = ValueKind | EventKind

  datatype State = Deleted | Creating | Created

  /** One `MonitoredItemProxy`. `router`, `sender` and `channel` say which of its channel fields are set. */
  datatype Item = Item(
    kind: Kind, subscribed: bool, router: bool, sender: bool, channel: bool,
    subscriptionId: int, state: State, id: int, current: DataValue)
  {
    predicate FullyOpen() { router && sender && channel }
    predicate FullyClosed() { !router && !sender && !channel }
  }

  datatype Body =
    | CreateSubscription
    | CreateItem(subscription: int, kind: Kind)
    | DeleteItem(subscription: int, id: int)

  datatype Request = Request(id: nat, body: Body)

  /** The response handlers a client registers with a request. */
  datatype Handler = SubscriptionResult | ItemResult(item: ItemRef)

  /**
   `items` holds the live proxies; an `ItemRef` in `monitored` but not in `items` is an expired weak
   pointer. `asked` is every request written to the current connection, numbered from `base`.
   `dropped` is history: the ids of this session that the client will never route again.
   */
  datatype Client = Client(
    panicked: bool,
    sessionCreated: bool,
    transport: bool,
    nextRequestId: nat,
    pending: map<nat, Handler>,
    base: nat,
    asked: seq<Request>,
    state: State,
    sender: bool,
    subscriptionId: int,
    monitored: seq<ItemRef>,
    items: map<ItemRef, Item>,
    nextRef: ItemRef,
    observers: map<int, ItemRef>,
    dropped: set<int>)

  const INITIAL := Client(
    false, false, false, 1, map[], 1, [], Deleted, false, 0, [], map[], 0, map[], {})

  function Panic(c: Client): Client { c.(panicked := true) }

  function WithItem(c: Client, x: ItemRef, item: Item): (r: Client)
    ensures x in c.items ==> r.items.Keys == c.items.Keys
  { c.(items := c.items[x := item]) }

  // ---------- SessionProxy::Request ----------

  /** A request with a response handler. */
  function Ask(c: Client, body: Body, handler: Handler): Client {
    Write(c.(pending := c.pending[c.nextRequestId := handler]), body)
  }

  /** Numbers the request and writes it if there is a transport. */
  function Write(c: Client, body: Body): Client {
    c.(nextRequestId := c.nextRequestId + 1,
       asked := if c.transport then c.asked + [Request(c.nextRequestId, body)] else c.asked)
  }

  // ---------- SubscriptionProxy as the items' router ----------

  function AddObserver(c: Client, id: int, x: ItemRef): Client {
    if id in c.observers then Panic(c) else c.(observers := c.observers[id := x])
  }

  function RemoveObserver(c: Client, id: int): Client {
    if id !in c.observers then Panic(c)
    else c.(observers := c.observers - {id}, dropped := c.dropped + {id})
  }

  // ---------- MonitoredItemProxy ----------

  function CreateStub(c: Client, x: ItemRef): (r: Client)
    requires x in c.items
    ensures r.items.Keys == c.items.Keys
  {
    var item := c.items[x];
    if !item.subscribed || !item.state.Deleted? || !item.sender then Panic(c)
    else Ask(WithItem(c, x, item.(state := Creating)), CreateItem(item.subscriptionId, item.kind), ItemResult(x))
  }

  function DeleteStub(c: Client, x: ItemRef): (r: Client)
    requires x in c.items
    ensures r.items.Keys == c.items.Keys
  {
    var item := c.items[x];
    if !item.subscribed || !item.router || !item.state.Created? || !item.sender then Panic(c)
    else
      var c1 := RemoveObserver(WithItem(c, x, item.(state := Deleted, id := 0)), item.id);
      Write(c1, DeleteItem(item.subscriptionId, item.id))
  }

  /** `Subscribe`; the caller subscribes an item at most once. */
  function SubscribeItem(c: Client, x: ItemRef): (r: Client)
    requires x in c.items
  {
    var item := c.items[x];
    if item.subscribed || !item.state.Deleted? then Panic(c)
    else
      var c1 := WithItem(c, x, item.(subscribed := true));
      if item.channel then CreateStub(c1, x) else c1
  }

  /** The item once its channel is open; a subscribed value is shown offline until data arrives. */
  function Opening(item: Item, subscriptionId: int, now: Time): Item {
    item.(router := true, sender := true, channel := true, subscriptionId := subscriptionId,
          current := if item.subscribed && item.kind.ValueKind?
                     then item.current.(serverTime := now, qualifier := OFFLINE) else item.current)
  }

  function ItemChannelOpened(c: Client, x: ItemRef, now: Time): (r: Client)
    requires x in c.items
    ensures r.items.Keys == c.items.Keys
  {
    var item := c.items[x];
    if !item.state.Deleted? || !item.FullyClosed() then Panic(c)
    else
      var c1 := WithItem(c, x, Opening(item, c.subscriptionId, now));
      if item.subscribed then CreateStub(c1, x) else c1
  }

  /** The item once its channel is closed; a subscribed value with a stub is shown offline. */
  function Closing(item: Item): Item {
    item.(router := false, sender := false, channel := false, state := Deleted, subscriptionId := 0, id := 0,
          current := if !item.state.Deleted? && item.kind.ValueKind? && item.subscribed
                     then Requalified(item.current, item.current.status, OFFLINE) else item.current)
  }

  function ItemChannelClosed(c: Client, x: ItemRef): (r: Client)
    requires x in c.items
    ensures r.items.Keys == c.items.Keys
  {
    var item := c.items[x];
    if !item.FullyOpen() then Panic(c)
    else
      var c1 := if item.state.Created? then RemoveObserver(c, item.id) else c;
      WithItem(c1, x, Closing(item))
  }

  /** The item after a refused or abandoned creation. */
  function Refused(item: Item, status: StatusCode): Item {
    item.(state := Deleted,
          current := if item.kind.ValueKind? && item.subscribed
                     then Requalified(item.current, status, FAILED) else item.current)
  }

  predicate AwaitsCreation(item: Item) { item.router && item.channel && item.state.Creating? }

  /** `OnCreateMonitoredItemResult`, reached through a weak pointer to the item. */
  function ItemCreated(c: Client, x: ItemRef, ok: bool, id: int): Client {
    if x !in c.items then (if ok then c.(dropped := c.dropped + {id}) else c)
    else
      var item := c.items[x];
      if !AwaitsCreation(item) then c
      else if !ok then WithItem(c, x, Refused(item, BAD))
      else AddObserver(WithItem(c, x, item.(state := Created, id := id)), id, x)
  }

  function ItemData(c: Client, x: ItemRef, value: DataValue): Client
    requires x in c.items
  {
    var item := c.items[x];
    if !item.router || !item.subscribed || !item.kind.ValueKind? then Panic(c)
    else if !item.state.Created? || value == item.current then c
    else
      var shown := if IsUpdate(item.current, value) then value else item.current;
      if value.status.IsBad() then
        WithItem(RemoveObserver(c, item.id), x, item.(state := Deleted, id := 0, current := shown))
      else
        WithItem(c, x, item.(current := shown))
  }

  function ItemEvent(c: Client, x: ItemRef, bad: bool): Client
    requires x in c.items
  {
    var item := c.items[x];
    if !item.router || !item.subscribed || !item.kind.EventKind? then Panic(c)
    else if !item.state.Created? || !bad then c
    else WithItem(RemoveObserver(c, item.id), x, item.(state := Deleted))
  }

  function DestroyItem(c: Client, x: ItemRef): Client
    requires x in c.items
  {
    var c1 := if c.items[x].state.Created? then DeleteStub(c, x) else c;
    c1.(items := c1.items - {x})
  }

  // ---------- SubscriptionProxy ----------

  /** `CollectMonitoredItems`: the live entries, in order. */
  function Live(monitored: seq<ItemRef>, items: map<ItemRef, Item>): (r: seq<ItemRef>)
    ensures forall x :: x in r <==> x in monitored && x in items
  {
    if monitored == [] then []
    else (if monitored[0] in items then [monitored[0]] else []) + Live(monitored[1..], items)
  }

  /** A new proxy, known to the subscription and not opened yet. */
  function Joined(c: Client, kind: Kind): Client {
    var item := Item(kind, false, false, false, false, 0, Deleted, 0, NO_VALUE);
    c.(nextRef := c.nextRef + 1, monitored := c.monitored + [c.nextRef], items := c.items[c.nextRef := item])
  }

  function CreateMonitoredItem(c: Client, kind: Kind, now: Time): Client {
    if !c.state.Created? then Joined(c, kind)
    else if !c.sender then Panic(Joined(c, kind))
    else ItemChannelOpened(Joined(c, kind), c.nextRef, now)
  }

  function OpenAll(c: Client, xs: seq<ItemRef>, now: Time): Client
    requires forall x :: x in xs ==> x in c.items
    decreases |xs|
  {
    if xs == [] || c.panicked then c else OpenAll(ItemChannelOpened(c, xs[0], now), xs[1..], now)
  }

  function CloseAll(c: Client, xs: seq<ItemRef>): (r: Client)
    requires forall x :: x in xs ==> x in c.items
    ensures c.panicked ==> r.panicked
    decreases |xs|
  {
    if xs == [] || c.panicked then c else CloseAll(ItemChannelClosed(c, xs[0]), xs[1..])
  }

  function SubscriptionChannelOpened(c: Client): Client {
    if c.sender || !c.state.Deleted? then Panic(c)
    else Ask(c.(sender := true, state := Creating), CreateSubscription, SubscriptionResult)
  }

  function SubscriptionChannelClosed(c: Client): Client {
    if !c.sender then Panic(c)
    else
      var live := Live(c.monitored, c.items);
      CloseAll(c.(sender := false, state := Deleted, subscriptionId := 0, monitored := live), live)
  }

  function SubscriptionCreated(c: Client, ok: bool, id: int, now: Time): Client {
    if !c.state.Creating? || !c.sender then c
    else if !ok then c.(state := Deleted)
    else
      var live := Live(c.monitored, c.items);
      OpenAll(c.(state := Created, subscriptionId := id, monitored := live), live, now)
  }

  // ---------- SessionProxy ----------

  /** `OnSessionCreated` on a connection just opened. */
  function SessionCreated(c: Client): Client {
    if c.sessionCreated then Panic(c)
    else SubscriptionChannelOpened(c.(transport := true, sessionCreated := true,
                                      base := c.nextRequestId, asked := [], dropped := {}))
  }

  /** Every pending handler is called with `Bad_Disconnected`; user callbacks do not re-enter. */
  function FailPending(c: Client): Client {
    c.(pending := map[],
       state := if SubscriptionResult in c.pending.Values && c.state.Creating? && c.sender
                then Deleted else c.state,
       items := map x | x in c.items ::
         if ItemResult(x) in c.pending.Values && AwaitsCreation(c.items[x])
         then Refused(c.items[x], BAD_DISCONNECTED) else c.items[x])
  }

  /** `OnSessionError`: the transport is gone, then `OnSessionDeleted`. */
  function SessionLost(c: Client): Client {
    var c1 := FailPending(c.(transport := false, asked := []));
    if !c1.sessionCreated then c1
    else SubscriptionChannelClosed(c1.(sessionCreated := false))
  }
}
