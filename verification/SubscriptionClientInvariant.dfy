/** What every client handler keeps between steps, and that no check fails while it does. */
module SubscriptionClientInvariant {
  import opened DataValues
  import opened SubscriptionClient

  /** An item's channel is open exactly when the subscription is created; a created item is registered. */
  predicate ItemOk(c: Client, x: ItemRef, unopened: set<ItemRef>)
    requires x in c.items
  {
    var item := c.items[x];
    && (if c.state.Created? && x !in unopened then item.FullyOpen() && item.subscriptionId == c.subscriptionId
        else item.FullyClosed())
    && (!item.state.Deleted? ==> item.subscribed && item.FullyOpen())
    && (item.state.Created? ==> item.id in c.observers && c.observers[item.id] == x)
  }

  predicate ObserverOk(c: Client, k: int)
    requires k in c.observers
  {
    var x := c.observers[k];
    x in c.items && c.items[x].state.Created? && c.items[x].id == k && k !in c.dropped
  }

  /** The observer map sends id k to item x exactly when x is created with id k. */
  predicate Registered(c: Client, unopened: set<ItemRef>) {
    && (forall x :: x in c.items ==> ItemOk(c, x, unopened))
    && (forall k :: k in c.observers ==> ObserverOk(c, k))
  }

  /** A pending request was written to this connection and its target still waits for it. */
  predicate PendingOk(c: Client, r: nat)
    requires r in c.pending
  {
    && c.base <= r < c.base + |c.asked|
    && match c.pending[r] {
         case SubscriptionResult => r == c.base && c.state.Creating?
         case ItemResult(x) =>
           && x < c.nextRef
           && c.asked[r - c.base].body.CreateItem?
           && (x in c.items ==> c.items[x].state.Creating? && c.items[x].kind == c.asked[r - c.base].body.kind)
       }
  }

  predicate AskedOk(c: Client, i: nat)
    requires i < |c.asked|
  {
    && c.asked[i].id == c.base + i
    && match c.asked[i].body {
         case CreateSubscription => i == 0
         case CreateItem(subscription, _) => i > 0 && subscription == 1
         case DeleteItem(subscription, id) => i > 0 && subscription == 1 && id in c.dropped
       }
  }

  predicate Outstanding(c: Client) {
    && (forall r :: r in c.pending ==> PendingOk(c, r))
    && (forall r, s :: r in c.pending && s in c.pending && r != s ==> c.pending[r] != c.pending[s])
    && (forall i :: 0 <= i < |c.asked| ==> AskedOk(c, i))
  }

  /** Some pending request will tell the item how its creation went. */
  predicate HasRequest(c: Client, x: ItemRef) { exists r :: r in c.pending && c.pending[r] == ItemResult(x) }

  /** No item waits in vain: one that is being created has its request pending. */
  predicate Awaiting(c: Client) {
    forall x :: x in c.items && c.items[x].state.Creating? ==> HasRequest(c, x)
  }

  predicate SessionOk(c: Client) {
    && !c.panicked
    && c.sessionCreated == c.transport == c.sender
    && (c.sender <==> !c.state.Deleted?)
    && (c.state.Created? ==> c.subscriptionId == 1)
    && (if c.transport then |c.asked| > 0 && c.nextRequestId == c.base + |c.asked|
        else c.asked == [] && c.pending == map[] && c.observers == map[])
  }

  predicate MonitoredOk(c: Client) {
    && (forall x :: x in c.items ==> x in c.monitored)
    && (forall i :: 0 <= i < |c.monitored| ==> c.monitored[i] < c.nextRef)
    && (forall i, j :: 0 <= i < j < |c.monitored| ==> c.monitored[i] != c.monitored[j])
  }

  /** `unopened` are the live items the running handler has not opened yet; it is empty between steps. */
  predicate ClientInv(c: Client, unopened: set<ItemRef>) {
    SessionOk(c) && MonitoredOk(c) && Registered(c, unopened) && Outstanding(c) && Awaiting(c)
  }

  /** A client step that only adds creation requests, as seen from the network. */
  predicate Extends(c: Client, d: Client) {
    && c.base == d.base && c.transport == d.transport && c.state == d.state
    && c.observers == d.observers && c.dropped == d.dropped
    && |c.asked| <= |d.asked|
    && (forall i :: 0 <= i < |c.asked| ==> d.asked[i] == c.asked[i])
    && (forall r :: r in c.pending ==> r in d.pending && d.pending[r] == c.pending[r])
    && (forall i :: |c.asked| <= i < |d.asked| ==> AddedAt(d, i))
    && (forall x :: x in c.items && c.items[x].state.Created? ==> x in d.items && d.items[x] == c.items[x])
  }

  /** Request r has an item's response handler waiting for it. */
  predicate Waits(c: Client, r: nat) { r in c.pending && c.pending[r].ItemResult? }

  predicate AddedAt(c: Client, i: nat)
    requires i < |c.asked|
  {
    c.asked[i].body.CreateItem? && Waits(c, c.base + i)
  }

  lemma ExtendsTransitive(a: Client, b: Client, c: Client)
    requires Extends(a, b) && Extends(b, c)
    ensures Extends(a, c)
  {
    forall i | |a.asked| <= i < |c.asked| ensures AddedAt(c, i) {
      if i < |b.asked| { assert AddedAt(b, i); }
    }
  }

  /** A live item is being created exactly while a request for it is pending. */
  lemma CreatingIff(c: Client, x: ItemRef, unopened: set<ItemRef>)
    requires ClientInv(c, unopened) && x in c.items
    ensures c.items[x].state.Creating? <==> exists r :: r in c.pending && c.pending[r] == ItemResult(x)
  {
    assert c.items[x].state.Creating? ==> HasRequest(c, x);
    forall r | r in c.pending && c.pending[r] == ItemResult(x) ensures c.items[x].state.Creating? {
      assert PendingOk(c, r);
    }
  }

  /** The handler is that of an item being created. */
  predicate Concerns(handler: Handler, d: Client) {
    handler.ItemResult? && handler.item in d.items && d.items[handler.item].state.Creating?
  }

  /** Requests of the items that are still being created stay pending. */
  lemma AwaitingFrame(c: Client, d: Client)
    requires Awaiting(c)
    requires forall x :: x in d.items && d.items[x].state.Creating? ==> x in c.items && c.items[x].state.Creating?
    requires forall r :: r in c.pending && Concerns(c.pending[r], d) ==> r in d.pending && d.pending[r] == c.pending[r]
    ensures Awaiting(d)
  {
    forall x | x in d.items && d.items[x].state.Creating? ensures HasRequest(d, x) {
      assert HasRequest(c, x);
      var r :| r in c.pending && c.pending[r] == ItemResult(x);
      assert r in d.pending && d.pending[r] == ItemResult(x);
    }
  }

  // ---------- changes to one item ----------

  lemma AskKeepsRegistered(c: Client, x: ItemRef, unopened: set<ItemRef>)
    requires ClientInv(c, unopened) && x in c.items && c.transport
    requires c.items[x].FullyOpen() && c.items[x].subscribed && c.items[x].state.Deleted?
    ensures Registered(CreateStub(c, x), unopened)
  {
    var d := CreateStub(c, x);
    forall y | y in d.items ensures ItemOk(d, y, unopened) { assert ItemOk(c, y, unopened); }
    forall k | k in d.observers ensures ObserverOk(d, k) { assert ObserverOk(c, k); }
  }

  lemma AskKeepsOutstanding(c: Client, x: ItemRef, unopened: set<ItemRef>)
    requires ClientInv(c, unopened) && x in c.items
    requires c.items[x].FullyOpen() && c.items[x].subscribed && c.items[x].state.Deleted?
    ensures Outstanding(CreateStub(c, x))
  {
    var d := CreateStub(c, x);
    assert ItemOk(c, x, unopened) && MonitoredOk(c);
    forall i | 0 <= i < |d.asked| ensures AskedOk(d, i) {
      if i < |c.asked| { assert AskedOk(c, i); }
    }
    forall r | r in d.pending ensures PendingOk(d, r) {
      if r in c.pending { assert PendingOk(c, r); }
    }
  }

  lemma AskExtends(c: Client, x: ItemRef)
    requires SessionOk(c) && c.transport && x in c.items
    requires c.items[x].FullyOpen() && c.items[x].subscribed && c.items[x].state.Deleted?
    requires forall r :: r in c.pending ==> PendingOk(c, r)
    ensures Extends(c, CreateStub(c, x))
  {
    var d := CreateStub(c, x);
    assert AddedAt(d, |c.asked|);
    forall r | r in c.pending ensures d.pending[r] == c.pending[r] { assert PendingOk(c, r); }
  }

  lemma CreateStubKeeps(c: Client, x: ItemRef, unopened: set<ItemRef>)
    requires ClientInv(c, unopened) && x in c.items
    requires c.items[x].FullyOpen() && c.items[x].subscribed && c.items[x].state.Deleted?
    ensures ClientInv(CreateStub(c, x), unopened) && Extends(c, CreateStub(c, x))
  {
    assert ItemOk(c, x, unopened);
    AskKeepsRegistered(c, x, unopened);
    AskKeepsOutstanding(c, x, unopened);
    AskKeepsAwaiting(c, x);
    AskExtends(c, x);
  }

  lemma AskKeepsAwaiting(c: Client, x: ItemRef)
    requires SessionOk(c) && c.transport && Awaiting(c) && x in c.items
    requires c.items[x].FullyOpen() && c.items[x].subscribed && c.items[x].state.Deleted?
    requires forall r :: r in c.pending ==> PendingOk(c, r)
    ensures Awaiting(CreateStub(c, x))
  {
    var d := CreateStub(c, x);
    forall y | y in d.items && d.items[y].state.Creating? ensures HasRequest(d, y) {
      if y == x {
        assert c.nextRequestId in d.pending && d.pending[c.nextRequestId] == ItemResult(x);
      } else {
        assert HasRequest(c, y);
        var r :| r in c.pending && c.pending[r] == ItemResult(y);
        assert PendingOk(c, r) && r in d.pending && d.pending[r] == ItemResult(y);
      }
    }
  }

  /** Changing an item that has no stub, for instance by opening its channel. */
  lemma TouchKeeps(c: Client, x: ItemRef, item: Item, unopened: set<ItemRef>, unopened': set<ItemRef>)
    requires ClientInv(c, unopened) && x in c.items && unopened' - {x} == unopened - {x}
    requires c.items[x].state.Deleted? && item.state.Deleted?
    requires ItemOk(WithItem(c, x, item), x, unopened')
    ensures ClientInv(WithItem(c, x, item), unopened') && Extends(c, WithItem(c, x, item))
  {
    TouchKeepsRegistered(c, x, item, unopened, unopened');
    TouchKeepsOutstanding(c, x, item);
    AwaitingFrame(c, WithItem(c, x, item));
  }

  lemma TouchKeepsRegistered(c: Client, x: ItemRef, item: Item, unopened: set<ItemRef>, unopened': set<ItemRef>)
    requires Registered(c, unopened) && x in c.items && unopened' - {x} == unopened - {x}
    requires c.items[x].state.Deleted? && item.state.Deleted?
    requires ItemOk(WithItem(c, x, item), x, unopened')
    ensures Registered(WithItem(c, x, item), unopened')
  {
    var d := WithItem(c, x, item);
    forall y | y in d.items ensures ItemOk(d, y, unopened') {
      if y != x {
        assert ItemOk(c, y, unopened);
        assert y in unopened' <==> y in unopened' - {x};
      }
    }
    forall k | k in d.observers ensures ObserverOk(d, k) { assert ObserverOk(c, k); }
  }

  lemma TouchKeepsOutstanding(c: Client, x: ItemRef, item: Item)
    requires Outstanding(c) && x in c.items && c.items[x].state.Deleted?
    ensures Outstanding(WithItem(c, x, item))
  {
    var d := WithItem(c, x, item);
    forall r | r in d.pending ensures PendingOk(d, r) { assert PendingOk(c, r); }
    forall i | 0 <= i < |d.asked| ensures AskedOk(d, i) { assert AskedOk(c, i); }
  }

  lemma ItemChannelOpenedKeeps(c: Client, x: ItemRef, now: Time, unopened: set<ItemRef>)
    requires ClientInv(c, unopened) && x in c.items && x in unopened && c.state.Created?
    ensures ClientInv(ItemChannelOpened(c, x, now), unopened - {x})
    ensures Extends(c, ItemChannelOpened(c, x, now))
  {
    assert ItemOk(c, x, unopened);
    var c1 := WithItem(c, x, Opening(c.items[x], c.subscriptionId, now));
    TouchKeeps(c, x, Opening(c.items[x], c.subscriptionId, now), unopened, unopened - {x});
    if c.items[x].subscribed {
      CreateStubKeeps(c1, x, unopened - {x});
      ExtendsTransitive(c, c1, CreateStub(c1, x));
    }
  }

  lemma SubscribeKeeps(c: Client, x: ItemRef)
    requires ClientInv(c, {}) && x in c.items && !c.items[x].subscribed
    ensures ClientInv(SubscribeItem(c, x), {}) && Extends(c, SubscribeItem(c, x))
  {
    assert ItemOk(c, x, {});
    var item := c.items[x].(subscribed := true);
    var c1 := WithItem(c, x, item);
    TouchKeeps(c, x, item, {}, {});
    if item.channel {
      CreateStubKeeps(c1, x, {});
      ExtendsTransitive(c, c1, CreateStub(c1, x));
    }
  }

  // ---------- all items at once ----------

  predicate Distinct(xs: seq<ItemRef>) { forall i, j :: 0 <= i < j < |xs| ==> xs[i] != xs[j] }

  lemma TailMembers(xs: seq<ItemRef>, all: set<ItemRef>)
    requires Distinct(xs) && xs != [] && forall x :: x in xs <==> x in all
    ensures Distinct(xs[1..]) && forall x :: x in xs[1..] <==> x in all - {xs[0]}
  {
    forall x ensures x in xs[1..] <==> x in all - {xs[0]} {
      if x in all - {xs[0]} { assert x in xs; }
    }
  }

  lemma {:induction false} OpenAllKeeps(c: Client, xs: seq<ItemRef>, now: Time, unopened: set<ItemRef>)
    requires ClientInv(c, unopened) && c.state.Created? && Distinct(xs)
    requires forall x :: x in xs <==> x in unopened
    requires forall x :: x in xs ==> x in c.items
    ensures ClientInv(OpenAll(c, xs, now), {}) && Extends(c, OpenAll(c, xs, now))
    decreases |xs|
  {
    if xs == [] {
      assert unopened == {};
    } else {
      var d := ItemChannelOpened(c, xs[0], now);
      ItemChannelOpenedKeeps(c, xs[0], now, unopened);
      TailMembers(xs, unopened);
      OpenAllKeeps(d, xs[1..], now, unopened - {xs[0]});
      ExtendsTransitive(c, d, OpenAll(d, xs[1..], now));
    }
  }

  /** A live list has no repetitions if the weak list has none. */
  lemma DistinctCons(x: ItemRef, xs: seq<ItemRef>)
    requires Distinct(xs) && x !in xs
    ensures Distinct([x] + xs)
  {
    assert forall j :: 0 <= j < |xs| ==> xs[j] in xs;
  }

  lemma {:induction false} LiveDistinct(monitored: seq<ItemRef>, items: map<ItemRef, Item>)
    requires Distinct(monitored)
    ensures Distinct(Live(monitored, items))
  {
    if monitored != [] {
      LiveDistinct(monitored[1..], items);
      assert monitored[0] !in monitored[1..];
      DistinctCons(monitored[0], Live(monitored[1..], items));
    }
  }

  /** The live entries keep their order. */
  lemma {:induction false} LiveConcat(a: seq<ItemRef>, b: seq<ItemRef>, items: map<ItemRef, Item>)
    ensures Live(a + b, items) == Live(a, items) + Live(b, items)
  {
    if a == [] {
      assert a + b == b;
    } else {
      assert (a + b)[1..] == a[1..] + b;
      LiveConcat(a[1..], b, items);
    }
  }

  // ---------- a new item, and the end of one ----------

  lemma JoinedKeepsRegistered(c: Client, kind: Kind)
    requires ClientInv(c, {})
    ensures Registered(Joined(c, kind), if c.state.Created? then {c.nextRef} else {})
    ensures MonitoredOk(Joined(c, kind)) && c.nextRef !in c.items
  {
    var d := Joined(c, kind);
    assert c.nextRef !in c.items && c.nextRef in d.monitored;
    forall y | y in d.items ensures ItemOk(d, y, if c.state.Created? then {c.nextRef} else {}) {
      if y != c.nextRef { assert ItemOk(c, y, {}); }
    }
    forall k | k in d.observers ensures ObserverOk(d, k) { assert ObserverOk(c, k); }
  }

  lemma JoinedKeepsOutstanding(c: Client, kind: Kind)
    requires ClientInv(c, {})
    ensures Outstanding(Joined(c, kind)) && Awaiting(Joined(c, kind))
  {
    var d := Joined(c, kind);
    AwaitingFrame(c, d);
    forall r | r in d.pending ensures PendingOk(d, r) { assert PendingOk(c, r); }
    forall i | 0 <= i < |d.asked| ensures AskedOk(d, i) { assert AskedOk(c, i); }
  }

  lemma JoinedExtends(c: Client, kind: Kind)
    requires c.nextRef !in c.items
    ensures Extends(c, Joined(c, kind))
  {
  }

  lemma CreateMonitoredItemKeeps(c: Client, kind: Kind, now: Time)
    requires ClientInv(c, {})
    ensures ClientInv(CreateMonitoredItem(c, kind, now), {}) && Extends(c, CreateMonitoredItem(c, kind, now))
  {
    var d := Joined(c, kind);
    JoinedKeepsRegistered(c, kind);
    JoinedKeepsOutstanding(c, kind);
    JoinedExtends(c, kind);
    if c.state.Created? {
      ItemChannelOpenedKeeps(d, c.nextRef, now, {c.nextRef});
      assert {c.nextRef} - {c.nextRef} == {};
      ExtendsTransitive(c, d, ItemChannelOpened(d, c.nextRef, now));
    }
  }

  /** A registered item loses its stub. */
  function Unregistered(c: Client, x: ItemRef, item: Item): Client
    requires x in c.items
  {
    var id := c.items[x].id;
    c.(items := c.items[x := item], observers := c.observers - {id}, dropped := c.dropped + {id})
  }

  lemma UnregisterKeeps(c: Client, x: ItemRef, item: Item)
    requires ClientInv(c, {}) && x in c.items && c.items[x].state.Created?
    requires item.state.Deleted? && item.FullyOpen() && item.subscriptionId == c.items[x].subscriptionId
    ensures ClientInv(Unregistered(c, x, item), {})
  {
    var d := Unregistered(c, x, item);
    assert ItemOk(c, x, {});
    forall y | y in d.items ensures ItemOk(d, y, {}) { assert ItemOk(c, y, {}); }
    forall k | k in d.observers ensures ObserverOk(d, k) { assert ObserverOk(c, k); }
    forall r | r in d.pending ensures PendingOk(d, r) { assert PendingOk(c, r); }
    forall i | 0 <= i < |d.asked| ensures AskedOk(d, i) { assert AskedOk(c, i); }
    AwaitingFrame(c, d);
  }

  lemma WriteDeleteKeeps(c: Client, id: int)
    requires ClientInv(c, {}) && c.transport && id in c.dropped
    ensures ClientInv(Write(c, DeleteItem(1, id)), {})
  {
    var d := Write(c, DeleteItem(1, id));
    forall y | y in d.items ensures ItemOk(d, y, {}) { assert ItemOk(c, y, {}); }
    forall k | k in d.observers ensures ObserverOk(d, k) { assert ObserverOk(c, k); }
    forall r | r in d.pending ensures PendingOk(d, r) { assert PendingOk(c, r); }
    forall i | 0 <= i < |d.asked| ensures AskedOk(d, i) {
      if i < |c.asked| { assert AskedOk(c, i); }
    }
    AwaitingFrame(c, d);
  }

  lemma ForgetKeeps(c: Client, x: ItemRef)
    requires ClientInv(c, {}) && x in c.items && !c.items[x].state.Created?
    ensures ClientInv(c.(items := c.items - {x}), {})
  {
    var d := c.(items := c.items - {x});
    forall y | y in d.items ensures ItemOk(d, y, {}) { assert ItemOk(c, y, {}); }
    forall k | k in d.observers ensures ObserverOk(d, k) { assert ObserverOk(c, k); }
    forall r | r in d.pending ensures PendingOk(d, r) { assert PendingOk(c, r); }
    forall i | 0 <= i < |d.asked| ensures AskedOk(d, i) { assert AskedOk(c, i); }
    AwaitingFrame(c, d);
  }

  lemma DestroyKeeps(c: Client, x: ItemRef)
    requires ClientInv(c, {}) && x in c.items
    ensures ClientInv(DestroyItem(c, x), {})
  {
    var item := c.items[x];
    assert ItemOk(c, x, {});
    if item.state.Created? {
      var c1 := Unregistered(c, x, item.(state := Deleted, id := 0));
      UnregisterKeeps(c, x, item.(state := Deleted, id := 0));
      WriteDeleteKeeps(c1, item.id);
      ForgetKeeps(Write(c1, DeleteItem(1, item.id)), x);
    } else {
      ForgetKeeps(c, x);
    }
  }

  // ---------- replies and notifications ----------

  /** The reply to a creation request; its id, if any, is new to the client. */
  lemma ItemCreatedKeeps(c: Client, r: nat, ok: bool, id: int)
    requires ClientInv(c, {}) && r in c.pending && c.pending[r].ItemResult?
    requires ok ==> id !in c.observers && id !in c.dropped
    ensures ClientInv(ItemCreated(c.(pending := c.pending - {r}), c.pending[r].item, ok, id), {})
  {
    var x := c.pending[r].item;
    var d := ItemCreated(c.(pending := c.pending - {r}), x, ok, id);
    assert PendingOk(c, r);
    if x in c.items { assert ItemOk(c, x, {}); }
    forall y | y in d.items ensures ItemOk(d, y, {}) { assert ItemOk(c, y, {}); }
    forall k | k in d.observers ensures ObserverOk(d, k) {
      if k in c.observers { assert ObserverOk(c, k); }
    }
    ItemCreatedKeepsOutstanding(c, r, ok, id);
    AwaitingFrame(c, d);
  }

  lemma ItemCreatedKeepsOutstanding(c: Client, r: nat, ok: bool, id: int)
    requires ClientInv(c, {}) && r in c.pending && c.pending[r].ItemResult?
    requires ok ==> id !in c.observers && id !in c.dropped
    ensures Outstanding(ItemCreated(c.(pending := c.pending - {r}), c.pending[r].item, ok, id))
  {
    var x := c.pending[r].item;
    var d := ItemCreated(c.(pending := c.pending - {r}), x, ok, id);
    assert PendingOk(c, r);
    forall s | s in d.pending ensures PendingOk(d, s) { assert PendingOk(c, s); }
    forall i | 0 <= i < |d.asked| ensures AskedOk(d, i) { assert AskedOk(c, i); }
  }

  lemma RefreshKeeps(c: Client, x: ItemRef, current: DataValue)
    requires ClientInv(c, {}) && x in c.items
    ensures ClientInv(WithItem(c, x, c.items[x].(current := current)), {})
  {
    var d := WithItem(c, x, c.items[x].(current := current));
    forall y | y in d.items ensures ItemOk(d, y, {}) { assert ItemOk(c, y, {}); }
    forall k | k in d.observers ensures ObserverOk(d, k) { assert ObserverOk(c, k); }
    RefreshKeepsOutstanding(c, x, current);
    AwaitingFrame(c, d);
  }

  lemma RefreshKeepsOutstanding(c: Client, x: ItemRef, current: DataValue)
    requires Outstanding(c) && x in c.items
    ensures Outstanding(WithItem(c, x, c.items[x].(current := current)))
  {
    var d := WithItem(c, x, c.items[x].(current := current));
    forall r | r in d.pending ensures PendingOk(d, r) { assert PendingOk(c, r); }
    forall i | 0 <= i < |d.asked| ensures AskedOk(d, i) { assert AskedOk(c, i); }
  }

  lemma ItemDataKeeps(c: Client, k: int, value: DataValue)
    requires ClientInv(c, {}) && k in c.observers && ObserverOk(c, k)
    requires c.items[c.observers[k]].kind.ValueKind?
    ensures ClientInv(ItemData(c, c.observers[k], value), {})
  {
    var x := c.observers[k];
    var item := c.items[x];
    assert ItemOk(c, x, {});
    if value != item.current {
      var shown := if IsUpdate(item.current, value) then value else item.current;
      if value.status.IsBad() {
        UnregisterKeeps(c, x, item.(state := Deleted, id := 0, current := shown));
      } else {
        RefreshKeeps(c, x, shown);
      }
    }
  }

  lemma ItemEventKeeps(c: Client, k: int, bad: bool)
    requires ClientInv(c, {}) && k in c.observers && ObserverOk(c, k)
    requires c.items[c.observers[k]].kind.EventKind?
    ensures ClientInv(ItemEvent(c, c.observers[k], bad), {})
  {
    var x := c.observers[k];
    assert ItemOk(c, x, {});
    if bad { UnregisterKeeps(c, x, c.items[x].(state := Deleted)); }
  }

  // ---------- the subscription and the session ----------

  /** The client just before its items are opened on a created subscription. */
  function Subscribed(c: Client): Client {
    c.(pending := c.pending - {c.base}, state := Created, subscriptionId := 1,
       monitored := Live(c.monitored, c.items))
  }

  lemma SubscribedKeeps(c: Client)
    requires ClientInv(c, {}) && c.state.Creating?
    ensures ClientInv(Subscribed(c), c.items.Keys)
  {
    var d := Subscribed(c);
    LiveDistinct(c.monitored, c.items);
    assert forall i :: 0 <= i < |d.monitored| ==> d.monitored[i] in d.monitored;
    forall y | y in d.items ensures ItemOk(d, y, c.items.Keys) { assert ItemOk(c, y, {}); }
    assert Awaiting(d) by { assert forall y :: y in d.items ==> ItemOk(c, y, {}); }
    forall k | k in d.observers ensures ObserverOk(d, k) { assert ObserverOk(c, k); }
    forall r | r in d.pending ensures PendingOk(d, r) { assert PendingOk(c, r); }
    forall i | 0 <= i < |d.asked| ensures AskedOk(d, i) { assert AskedOk(c, i); }
  }

  lemma SubscriptionCreatedKeeps(c: Client, now: Time)
    requires ClientInv(c, {}) && c.state.Creating?
    ensures var d := SubscriptionCreated(c.(pending := c.pending - {c.base}), true, 1, now);
            ClientInv(d, {}) && Extends(Subscribed(c), d)
  {
    SubscribedKeeps(c);
    LiveDistinct(c.monitored, c.items);
    OpenAllKeeps(Subscribed(c), Live(c.monitored, c.items), now, c.items.Keys);
  }

  lemma SessionCreatedKeeps(c: Client)
    requires ClientInv(c, {}) && !c.sessionCreated
    ensures ClientInv(SessionCreated(c), {})
  {
    var d := SessionCreated(c);
    assert PendingOk(d, d.base) && AskedOk(d, 0);
    forall y | y in d.items ensures ItemOk(d, y, {}) { assert ItemOk(c, y, {}); }
  }

  // ---------- the end of a session ----------

  /** A lost connection is closed without a failed check when every live item has an open channel. */
  predicate CanClose(c: Client) { c.state.Created? || c.items == map[] }

  /** The open items and the observer map agree, as far as closing them needs it. */
  predicate Closeable(c: Client, xs: seq<ItemRef>) {
    && !c.panicked && Distinct(xs)
    && (forall x :: x in xs ==> x in c.items && c.items[x].FullyOpen())
    && (forall x :: x in xs && c.items[x].state.Created? ==>
          c.items[x].id in c.observers && c.observers[c.items[x].id] == x)
    && (forall k :: k in c.observers ==>
          c.observers[k] in xs && c.items[c.observers[k]].state.Created? && c.items[c.observers[k]].id == k)
  }

  lemma CloseOneKeeps(c: Client, xs: seq<ItemRef>)
    requires xs != [] && Closeable(c, xs)
    ensures Closeable(ItemChannelClosed(c, xs[0]), xs[1..])
  {
    var d := ItemChannelClosed(c, xs[0]);
    TailMembers(xs, set x | x in xs);
    assert xs[0] in xs;
    forall x | x in xs[1..]
      ensures x in d.items && d.items[x].FullyOpen()
      ensures d.items[x].state.Created? ==> d.items[x].id in d.observers && d.observers[d.items[x].id] == x
    {
      assert x in xs && x != xs[0];
    }
  }

  lemma {:induction false} CloseAllCloses(c: Client, xs: seq<ItemRef>)
    requires Closeable(c, xs)
    ensures var d := CloseAll(c, xs);
            && d.(items := map[], observers := map[], dropped := {})
               == c.(items := map[], observers := map[], dropped := {})
            && d.observers == map[] && d.items.Keys == c.items.Keys
            && (forall x :: x in xs ==> d.items[x] == Closing(c.items[x]))
            && (forall x :: x in c.items && x !in xs ==> d.items[x] == c.items[x])
    decreases |xs|
  {
    if xs == [] {
      assert forall k :: k !in c.observers;
      assert c.observers == map[];
    } else {
      CloseOneKeeps(c, xs);
      assert xs[0] in xs && xs[0] !in xs[1..];
      CloseAllCloses(ItemChannelClosed(c, xs[0]), xs[1..]);
    }
  }

  /** The client when its channel starts to close. */
  function Failed(c: Client): Client { FailPending(c.(transport := false, asked := [])).(sessionCreated := false) }

  /** Failing the pending requests opens and closes nothing, and touches no created item. */
  lemma FailedItems(c: Client)
    ensures var d := Failed(c);
            && d.(items := map[], state := Deleted, pending := map[])
               == c.(items := map[], state := Deleted, pending := map[], transport := false, asked := [],
                     sessionCreated := false)
            && d.pending == map[] && d.items.Keys == c.items.Keys
            && forall x :: x in c.items ==>
                 && (d.items[x].FullyOpen() <==> c.items[x].FullyOpen())
                 && (d.items[x].FullyClosed() <==> c.items[x].FullyClosed())
                 && (d.items[x].state.Created? <==> c.items[x].state.Created?)
                 && d.items[x].id == c.items[x].id
  {
  }

  lemma FailedIsCloseable(c: Client)
    requires ClientInv(c, {}) && c.state.Created?
    ensures Closeable(Failed(c), Live(c.monitored, c.items))
  {
    FailedItems(c);
    LiveDistinct(c.monitored, c.items);
    var d := Failed(c);
    var live := Live(c.monitored, c.items);
    forall x | x in live
      ensures x in d.items && d.items[x].FullyOpen()
      ensures d.items[x].state.Created? ==> d.items[x].id in d.observers && d.observers[d.items[x].id] == x
    {
      assert ItemOk(c, x, {});
    }
    forall k | k in d.observers
      ensures d.observers[k] in live && d.items[d.observers[k]].state.Created? && d.items[d.observers[k]].id == k
    {
      assert ObserverOk(c, k);
    }
  }

  /** The client once its subscription has let go of the channel, before the items do. */
  function Closed(c: Client): Client {
    Failed(c).(sender := false, state := Deleted, subscriptionId := 0, monitored := Live(c.monitored, c.items))
  }

  lemma SessionLostIs(c: Client)
    requires c.sessionCreated && c.sender
    ensures SessionLost(c) == CloseAll(Closed(c), Live(c.monitored, c.items))
  {
    FailedItems(c);
    LiveSame(c.monitored, c.items, Failed(c).items);
  }

  lemma {:induction false} LiveSame(monitored: seq<ItemRef>, items: map<ItemRef, Item>, items': map<ItemRef, Item>)
    requires items.Keys == items'.Keys
    ensures Live(monitored, items) == Live(monitored, items')
  {
    if monitored != [] { LiveSame(monitored[1..], items, items'); }
  }

  lemma ClosedIsCloseable(c: Client)
    requires ClientInv(c, {}) && CanClose(c)
    ensures Closeable(Closed(c), Live(c.monitored, c.items))
  {
    FailedItems(c);
    LiveDistinct(c.monitored, c.items);
    if c.state.Created? {
      FailedIsCloseable(c);
    } else {
      assert forall k :: k in c.observers ==> ObserverOk(c, k);
    }
  }

  lemma SessionLostKeeps(c: Client)
    requires ClientInv(c, {}) && c.sessionCreated && CanClose(c)
    ensures ClientInv(SessionLost(c), {}) && !SessionLost(c).transport
  {
    var live := Live(c.monitored, c.items);
    SessionLostIs(c);
    FailedItems(c);
    ClosedIsCloseable(c);
    CloseAllCloses(Closed(c), live);
    assert forall x :: x in c.items ==> x in live;
    AllClosedIsInv(c, SessionLost(c));
  }

  /** A client whose items are all closed, and which has no session, keeps the invariant. */
  lemma AllClosedIsInv(c: Client, d: Client)
    requires MonitoredOk(c) && d.monitored == Live(c.monitored, c.items) && d.nextRef == c.nextRef
    requires !d.panicked && !d.sessionCreated && !d.transport && !d.sender && d.state.Deleted?
    requires d.asked == [] && d.pending == map[] && d.observers == map[] && d.items.Keys == c.items.Keys
    requires forall x :: x in d.items ==> d.items[x].FullyClosed() && d.items[x].state.Deleted?
    ensures ClientInv(d, {})
  {
    var live := Live(c.monitored, c.items);
    LiveDistinct(c.monitored, c.items);
    assert forall i :: 0 <= i < |live| ==> live[i] in live;
    assert forall x :: x in c.items ==> x in live;
  }

  /** With an item that was never opened, the first `OnChannelClosed` finds no router. */
  lemma SessionLostPanics(c: Client)
    requires ClientInv(c, {}) && c.sessionCreated && !CanClose(c)
    ensures SessionLost(c).panicked
  {
    var live := Live(c.monitored, c.items);
    var x :| x in c.items;
    assert x in live;
    SessionLostIs(c);
    FailedItems(c);
    assert live[0] in live && ItemOk(c, live[0], {});
    assert ItemChannelClosed(Closed(c), live[0]).panicked;
    assert CloseAll(Closed(c), live) == CloseAll(ItemChannelClosed(Closed(c), live[0]), live[1..]);
  }

  /**
   * A subscription the server refused leaves the channel open without a subscription; losing it then fails
   * a check if and only if some item is alive.
   */
  lemma RefusedCloses(c: Client, id: int, now: Time)
    requires ClientInv(c, {}) && c.state.Creating?
    ensures var d := SubscriptionCreated(c.(pending := c.pending - {c.base}), false, id, now);
            !d.panicked && d.state.Deleted? && (SessionLost(d).panicked <==> c.items != map[])
  {
    var d := SubscriptionCreated(c.(pending := c.pending - {c.base}), false, id, now);
    var live := Live(c.monitored, c.items);
    SessionLostIs(d);
    FailedItems(d);
    if c.items == map[] {
      assert live == [];
    } else {
      var x :| x in c.items;
      assert x in live && live[0] in live && ItemOk(c, live[0], {});
      assert ItemChannelClosed(Closed(d), live[0]).panicked;
      assert CloseAll(Closed(d), live) == CloseAll(ItemChannelClosed(Closed(d), live[0]), live[1..]);
    }
  }
}
