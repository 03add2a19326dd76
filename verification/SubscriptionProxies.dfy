/**
 The client half of the subscription protocol in the form of its source: fields that the handlers
 update one after the other, and loops over items, pending requests and messages. Every handler that an
 event reaches does what `SubscriptionClient` says, keeps the client's invariant, and fails no check
 except where its contract says so.
 */
module SubscriptionProxies {
  import opened Collections
  import opened DataValues
  import opened SubscriptionClient
  import opened SubscriptionClientInvariant
  import opened SubscriptionProtocol

  /** The handlers that some pending requests have. */
  function HandlersOf(pending: map<nat, Handler>, ids: set<nat>): set<Handler> {
    set r | r in ids && r in pending :: pending[r]
  }

  /** The client after some of its handlers were called with Bad_Disconnected. */
  function FailSome(c: Client, handlers: set<Handler>): Client {
    c.(state := if SubscriptionResult in handlers && c.state.Creating? && c.sender then Deleted else c.state,
       items := map x | x in c.items ::
         if ItemResult(x) in handlers && AwaitsCreation(c.items[x])
         then Refused(c.items[x], BAD_DISCONNECTED) else c.items[x])
  }

  /** An item told that its creation failed. */
  function CreationRefused(c: Client, x: ItemRef, status: StatusCode): Client {
    if x in c.items && AwaitsCreation(c.items[x]) then WithItem(c, x, Refused(c.items[x], status)) else c
  }

  /** One handler called with Bad_Disconnected. */
  function FailOne(c: Client, handler: Handler): Client {
    match handler
    case SubscriptionResult => if c.state.Creating? && c.sender then c.(state := Deleted) else c
    case ItemResult(x) => CreationRefused(c, x, BAD_DISCONNECTED)
  }

  /** Handlers do not disturb each other, so they may be failed in any order. */
  lemma FailOneMore(c: Client, handlers: set<Handler>, handler: Handler)
    ensures FailOne(FailSome(c, handlers), handler) == FailSome(c, handlers + {handler})
  {
    var d, e := FailOne(FailSome(c, handlers), handler), FailSome(c, handlers + {handler});
    assert d.items == e.items;
  }

  lemma FailNone(c: Client)
    ensures FailSome(c, {}) == c
  {
    assert FailSome(c, {}).items == c.items;
  }

  lemma FailAll(c: Client)
    ensures FailSome(c, HandlersOf(c.pending, c.pending.Keys)).(pending := map[]) == FailPending(c)
  {
    var handlers := HandlersOf(c.pending, c.pending.Keys);
    forall h ensures h in handlers <==> h in c.pending.Values {
      if h in c.pending.Values {
        var r :| r in c.pending && c.pending[r] == h;
      }
    }
    assert FailSome(c, handlers).items == FailPending(c).items;
  }

  /** The client while `rest` of the moved requests have not been called yet. */
  function Failing(c: Client, requests: map<nat, Handler>, rest: set<nat>): Client {
    FailSome(c, HandlersOf(requests, requests.Keys - rest))
  }

  lemma FailNext(c: Client, requests: map<nat, Handler>, rest: set<nat>, r: nat)
    requires r in rest && r in requests
    ensures FailOne(Failing(c, requests, rest), requests[r]) == Failing(c, requests, rest - {r})
  {
    var done := requests.Keys - rest;
    assert requests.Keys - (rest - {r}) == done + {r};
    assert HandlersOf(requests, done + {r}) == HandlersOf(requests, done) + {requests[r]};
    FailOneMore(c, HandlersOf(requests, done), requests[r]);
  }

  /** A part of a protocol message: a response or notification, or the news that the session is gone. */
  datatype Part = Plain(message: Message) | SessionDeleted

  /** Handling the parts of a message in order; nothing is read after the end of the session. */
  function HandleAll(c: Client, parts: seq<Part>, now: Time): Client
    requires ObserversAlive(c)
    decreases |parts|
  {
    if parts == [] || c.panicked then c
    else if parts[0].SessionDeleted? then SessionLost(c)
    else
      DispatchKeepsAlive(c, parts[0].message, now);
      HandleAll(Dispatch(c, parts[0].message, now), parts[1..], now)
  }

  /** Each part finds the client ready for it: an acceptable message, or an end that can be closed. */
  predicate Welcome(c: Client, parts: seq<Part>, now: Time)
    requires ObserversAlive(c)
    decreases |parts|
  {
    parts == [] || c.panicked ||
    if parts[0].SessionDeleted? then c.sessionCreated ==> CanClose(c)
    else
      && Acceptable(c, parts[0].message)
      && (DispatchKeepsAlive(c, parts[0].message, now);
          Welcome(Dispatch(c, parts[0].message, now), parts[1..], now))
  }

  lemma {:induction false} HandleAllKeeps(c: Client, parts: seq<Part>, now: Time)
    requires ClientInv(c, {}) && ObserversAlive(c) && Welcome(c, parts, now)
    ensures ClientInv(HandleAll(c, parts, now), {})
    decreases |parts|
  {
    if parts != [] {
      if parts[0].SessionDeleted? {
        LostMeans(c);
      } else {
        DispatchKeeps(c, parts[0].message, now);
        DispatchKeepsAlive(c, parts[0].message, now);
        HandleAllKeeps(Dispatch(c, parts[0].message, now), parts[1..], now);
      }
    }
  }

  /** The parts are handled one after the other. */
  lemma {:induction false} HandleAllConcat(c: Client, a: seq<Part>, b: seq<Part>, now: Time)
    requires ObserversAlive(c) && forall i :: 0 <= i < |a| ==> a[i].Plain?
    ensures ObserversAlive(HandleAll(c, a, now)) && HandleAll(c, a + b, now) == HandleAll(HandleAll(c, a, now), b, now)
    decreases |a|
  {
    if a == [] {
      assert a + b == b;
    } else if !c.panicked {
      assert (a + b)[1..] == a[1..] + b;
      DispatchKeepsAlive(c, a[0].message, now);
      HandleAllConcat(Dispatch(c, a[0].message, now), a[1..], b, now);
    }
  }

  /** What follows the end of the session in a message is not read. */
  lemma NothingAfterTheEnd(c: Client, a: seq<Part>, b: seq<Part>, now: Time)
    requires ObserversAlive(c) && forall i :: 0 <= i < |a| ==> a[i].Plain?
    ensures HandleAll(c, a + ([SessionDeleted] + b), now) == HandleAll(c, a + [SessionDeleted], now)
  {
    HandleAllConcat(c, a, [SessionDeleted] + b, now);
    HandleAllConcat(c, a, [SessionDeleted], now);
  }

  /** The news that the session is gone ends it: with a failed check, or with every item closed. */
  lemma SessionDeletedEnds(c: Client, b: seq<Part>, now: Time)
    requires ClientInv(c, {}) && ObserversAlive(c)
    ensures var d := HandleAll(c, [SessionDeleted] + b, now);
            && (d.panicked <==> c.sessionCreated && !CanClose(c))
            && (!d.panicked ==> ClientInv(d, {}) && !d.sessionCreated && d.pending == map[] && d.observers == map[])
            && (!d.panicked ==> forall x :: x in d.items ==> d.items[x].FullyClosed())
  {
    if c.sessionCreated && !CanClose(c) { SessionLostPanics(c); } else { LostMeans(c); }
  }

  lemma {:induction false} OpenAllKeepsAlive(c: Client, xs: seq<ItemRef>, now: Time)
    requires ObserversAlive(c) && forall x :: x in xs ==> x in c.items
    ensures ObserversAlive(OpenAll(c, xs, now))
    decreases |xs|
  {
    if xs != [] && !c.panicked { OpenAllKeepsAlive(ItemChannelOpened(c, xs[0], now), xs[1..], now); }
  }

  lemma SubscriptionCreatedKeepsAlive(c: Client, ok: bool, id: int, now: Time)
    requires ObserversAlive(c)
    ensures ObserversAlive(SubscriptionCreated(c, ok, id, now))
  {
    if c.state.Creating? && c.sender && ok {
      var live := Live(c.monitored, c.items);
      OpenAllKeepsAlive(c.(state := Created, subscriptionId := id, monitored := live), live, now);
    }
  }

  lemma ItemCreatedKeepsAlive(c: Client, x: ItemRef, ok: bool, id: int)
    requires ObserversAlive(c)
    ensures ObserversAlive(ItemCreated(c, x, ok, id))
  {
  }

  lemma RespondKeepsAlive(c: Client, handler: Handler, ok: bool, id: int, now: Time)
    requires ObserversAlive(c)
    ensures ObserversAlive(Respond(c, handler, ok, id, now))
  {
    match handler {
      case SubscriptionResult => SubscriptionCreatedKeepsAlive(c, ok, id, now);
      case ItemResult(x) => ItemCreatedKeepsAlive(c, x, ok, id);
    }
  }

  lemma RemoveKeepsAlive(c: Client, id: int, x: ItemRef, item: Item)
    requires ObserversAlive(c) && x in c.items
    ensures ObserversAlive(WithItem(c, x, item)) && ObserversAlive(WithItem(RemoveObserver(c, id), x, item))
  {
  }

  lemma DataKeepsAlive(c: Client, x: ItemRef, value: DataValue)
    requires ObserversAlive(c) && x in c.items
    ensures ObserversAlive(ItemData(c, x, value))
  {
    var item := c.items[x];
    var shown := if IsUpdate(item.current, value) then value else item.current;
    RemoveKeepsAlive(c, item.id, x, item.(state := Deleted, id := 0, current := shown));
    RemoveKeepsAlive(c, item.id, x, item.(current := shown));
  }

  lemma EventKeepsAlive(c: Client, x: ItemRef, bad: bool)
    requires ObserversAlive(c) && x in c.items
    ensures ObserversAlive(ItemEvent(c, x, bad))
  {
    RemoveKeepsAlive(c, c.items[x].id, x, c.items[x].(state := Deleted));
  }

  lemma DispatchKeepsAlive(c: Client, m: Message, now: Time)
    requires ObserversAlive(c)
    ensures ObserversAlive(Dispatch(c, m, now))
  {
    match m {
      case SubscriptionReply(r, ok, id) =>
        if r in c.pending { RespondKeepsAlive(c.(pending := c.pending - {r}), c.pending[r], ok, id, now); }
      case ItemReply(r, ok, id) =>
        if r in c.pending { RespondKeepsAlive(c.(pending := c.pending - {r}), c.pending[r], ok, id, now); }
      case DeleteReply(r) =>
        if r in c.pending { RespondKeepsAlive(c.(pending := c.pending - {r}), c.pending[r], true, 0, now); }
      case DataNote(id, value) => if id in c.observers { DataKeepsAlive(c, c.observers[id], value); }
      case EventNote(id, bad, carried) =>
        if carried && id in c.observers { EventKeepsAlive(c, c.observers[id], bad); }
    }
  }

  lemma OpenFirst(c: Client, xs: seq<ItemRef>, i: nat, now: Time)
    requires i < |xs| && !c.panicked && forall x :: x in xs ==> x in c.items
    ensures xs[i] in c.items
    ensures OpenAll(c, xs[i..], now) == OpenAll(ItemChannelOpened(c, xs[i], now), xs[i + 1..], now)
  {
    assert xs[i..][1..] == xs[i + 1..];
  }

  lemma CloseFirst(c: Client, xs: seq<ItemRef>, i: nat)
    requires i < |xs| && !c.panicked && forall x :: x in xs ==> x in c.items
    ensures xs[i] in c.items && CloseAll(c, xs[i..]) == CloseAll(ItemChannelClosed(c, xs[i]), xs[i + 1..])
  {
    assert xs[i..][1..] == xs[i + 1..];
  }

  lemma CreateMeans(c: Client, kind: Kind, now: Time)
    requires ClientInv(c, {})
    ensures var d := SubscriptionClient.CreateMonitoredItem(c, kind, now);
            && c.nextRef !in c.items && c.nextRef in d.items && d.state == c.state
            && !d.items[c.nextRef].subscribed && d.items[c.nextRef].kind == kind
            && if c.state.Created? then d.items[c.nextRef].FullyOpen() else d.items[c.nextRef].FullyClosed()
  {
    assert c.nextRef in c.items ==> c.nextRef in c.monitored;
  }

  lemma SubscribeMeans(c: Client, x: ItemRef)
    requires ClientInv(c, {}) && x in c.items && !c.items[x].subscribed
    ensures var d := SubscribeItem(c, x);
            && x in d.items && d.items[x].subscribed && d.state == c.state
            && (d.items[x].state.Creating? <==> c.state.Created?)
            && (c.state.Created? ==> c.nextRequestId in d.pending && d.pending[c.nextRequestId] == ItemResult(x))
  {
    assert ItemOk(c, x, {});
  }

  lemma DestroyMeans(c: Client, x: ItemRef)
    requires ClientInv(c, {}) && x in c.items
    ensures var d := SubscriptionClient.DestroyItem(c, x);
            && d.items == c.items - {x} && (forall k :: k in d.observers ==> d.observers[k] != x)
            && (c.items[x].state.Created? ==>
                  d.asked == c.asked + [Request(c.nextRequestId, DeleteItem(1, c.items[x].id))])
  {
    assert ItemOk(c, x, {});
    var d := SubscriptionClient.DestroyItem(c, x);
    assert d.items == c.items - {x};
    forall k | k in d.observers ensures d.observers[k] != x { assert ObserverOk(c, k); }
  }

  /** Without a session there is nothing to fail or close. */
  lemma LostOutside(c: Client)
    requires ClientInv(c, {}) && !c.sessionCreated
    ensures SessionLost(c) == c
  {
    assert c.pending.Values == {};
    assert SessionLost(c).items == c.items;
  }

  lemma LostMeans(c: Client)
    requires ClientInv(c, {}) && (c.sessionCreated ==> CanClose(c))
    ensures var d := SessionLost(c);
            && ClientInv(d, {}) && !d.sessionCreated && d.pending == map[] && d.observers == map[]
            && forall x :: x in d.items ==> d.items[x].FullyClosed()
  {
    if c.sessionCreated { SessionLostKeeps(c); } else { LostOutside(c); }
    var d := SessionLost(c);
    forall x | x in d.items ensures d.items[x].FullyClosed() { assert ItemOk(d, x, {}); }
  }

  lemma HandleOne(c: Client, parts: seq<Part>, now: Time)
    requires ClientInv(c, {}) && ObserversAlive(c) && |parts| == 1 && parts[0].Plain?
    ensures HandleAll(c, parts, now).panicked <==> FailsCheck(c, parts[0].message)
  {
    DispatchKeepsAlive(c, parts[0].message, now);
    DispatchFailsIff(c, parts[0].message, now);
    assert parts[1..] == [];
  }

  class Proxies {
    // SessionProxy
    var panicked: bool
    var sessionCreated: bool
    var transport: bool
    var nextRequestId: nat
    var pending: map<nat, Handler>
    ghost var base: nat
    ghost var asked: seq<Request>

    // SubscriptionProxy
    var state: State
    var sender: bool
    var subscriptionId: int
    var monitored: seq<ItemRef>
    var observers: map<int, ItemRef>
    ghost var dropped: set<int>

    // The MonitoredItemProxy objects that are alive.
    var items: map<ItemRef, Item>
    var nextRef: ItemRef

    ghost function View(): Client
      reads this
    {
      Client(panicked, sessionCreated, transport, nextRequestId, pending, base, asked, state, sender,
             subscriptionId, monitored, items, nextRef, observers, dropped)
    }

    /** Between two handlers. */
    ghost predicate Valid()
      reads this
    {
      ClientInv(View(), {})
    }

    constructor ()
      ensures View() == INITIAL && Valid()
    {
      panicked, sessionCreated, transport, nextRequestId, pending := false, false, false, 1, map[];
      base, asked, state, sender, subscriptionId, monitored := 1, [], Deleted, false, 0, [];
      observers, dropped, items, nextRef := map[], {}, map[], 0;
    }

    method Request(body: Body, handler: Option<Handler>)
      modifies this`nextRequestId, this`pending, this`asked
      ensures View() == if handler.Some? then Ask(old(View()), body, handler.value) else Write(old(View()), body)
    {
      var id := nextRequestId;
      nextRequestId := nextRequestId + 1;
      if handler.Some? { pending := pending[id := handler.value]; }
      if transport { asked := asked + [SubscriptionClient.Request(id, body)]; }
    }

    method AddMonitoredItemDataObserver(id: int, x: ItemRef)
      modifies this`observers, this`panicked
      ensures View() == AddObserver(old(View()), id, x)
    {
      if id in observers { panicked := true; return; }
      observers := observers[id := x];
    }

    method RemoveMonitoredItemDataObserver(id: int)
      modifies this`observers, this`dropped, this`panicked
      ensures View() == RemoveObserver(old(View()), id)
    {
      if id !in observers { panicked := true; return; }
      observers := observers - {id};
      dropped := dropped + {id};
    }

    // ---------- MonitoredItemProxy ----------

    method CreateStub(x: ItemRef)
      requires x in items
      modifies this
      ensures View() == SubscriptionClient.CreateStub(old(View()), x)
    {
      var item := items[x];
      if !item.subscribed || !item.state.Deleted? || !item.sender { panicked := true; return; }
      items := items[x := item.(state := Creating)];
      Request(CreateItem(item.subscriptionId, item.kind), Some(ItemResult(x)));
    }

    method DeleteStub(x: ItemRef)
      requires x in items
      modifies this
      ensures View() == SubscriptionClient.DeleteStub(old(View()), x)
    {
      var item := items[x];
      if !item.subscribed || !item.router || !item.state.Created? || !item.sender { panicked := true; return; }
      items := items[x := item.(state := Deleted, id := 0)];
      RemoveMonitoredItemDataObserver(item.id);
      Request(DeleteItem(item.subscriptionId, item.id), None);
    }

    method OnItemChannelOpened(x: ItemRef, now: Time)
      requires x in items
      modifies this
      ensures View() == ItemChannelOpened(old(View()), x, now)
    {
      var item := items[x];
      if !item.state.Deleted? || item.router || item.sender || item.channel { panicked := true; return; }
      item := item.(router := true, sender := true, channel := true, subscriptionId := subscriptionId);
      if item.subscribed && item.kind.ValueKind? {
        item := item.(current := item.current.(serverTime := now, qualifier := OFFLINE));
      }
      items := items[x := item];
      if item.subscribed { CreateStub(x); }
    }

    method OnItemChannelClosed(x: ItemRef)
      requires x in items
      modifies this
      ensures View() == ItemChannelClosed(old(View()), x)
    {
      var item := items[x];
      if !item.router || !item.sender || !item.channel { panicked := true; return; }
      if item.state.Created? { RemoveMonitoredItemDataObserver(item.id); }
      var oldState := item.state;
      item := item.(channel := false, router := false, sender := false, state := Deleted, subscriptionId := 0, id := 0);
      if !oldState.Deleted? && item.kind.ValueKind? { item := UpdateQualifier(item, item.current.status, OFFLINE); }
      items := items[x := item];
    }

    /** The changed value is only announced if it differs. */
    static method UpdateQualifier(item: Item, status: StatusCode, add: bv32) returns (r: Item)
      ensures r == item.(current := if item.subscribed then Requalified(item.current, status, add) else item.current)
    {
      r := item;
      if !item.subscribed { return; }
      var qualifier := item.current.qualifier | add;
      if item.current.status == status && item.current.qualifier == qualifier { return; }
      r := item.(current := item.current.(status := status, qualifier := qualifier));
    }

    /** Reached through a weak pointer; `dropped` also records the ids of items that are gone by now. */
    method OnCreateMonitoredItemResult(x: ItemRef, ok: bool, status: StatusCode, id: int)
      modifies this`items, this`observers, this`dropped, this`panicked
      ensures ok ==> View() == ItemCreated(old(View()), x, true, id)
      ensures !ok ==> View() == CreationRefused(old(View()), x, status)
    {
      if x !in items {
        if ok { dropped := dropped + {id}; }
        return;
      }
      var item := items[x];
      if !item.router || !item.channel || !item.state.Creating? { return; }
      if !ok {
        item := item.(state := Deleted);
        if item.kind.ValueKind? { item := UpdateQualifier(item, status, FAILED); }
        items := items[x := item];
        return;
      }
      items := items[x := item.(state := Created, id := id)];
      AddMonitoredItemDataObserver(id, x);
    }

    method OnItemData(x: ItemRef, value: DataValue)
      requires x in items
      modifies this`items, this`observers, this`dropped, this`panicked
      ensures View() == ItemData(old(View()), x, value)
    {
      var item := items[x];
      if !item.router || !item.subscribed || !item.kind.ValueKind? { panicked := true; return; }
      if !item.state.Created? || value == item.current { return; }
      var id := item.id;
      if value.status.IsBad() {
        item := item.(state := Deleted, id := 0);
        RemoveMonitoredItemDataObserver(id);
      }
      if IsUpdate(item.current, value) { item := item.(current := value); }
      items := items[x := item];
    }

    method OnItemEvent(x: ItemRef, bad: bool)
      requires x in items
      modifies this`items, this`observers, this`dropped, this`panicked
      ensures View() == ItemEvent(old(View()), x, bad)
    {
      var item := items[x];
      if !item.router || !item.subscribed || !item.kind.EventKind? { panicked := true; return; }
      if !item.state.Created? { return; }
      if bad {
        item := item.(state := Deleted);
        RemoveMonitoredItemDataObserver(item.id);
        items := items[x := item];
      }
    }

    // ---------- SubscriptionProxy ----------

    /** The live items, in order; the list keeps no others. */
    method CollectMonitoredItems() returns (live: seq<ItemRef>)
      modifies this`monitored
      ensures monitored == live == Live(old(monitored), items)
    {
      live := [];
      var i := 0;
      while i < |monitored|
        invariant 0 <= i <= |monitored| && monitored == old(monitored)
        invariant live + Live(monitored[i..], items) == Live(monitored, items)
      {
        assert monitored[i..][1..] == monitored[i + 1..];
        if monitored[i] in items { live := live + [monitored[i]]; }
        i := i + 1;
      }
      assert monitored[|monitored|..] == [];
      monitored := live;
    }

    method OnSubscriptionChannelOpened()
      modifies this
      ensures View() == SubscriptionChannelOpened(old(View()))
    {
      if sender || !state.Deleted? { panicked := true; return; }
      sender, state := true, Creating;
      Request(CreateSubscription, Some(SubscriptionResult));
    }

    method OnSubscriptionChannelClosed()
      modifies this
      ensures View() == SubscriptionChannelClosed(old(View()))
    {
      if !sender { panicked := true; return; }
      sender, state, subscriptionId := false, Deleted, 0;
      var live := CollectMonitoredItems();
      assert View() == old(View()).(sender := false, state := Deleted, subscriptionId := 0, monitored := live);
      CloseItems(live);
    }

    method CloseItems(live: seq<ItemRef>)
      requires forall x :: x in live ==> x in items
      modifies this
      ensures View() == CloseAll(old(View()), live)
    {
      var i := 0;
      while i < |live| && !panicked
        invariant 0 <= i <= |live| && items.Keys == old(items.Keys)
        invariant CloseAll(View(), live[i..]) == CloseAll(old(View()), live)
      {
        CloseFirst(View(), live, i);
        OnItemChannelClosed(live[i]);
        i := i + 1;
      }
    }

    method OnCreateSubscriptionResult(ok: bool, id: int, now: Time)
      modifies this
      ensures View() == SubscriptionCreated(old(View()), ok, id, now)
    {
      if !state.Creating? || !sender { return; }
      if !ok { state := Deleted; return; }
      state, subscriptionId := Created, id;
      var live := CollectMonitoredItems();
      OpenItems(live, now);
    }

    method OpenItems(live: seq<ItemRef>, now: Time)
      requires forall x :: x in live ==> x in items
      modifies this
      ensures View() == OpenAll(old(View()), live, now)
    {
      var i := 0;
      while i < |live| && !panicked
        invariant 0 <= i <= |live| && items.Keys == old(items.Keys)
        invariant OpenAll(View(), live[i..], now) == OpenAll(old(View()), live, now)
      {
        OpenFirst(View(), live, i, now);
        OnItemChannelOpened(live[i], now);
        i := i + 1;
      }
    }

    // ---------- SessionProxy ----------

    method CallHandler(handler: Handler, ok: bool, status: StatusCode, id: int, now: Time)
      modifies this
      ensures ok ==> View() == Respond(old(View()), handler, true, id, now)
      ensures !ok && handler.SubscriptionResult? ==> View() == Respond(old(View()), handler, false, id, now)
      ensures !ok && handler.ItemResult? ==> View() == CreationRefused(old(View()), handler.item, status)
    {
      match handler {
        case SubscriptionResult => OnCreateSubscriptionResult(ok, id, now);
        case ItemResult(x) => OnCreateMonitoredItemResult(x, ok, status, id);
      }
    }

    /** The pending requests are moved out, and their handlers called one after the other. */
    method FailRequests()
      modifies this
      ensures View() == FailPending(old(View()))
    {
      var requests := pending;
      pending := map[];
      ghost var start := View();
      var rest := requests.Keys;
      assert HandlersOf(requests, requests.Keys - rest) == {};
      FailNone(start);
      while rest != {}
        invariant rest <= requests.Keys && View() == Failing(start, requests, rest)
        decreases |rest|
      {
        ghost var some := Element(rest);
        var r :| r in rest;
        FailNext(start, requests, rest, r);
        CallHandler(requests[r], false, BAD_DISCONNECTED, 0, 0);
        rest := rest - {r};
      }
      FailAll(old(View()));
      assert requests.Keys - rest == requests.Keys;
    }

    method OnMessage(m: Message, now: Time)
      requires ObserversAlive(View())
      modifies this
      ensures View() == Dispatch(old(View()), m, now)
    {
      match m {
        case SubscriptionReply(r, ok, id) => OnResponse(r, ok, id, now);
        case ItemReply(r, ok, id) => OnResponse(r, ok, id, now);
        case DeleteReply(r) => OnResponse(r, true, 0, now);
        case DataNote(id, value) => if id in observers { OnItemData(observers[id], value); }
        case EventNote(id, bad, carried) => if carried && id in observers { OnItemEvent(observers[id], bad); }
      }
    }

    method OnResponse(r: nat, ok: bool, id: int, now: Time)
      modifies this
      ensures var c := old(View());
              View() == if r in c.pending then Respond(c.(pending := c.pending - {r}), c.pending[r], ok, id, now) else c
    {
      if r in pending {
        var handler := pending[r];
        pending := pending - {r};
        CallHandler(handler, ok, BAD, id, now);
      }
    }

    /** The loop over the parts of a protocol message: first its responses, then its notifications. */
    method HandleParts(parts: seq<Part>, now: Time)
      requires ObserversAlive(View())
      modifies this
      ensures View() == HandleAll(old(View()), parts, now)
    {
      var i := 0;
      while i < |parts| && !panicked
        invariant 0 <= i <= |parts| && ObserversAlive(View())
        invariant HandleAll(View(), parts[i..], now) == HandleAll(old(View()), parts, now)
      {
        assert parts[i..][1..] == parts[i + 1..];
        if parts[i].SessionDeleted? {
          LoseSession();
          return;
        }
        DispatchKeepsAlive(View(), parts[i].message, now);
        OnMessage(parts[i].message, now);
        i := i + 1;
      }
    }

    method SubscribeTo(x: ItemRef)
      requires x in items
      modifies this
      ensures View() == SubscribeItem(old(View()), x)
    {
      var item := items[x];
      if item.subscribed || !item.state.Deleted? { panicked := true; return; }
      items := items[x := item.(subscribed := true)];
      if item.channel { CreateStub(x); }
    }

    method RemoveItem(x: ItemRef)
      requires x in items
      modifies this
      ensures View() == SubscriptionClient.DestroyItem(old(View()), x)
    {
      if items[x].state.Created? { DeleteStub(x); }
      items := items - {x};
    }

    method AddItem(kind: Kind, now: Time) returns (x: ItemRef)
      modifies this
      ensures View() == SubscriptionClient.CreateMonitoredItem(old(View()), kind, now) && x == old(nextRef)
    {
      x := nextRef;
      nextRef := nextRef + 1;
      items := items[x := Item(kind, false, false, false, false, 0, Deleted, 0, NO_VALUE)];
      monitored := monitored + [x];
      if state.Created? {
        if !sender { panicked := true; return; }
        OnItemChannelOpened(x, now);
      }
    }

    method StartSession()
      modifies this
      ensures View() == SessionCreated(old(View()))
    {
      if sessionCreated { panicked := true; return; }
      transport, base, asked, dropped := true, nextRequestId, [], {};
      sessionCreated := true;
      assert View() == old(View()).(transport := true, sessionCreated := true, base := old(nextRequestId),
                                    asked := [], dropped := {});
      OnSubscriptionChannelOpened();
    }

    method LoseSession()
      modifies this
      ensures View() == SessionLost(old(View()))
    {
      transport, asked := false, [];
      FailRequests();
      if !sessionCreated { return; }
      sessionCreated := false;
      OnSubscriptionChannelClosed();
    }

    // ---------- the handlers that events reach ----------

    /** A new item: open at once if the subscription is created, and later otherwise. */
    method CreateMonitoredItem(kind: Kind, now: Time) returns (x: ItemRef)
      requires Valid()
      modifies this
      ensures Valid() && View() == SubscriptionClient.CreateMonitoredItem(old(View()), kind, now)
      ensures x !in old(items) && x in items && !items[x].subscribed && items[x].kind == kind
      ensures if state.Created? then items[x].FullyOpen() else items[x].FullyClosed()
    {
      CreateMonitoredItemKeeps(View(), kind, now);
      CreateMeans(View(), kind, now);
      x := AddItem(kind, now);
    }

    /** Subscribing asks the server for the item if its channel is open; the caller subscribes once. */
    method Subscribe(x: ItemRef)
      requires Valid() && x in items && !items[x].subscribed
      modifies this
      ensures Valid() && View() == SubscribeItem(old(View()), x)
      ensures x in items && items[x].subscribed && (items[x].state.Creating? <==> state.Created?)
      ensures state.Created? ==> old(nextRequestId) in pending && pending[old(nextRequestId)] == ItemResult(x)
    {
      SubscribeKeeps(View(), x);
      SubscribeMeans(View(), x);
      SubscribeTo(x);
    }

    /** A destroyed item is routed to no more, and the server is asked to let it go if it has it. */
    method DestroyItem(x: ItemRef)
      requires Valid() && x in items
      modifies this
      ensures Valid() && View() == SubscriptionClient.DestroyItem(old(View()), x)
      ensures items == old(items) - {x} && forall k :: k in observers ==> observers[k] != x
      ensures var item := old(items)[x];
              var deletion := SubscriptionClient.Request(old(nextRequestId), DeleteItem(1, item.id));
              item.state.Created? ==> asked == old(asked) + [deletion]
    {
      DestroyKeeps(View(), x);
      DestroyMeans(View(), x);
      RemoveItem(x);
    }

    /** A new session asks for its subscription; no item is open before that is answered. */
    method OnSessionCreated()
      requires Valid() && !sessionCreated
      modifies this
      ensures Valid() && View() == SessionCreated(old(View()))
      ensures sessionCreated && state.Creating? && observers == map[]
    {
      SessionCreatedKeeps(View());
      StartSession();
    }

    /**
     * The end of a connection fails a check exactly when there is a session, an item is alive and the subscription
     * is not created; otherwise nothing is pending or routed any more, and every item is closed.
     */
    method OnSessionError()
      requires Valid()
      modifies this
      ensures View() == SessionLost(old(View())) && (panicked <==> old(sessionCreated) && !CanClose(old(View())))
      ensures !panicked ==> Valid() && !sessionCreated && pending == map[] && observers == map[]
      ensures !panicked ==> forall x :: x in items ==> items[x].FullyClosed()
    {
      if sessionCreated && !CanClose(View()) {
        SessionLostPanics(View());
      } else {
        LostMeans(View());
      }
      LoseSession();
    }

    /**
     * A protocol message whose parts the client can take fails no check. A single response or notification fails
     * one exactly when it repeats a registered id or is for an item of the other kind. The news that the session is
     * gone ends it like the loss of the connection.
     */
    method OnMessageReceived(parts: seq<Part>, now: Time)
      requires Valid() && ObserversAlive(View())
      modifies this
      ensures View() == HandleAll(old(View()), parts, now)
      ensures Welcome(old(View()), parts, now) ==> Valid()
      ensures |parts| == 1 && parts[0].Plain? ==> (panicked <==> FailsCheck(old(View()), parts[0].message))
      ensures parts != [] && parts[0].SessionDeleted? ==>
                && (panicked <==> old(sessionCreated) && !CanClose(old(View())))
                && (!panicked ==> Valid() && !sessionCreated && pending == map[] && observers == map[])
    {
      if parts != [] && parts[0].SessionDeleted? {
        assert parts == [SessionDeleted] + parts[1..];
        SessionDeletedEnds(View(), parts[1..], now);
      }
      if Welcome(View(), parts, now) { HandleAllKeeps(View(), parts, now); }
      if |parts| == 1 && parts[0].Plain? { HandleOne(View(), parts, now); }
      HandleParts(parts, now);
    }
  }
}
