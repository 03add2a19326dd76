/**
 The subscription protocol end to end: the client of `SubscriptionClient`, the server's `SessionStub`
 with its `SubscriptionStub`s, and the two ordered channels between them, as a step relation.

 A channel is the log of what was written to it and a cursor for what was read; both restart with each
 connection. `issued` and `ended` are history: where each item id was announced, and how it ended.
 */
module SubscriptionProtocol {
  import opened DataValues
  import opened SubscriptionClient
  import opened SubscriptionClientInvariant

  /** One `SubscriptionStub`. */
  datatype Stub = Stub(nextId: int, items: map<int, Kind>)

  datatype Message =
    | SubscriptionReply(request: nat, ok: bool, subscription: int)
    | ItemReply(request: nat, ok: bool, id: int)
    | DeleteReply(request: nat)
    | DataNote(id: int, value: DataValue)
    | EventNote(id: int, bad: bool, carried: bool)

  /** The kind of an issued item and the position of the reply that announced its id. */
  datatype Issue = Issue(kind: Kind, born: nat)

  /** How the server let an item go by itself: with a bad notification, or without telling the client. */
  datatype End = BadValue(at: nat, value: DataValue) | BadEvent(at: nat) | Muted

  datatype World = World(
    client: Client,
    nextSubscriptionId: int,
    stubs: map<int, Stub>,
    handled: nat,
    sent: seq<Message>,
    delivered: nat,
    issued: map<int, Issue>,
    ended: map<int, End>)

  /** What an event handler is called with: no event, an event that converts, or one with a zero id. */
  datatype Payload = NoPayload | Convertible | Screened

  datatype Step =
    | Connect
    | Disconnect
    | NewItem(kind: Kind, now: Time)
    | Subscribe(item: ItemRef)
    | Destroy(item: ItemRef)
    | Serve(accept: bool)
    | Sample(subscription: int, id: int, value: DataValue)
    | Raise(subscription: int, id: int, bad: bool, payload: Payload)
    | Deliver(now: Time)

  const START := World(INITIAL, 1, map[], 0, [], 0, map[], map[])

  // ---------- the server's handlers ----------

  function Send(w: World, m: Message): World { w.(sent := w.sent + [m]) }

  function ServeRequest(w: World, request: Request, accept: bool): World {
    match request.body
    case CreateSubscription =>
      Send(w.(stubs := w.stubs[w.nextSubscriptionId := Stub(1, map[])],
              nextSubscriptionId := w.nextSubscriptionId + 1),
           SubscriptionReply(request.id, true, w.nextSubscriptionId))
    case CreateItem(subscription, kind) =>
      if subscription !in w.stubs then w
      else if !accept then Send(w, ItemReply(request.id, false, 0))
      else
        var stub := w.stubs[subscription];
        Send(w.(stubs := w.stubs[subscription := Stub(stub.nextId + 1, stub.items[stub.nextId := kind])],
                issued := w.issued[stub.nextId := Issue(kind, |w.sent|)]),
             ItemReply(request.id, true, stub.nextId))
    case DeleteItem(subscription, id) =>
      if subscription !in w.stubs then w
      else
        var stub := w.stubs[subscription];
        Send(w.(stubs := w.stubs[subscription := stub.(items := stub.items - {id})]), DeleteReply(request.id))
  }

  /** Drops an item that reported a bad status. */
  function Release(w: World, subscription: int, id: int, end: End): World
    requires subscription in w.stubs
  {
    var stub := w.stubs[subscription];
    w.(stubs := w.stubs[subscription := stub.(items := stub.items - {id})], ended := w.ended[id := end])
  }

  predicate Holds(w: World, subscription: int, id: int, kind: Kind) {
    subscription in w.stubs && id in w.stubs[subscription].items && w.stubs[subscription].items[id] == kind
  }

  /** `SubscriptionStub::OnDataChange`; a sample flagged failed has a bad status. */
  function SampleItem(w: World, subscription: int, id: int, value: DataValue): World {
    if !Holds(w, subscription, id, ValueKind) || (value.Failed() && !value.status.IsBad()) then w
    else
      var w1 := if value.status.IsBad() then Release(w, subscription, id, BadValue(|w.sent|, value)) else w;
      Send(w1, DataNote(id, value))
  }

  /** `SubscriptionStub::OnEvent`. A notification carries something only if the event converts. */
  function RaiseEvent(w: World, subscription: int, id: int, bad: bool, payload: Payload): World {
    if !Holds(w, subscription, id, EventKind) then w
    else
      var end := if payload.Convertible? then BadEvent(|w.sent|) else Muted;
      var w1 := if bad then Release(w, subscription, id, end) else w;
      if payload.Screened? then w1 else Send(w1, EventNote(id, bad, payload.Convertible?))
  }

  // ---------- the client's message dispatch ----------

  function Dispatch(c: Client, m: Message, now: Time): Client
    requires forall k :: k in c.observers ==> c.observers[k] in c.items
  {
    match m
    case SubscriptionReply(request, ok, subscription) =>
      if request !in c.pending then c
      else Respond(c.(pending := c.pending - {request}), c.pending[request], ok, subscription, now)
    case ItemReply(request, ok, id) =>
      if request !in c.pending then c
      else Respond(c.(pending := c.pending - {request}), c.pending[request], ok, id, now)
    case DeleteReply(request) =>
      if request !in c.pending then c
      else Respond(c.(pending := c.pending - {request}), c.pending[request], true, 0, now)
    case DataNote(id, value) =>
      if id !in c.observers then c else ItemData(c, c.observers[id], value)
    case EventNote(id, bad, carried) =>
      if !carried || id !in c.observers then c else ItemEvent(c, c.observers[id], bad)
  }

  function Respond(c: Client, handler: Handler, ok: bool, id: int, now: Time): Client {
    match handler
    case SubscriptionResult => SubscriptionCreated(c, ok, id, now)
    case ItemResult(x) => ItemCreated(c, x, ok, id)
  }

  // ---------- runs ----------

  /** One atomic handler run. A step that is not possible leaves the world as it is. */
  function Apply(w: World, step: Step): World {
    var c := w.client;
    if c.panicked then w else
    match step
    case Connect => if c.sessionCreated then w else START.(client := SessionCreated(c))
    case Disconnect => if !c.sessionCreated then w else START.(client := SessionLost(c))
    case NewItem(kind, now) => w.(client := CreateMonitoredItem(c, kind, now))
    case Subscribe(x) =>
      if x in c.items && !c.items[x].subscribed then w.(client := SubscribeItem(c, x)) else w
    case Destroy(x) => if x in c.items then w.(client := DestroyItem(c, x)) else w
    case Serve(accept) =>
      if w.handled < |c.asked| then ServeRequest(w.(handled := w.handled + 1), c.asked[w.handled], accept) else w
    case Sample(subscription, id, value) => SampleItem(w, subscription, id, value)
    case Raise(subscription, id, bad, payload) => RaiseEvent(w, subscription, id, bad, payload)
    case Deliver(now) =>
      if w.delivered < |w.sent| && ObserversAlive(c)
      then w.(client := Dispatch(c, w.sent[w.delivered], now), delivered := w.delivered + 1) else w
  }

  /** The observer map never points to a destroyed item. */
  predicate ObserversAlive(c: Client) { forall k :: k in c.observers ==> c.observers[k] in c.items }

  function Run(steps: seq<Step>): World {
    if steps == [] then START else Apply(Run(steps[..|steps| - 1]), steps[|steps| - 1])
  }

  /** The step loses a session whose subscription is not created while an item is alive. */
  predicate ClosesBadly(w: World, step: Step) {
    step.Disconnect? && w.client.sessionCreated && !CanClose(w.client)
  }

  predicate BadAt(steps: seq<Step>, i: nat)
    requires i < |steps|
  {
    ClosesBadly(Run(steps[..i]), steps[i])
  }

  /** Every session that is lost in the run can be closed. */
  predicate ClosesCleanly(steps: seq<Step>) { forall i :: 0 <= i < |steps| ==> !BadAt(steps, i) }

  // ---------- messages a client can take ----------

  /** A reply to a pending request: the session's one subscription, or an item id new in this session. */
  predicate ReplyOk(c: Client, r: nat, ok: bool, id: int) {
    r in c.pending ==>
      match c.pending[r]
      case SubscriptionResult => ok && id == 1
      case ItemResult(_) => ok ==> id !in c.observers && id !in c.dropped
  }

  /** Replies bring fresh ids, and notifications fit the kind of the item they are for. */
  predicate Acceptable(c: Client, m: Message) {
    match m
    case SubscriptionReply(r, ok, id) => ReplyOk(c, r, ok, id)
    case ItemReply(r, ok, id) => ReplyOk(c, r, ok, id)
    case DeleteReply(r) => r !in c.pending
    case DataNote(id, _) => id in c.observers && c.observers[id] in c.items ==> c.items[c.observers[id]].kind.ValueKind?
    case EventNote(id, _, carried) =>
      carried && id in c.observers && c.observers[id] in c.items ==> c.items[c.observers[id]].kind.EventKind?
  }

  lemma InvIsAlive(c: Client)
    requires ClientInv(c, {})
    ensures ObserversAlive(c)
  {
    forall k | k in c.observers ensures c.observers[k] in c.items { assert ObserverOk(c, k); }
  }

  lemma ReplyKeeps(c: Client, r: nat, ok: bool, id: int, now: Time)
    requires ClientInv(c, {}) && r in c.pending && ReplyOk(c, r, ok, id)
    ensures ClientInv(Respond(c.(pending := c.pending - {r}), c.pending[r], ok, id, now), {})
  {
    assert PendingOk(c, r);
    match c.pending[r] {
      case SubscriptionResult => SubscriptionCreatedKeeps(c, now);
      case ItemResult(_) => ItemCreatedKeeps(c, r, ok, id);
    }
  }

  /** No acceptable message fails a check, and each keeps the client's invariant. */
  lemma DispatchKeeps(c: Client, m: Message, now: Time)
    requires ClientInv(c, {}) && ObserversAlive(c) && Acceptable(c, m)
    ensures ClientInv(Dispatch(c, m, now), {})
  {
    match m {
      case SubscriptionReply(r, ok, id) => if r in c.pending { ReplyKeeps(c, r, ok, id, now); }
      case ItemReply(r, ok, id) => if r in c.pending { ReplyKeeps(c, r, ok, id, now); }
      case DeleteReply(_) =>
      case DataNote(id, value) =>
        if id in c.observers {
          assert ObserverOk(c, id);
          ItemDataKeeps(c, id, value);
        }
      case EventNote(id, bad, carried) =>
        if carried && id in c.observers {
          assert ObserverOk(c, id);
          ItemEventKeeps(c, id, bad);
        }
    }
  }

  // ---------- messages that fail a check ----------

  /** The reply calls a live item with an id that some item is registered under. */
  predicate ReplyFails(c: Client, r: nat, ok: bool, id: int) {
    && r in c.pending && c.pending[r].ItemResult? && c.pending[r].item in c.items
    && ok && id in c.observers
  }

  /** A reply repeats a registered id, or a notification is for an item of the other kind. */
  predicate FailsCheck(c: Client, m: Message) {
    match m
    case SubscriptionReply(r, ok, id) => ReplyFails(c, r, ok, id)
    case ItemReply(r, ok, id) => ReplyFails(c, r, ok, id)
    case DeleteReply(r) => ReplyFails(c, r, true, 0)
    case DataNote(id, _) => id in c.observers && c.observers[id] in c.items && c.items[c.observers[id]].kind.EventKind?
    case EventNote(id, _, carried) =>
      carried && id in c.observers && c.observers[id] in c.items && c.items[c.observers[id]].kind.ValueKind?
  }

  predicate Openable(c: Client, x: ItemRef)
    requires x in c.items
  {
    c.items[x].state.Deleted? && c.items[x].FullyClosed()
  }

  lemma OpenOne(c: Client, xs: seq<ItemRef>, now: Time)
    requires !c.panicked && xs != [] && Distinct(xs) && forall x :: x in xs ==> x in c.items && Openable(c, x)
    ensures xs[0] in c.items
    ensures var d := ItemChannelOpened(c, xs[0], now);
            !d.panicked && forall x :: x in xs[1..] ==> x in d.items && Openable(d, x)
  {
    assert xs[0] in xs && Openable(c, xs[0]);
    var d := ItemChannelOpened(c, xs[0], now);
    TailMembers(xs, set x | x in xs);
    forall x | x in xs[1..] ensures x in d.items && Openable(d, x) { assert x in xs && Openable(c, x); }
  }

  lemma {:induction false} OpenAllFailsNothing(c: Client, xs: seq<ItemRef>, now: Time)
    requires !c.panicked && Distinct(xs) && forall x :: x in xs ==> x in c.items && Openable(c, x)
    ensures !OpenAll(c, xs, now).panicked
    decreases |xs|
  {
    if xs != [] {
      OpenOne(c, xs, now);
      TailMembers(xs, set x | x in xs);
      OpenAllFailsNothing(ItemChannelOpened(c, xs[0], now), xs[1..], now);
    }
  }

  lemma SubscriptionReplyFailsNothing(c: Client, r: nat, ok: bool, id: int, now: Time)
    requires ClientInv(c, {}) && r in c.pending && c.pending[r].SubscriptionResult?
    ensures !SubscriptionCreated(c.(pending := c.pending - {r}), ok, id, now).panicked
  {
    assert PendingOk(c, r);
    var live := Live(c.monitored, c.items);
    var d := c.(pending := c.pending - {r}, state := Created, subscriptionId := id, monitored := live);
    LiveDistinct(c.monitored, c.items);
    forall x | x in live ensures x in d.items && Openable(d, x) { assert ItemOk(c, x, {}); }
    OpenAllFailsNothing(d, live, now);
  }

  lemma ReplyFailsIff(c: Client, r: nat, ok: bool, id: int, now: Time)
    requires ClientInv(c, {}) && r in c.pending
    ensures Respond(c.(pending := c.pending - {r}), c.pending[r], ok, id, now).panicked <==> ReplyFails(c, r, ok, id)
  {
    assert PendingOk(c, r);
    match c.pending[r] {
      case SubscriptionResult => SubscriptionReplyFailsNothing(c, r, ok, id, now);
      case ItemResult(x) => if x in c.items { assert ItemOk(c, x, {}); }
    }
  }

  lemma NoteFailsIff(c: Client, k: int, value: DataValue, bad: bool)
    requires ClientInv(c, {}) && k in c.observers && c.observers[k] in c.items
    ensures ItemData(c, c.observers[k], value).panicked <==> c.items[c.observers[k]].kind.EventKind?
    ensures ItemEvent(c, c.observers[k], bad).panicked <==> c.items[c.observers[k]].kind.ValueKind?
  {
    assert ObserverOk(c, k) && ItemOk(c, c.observers[k], {});
  }

  /** The condition is exact: a message fails a check if and only if it is one of these. */
  lemma DispatchFailsIff(c: Client, m: Message, now: Time)
    requires ClientInv(c, {}) && ObserversAlive(c)
    ensures Dispatch(c, m, now).panicked <==> FailsCheck(c, m)
  {
    match m {
      case SubscriptionReply(r, ok, id) => if r in c.pending { ReplyFailsIff(c, r, ok, id, now); }
      case ItemReply(r, ok, id) => if r in c.pending { ReplyFailsIff(c, r, ok, id, now); }
      case DeleteReply(r) => if r in c.pending { ReplyFailsIff(c, r, true, 0, now); }
      case DataNote(id, value) => if id in c.observers { NoteFailsIff(c, id, value, false); }
      case EventNote(id, bad, carried) => if carried && id in c.observers { NoteFailsIff(c, id, NO_VALUE, bad); }
    }
  }
}
