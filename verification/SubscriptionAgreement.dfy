/** Every run keeps client, channels and server in agreement. */
module SubscriptionAgreement {
  import opened DataValues
  import opened SubscriptionClient
  import opened SubscriptionClientInvariant
  import opened SubscriptionProtocol

  // ---------- the invariant of the whole system ----------

  /** The items of the one subscription a session creates. */
  function Items(w: World): map<int, Kind> { if 1 in w.stubs then w.stubs[1].items else map[] }

  function NextId(w: World): int { if 1 in w.stubs then w.stubs[1].nextId else 1 }

  /** The message is a notification for item id k. */
  predicate About(m: Message, k: int) { (m.DataNote? || m.EventNote?) && m.id == k }

  predicate Started(w: World) {
    var c := w.client;
    if !c.transport then w == START.(client := c)
    else
      && w.handled <= |c.asked| && w.delivered <= |w.sent|
      && (c.state.Creating? <==> w.delivered == 0)
      && (c.state.Creating? ==> c.base in c.pending && c.pending[c.base].SubscriptionResult?)
      && if w.handled == 0 then w == START.(client := c)
         else w.stubs.Keys == {1} && w.sent != [] && w.sent[0] == SubscriptionReply(c.base, true, 1)
  }

  /** What a message says is still true of the server, and a reply not read yet is still awaited. */
  predicate MessageOk(w: World, j: nat)
    requires j < |w.sent|
  {
    var c := w.client;
    match w.sent[j]
    case SubscriptionReply(r, ok, s) => j == 0
    case ItemReply(r, ok, id) =>
      && c.base < r < c.base + w.handled && r < c.base + |c.asked| && c.asked[r - c.base].body.CreateItem?
      && (w.delivered <= j ==> Waits(c, r))
      && (ok ==> id in w.issued && w.issued[id] == Issue(c.asked[r - c.base].body.kind, j))
    case DeleteReply(r) =>
      c.base < r < c.base + w.handled && r < c.base + |c.asked| && c.asked[r - c.base].body.DeleteItem?
    case DataNote(id, value) =>
      && id in w.issued && w.issued[id].kind.ValueKind? && w.issued[id].born < j
      && (value.status.IsBad() ==> id in w.ended && w.ended[id] == BadValue(j, value))
    case EventNote(id, bad, carried) =>
      && id in w.issued && w.issued[id].kind.EventKind? && w.issued[id].born < j
      && (bad ==> id in w.ended && w.ended[id] == if carried then BadEvent(j) else Muted)
  }

  /** Item replies come in the order of the requests they answer. */
  predicate RepliesOrdered(w: World) {
    forall i, j :: 0 <= i < j < |w.sent| && w.sent[i].ItemReply? && w.sent[j].ItemReply? ==>
      w.sent[i].request < w.sent[j].request
  }

  /** Creation requests the server has not read yet are awaited. */
  predicate UnservedOk(w: World) {
    forall i :: w.handled <= i < |w.client.asked| && w.client.asked[i].body.CreateItem? ==>
      Waits(w.client, w.client.base + i)
  }

  /** Once its announcement is read, the client routes an issued id or has dropped it. */
  predicate IssueOk(w: World, k: int)
    requires k in w.issued
  {
    && 1 <= k < NextId(w)
    && w.issued[k].born < |w.sent| && w.sent[w.issued[k].born].ItemReply?
    && w.sent[w.issued[k].born].ok && w.sent[w.issued[k].born].id == k
    && (w.issued[k].born < w.delivered ==> k in w.client.observers || k in w.client.dropped)
    && (k in Items(w) || k in w.ended || k in w.client.dropped)
  }

  predicate HeldOk(w: World, k: int)
    requires k in Items(w)
  {
    k in w.issued && w.issued[k].kind == Items(w)[k] && k !in w.ended
  }

  predicate LastNote(w: World, at: nat, m: Message, k: int) {
    && at < |w.sent| && w.sent[at] == m
    && forall j :: at < j < |w.sent| ==> !About(w.sent[j], k)
  }

  /** A bad notification is the last one about its item. */
  predicate EndOk(w: World, k: int)
    requires k in w.ended
  {
    && k in w.issued && k !in Items(w)
    && match w.ended[k] {
         case BadValue(at, value) => value.status.IsBad() && LastNote(w, at, DataNote(k, value), k)
         case BadEvent(at) => w.issued[k].kind.EventKind? && LastNote(w, at, EventNote(k, true, true), k)
         case Muted => w.issued[k].kind.EventKind?
       }
  }

  /** A registered id was announced, with the item's kind; if it ended, its bad note is unread or already shown. */
  predicate KnownOk(w: World, k: int)
    requires k in w.client.observers && w.client.observers[k] in w.client.items
  {
    var item := w.client.items[w.client.observers[k]];
    && k in w.issued && w.issued[k].born < w.delivered && w.issued[k].kind == item.kind
    && (k in w.ended ==>
          match w.ended[k] {
            case BadValue(at, value) => at < w.delivered ==> item.current == value
            case BadEvent(at) => w.delivered <= at
            case Muted => true
          })
  }

  predicate DroppedOk(w: World, k: int) { k in w.issued && w.issued[k].born < w.delivered }

  predicate Channel(w: World) {
    (forall j :: 0 <= j < |w.sent| ==> MessageOk(w, j)) && RepliesOrdered(w) && UnservedOk(w)
  }

  predicate Ledger(w: World) {
    && NextId(w) >= 1
    && (forall k :: k in w.issued ==> IssueOk(w, k))
    && (forall k :: k in Items(w) ==> HeldOk(w, k))
    && (forall k :: k in w.ended ==> EndOk(w, k))
  }

  predicate Known(w: World) {
    && (forall k :: k in w.client.observers ==> w.client.observers[k] in w.client.items && KnownOk(w, k))
    && (forall k :: k in w.client.dropped ==> DroppedOk(w, k))
  }

  predicate Net(w: World) { Started(w) && (w.client.transport ==> Channel(w) && Ledger(w) && Known(w)) }

  predicate Inv(w: World) { ClientInv(w.client, {}) && Net(w) }

  // ---------- client steps ----------

  /** The channel depends on the client only through what it asked and still awaits. */
  predicate Preserves(c: Client, d: Client) {
    && c.base == d.base && |c.asked| <= |d.asked|
    && (forall i :: 0 <= i < |c.asked| ==> d.asked[i] == c.asked[i])
    && (forall r :: r in c.pending && Waits(c, r) ==> Waits(d, r))
    && (forall i :: |c.asked| <= i < |d.asked| && d.asked[i].body.CreateItem? ==> AddedAt(d, i))
  }

  lemma ChannelFrame(w: World, d: Client)
    requires Channel(w) && Preserves(w.client, d)
    ensures Channel(w.(client := d))
  {
    var v := w.(client := d);
    forall j | 0 <= j < |v.sent| ensures MessageOk(v, j) { assert MessageOk(w, j); }
    forall i | v.handled <= i < |d.asked| && d.asked[i].body.CreateItem? ensures Waits(d, d.base + i) {
      if i < |w.client.asked| { assert Waits(w.client, w.client.base + i); } else { assert AddedAt(d, i); }
    }
  }

  /** The server's ledger depends on the client only through the ids it routes or has dropped. */
  lemma LedgerFrame(w: World, d: Client)
    requires Ledger(w)
    requires w.client.observers.Keys <= d.observers.Keys + d.dropped && w.client.dropped <= d.dropped
    ensures Ledger(w.(client := d))
  {
    var v := w.(client := d);
    forall k | k in v.issued ensures IssueOk(v, k) { assert IssueOk(w, k); }
    forall k | k in Items(v) ensures HeldOk(v, k) { assert HeldOk(w, k); }
    forall k | k in v.ended ensures EndOk(v, k) { assert EndOk(w, k); }
  }

  lemma ExtendKeepsKnown(w: World, d: Client)
    requires Known(w) && Extends(w.client, d)
    requires forall k :: k in w.client.observers ==> ObserverOk(w.client, k)
    ensures Known(w.(client := d))
  {
    var v := w.(client := d);
    forall k | k in d.observers ensures d.observers[k] in d.items && KnownOk(v, k) {
      assert ObserverOk(w.client, k) && KnownOk(w, k);
    }
    forall k | k in d.dropped ensures DroppedOk(v, k) { assert DroppedOk(w, k); }
  }

  lemma ExtendKeeps(w: World, d: Client)
    requires Inv(w) && ClientInv(d, {}) && Extends(w.client, d)
    ensures Inv(w.(client := d))
  {
    if d.transport {
      ChannelFrame(w, d);
      LedgerFrame(w, d);
      ExtendKeepsKnown(w, d);
    }
  }

  /** What destroying an item does to the part of the client the network can see. */
  lemma DestroyEffect(c: Client, x: ItemRef)
    requires ClientInv(c, {}) && x in c.items
    ensures var d := DestroyItem(c, x);
            && d.base == c.base && d.transport == c.transport && d.state == c.state && d.pending == c.pending
            && d.items == c.items - {x}
            && (if c.items[x].state.Created?
                then && c.transport && c.items[x].id in c.observers
                     && d.observers == c.observers - {c.items[x].id} && d.dropped == c.dropped + {c.items[x].id}
                     && d.asked == c.asked + [Request(c.nextRequestId, DeleteItem(1, c.items[x].id))]
                else d.observers == c.observers && d.dropped == c.dropped && d.asked == c.asked)
  {
    assert ItemOk(c, x, {});
  }

  lemma DestroyKeepsKnown(w: World, x: ItemRef)
    requires ClientInv(w.client, {}) && x in w.client.items && Known(w)
    ensures Known(w.(client := DestroyItem(w.client, x)))
  {
    DestroyEffect(w.client, x);
    var d := DestroyItem(w.client, x);
    var v := w.(client := d);
    forall k | k in d.observers ensures d.observers[k] in d.items && KnownOk(v, k) {
      assert ObserverOk(w.client, k) && KnownOk(w, k);
    }
    forall k | k in d.dropped ensures DroppedOk(v, k) {
      if k in w.client.dropped { assert DroppedOk(w, k); } else { assert KnownOk(w, k); }
    }
  }

  lemma DestroyStepKeeps(w: World, x: ItemRef)
    requires Inv(w) && x in w.client.items
    ensures Inv(w.(client := DestroyItem(w.client, x)))
  {
    DestroyKeeps(w.client, x);
    DestroyEffect(w.client, x);
    if w.client.transport {
      ChannelFrame(w, DestroyItem(w.client, x));
      LedgerFrame(w, DestroyItem(w.client, x));
      DestroyKeepsKnown(w, x);
    }
  }

  // ---------- server steps ----------

  /** The server wrote at most one message, and may have issued or ended items. */
  predicate Grows(w: World, v: World) {
    && v.client == w.client && v.delivered == w.delivered
    && w.handled <= v.handled <= |w.client.asked|
    && |w.sent| <= |v.sent| <= |w.sent| + 1
    && (forall j :: 0 <= j < |w.sent| ==> v.sent[j] == w.sent[j])
    && (forall k :: k in w.issued ==> k in v.issued && v.issued[k] == w.issued[k])
    && (forall k :: k in w.ended ==> k in v.ended && v.ended[k] == w.ended[k])
    && NextId(w) <= NextId(v)
  }

  predicate NewMessageOk(w: World, v: World) {
    |w.sent| < |v.sent| ==>
      && MessageOk(v, |w.sent|)
      && (v.sent[|w.sent|].ItemReply? ==> w.client.base + w.handled <= v.sent[|w.sent|].request)
  }

  predicate NewItemsOk(w: World, v: World) {
    && (forall k :: k in v.issued && k !in w.issued ==> IssueOk(v, k))
    && (forall k :: k in Items(v) ==> HeldOk(v, k))
    && (forall k :: k in Items(w) ==> k in Items(v) || k in v.ended || k in w.client.dropped)
  }

  predicate NewEndsOk(w: World, v: World) {
    && (forall k :: k in w.ended ==> k !in Items(v) && (|w.sent| < |v.sent| ==> !About(v.sent[|w.sent|], k)))
    && (forall k :: k in v.ended && k !in w.ended ==>
          EndOk(v, k) && !(v.ended[k].BadValue? && v.ended[k].at < w.delivered)
                      && !(v.ended[k].BadEvent? && v.ended[k].at < w.delivered))
  }

  lemma GrowKeepsChannel(w: World, v: World)
    requires Grows(w, v) && NewMessageOk(w, v) && Channel(w)
    ensures Channel(v)
  {
    forall j | 0 <= j < |v.sent| ensures MessageOk(v, j) {
      if j < |w.sent| { assert MessageOk(w, j); }
    }
    forall i, j | 0 <= i < j < |v.sent| && v.sent[i].ItemReply? && v.sent[j].ItemReply?
      ensures v.sent[i].request < v.sent[j].request
    {
      assert MessageOk(w, i);
    }
    assert UnservedOk(w);
  }

  lemma GrowKeepsLedger(w: World, v: World)
    requires Grows(w, v) && NewItemsOk(w, v) && NewEndsOk(w, v) && Ledger(w)
    ensures Ledger(v)
  {
    forall k | k in v.issued ensures IssueOk(v, k) {
      if k in w.issued { assert IssueOk(w, k); }
    }
    forall k | k in v.ended ensures EndOk(v, k) {
      if k in w.ended { assert EndOk(w, k); }
    }
  }

  lemma GrowKeepsKnown(w: World, v: World)
    requires Grows(w, v) && NewEndsOk(w, v) && Known(w)
    ensures Known(v)
  {
    forall k | k in v.client.observers ensures v.client.observers[k] in v.client.items && KnownOk(v, k) {
      assert KnownOk(w, k);
    }
    forall k | k in v.client.dropped ensures DroppedOk(v, k) { assert DroppedOk(w, k); }
  }

  lemma GrowKeeps(w: World, v: World)
    requires Net(w) && w.client.transport && Started(v) && Grows(w, v)
    requires NewMessageOk(w, v) && NewItemsOk(w, v) && NewEndsOk(w, v)
    ensures Net(v)
  {
    GrowKeepsChannel(w, v);
    GrowKeepsLedger(w, v);
    GrowKeepsKnown(w, v);
  }

  predicate CanServe(w: World) { w.client.transport && w.handled < |w.client.asked| }

  function Served(w: World, accept: bool): World
    requires w.handled < |w.client.asked|
  {
    ServeRequest(w.(handled := w.handled + 1), w.client.asked[w.handled], accept)
  }

  /** The next request to serve: the first one creates the subscription, the others refer to it. */
  predicate NextRequestOk(w: World)
    requires CanServe(w)
  {
    var c := w.client;
    var request := c.asked[w.handled];
    && request.id == c.base + w.handled
    && (w.handled > 0 ==> 1 in w.stubs)
    && match request.body {
         case CreateSubscription => w.handled == 0
         case CreateItem(subscription, _) =>
           && w.handled > 0 && subscription == 1 && Waits(c, c.base + w.handled)
           && NextId(w) !in w.issued && NextId(w) !in w.ended
         case DeleteItem(subscription, id) => w.handled > 0 && subscription == 1 && id in c.dropped
       }
  }

  lemma NextRequest(w: World)
    requires Net(w) && CanServe(w) && AskedOk(w.client, w.handled)
    ensures NextRequestOk(w)
  {
    assert UnservedOk(w);
    assert forall k :: k in w.issued ==> IssueOk(w, k);
    assert forall k :: k in w.ended ==> EndOk(w, k);
  }

  lemma ServeSubscriptionKeeps(w: World, accept: bool)
    requires Net(w) && CanServe(w) && NextRequestOk(w) && w.client.asked[w.handled].body.CreateSubscription?
    ensures Net(Served(w, accept))
  {
    GrowKeeps(w, Served(w, accept));
  }

  lemma ServeCreateKeeps(w: World)
    requires Net(w) && CanServe(w) && NextRequestOk(w) && w.client.asked[w.handled].body.CreateItem?
    ensures Net(Served(w, true))
  {
    var v := Served(w, true);
    assert NewEndsOk(w, v) by {
      forall k | k in w.ended ensures k !in Items(v) { assert EndOk(w, k); }
    }
    assert NewItemsOk(w, v) by {
      forall k | k in Items(v) ensures HeldOk(v, k) {
        if k in Items(w) && k != NextId(w) { assert HeldOk(w, k); }
      }
      assert w.issued.Keys + {NextId(w)} == v.issued.Keys;
    }
    GrowKeeps(w, v);
  }

  lemma ServeRefuseKeeps(w: World)
    requires Net(w) && CanServe(w) && NextRequestOk(w) && w.client.asked[w.handled].body.CreateItem?
    ensures Net(Served(w, false))
  {
    var v := Served(w, false);
    assert NewEndsOk(w, v) by {
      forall k | k in w.ended ensures k !in Items(v) { assert EndOk(w, k); }
    }
    assert NewItemsOk(w, v) by {
      forall k | k in Items(v) ensures HeldOk(v, k) { assert HeldOk(w, k); }
    }
    GrowKeeps(w, v);
  }

  lemma ServeDeleteKeeps(w: World, accept: bool)
    requires Net(w) && CanServe(w) && NextRequestOk(w) && w.client.asked[w.handled].body.DeleteItem?
    ensures Net(Served(w, accept))
  {
    var v := Served(w, accept);
    assert NewEndsOk(w, v) by {
      forall k | k in w.ended ensures k !in Items(v) { assert EndOk(w, k); }
    }
    assert NewItemsOk(w, v) by {
      forall k | k in Items(v) ensures HeldOk(v, k) { assert HeldOk(w, k); }
    }
    GrowKeeps(w, v);
  }

  lemma ServeKeeps(w: World, accept: bool)
    requires Inv(w) && CanServe(w)
    ensures Inv(Served(w, accept))
  {
    assert AskedOk(w.client, w.handled);
    NextRequest(w);
    match w.client.asked[w.handled].body {
      case CreateSubscription => ServeSubscriptionKeeps(w, accept);
      case CreateItem(_, _) => if accept { ServeCreateKeeps(w); } else { ServeRefuseKeeps(w); }
      case DeleteItem(_, _) => ServeDeleteKeeps(w, accept);
    }
  }

  /** A held item reports something; it is released if the report is bad. */
  lemma ReportKeepsItems(w: World, v: World, id: int)
    requires Ledger(w) && id in Items(w) && v.issued == w.issued
    requires (v.ended == w.ended && Items(v) == Items(w))
          || (id in v.ended && v.ended - {id} == w.ended - {id} && Items(v) == Items(w) - {id})
    ensures NewItemsOk(w, v) && id !in w.ended
    ensures forall k :: k in w.ended ==> k !in Items(v)
  {
    assert HeldOk(w, id);
    forall k | k in Items(v) ensures HeldOk(v, k) {
      assert HeldOk(w, k);
      assert k in v.ended ==> k in v.ended - {id};
    }
    forall k | k in w.ended ensures k !in Items(v) { assert EndOk(w, k); }
  }

  lemma SampleKeeps(w: World, subscription: int, id: int, value: DataValue)
    requires Net(w)
    ensures Net(SampleItem(w, subscription, id, value))
  {
    var v := SampleItem(w, subscription, id, value);
    if v != w {
      assert subscription == 1 && HeldOk(w, id) && IssueOk(w, id);
      ReportKeepsItems(w, v, id);
      GrowKeeps(w, v);
    }
  }

  lemma RaiseKeeps(w: World, subscription: int, id: int, bad: bool, payload: Payload)
    requires Net(w)
    ensures Net(RaiseEvent(w, subscription, id, bad, payload))
  {
    if Holds(w, subscription, id, EventKind) {
      assert subscription == 1 && HeldOk(w, id) && IssueOk(w, id);
      if payload.Screened? {
        RaiseScreenedKeeps(w, id, bad);
      } else {
        RaiseSentKeeps(w, id, bad, payload);
      }
    }
  }

  lemma RaiseScreenedKeeps(w: World, id: int, bad: bool)
    requires Net(w) && id in Items(w) && HeldOk(w, id) && Items(w)[id].EventKind?
    ensures Net(RaiseEvent(w, 1, id, bad, Screened))
  {
    var v := RaiseEvent(w, 1, id, bad, Screened);
    ReportKeepsItems(w, v, id);
    GrowKeeps(w, v);
  }

  lemma RaiseSentKeeps(w: World, id: int, bad: bool, payload: Payload)
    requires Net(w) && id in Items(w) && HeldOk(w, id) && Items(w)[id].EventKind? && !payload.Screened?
    ensures Net(RaiseEvent(w, 1, id, bad, payload))
  {
    var v := RaiseEvent(w, 1, id, bad, payload);
    assert IssueOk(w, id);
    ReportKeepsItems(w, v, id);
    GrowKeeps(w, v);
  }

  // ---------- deliveries ----------

  predicate CanDeliver(w: World) { w.client.transport && w.delivered < |w.sent| }

  /** The world once the client has read one more message and become `d`. */
  function Read(w: World, d: Client): World { w.(client := d, delivered := w.delivered + 1) }

  /** A handler of a notification keeps what was asked and is awaited. */
  predicate SameRequests(c: Client, d: Client) {
    d.base == c.base && d.asked == c.asked && d.pending == c.pending && d.transport == c.transport && d.state == c.state
  }

  lemma ReadKeepsChannel(w: World, d: Client)
    requires Channel(w) && CanDeliver(w) && SameRequests(w.client, d)
    ensures Channel(Read(w, d))
  {
    var v := Read(w, d);
    forall j | 0 <= j < |v.sent| ensures MessageOk(v, j) { assert MessageOk(w, j); }
  }

  lemma ReadKeepsLedger(w: World, d: Client)
    requires Ledger(w) && CanDeliver(w) && !w.sent[w.delivered].ItemReply?
    requires w.client.observers.Keys <= d.observers.Keys + d.dropped && w.client.dropped <= d.dropped
    ensures Ledger(Read(w, d))
  {
    var v := Read(w, d);
    forall k | k in v.issued ensures IssueOk(v, k) { assert IssueOk(w, k); }
    forall k | k in Items(v) ensures HeldOk(v, k) { assert HeldOk(w, k); }
    forall k | k in v.ended ensures EndOk(v, k) { assert EndOk(w, k); }
  }

  /** Every registered id survives the read or is dropped by it; a bad value that is read leaves or was shown before. */
  predicate NoteHandled(w: World, d: Client)
    requires CanDeliver(w)
  {
    var c := w.client;
    var m := w.sent[w.delivered];
    && (forall k :: k in d.observers ==>
          && k in c.observers && d.observers[k] == c.observers[k]
          && c.observers[k] in c.items && c.observers[k] in d.items
          && d.items[c.observers[k]].kind == c.items[c.observers[k]].kind
          && (!About(m, k) ==> d.items[c.observers[k]].current == c.items[c.observers[k]].current)
          && (m.DataNote? && m.id == k && m.value.status.IsBad() ==> d.items[c.observers[k]].current == m.value)
          && (m.EventNote? && m.id == k ==> !(m.bad && m.carried)))
    && (forall k :: k in d.dropped ==> k in c.dropped || k in c.observers)
  }

  lemma ReadKeepsKnown(w: World, d: Client)
    requires Known(w) && Ledger(w) && CanDeliver(w) && NoteHandled(w, d)
    ensures Known(Read(w, d))
  {
    var v := Read(w, d);
    forall k | k in d.observers ensures d.observers[k] in d.items && KnownOk(v, k) {
      assert KnownOk(w, k);
      if k in w.ended { assert EndOk(w, k); }
    }
    forall k | k in d.dropped ensures DroppedOk(v, k) {
      if k in w.client.dropped { assert DroppedOk(w, k); } else { assert KnownOk(w, k); }
    }
  }

  lemma ReadNoteKeeps(w: World, d: Client)
    requires Net(w) && CanDeliver(w) && 0 < w.delivered
    requires !w.sent[w.delivered].ItemReply? && SameRequests(w.client, d) && NoteHandled(w, d)
    requires w.client.observers.Keys <= d.observers.Keys + d.dropped && w.client.dropped <= d.dropped
    ensures Net(Read(w, d))
  {
    ReadKeepsChannel(w, d);
    ReadKeepsLedger(w, d);
    ReadKeepsKnown(w, d);
  }

  lemma ObserversDistinct(c: Client, k: int)
    requires k in c.observers && forall l :: l in c.observers ==> ObserverOk(c, l)
    ensures forall l :: l in c.observers ==> c.observers[l] in c.items && (c.observers[l] == c.observers[k] ==> l == k)
  {
    forall l | l in c.observers ensures c.observers[l] in c.items && (c.observers[l] == c.observers[k] ==> l == k) {
      assert ObserverOk(c, l) && ObserverOk(c, k);
    }
  }

  lemma DataHandled(w: World, k: int, value: DataValue)
    requires ClientInv(w.client, {}) && CanDeliver(w) && w.sent[w.delivered] == DataNote(k, value)
    requires k in w.client.observers && ObserverOk(w.client, k)
    requires w.client.items[w.client.observers[k]].kind.ValueKind?
    ensures var c := w.client; var d := ItemData(c, c.observers[k], value);
            && SameRequests(c, d) && NoteHandled(w, d)
            && c.observers.Keys <= d.observers.Keys + d.dropped && c.dropped <= d.dropped
  {
    var c := w.client;
    assert ItemOk(c, c.observers[k], {});
    ObserversDistinct(c, k);
  }

  lemma EventHandled(w: World, k: int, bad: bool)
    requires ClientInv(w.client, {}) && CanDeliver(w) && w.sent[w.delivered] == EventNote(k, bad, true)
    requires k in w.client.observers && ObserverOk(w.client, k)
    requires w.client.items[w.client.observers[k]].kind.EventKind?
    ensures var c := w.client; var d := ItemEvent(c, c.observers[k], bad);
            && SameRequests(c, d) && NoteHandled(w, d)
            && c.observers.Keys <= d.observers.Keys + d.dropped && c.dropped <= d.dropped
  {
    var c := w.client;
    assert ItemOk(c, c.observers[k], {});
    ObserversDistinct(c, k);
  }

  lemma UnroutedHandled(w: World)
    requires ClientInv(w.client, {}) && CanDeliver(w)
    requires match w.sent[w.delivered] {
               case DataNote(k, _) => k !in w.client.observers
               case EventNote(k, _, carried) => !carried || k !in w.client.observers
               case _ => true
             }
    ensures NoteHandled(w, w.client)
  {
    forall l | l in w.client.observers ensures w.client.observers[l] in w.client.items {
      assert ObserverOk(w.client, l);
    }
  }

  lemma DeliverDataKeeps(w: World, now: Time)
    requires Inv(w) && CanDeliver(w) && ObserversAlive(w.client) && w.sent[w.delivered].DataNote?
    ensures Inv(Read(w, Dispatch(w.client, w.sent[w.delivered], now)))
  {
    var c := w.client;
    var k := w.sent[w.delivered].id;
    assert MessageOk(w, w.delivered);
    if k in c.observers {
      assert ObserverOk(c, k) && KnownOk(w, k);
      ItemDataKeeps(c, k, w.sent[w.delivered].value);
      DataHandled(w, k, w.sent[w.delivered].value);
      ReadNoteKeeps(w, ItemData(c, c.observers[k], w.sent[w.delivered].value));
    } else {
      UnroutedHandled(w);
      ReadNoteKeeps(w, c);
    }
  }

  lemma DeliverEventKeeps(w: World, now: Time)
    requires Inv(w) && CanDeliver(w) && ObserversAlive(w.client) && w.sent[w.delivered].EventNote?
    ensures Inv(Read(w, Dispatch(w.client, w.sent[w.delivered], now)))
  {
    var c := w.client;
    var m := w.sent[w.delivered];
    assert MessageOk(w, w.delivered);
    if m.carried && m.id in c.observers {
      assert ObserverOk(c, m.id) && KnownOk(w, m.id);
      ItemEventKeeps(c, m.id, m.bad);
      EventHandled(w, m.id, m.bad);
      ReadNoteKeeps(w, ItemEvent(c, c.observers[m.id], m.bad));
    } else {
      UnroutedHandled(w);
      ReadNoteKeeps(w, c);
    }
  }

  /** Nobody waits for the reply to a deletion. */
  lemma DeliverDeleteKeeps(w: World, now: Time)
    requires Inv(w) && CanDeliver(w) && ObserversAlive(w.client) && w.sent[w.delivered].DeleteReply?
    ensures Inv(Read(w, Dispatch(w.client, w.sent[w.delivered], now)))
  {
    var r := w.sent[w.delivered].request;
    assert MessageOk(w, w.delivered);
    assert forall s :: s in w.client.pending ==> PendingOk(w.client, s);
    assert r !in w.client.pending;
    UnroutedHandled(w);
    ReadNoteKeeps(w, w.client);
  }

  // ---------- the reply to a creation ----------

  /** The effect of a creation reply: the awaited handler is spent, and a good reply settles its id. */
  predicate ReplyHandled(c: Client, d: Client, r: nat, ok: bool, id: int) {
    && d.base == c.base && d.asked == c.asked && d.pending == c.pending - {r}
    && d.transport == c.transport && d.state == c.state
    && (forall k :: k in c.observers ==> k in d.observers && d.observers[k] == c.observers[k]
                                         && c.observers[k] in d.items && c.observers[k] in c.items
                                         && d.items[c.observers[k]] == c.items[c.observers[k]])
    && (forall k :: k in d.observers && k !in c.observers ==>
          && ok && k == id && d.observers[k] in d.items
          && c.base <= r < c.base + |c.asked| && c.asked[r - c.base].body.CreateItem?
          && d.items[d.observers[k]].kind == c.asked[r - c.base].body.kind)
    && c.dropped <= d.dropped && (forall k :: k in d.dropped ==> k in c.dropped || k == id)
    && (!ok ==> d.dropped == c.dropped)
    && (ok ==> id in d.observers || id in d.dropped)
  }

  lemma ItemCreatedEffect(c: Client, r: nat, ok: bool, id: int)
    requires ClientInv(c, {}) && r in c.pending && c.pending[r].ItemResult?
    requires ok ==> id !in c.observers && id !in c.dropped
    ensures ReplyHandled(c, ItemCreated(c.(pending := c.pending - {r}), c.pending[r].item, ok, id), r, ok, id)
  {
    var x := c.pending[r].item;
    assert PendingOk(c, r);
    if x in c.items { assert ItemOk(c, x, {}); }
    forall k | k in c.observers ensures c.observers[k] in c.items && c.observers[k] != x { assert ObserverOk(c, k); }
  }

  lemma ReplyKeepsChannel(w: World, d: Client)
    requires Channel(w) && CanDeliver(w) && w.sent[w.delivered].ItemReply?
    requires ReplyHandled(w.client, d, w.sent[w.delivered].request, w.sent[w.delivered].ok, w.sent[w.delivered].id)
    ensures Channel(Read(w, d))
  {
    var v := Read(w, d);
    assert MessageOk(w, w.delivered);
    forall j | 0 <= j < |v.sent| ensures MessageOk(v, j) { assert MessageOk(w, j); }
    forall i | v.handled <= i < |d.asked| && d.asked[i].body.CreateItem? ensures Waits(d, d.base + i) {
      assert Waits(w.client, w.client.base + i);
    }
  }

  lemma ReplyKeepsLedger(w: World, d: Client)
    requires Ledger(w) && CanDeliver(w) && w.sent[w.delivered].ItemReply?
    requires ReplyHandled(w.client, d, w.sent[w.delivered].request, w.sent[w.delivered].ok, w.sent[w.delivered].id)
    ensures Ledger(Read(w, d))
  {
    var v := Read(w, d);
    forall k | k in v.issued ensures IssueOk(v, k) { assert IssueOk(w, k); }
    forall k | k in Items(v) ensures HeldOk(v, k) { assert HeldOk(w, k); }
    forall k | k in v.ended ensures EndOk(v, k) { assert EndOk(w, k); }
  }

  lemma ReplyKeepsKnown(w: World, d: Client)
    requires Known(w) && Channel(w) && Ledger(w) && CanDeliver(w) && w.sent[w.delivered].ItemReply?
    requires ReplyHandled(w.client, d, w.sent[w.delivered].request, w.sent[w.delivered].ok, w.sent[w.delivered].id)
    ensures Known(Read(w, d))
  {
    var v := Read(w, d);
    var m := w.sent[w.delivered];
    assert MessageOk(w, w.delivered);
    forall k | k in d.observers ensures d.observers[k] in d.items && KnownOk(v, k) {
      if k in w.client.observers { assert KnownOk(w, k); }
      if k in w.ended {
        assert EndOk(w, k);
        if !w.ended[k].Muted? { assert MessageOk(w, w.ended[k].at); }
      }
    }
    forall k | k in d.dropped ensures DroppedOk(v, k) {
      if k in w.client.dropped { assert DroppedOk(w, k); } else { assert k == m.id; }
    }
  }

  lemma DeliverItemReplyKeeps(w: World, now: Time)
    requires Inv(w) && CanDeliver(w) && ObserversAlive(w.client) && w.sent[w.delivered].ItemReply?
    ensures Inv(Read(w, Dispatch(w.client, w.sent[w.delivered], now)))
  {
    var c := w.client;
    var m := w.sent[w.delivered];
    assert MessageOk(w, w.delivered) && Waits(c, m.request);
    assert m.ok ==> m.id !in c.observers && m.id !in c.dropped by {
      assert m.id in c.observers ==> KnownOk(w, m.id);
      assert m.id in c.dropped ==> DroppedOk(w, m.id);
    }
    var d := ItemCreated(c.(pending := c.pending - {m.request}), c.pending[m.request].item, m.ok, m.id);
    ItemCreatedKeeps(c, m.request, m.ok, m.id);
    ItemCreatedEffect(c, m.request, m.ok, m.id);
    ReplyKeepsChannel(w, d);
    ReplyKeepsLedger(w, d);
    ReplyKeepsKnown(w, d);
  }

  // ---------- the reply that creates the subscription ----------

  lemma SubscribedKeepsChannel(w: World)
    requires Net(w) && CanDeliver(w) && w.client.state.Creating?
    ensures Channel(Read(w, Subscribed(w.client)))
  {
    var d := Subscribed(w.client);
    var v := Read(w, d);
    forall j | 0 <= j < |v.sent| ensures MessageOk(v, j) { assert MessageOk(w, j); }
    forall i | v.handled <= i < |d.asked| && d.asked[i].body.CreateItem? ensures Waits(d, d.base + i) {
      assert Waits(w.client, w.client.base + i);
    }
  }

  lemma SubscribedKeepsKnown(w: World)
    requires Known(w) && w.delivered == 0
    ensures Known(Read(w, Subscribed(w.client)))
  {
    assert forall k :: k in w.client.observers ==> KnownOk(w, k);
    assert forall k :: k in w.client.dropped ==> DroppedOk(w, k);
  }

  lemma DeliverSubscriptionReplyKeeps(w: World, now: Time)
    requires Inv(w) && CanDeliver(w) && ObserversAlive(w.client) && w.delivered == 0
    ensures Inv(Read(w, Dispatch(w.client, w.sent[w.delivered], now)))
  {
    var c := w.client;
    var d := SubscriptionCreated(c.(pending := c.pending - {c.base}), true, 1, now);
    assert d == Dispatch(c, w.sent[w.delivered], now);
    SubscribedKeepsChannel(w);
    SubscribedKeepsKnown(w);
    ReadKeepsLedger(w, Subscribed(c));
    SubscriptionCreatedKeeps(c, now);
    var u := Read(w, Subscribed(c));
    ChannelFrame(u, d);
    LedgerFrame(u, d);
    ExtendKeepsKnown(u, d);
  }

  // ---------- every run ----------

  lemma ConnectKeeps(w: World)
    requires Inv(w) && !w.client.sessionCreated
    ensures Inv(START.(client := SessionCreated(w.client)))
  {
    SessionCreatedKeeps(w.client);
  }

  lemma DisconnectKeeps(w: World)
    requires Inv(w) && w.client.sessionCreated && CanClose(w.client)
    ensures Inv(START.(client := SessionLost(w.client)))
  {
    SessionLostKeeps(w.client);
  }

  lemma DeliverKeeps(w: World, now: Time)
    requires Inv(w) && CanDeliver(w) && ObserversAlive(w.client)
    ensures Inv(Read(w, Dispatch(w.client, w.sent[w.delivered], now)))
  {
    assert MessageOk(w, w.delivered);
    match w.sent[w.delivered] {
      case SubscriptionReply(_, _, _) => DeliverSubscriptionReplyKeeps(w, now);
      case ItemReply(_, _, _) => DeliverItemReplyKeeps(w, now);
      case DeleteReply(_) => DeliverDeleteKeeps(w, now);
      case DataNote(_, _) => DeliverDataKeeps(w, now);
      case EventNote(_, _, _) => DeliverEventKeeps(w, now);
    }
  }

  lemma NewItemKeeps(w: World, kind: Kind, now: Time)
    requires Inv(w)
    ensures Inv(Apply(w, NewItem(kind, now)))
  {
    CreateMonitoredItemKeeps(w.client, kind, now);
    ExtendKeeps(w, CreateMonitoredItem(w.client, kind, now));
  }

  lemma SubscribeStepKeeps(w: World, x: ItemRef)
    requires Inv(w)
    ensures Inv(Apply(w, Subscribe(x)))
  {
    if x in w.client.items && !w.client.items[x].subscribed {
      SubscribeKeeps(w.client, x);
      ExtendKeeps(w, SubscribeItem(w.client, x));
    }
  }

  lemma ServerStepKeeps(w: World, step: Step)
    requires Inv(w) && (step.Serve? || step.Sample? || step.Raise?)
    ensures Inv(Apply(w, step))
  {
    match step {
      case Serve(accept) => if w.handled < |w.client.asked| { ServeKeeps(w, accept); }
      case Sample(subscription, id, value) => SampleKeeps(w, subscription, id, value);
      case Raise(subscription, id, bad, payload) => RaiseKeeps(w, subscription, id, bad, payload);
    }
  }

  lemma StepKeeps(w: World, step: Step)
    requires Inv(w) && !ClosesBadly(w, step)
    ensures Inv(Apply(w, step))
  {
    match step {
      case Connect => if !w.client.sessionCreated { ConnectKeeps(w); }
      case Disconnect => if w.client.sessionCreated { DisconnectKeeps(w); }
      case NewItem(kind, now) => NewItemKeeps(w, kind, now);
      case Subscribe(x) => SubscribeStepKeeps(w, x);
      case Destroy(x) => if x in w.client.items { DestroyStepKeeps(w, x); }
      case Deliver(now) => if w.delivered < |w.sent| && ObserversAlive(w.client) { DeliverKeeps(w, now); }
      case _ => ServerStepKeeps(w, step);
    }
  }

  lemma SameBadness(steps: seq<Step>, n: nat, i: nat)
    requires i < n <= |steps|
    ensures BadAt(steps[..n], i) <==> BadAt(steps, i)
  {
    assert steps[..n][..i] == steps[..i];
  }

  lemma PrefixCloses(steps: seq<Step>, n: nat)
    requires n <= |steps|
    ensures ClosesCleanly(steps[..n]) <==> forall i :: 0 <= i < n ==> !BadAt(steps, i)
  {
    forall i | 0 <= i < n ensures BadAt(steps[..n], i) <==> BadAt(steps, i) { SameBadness(steps, n, i); }
  }

  lemma ClosesSnoc(before: seq<Step>, step: Step)
    ensures ClosesCleanly(before + [step]) <==> ClosesCleanly(before) && !ClosesBadly(Run(before), step)
  {
    var steps := before + [step];
    assert steps[..|before|] == before;
    PrefixCloses(steps, |before|);
    assert BadAt(steps, |before|) <==> ClosesBadly(Run(before), step);
  }

  lemma {:induction false} EveryRun(steps: seq<Step>)
    requires ClosesCleanly(steps)
    ensures Inv(Run(steps))
  {
    if steps != [] {
      var before, last := steps[..|steps| - 1], steps[|steps| - 1];
      assert steps == before + [last];
      ClosesSnoc(before, last);
      EveryRun(before);
      StepKeeps(Run(before), last);
    }
  }

  /** The condition is exact: a check fails in a run if and only if it loses a session that cannot be closed. */
  lemma {:induction false} PanicCondition(steps: seq<Step>)
    ensures Run(steps).client.panicked <==> !ClosesCleanly(steps)
  {
    if steps != [] {
      var before, last := steps[..|steps| - 1], steps[|steps| - 1];
      assert steps == before + [last];
      ClosesSnoc(before, last);
      PanicCondition(before);
      if ClosesCleanly(before) {
        EveryRun(before);
        PanicStep(Run(before), last);
      }
    }
  }

  lemma PanicStep(w: World, step: Step)
    requires Inv(w)
    ensures Apply(w, step).client.panicked <==> ClosesBadly(w, step)
  {
    if ClosesBadly(w, step) { SessionLostPanics(w.client); } else { StepKeeps(w, step); }
  }

  // ---------- what it means ----------

  /** No check fails, ids are registered exactly for created items, and items are open with the subscription. */
  lemma ClientRegistration(steps: seq<Step>, k: int, x: ItemRef)
    requires ClosesCleanly(steps)
    ensures var c := Run(steps).client;
            && !c.panicked && ObserversAlive(c)
            && ((k in c.observers && c.observers[k] == x) <==>
                (x in c.items && c.items[x].state.Created? && c.items[x].id == k))
            && (x in c.items ==> if c.state.Created? then c.items[x].FullyOpen() else c.items[x].FullyClosed())
  {
    EveryRun(steps);
    var c := Run(steps).client;
    if k in c.observers { assert ObserverOk(c, k); }
    if x in c.items { assert ItemOk(c, x, {}); }
    InvIsAlive(c);
  }

  /** A lost connection trips a check exactly when some item is alive and the subscription is not created. */
  lemma CloseIsCheckFree(steps: seq<Step>)
    requires ClosesCleanly(steps) && Run(steps).client.sessionCreated
    ensures Apply(Run(steps), Disconnect).client.panicked <==> !CanClose(Run(steps).client)
  {
    EveryRun(steps);
    if CanClose(Run(steps).client) {
      SessionLostKeeps(Run(steps).client);
    } else {
      SessionLostPanics(Run(steps).client);
    }
  }

  /** An unread notification with a bad value for item k. */
  predicate BadValueInFlight(w: World, k: int) {
    exists j :: w.delivered <= j < |w.sent|
                && w.sent[j].DataNote? && w.sent[j].id == k && w.sent[j].value.status.IsBad()
  }

  predicate BadEventInFlight(w: World, k: int) {
    exists j :: w.delivered <= j < |w.sent| && w.sent[j] == EventNote(k, true, true)
  }

  /** The cached value is a bad value the server sent for item k. */
  predicate ShowsBadValue(w: World, k: int, current: DataValue) {
    current.status.IsBad() && exists j :: 0 <= j < w.delivered <= |w.sent| && w.sent[j] == DataNote(k, current)
  }

  /** A value item registered at the client is held by the server, or its end is on the way, or is already shown. */
  lemma ValueAgreement(steps: seq<Step>, k: int)
    requires ClosesCleanly(steps) && k in Run(steps).client.observers
    requires Run(steps).client.observers[k] in Run(steps).client.items
    requires Run(steps).client.items[Run(steps).client.observers[k]].kind.ValueKind?
    ensures var w := Run(steps);
            && k in w.issued && 1 <= k < NextId(w)
            && (|| Holds(w, 1, k, ValueKind)
                || BadValueInFlight(w, k)
                || ShowsBadValue(w, k, w.client.items[w.client.observers[k]].current))
  {
    EveryRun(steps);
    var w := Run(steps);
    assert ObserverOk(w.client, k) && KnownOk(w, k) && IssueOk(w, k);
    if k in Items(w) { assert HeldOk(w, k); } else { assert EndOk(w, k); }
  }

  /** A notification that arrives finds its item registered, unless the client has dropped it for good. */
  lemma NotificationsAreRouted(steps: seq<Step>, k: int)
    requires ClosesCleanly(steps)
    requires Run(steps).delivered < |Run(steps).sent| && About(Run(steps).sent[Run(steps).delivered], k)
    ensures var c := Run(steps).client; (k in c.observers) != (k in c.dropped)
  {
    EveryRun(steps);
    var w := Run(steps);
    assert MessageOk(w, w.delivered) && IssueOk(w, k);
    if k in w.client.observers { assert ObserverOk(w.client, k); }
  }

  /** The server let the item go with a bad status that brought no event it could send. */
  predicate IsMuted(w: World, k: int) { k in w.ended && w.ended[k].Muted? }

  /** A registered event item is held or its end is on the way, unless and only unless its end was muted. */
  lemma EventAgreement(steps: seq<Step>, k: int)
    requires ClosesCleanly(steps) && k in Run(steps).client.observers
    requires Run(steps).client.observers[k] in Run(steps).client.items
    requires Run(steps).client.items[Run(steps).client.observers[k]].kind.EventKind?
    ensures var w := Run(steps);
            && k in w.issued && 1 <= k < NextId(w)
            && (Holds(w, 1, k, EventKind) || BadEventInFlight(w, k) <==> !IsMuted(w, k))
  {
    EveryRun(steps);
    EventAgrees(Run(steps), k);
  }

  lemma EventAgrees(w: World, k: int)
    requires Inv(w) && k in w.client.observers && w.client.observers[k] in w.client.items
    requires w.client.items[w.client.observers[k]].kind.EventKind?
    ensures k in w.issued && 1 <= k < NextId(w)
    ensures Holds(w, 1, k, EventKind) || BadEventInFlight(w, k) <==> !IsMuted(w, k)
  {
    assert ObserverOk(w.client, k) && KnownOk(w, k) && IssueOk(w, k);
    if k in Items(w) {
      assert HeldOk(w, k);
    } else {
      assert EndOk(w, k);
      if !w.ended[k].Muted? { assert MessageOk(w, w.ended[k].at) && About(w.sent[w.ended[k].at], k); }
    }
    forall j | 0 <= j < |w.sent| && w.sent[j] == EventNote(k, true, true) ensures k in w.ended && !w.ended[k].Muted? {
      assert MessageOk(w, j);
    }
  }

  /** A bad status for a held event item that brings no convertible event. */
  predicate Mutes(w: World, step: Step, k: int) {
    && step.Raise? && step.id == k && step.bad && !step.payload.Convertible?
    && Holds(w, step.subscription, k, EventKind)
  }

  lemma ServeMutesNothing(w: World, request: Request, accept: bool)
    ensures ServeRequest(w, request, accept).ended == w.ended
  {
  }

  lemma RaiseMutes(w: World, step: Step, k: int)
    requires Inv(w) && step.Raise?
    ensures IsMuted(RaiseEvent(w, step.subscription, step.id, step.bad, step.payload), k) <==>
            Mutes(w, step, k) || IsMuted(w, k)
  {
    if Holds(w, step.subscription, step.id, EventKind) {
      assert step.id in Items(w) && HeldOk(w, step.id);
    }
  }

  lemma SampleMutesNothing(w: World, subscription: int, id: int, value: DataValue, k: int)
    requires Inv(w)
    ensures IsMuted(SampleItem(w, subscription, id, value), k) <==> IsMuted(w, k)
  {
    if Holds(w, subscription, id, ValueKind) { assert id in Items(w) && HeldOk(w, id); }
  }

  /** Only such a status mutes an item, and it stays muted until the connection is lost. */
  lemma StepMutes(w: World, step: Step, k: int)
    requires Inv(w)
    ensures IsMuted(Apply(w, step), k) <==> Mutes(w, step, k) || (IsMuted(w, k) && !step.Disconnect?)
  {
    match step {
      case Serve(accept) =>
        if w.handled < |w.client.asked| {
          ServeMutesNothing(w.(handled := w.handled + 1), w.client.asked[w.handled], accept);
        }
      case Sample(subscription, id, value) => SampleMutesNothing(w, subscription, id, value, k);
      case Raise(_, _, _, _) => RaiseMutes(w, step, k);
      case _ =>
    }
  }

  /** The run muted item k in the session it is still in. */
  ghost predicate MutedBy(steps: seq<Step>, k: int) {
    exists i :: 0 <= i < |steps| && Mutes(Run(steps[..i]), steps[i], k) && Lasts(steps, i)
  }

  predicate Lasts(steps: seq<Step>, i: nat) { forall j :: i < j < |steps| ==> !steps[j].Disconnect? }

  lemma MutedBySnoc(steps: seq<Step>, n: nat, k: int)
    requires |steps| == n + 1
    ensures MutedBy(steps, k) <==>
            Mutes(Run(steps[..n]), steps[n], k) || (MutedBy(steps[..n], k) && !steps[n].Disconnect?)
  {
    var before := steps[..n];
    forall i | 0 <= i < n
      ensures before[..i] == steps[..i] && before[i] == steps[i]
      ensures Lasts(steps, i) <==> Lasts(before, i) && !steps[n].Disconnect?
    {
      assert forall j :: i < j < n ==> before[j] == steps[j];
    }
    assert Lasts(steps, n);
    if MutedBy(before, k) && !steps[n].Disconnect? {
      var i :| 0 <= i < n && Mutes(Run(before[..i]), before[i], k) && Lasts(before, i);
      assert Mutes(Run(steps[..i]), steps[i], k) && Lasts(steps, i);
    }
    if MutedBy(steps, k) && !Mutes(Run(before), steps[n], k) {
      var i :| 0 <= i < |steps| && Mutes(Run(steps[..i]), steps[i], k) && Lasts(steps, i);
      assert i != n && Mutes(Run(before[..i]), before[i], k) && Lasts(before, i);
    }
  }

  /** An item is muted exactly when the run raised a bad status without an event for it in this session. */
  lemma {:induction false} MutedIff(steps: seq<Step>, k: int)
    requires ClosesCleanly(steps)
    ensures IsMuted(Run(steps), k) <==> MutedBy(steps, k)
  {
    if steps != [] {
      var n := |steps| - 1;
      PrefixCloses(steps, n);
      EveryRun(steps[..n]);
      StepMutes(Run(steps[..n]), steps[n], k);
      MutedIff(steps[..n], k);
      MutedBySnoc(steps, n, k);
    }
  }

  /** What the server sends is always something the client can take. */
  lemma MessagesAreAcceptable(steps: seq<Step>)
    requires ClosesCleanly(steps) && Run(steps).delivered < |Run(steps).sent|
    ensures Acceptable(Run(steps).client, Run(steps).sent[Run(steps).delivered])
  {
    EveryRun(steps);
    NextIsAcceptable(Run(steps));
  }

  lemma NextIsAcceptable(w: World)
    requires Inv(w) && w.delivered < |w.sent|
    ensures Acceptable(w.client, w.sent[w.delivered])
  {
    var c, m := w.client, w.sent[w.delivered];
    assert MessageOk(w, w.delivered);
    match m {
      case SubscriptionReply(r, _, _) => if r in c.pending { assert PendingOk(c, r); }
      case ItemReply(r, ok, id) => FreshIdInReply(w);
      case DeleteReply(r) => assert r in c.pending ==> PendingOk(c, r);
      case DataNote(id, _) => if id in c.observers { assert KnownOk(w, id); }
      case EventNote(id, _, _) => if id in c.observers { assert KnownOk(w, id); }
    }
  }

  lemma FreshIdInReply(w: World)
    requires Inv(w) && w.delivered < |w.sent| && w.sent[w.delivered].ItemReply?
    ensures Acceptable(w.client, w.sent[w.delivered])
  {
    var c, m := w.client, w.sent[w.delivered];
    assert MessageOk(w, w.delivered);
    assert PendingOk(c, m.request);
    if m.id in c.observers { assert KnownOk(w, m.id); }
    if m.id in c.dropped { assert DroppedOk(w, m.id); }
  }

  // ---------- runs that show the conditions are needed ----------

  lemma RunSnoc(steps: seq<Step>, step: Step)
    ensures Run(steps + [step]) == Apply(Run(steps), step)
  {
    assert (steps + [step])[..|steps|] == steps;
  }

  lemma ItemBeforeSubscription()
    ensures var c := Run([NewItem(ValueKind, 0), Connect]).client;
            c.sessionCreated && c.state.Creating? && 0 in c.items && c.items[0].FullyClosed() && !CanClose(c)
  {
    var a, b := [NewItem(ValueKind, 0)], [NewItem(ValueKind, 0), Connect];
    assert [] + [NewItem(ValueKind, 0)] == a && a + [Connect] == b;
    RunSnoc([], NewItem(ValueKind, 0));
    assert Run(a).client == Joined(INITIAL, ValueKind);
    RunSnoc(a, Connect);
    assert 0 in Run(b).client.items;
  }

  /** The server goes away before it has answered `CreateSubscription`, with one item alive. */
  lemma ClosingWhileCreatingPanics()
    ensures Run([NewItem(ValueKind, 0), Connect, Disconnect]).client.panicked
  {
    var b := [NewItem(ValueKind, 0), Connect];
    assert b + [Disconnect] == [NewItem(ValueKind, 0), Connect, Disconnect];
    RunSnoc(b, Disconnect);
    ItemBeforeSubscription();
    CloseIsCheckFree(b);
  }

  // ---------- a run that reaches what the theorems speak of ----------

  const CONNECTED := [Connect, Serve(true), Deliver(0)]
  function Added(kind: Kind): seq<Step> { CONNECTED + [NewItem(kind, 0)] }
  function Asked(kind: Kind): seq<Step> { Added(kind) + [Subscribe(0)] }
  function Answered(kind: Kind): seq<Step> { Asked(kind) + [Serve(true)] }
  function Registering(kind: Kind): seq<Step> { Answered(kind) + [Deliver(0)] }

  function AddedItem(kind: Kind): Item {
    Opening(Item(kind, false, false, false, false, 0, Deleted, 0, NO_VALUE), 1, 0)
  }

  function AskedItem(kind: Kind): Item {
    AddedItem(kind).(subscribed := true, state := Creating)
  }

  /** The world right after the first connection. */
  const FRESH := START.(client := SessionCreated(INITIAL))

  lemma FreshClient()
    ensures var c := FRESH.client;
            && !c.panicked && c.transport && c.sessionCreated && c.sender && c.state.Creating? && c.nextRequestId == 2
            && c.asked == [Request(1, CreateSubscription)] && c.pending == map[1 := SubscriptionResult]
            && c.items == map[] && c.nextRef == 0 && c.observers == map[] && c.monitored == []
  {
  }

  lemma FreshServed()
    ensures var w := Apply(FRESH, Serve(true));
            && w.client == FRESH.client && w.handled == 1 && w.delivered == 0
            && w.sent == [SubscriptionReply(1, true, 1)] && w.stubs == map[1 := Stub(1, map[])]
  {
    FreshClient();
  }

  lemma FreshDelivered()
    ensures var w, v := Apply(FRESH, Serve(true)), Apply(Apply(FRESH, Serve(true)), Deliver(0));
            && v == w.(client := v.client, delivered := 1)
            && v.client == FRESH.client.(pending := map[], state := Created, subscriptionId := 1)
  {
    FreshClient();
    FreshServed();
    var c := FRESH.client;
    assert c.pending - {1} == map[] && Live(c.monitored, c.items) == [];
  }

  lemma SubscriptionIsCreated()
    ensures var w := Run(CONNECTED);
            && !w.client.panicked && w.client.transport && w.client.sessionCreated && w.client.sender
            && w.client.state.Created? && w.client.subscriptionId == 1
            && w.client.items == map[] && w.client.nextRef == 0
            && w.client.observers == map[] && w.client.pending == map[]
            && w.client.nextRequestId == 2 && |w.client.asked| == 1 && w.handled == 1
            && w.stubs == map[1 := Stub(1, map[])] && |w.sent| == 1 && w.delivered == 1
  {
    assert CONNECTED == [Connect, Serve(true)] + [Deliver(0)] && [Connect, Serve(true)] == [Connect] + [Serve(true)];
    assert [] + [Connect] == [Connect];
    RunSnoc([], Connect);
    RunSnoc([Connect], Serve(true));
    RunSnoc([Connect, Serve(true)], Deliver(0));
    FreshClient();
    FreshServed();
    FreshDelivered();
  }

  lemma ItemIsAdded(kind: Kind)
    ensures var w := Run(CONNECTED);
            Run(Added(kind)) == w.(client := Joined(w.client, kind).(items := map[0 := AddedItem(kind)]))
  {
    SubscriptionIsCreated();
    RunSnoc(CONNECTED, NewItem(kind, 0));
    var w := Run(CONNECTED);
    assert Apply(w, NewItem(kind, 0)).client.items == map[0 := AddedItem(kind)];
  }

  lemma ItemIsAsked(kind: Kind)
    ensures var w, v := Run(CONNECTED), Run(Asked(kind));
            && v == w.(client := v.client) && !v.client.panicked && v.client.transport && v.client.sessionCreated
            && v.client.state.Created? && v.client.observers == map[]
            && v.client.asked == w.client.asked + [Request(2, CreateItem(1, kind))]
            && v.client.pending == map[2 := ItemResult(0)] && v.client.items == map[0 := AskedItem(kind)]
  {
    SubscriptionIsCreated();
    ItemIsAdded(kind);
    RunSnoc(Added(kind), Subscribe(0));
    var c := Run(Added(kind)).client;
    assert SubscribeItem(c, 0).items == map[0 := AskedItem(kind)];
  }

  lemma ItemIsAnswered(kind: Kind)
    ensures var w, v := Run(Asked(kind)), Run(Answered(kind));
            && v.client == w.client && |v.sent| == 2 && v.sent[1] == ItemReply(2, true, 1) && v.delivered == 1
            && v.stubs == map[1 := Stub(2, map[1 := kind])]
  {
    SubscriptionIsCreated();
    ItemIsAsked(kind);
    RunSnoc(Asked(kind), Serve(true));
    var w := Run(Asked(kind));
    assert w.client.asked[w.handled] == Request(2, CreateItem(1, kind));
  }

  /** The answer to the only pending request registers its item. */
  lemma AnswerRegisters(w: World, item: Item)
    requires !w.client.panicked && w.delivered == 1 && |w.sent| == 2 && w.sent[1] == ItemReply(2, true, 1)
    requires w.client.pending == map[2 := ItemResult(0)] && w.client.observers == map[]
    requires w.client.items == map[0 := item] && AwaitsCreation(item)
    ensures var v := Apply(w, Deliver(0));
            && v == w.(client := v.client, delivered := 2) && v.client.observers == map[1 := 0]
            && v.client.items == map[0 := item.(state := Created, id := 1)] && v.client.panicked == w.client.panicked
            && v.client.state == w.client.state && v.client.sessionCreated == w.client.sessionCreated
  {
  }

  /** An item made on a created subscription, subscribed, answered and read is registered and held. */
  lemma AnItemIsRegistered(kind: Kind)
    ensures var w := Run(Registering(kind));
            && !w.client.panicked && w.client.observers == map[1 := 0] && w.client.sessionCreated
            && w.client.items == map[0 := AskedItem(kind).(state := Created, id := 1)]
            && w.stubs == map[1 := Stub(2, map[1 := kind])] && w.delivered == |w.sent|
            && Holds(w, 1, 1, kind) && CanClose(w.client)
  {
    ItemIsAsked(kind);
    ItemIsAnswered(kind);
    RunSnoc(Answered(kind), Deliver(0));
    AnswerRegisters(Run(Answered(kind)), AskedItem(kind));
  }

  /** A bad status without an event is sent and read, and then nobody knows of the item but the client. */
  lemma MutedItemStays()
    ensures var steps := Registering(EventKind) + [Raise(1, 1, true, NoPayload), Deliver(0)];
            var w := Run(steps);
            && ClosesCleanly(steps) && !w.client.panicked && w.client.observers == map[1 := 0]
            && !Holds(w, 1, 1, EventKind) && !BadEventInFlight(w, 1) && w.delivered == |w.sent|
  {
    var a := Registering(EventKind) + [Raise(1, 1, true, NoPayload)];
    assert a + [Deliver(0)] == Registering(EventKind) + [Raise(1, 1, true, NoPayload), Deliver(0)];
    AnItemIsRegistered(EventKind);
    RunSnoc(Registering(EventKind), Raise(1, 1, true, NoPayload));
    RunSnoc(a, Deliver(0));
    MutedRead(Run(Registering(EventKind)));
  }

  lemma MutedRead(w: World)
    requires !w.client.panicked && w.client.observers == map[1 := 0] && 0 in w.client.items
    requires w.stubs == map[1 := Stub(2, map[1 := EventKind])] && w.delivered == |w.sent|
    ensures var v := Apply(Apply(w, Raise(1, 1, true, NoPayload)), Deliver(0));
            && v.client == w.client && v.stubs == map[1 := Stub(2, map[])] && v.delivered == |v.sent|
  {
    var u := Apply(w, Raise(1, 1, true, NoPayload));
    assert u.sent == w.sent + [EventNote(1, true, false)] && u.client == w.client && u.delivered == |w.sent|;
    assert u.stubs[1].items == map[];
  }
}
