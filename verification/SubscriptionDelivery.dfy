/**
 What the server tells the client over a whole run: every request is answered once and in order, every report of a
 held item is sent and nothing else is, and a deleted item is gone. The statements speak of the steps of the run and
 of the messages sent, not of the handlers.
 */
module SubscriptionDelivery {
  import opened DataValues
  import opened SubscriptionClient
  import opened SubscriptionClientInvariant
  import opened SubscriptionProtocol
  import opened SubscriptionAgreement

  /** The step opens or loses a session, and both channels start anew. */
  predicate Restarts(w: World, step: Step) {
    (step.Connect? && !w.client.sessionCreated) || (step.Disconnect? && w.client.sessionCreated)
  }

  lemma {:induction false} RunPrefix(steps: seq<Step>)
    requires ClosesCleanly(steps) && steps != []
    ensures ClosesCleanly(steps[..|steps| - 1])
    ensures Inv(Run(steps[..|steps| - 1])) && Inv(Run(steps))
  {
    PrefixCloses(steps, |steps| - 1);
    EveryRun(steps[..|steps| - 1]);
    EveryRun(steps);
  }

  // ---------- every request is answered ----------

  /** The request a message answers. */
  function Replied(m: Message): seq<nat> {
    match m
    case SubscriptionReply(r, _, _) => [r]
    case ItemReply(r, _, _) => [r]
    case DeleteReply(r) => [r]
    case _ => []
  }

  function ReplyIds(sent: seq<Message>): seq<nat> {
    if sent == [] then [] else ReplyIds(sent[..|sent| - 1]) + Replied(sent[|sent| - 1])
  }

  lemma ReplyIdsSnoc(sent: seq<Message>, m: Message)
    ensures ReplyIds(sent + [m]) == ReplyIds(sent) + Replied(m)
  {
    assert (sent + [m])[..|sent|] == sent;
  }

  /** The answers so far are those to the requests handled so far, in order. */
  predicate AllAnswered(w: World) {
    w.client.transport ==>
      && |ReplyIds(w.sent)| == w.handled
      && forall i :: 0 <= i < w.handled ==> ReplyIds(w.sent)[i] == w.client.base + i
  }

  /** One request more is handled, and its one reply is sent. */
  predicate AnswersNext(w: World, v: World, m: Message) {
    v.client == w.client && v.handled == w.handled + 1 && v.sent == w.sent + [m]
  }

  lemma SubscriptionServed(w: World, accept: bool)
    requires CanServe(w) && NextRequestOk(w) && w.client.asked[w.handled].body.CreateSubscription?
    ensures AnswersNext(w, Served(w, accept), SubscriptionReply(w.client.base, true, w.nextSubscriptionId))
  {
  }

  /** A creation is granted exactly if the service accepts it. */
  lemma CreationServed(w: World, accept: bool)
    requires CanServe(w) && NextRequestOk(w) && w.client.asked[w.handled].body.CreateItem?
    ensures var v := Served(w, accept);
            && AnswersNext(w, v, ItemReply(w.client.base + w.handled, accept, if accept then NextId(w) else 0))
            && Items(v) == if accept then Items(w)[NextId(w) := w.client.asked[w.handled].body.kind] else Items(w)
  {
  }

  lemma DeletionServed(w: World, accept: bool)
    requires CanServe(w) && NextRequestOk(w) && w.client.asked[w.handled].body.DeleteItem?
    ensures var v := Served(w, accept);
            && AnswersNext(w, v, DeleteReply(w.client.base + w.handled))
            && Items(v) == Items(w) - {w.client.asked[w.handled].body.id}
  {
  }

  lemma NextAnswered(w: World, v: World, m: Message)
    requires AllAnswered(w) && AnswersNext(w, v, m) && Replied(m) == [w.client.base + w.handled]
    ensures AllAnswered(v)
  {
    ReplyIdsSnoc(w.sent, m);
  }

  lemma ServedOne(w: World, accept: bool) returns (m: Message)
    requires CanServe(w) && NextRequestOk(w)
    ensures AnswersNext(w, Served(w, accept), m) && Replied(m) == [w.client.base + w.handled]
  {
    var r := w.client.base + w.handled;
    match w.client.asked[w.handled].body {
      case CreateSubscription =>
        SubscriptionServed(w, accept);
        m := SubscriptionReply(w.client.base, true, w.nextSubscriptionId);
      case CreateItem(_, _) =>
        CreationServed(w, accept);
        m := ItemReply(r, accept, if accept then NextId(w) else 0);
      case DeleteItem(_, _) =>
        DeletionServed(w, accept);
        m := DeleteReply(r);
    }
  }

  lemma ServedNext(w: World, accept: bool) returns (m: Message)
    requires Inv(w) && CanServe(w)
    ensures AnswersNext(w, Served(w, accept), m) && Replied(m) == [w.client.base + w.handled]
  {
    assert AskedOk(w.client, w.handled);
    NextRequest(w);
    m := ServedOne(w, accept);
  }

  lemma ServeAnswers(w: World, accept: bool)
    requires Inv(w) && CanServe(w) && AllAnswered(w)
    ensures AllAnswered(Served(w, accept))
  {
    var m := ServedNext(w, accept);
    NextAnswered(w, Served(w, accept), m);
  }

  /** Reports are not replies. */
  lemma ReportAnswersNothing(w: World, v: World, m: Message)
    requires AllAnswered(w) && v.client == w.client && v.handled == w.handled
    requires v.sent == w.sent || (v.sent == w.sent + [m] && Replied(m) == [])
    ensures AllAnswered(v)
  {
    ReplyIdsSnoc(w.sent, m);
  }

  /** A step of the client changes neither what is sent nor what is handled, and stays on its connection. */
  lemma ClientAnswersNothing(w: World, v: World)
    requires Inv(w) && Inv(v) && AllAnswered(w) && v.sent == w.sent && v.handled == w.handled
    requires v.client.transport == w.client.transport
    ensures AllAnswered(v)
  {
    if w.client.transport && w.handled > 0 {
      assert w.sent[0] == SubscriptionReply(w.client.base, true, 1);
      assert v.sent[0] == SubscriptionReply(v.client.base, true, 1);
    }
  }

  lemma RestartAnswersNothing(w: World, step: Step)
    requires Inv(w) && Restarts(w, step)
    ensures AllAnswered(Apply(w, step)) && Apply(w, step).handled == 0
  {
    assert Apply(w, step).sent == [] && Apply(w, step).handled == 0;
  }

  /** The step is one of the client's own, on a connection that stays. */
  predicate Clients(step: Step) { step.NewItem? || step.Subscribe? || step.Destroy? || step.Deliver? }

  lemma ServerUntouched(w: World, step: Step)
    requires Clients(step)
    ensures var v := Apply(w, step);
            v.sent == w.sent && v.handled == w.handled && v.stubs == w.stubs && v.issued == w.issued
  {
  }

  /** A report changes nothing but the server, and sends at most one message, which is no reply. */
  lemma ReportIsNoReply(w: World, step: Step) returns (m: Message)
    requires step.Sample? || step.Raise?
    ensures var v := Apply(w, step);
            && v.client == w.client && v.handled == w.handled && v.delivered == w.delivered
            && Replied(m) == [] && (v.sent == w.sent || v.sent == w.sent + [m])
  {
    m := if step.Sample? then DataNote(step.id, step.value)
         else EventNote(step.id, step.bad, step.payload.Convertible?);
  }

  /** A step that does nothing. */
  predicate Idle(w: World, step: Step) {
    || (step.Connect? && w.client.sessionCreated)
    || (step.Disconnect? && !w.client.sessionCreated)
    || (step.Serve? && |w.client.asked| <= w.handled)
  }

  lemma IdleIs(w: World, step: Step)
    requires Idle(w, step)
    ensures Apply(w, step) == w
  {
  }

  lemma ServeIs(w: World, accept: bool)
    requires !w.client.panicked && w.handled < |w.client.asked|
    ensures Apply(w, Serve(accept)) == Served(w, accept)
  {
  }

  lemma ConnectedToServe(w: World)
    requires Inv(w) && w.handled < |w.client.asked|
    ensures CanServe(w) && !w.client.panicked
  {
  }

  lemma AnswersStep(w: World, step: Step)
    requires Inv(w) && Inv(Apply(w, step)) && AllAnswered(w)
    ensures AllAnswered(Apply(w, step))
  {
    if Idle(w, step) {
      IdleIs(w, step);
    } else if Restarts(w, step) {
      RestartAnswersNothing(w, step);
    } else if Clients(step) {
      ServerUntouched(w, step);
      AskedStays(w, step);
      ClientAnswersNothing(w, Apply(w, step));
    } else if step.Serve? {
      ConnectedToServe(w);
      ServeIs(w, step.accept);
      ServeAnswers(w, step.accept);
    } else {
      var m := ReportIsNoReply(w, step);
      ReportAnswersNothing(w, Apply(w, step), m);
    }
  }

  // ---------- what was asked stays asked ----------

  predicate Continues(c: Client, d: Client) { d.transport == c.transport && c.asked <= d.asked }

  lemma ExtendsContinues(c: Client, d: Client)
    requires Extends(c, d)
    ensures Continues(c, d)
  {
  }

  lemma DeliverContinues(w: World, now: Time)
    requires Inv(w) && CanDeliver(w) && ObserversAlive(w.client)
    ensures Continues(w.client, Dispatch(w.client, w.sent[w.delivered], now))
  {
    var c, m := w.client, w.sent[w.delivered];
    assert MessageOk(w, w.delivered);
    match m {
      case SubscriptionReply(_, _, _) =>
        SubscriptionCreatedKeeps(c, now);
        ExtendsContinues(Subscribed(c), Dispatch(c, m, now));
      case ItemReply(r, ok, id) =>
        FreshIdInReply(w);
        ItemCreatedEffect(c, r, ok, id);
      case DeleteReply(r) => assert r in c.pending ==> PendingOk(c, r);
      case DataNote(k, value) =>
        if k in c.observers {
          assert ObserverOk(c, k) && KnownOk(w, k);
          DataHandled(w, k, value);
        }
      case EventNote(k, bad, carried) =>
        if carried && k in c.observers {
          assert ObserverOk(c, k) && KnownOk(w, k);
          EventHandled(w, k, bad);
        }
    }
  }

  lemma AskedStays(w: World, step: Step)
    requires Inv(w) && Clients(step)
    ensures Continues(w.client, Apply(w, step).client)
  {
    var c := w.client;
    match step {
      case NewItem(kind, now) =>
        CreateMonitoredItemKeeps(c, kind, now);
        ExtendsContinues(c, CreateMonitoredItem(c, kind, now));
      case Subscribe(x) =>
        if x in c.items && !c.items[x].subscribed {
          SubscribeKeeps(c, x);
          ExtendsContinues(c, SubscribeItem(c, x));
        }
      case Destroy(x) => if x in c.items { DestroyEffect(c, x); }
      case Deliver(now) => if w.delivered < |w.sent| && ObserversAlive(c) { DeliverContinues(w, now); }
    }
  }

  /**
   * In every run the replies the server has sent on a connection answer the requests it has handled, each once and
   * in the order in which they were asked.
   */
  lemma {:induction false} EveryRequestAnswered(steps: seq<Step>)
    requires ClosesCleanly(steps)
    ensures AllAnswered(Run(steps))
  {
    if steps != [] {
      RunPrefix(steps);
      EveryRequestAnswered(steps[..|steps| - 1]);
      AnswersStep(Run(steps[..|steps| - 1]), steps[|steps| - 1]);
    }
  }

  // ---------- a deleted item is gone ----------

  /** No item is held whose deletion was handled. */
  predicate DeletedGone(w: World) {
    forall i :: 0 <= i < w.handled && i < |w.client.asked| && w.client.asked[i].body.DeleteItem? ==>
      w.client.asked[i].body.id !in Items(w)
  }

  lemma DeletedWasIssued(w: World, i: nat)
    requires Inv(w) && w.client.transport && i < |w.client.asked| && w.client.asked[i].body.DeleteItem?
    ensures w.client.asked[i].body.id in w.issued
  {
    assert AskedOk(w.client, i) && DroppedOk(w, w.client.asked[i].body.id);
  }

  lemma ServeKeepsGone(w: World, accept: bool)
    requires Inv(w) && CanServe(w) && DeletedGone(w)
    ensures DeletedGone(Served(w, accept))
  {
    var v := Served(w, accept);
    assert AskedOk(w.client, w.handled);
    NextRequest(w);
    match w.client.asked[w.handled].body {
      case CreateSubscription => SubscriptionServed(w, accept);
      case CreateItem(_, _) => CreationServed(w, accept);
      case DeleteItem(_, _) => DeletionServed(w, accept);
    }
    forall i | 0 <= i < v.handled && v.client.asked[i].body.DeleteItem? ensures v.client.asked[i].body.id !in Items(v) {
      DeletedWasIssued(w, i);
    }
  }

  /** Reports only let items go. */
  lemma FewerItemsKeepGone(w: World, v: World)
    requires DeletedGone(w) && v.client == w.client && v.handled == w.handled && Items(v).Keys <= Items(w).Keys
    ensures DeletedGone(v)
  {
  }

  lemma ClientKeepsGone(w: World, v: World)
    requires Inv(w) && DeletedGone(w) && Continues(w.client, v.client)
    requires v.handled == w.handled && v.stubs == w.stubs
    ensures DeletedGone(v)
  {
    assert w.handled <= |w.client.asked|;
  }

  lemma ReportLetsGo(w: World, step: Step)
    requires Inv(w) && (step.Sample? || step.Raise?)
    ensures var v := Apply(w, step);
            v.client == w.client && v.handled == w.handled && Items(v).Keys <= Items(w).Keys
  {
  }

  lemma GoneStep(w: World, step: Step)
    requires Inv(w) && DeletedGone(w)
    ensures DeletedGone(Apply(w, step))
  {
    if Idle(w, step) {
      IdleIs(w, step);
    } else if Restarts(w, step) {
      RestartAnswersNothing(w, step);
    } else if Clients(step) {
      ServerUntouched(w, step);
      AskedStays(w, step);
      ClientKeepsGone(w, Apply(w, step));
    } else if step.Serve? {
      ConnectedToServe(w);
      ServeIs(w, step.accept);
      ServeKeepsGone(w, step.accept);
    } else {
      ReportLetsGo(w, step);
      FewerItemsKeepGone(w, Apply(w, step));
    }
  }

  /** In every run an item whose deletion the server has handled is not held, and never will be on this connection. */
  lemma {:induction false} DeletedIsGone(steps: seq<Step>)
    requires ClosesCleanly(steps)
    ensures DeletedGone(Run(steps))
  {
    if steps != [] {
      RunPrefix(steps);
      DeletedIsGone(steps[..|steps| - 1]);
      GoneStep(Run(steps[..|steps| - 1]), steps[|steps| - 1]);
    }
  }

  // ---------- every report is sent ----------

  /** The notifications about item k. */
  function NotesOf(sent: seq<Message>, k: int): seq<Message> {
    if sent == [] then []
    else NotesOf(sent[..|sent| - 1], k) + if About(sent[|sent| - 1], k) then [sent[|sent| - 1]] else []
  }

  lemma NotesSnoc(sent: seq<Message>, m: Message, k: int)
    ensures NotesOf(sent + [m], k) == NotesOf(sent, k) + if About(m, k) then [m] else []
  {
    assert (sent + [m])[..|sent|] == sent;
  }

  predicate HeldAs(w: World, s: int, k: int, kind: Kind) {
    s in w.stubs && k in w.stubs[s].items && w.stubs[s].items[k] == kind
  }

  /** What the client must hear of a step about item k: any sample but a failed one that is not bad, any event sent. */
  function Heard(w: World, step: Step, k: int): seq<Message> {
    match step
    case Sample(s, id, v) =>
      if id == k && HeldAs(w, s, k, ValueKind) && (v.qualifier & FAILED == 0 || v.status.severity.BadSeverity?)
      then [DataNote(k, v)] else []
    case Raise(s, id, bad, payload) =>
      if id == k && HeldAs(w, s, k, EventKind) && payload != Screened
      then [EventNote(k, bad, payload == Convertible)] else []
    case _ => []
  }

  /** What a run reports about item k on the connection it ends with. */
  function Reported(steps: seq<Step>, k: int): seq<Message> {
    if steps == [] then []
    else
      var before, last := steps[..|steps| - 1], steps[|steps| - 1];
      if Restarts(Run(before), last) then [] else Reported(before, k) + Heard(Run(before), last, k)
  }

  lemma NextTellsNothing(w: World, v: World, m: Message, k: int)
    requires AnswersNext(w, v, m) && Replied(m) != []
    ensures NotesOf(v.sent, k) == NotesOf(w.sent, k)
  {
    NotesSnoc(w.sent, m, k);
  }

  lemma ServeTellsNothing(w: World, accept: bool, k: int)
    requires Inv(w) && CanServe(w)
    ensures NotesOf(Served(w, accept).sent, k) == NotesOf(w.sent, k)
  {
    var m := ServedNext(w, accept);
    NextTellsNothing(w, Served(w, accept), m, k);
  }

  lemma SampleSends(w: World, s: int, id: int, v: DataValue)
    ensures SampleItem(w, s, id, v).sent == w.sent + Heard(w, Sample(s, id, v), id)
  {
  }

  lemma RaiseSends(w: World, s: int, id: int, bad: bool, payload: Payload)
    ensures RaiseEvent(w, s, id, bad, payload).sent == w.sent + Heard(w, Raise(s, id, bad, payload), id)
  {
  }

  /** At most one message, about its own item. */
  lemma HeardTells(w: World, step: Step, sent: seq<Message>, k: int)
    requires (step.Sample? || step.Raise?) && sent == w.sent + Heard(w, step, step.id)
    ensures NotesOf(sent, k) == NotesOf(w.sent, k) + Heard(w, step, k)
  {
    var heard := Heard(w, step, step.id);
    if heard == [] {
      assert sent == w.sent;
    } else {
      assert heard == [heard[0]];
      NotesSnoc(w.sent, heard[0], k);
    }
  }

  lemma TellsStep(w: World, step: Step, k: int)
    requires Inv(w)
    ensures NotesOf(Apply(w, step).sent, k) ==
            if Restarts(w, step) then [] else NotesOf(w.sent, k) + Heard(w, step, k)
  {
    if Clients(step) {
      ServerUntouched(w, step);
    } else {
      match step {
        case Serve(accept) => if w.handled < |w.client.asked| { ServeTellsNothing(w, accept, k); }
        case Sample(s, id, v) =>
          SampleSends(w, s, id, v);
          HeardTells(w, step, Apply(w, step).sent, k);
        case Raise(s, id, bad, payload) =>
          RaiseSends(w, s, id, bad, payload);
          HeardTells(w, step, Apply(w, step).sent, k);
        case _ =>
      }
    }
  }

  /** In every run the notifications sent about an item are the reports of that item while it was held, in order. */
  lemma {:induction false} EveryReportSent(steps: seq<Step>, k: int)
    requires ClosesCleanly(steps)
    ensures NotesOf(Run(steps).sent, k) == Reported(steps, k)
  {
    if steps != [] {
      RunPrefix(steps);
      EveryReportSent(steps[..|steps| - 1], k);
      TellsStep(Run(steps[..|steps| - 1]), steps[|steps| - 1], k);
    }
  }

  // ---------- nobody waits in vain ----------

  /** The reply to the request is sent and not read yet. */
  predicate ReplyAhead(w: World, r: nat) { exists j :: w.delivered <= j < |w.sent| && Replied(w.sent[j]) == [r] }

  /** A pending request has not been handled yet, or its reply is on the way. */
  predicate PendingAnswered(w: World) {
    forall r :: r in w.client.pending && r < w.client.base + w.handled ==> ReplyAhead(w, r)
  }

  /** Only new requests become pending. */
  predicate NewOnly(c: Client, d: Client) {
    d.base == c.base && forall r :: r in d.pending ==> r in c.pending || c.nextRequestId <= r
  }

  predicate PendingGrows(c: Client, d: Client) { NewOnly(c, d) && c.nextRequestId <= d.nextRequestId }

  /** The request queue is as it was, or has one request more. */
  predicate OneMore(c: Client, d: Client, handler: Handler) {
    && d.base == c.base
    && (|| (d.pending == c.pending && d.nextRequestId == c.nextRequestId)
        || (d.pending == c.pending[c.nextRequestId := handler] && d.nextRequestId == c.nextRequestId + 1))
  }

  lemma OneMoreGrows(c: Client, d: Client, handler: Handler)
    requires OneMore(c, d, handler)
    ensures PendingGrows(c, d)
  {
  }

  lemma StubPending(c: Client, x: ItemRef)
    requires x in c.items
    ensures OneMore(c, CreateStub(c, x), ItemResult(x))
  {
  }

  lemma OpenedPending(c: Client, x: ItemRef, now: Time)
    requires x in c.items
    ensures PendingGrows(c, ItemChannelOpened(c, x, now))
  {
    var c1 := WithItem(c, x, Opening(c.items[x], c.subscriptionId, now));
    StubPending(c1, x);
    OneMoreGrows(c, ItemChannelOpened(c, x, now), ItemResult(x));
  }

  lemma {:induction false} OpenAllPending(c: Client, xs: seq<ItemRef>, now: Time)
    requires forall x :: x in xs ==> x in c.items
    ensures PendingGrows(c, OpenAll(c, xs, now))
    decreases |xs|
  {
    if xs != [] && !c.panicked {
      OpenedPending(c, xs[0], now);
      OpenAllPending(ItemChannelOpened(c, xs[0], now), xs[1..], now);
    }
  }

  lemma NewItemPending(c: Client, kind: Kind, now: Time)
    ensures PendingGrows(c, CreateMonitoredItem(c, kind, now))
  {
    if c.state.Created? && c.sender { OpenedPending(Joined(c, kind), c.nextRef, now); }
  }

  lemma SubscribePending(c: Client, x: ItemRef)
    requires x in c.items
    ensures PendingGrows(c, SubscribeItem(c, x))
  {
    StubPending(WithItem(c, x, c.items[x].(subscribed := true)), x);
    OneMoreGrows(c, SubscribeItem(c, x), ItemResult(x));
  }

  lemma SubscriptionPending(c: Client, now: Time)
    requires ClientInv(c, {}) && c.state.Creating?
    ensures var d := SubscriptionCreated(c.(pending := c.pending - {c.base}), true, 1, now);
            PendingGrows(c.(pending := c.pending - {c.base}), d)
  {
    OpenAllPending(Subscribed(c), Live(c.monitored, c.items), now);
  }

  /** New requests have not been handled. */
  lemma NumbersAhead(w: World)
    requires Inv(w) && w.client.transport
    ensures w.client.base + w.handled <= w.client.nextRequestId
  {
  }

  lemma AheadStays(w: World, v: World, r: nat)
    requires ReplyAhead(w, r) && v.sent == w.sent
    requires v.delivered == w.delivered
          || (v.delivered == w.delivered + 1 && w.delivered < |w.sent| && Replied(w.sent[w.delivered]) != [r])
    ensures ReplyAhead(v, r)
  {
    var j :| w.delivered <= j < |w.sent| && Replied(w.sent[j]) == [r];
    assert v.delivered <= j < |v.sent| && Replied(v.sent[j]) == [r];
  }

  /** A client that asks more leaves what it awaited before as it was. */
  lemma AskingKeepsAnswered(w: World, d: Client)
    requires Inv(w) && PendingAnswered(w) && NewOnly(w.client, d)
    requires ClientInv(d, {}) && d.transport == w.client.transport
    ensures PendingAnswered(w.(client := d))
  {
    if d.transport {
      NumbersAhead(w);
      forall r | r in d.pending && r < d.base + w.handled ensures ReplyAhead(w.(client := d), r) {
        AheadStays(w, w.(client := d), r);
      }
    }
  }

  /** Reading a message leaves every reply ahead but its own. */
  lemma ReadingKeepsAnswered(w: World, d: Client)
    requires PendingAnswered(w) && NewOnly(w.client, d) && w.client.base + w.handled <= w.client.nextRequestId
    requires w.delivered < |w.sent|
    requires forall r :: r in d.pending && r in w.client.pending ==> Replied(w.sent[w.delivered]) != [r]
    ensures PendingAnswered(Read(w, d))
  {
    forall r | r in d.pending && r < d.base + w.handled ensures ReplyAhead(Read(w, d), r) {
      AheadStays(w, Read(w, d), r);
    }
  }

  lemma MessageRead(w: World, now: Time)
    requires Inv(w) && CanDeliver(w) && ObserversAlive(w.client)
    ensures var m := w.sent[w.delivered];
            var d := Dispatch(w.client, m, now);
            NewOnly(w.client, d) && forall r :: r in d.pending && r in w.client.pending ==> Replied(m) != [r]
  {
    var c := w.client;
    assert MessageOk(w, w.delivered);
    match w.sent[w.delivered] {
      case SubscriptionReply(_, _, _) => SubscriptionRead(c, now);
      case ItemReply(r, ok, id) => ItemReplyRead(c, r, ok, id);
      case DeleteReply(r) => assert r in c.pending ==> PendingOk(c, r);
      case _ => NoteRead(w, now);
    }
  }

  lemma DeliverKeepsAnswered(w: World, now: Time)
    requires Inv(w) && CanDeliver(w) && ObserversAlive(w.client) && PendingAnswered(w)
    ensures PendingAnswered(Read(w, Dispatch(w.client, w.sent[w.delivered], now)))
  {
    MessageRead(w, now);
    NumbersAhead(w);
    ReadingKeepsAnswered(w, Dispatch(w.client, w.sent[w.delivered], now));
  }

  lemma SubscriptionRead(c: Client, now: Time)
    requires ClientInv(c, {}) && c.state.Creating?
    ensures var d := SubscriptionCreated(c.(pending := c.pending - {c.base}), true, 1, now);
            NewOnly(c, d) && c.base !in d.pending
  {
    SubscriptionPending(c, now);
  }

  lemma ItemReplyRead(c: Client, r: nat, ok: bool, id: int)
    requires r in c.pending && c.pending[r].ItemResult?
    ensures var d := ItemCreated(c.(pending := c.pending - {r}), c.pending[r].item, ok, id);
            NewOnly(c, d) && r !in d.pending
  {
  }

  lemma NoteRead(w: World, now: Time)
    requires Inv(w) && CanDeliver(w) && ObserversAlive(w.client)
    requires w.sent[w.delivered].DataNote? || w.sent[w.delivered].EventNote?
    ensures var d := Dispatch(w.client, w.sent[w.delivered], now);
            d.pending == w.client.pending && d.base == w.client.base
  {
    var c, m := w.client, w.sent[w.delivered];
    assert MessageOk(w, w.delivered);
    if m.id in c.observers {
      assert ObserverOk(c, m.id) && KnownOk(w, m.id);
      if m.DataNote? {
        DataHandled(w, m.id, m.value);
      } else if m.carried {
        EventHandled(w, m.id, m.bad);
      }
    }
  }

  lemma NextKeepsAnswered(w: World, v: World, m: Message)
    requires PendingAnswered(w) && AnswersNext(w, v, m) && Replied(m) == [w.client.base + w.handled]
    requires v.delivered == w.delivered <= |w.sent|
    ensures PendingAnswered(v)
  {
    forall r | r in v.client.pending && r < v.client.base + v.handled ensures ReplyAhead(v, r) {
      if r == w.client.base + w.handled {
        assert v.sent[|w.sent|] == m;
      } else {
        assert ReplyAhead(w, r);
        var j :| w.delivered <= j < |w.sent| && Replied(w.sent[j]) == [r];
        assert v.sent[j] == w.sent[j];
      }
    }
  }

  lemma ServeKeepsAnswered(w: World, accept: bool)
    requires Inv(w) && CanServe(w) && PendingAnswered(w)
    ensures PendingAnswered(Served(w, accept))
  {
    var m := ServedNext(w, accept);
    ServedKeepsDelivered(w, accept);
    NextKeepsAnswered(w, Served(w, accept), m);
  }

  lemma ServedKeepsDelivered(w: World, accept: bool)
    requires w.handled < |w.client.asked|
    ensures Served(w, accept).delivered == w.delivered
  {
  }

  lemma ReportKeepsAnswered(w: World, v: World, m: Message)
    requires PendingAnswered(w) && v.client == w.client && v.handled == w.handled && v.delivered == w.delivered
    requires v.sent == w.sent || v.sent == w.sent + [m]
    ensures PendingAnswered(v)
  {
    forall r | r in v.client.pending && r < v.client.base + v.handled ensures ReplyAhead(v, r) {
      assert ReplyAhead(w, r);
      var j :| w.delivered <= j < |w.sent| && Replied(w.sent[j]) == [r];
      assert v.sent[j] == w.sent[j];
    }
  }

  lemma RestartKeepsAnswered(w: World, step: Step)
    requires Inv(w) && Restarts(w, step) && Inv(Apply(w, step))
    ensures PendingAnswered(Apply(w, step))
  {
    var v := Apply(w, step);
    forall r | r in v.client.pending ensures v.client.base <= r { assert PendingOk(v.client, r); }
  }

  lemma ClientKeepsAnswered(w: World, step: Step)
    requires Inv(w) && Inv(Apply(w, step)) && Clients(step) && PendingAnswered(w)
    ensures PendingAnswered(Apply(w, step))
  {
    var c := w.client;
    AskedStays(w, step);
    match step {
      case NewItem(kind, now) =>
        NewItemPending(c, kind, now);
        AskingKeepsAnswered(w, CreateMonitoredItem(c, kind, now));
      case Subscribe(x) =>
        if x in c.items && !c.items[x].subscribed {
          SubscribePending(c, x);
          AskingKeepsAnswered(w, SubscribeItem(c, x));
        }
      case Destroy(x) =>
        if x in c.items {
          DestroyEffect(c, x);
          AskingKeepsAnswered(w, DestroyItem(c, x));
        }
      case Deliver(now) => if w.delivered < |w.sent| && ObserversAlive(c) { DeliverKeepsAnswered(w, now); }
    }
  }

  lemma PendingStep(w: World, step: Step)
    requires Inv(w) && Inv(Apply(w, step)) && PendingAnswered(w)
    ensures PendingAnswered(Apply(w, step))
  {
    if Idle(w, step) {
      IdleIs(w, step);
    } else if Restarts(w, step) {
      RestartKeepsAnswered(w, step);
    } else if Clients(step) {
      ClientKeepsAnswered(w, step);
    } else if step.Serve? {
      ConnectedToServe(w);
      ServeIs(w, step.accept);
      ServeKeepsAnswered(w, step.accept);
    } else {
      var m := ReportIsNoReply(w, step);
      ReportKeepsAnswered(w, Apply(w, step), m);
    }
  }

  lemma {:induction false} EveryPendingAnswered(steps: seq<Step>)
    requires ClosesCleanly(steps)
    ensures PendingAnswered(Run(steps))
  {
    if steps != [] {
      RunPrefix(steps);
      EveryPendingAnswered(steps[..|steps| - 1]);
      PendingStep(Run(steps[..|steps| - 1]), steps[|steps| - 1]);
    }
  }

  /**
   * Nobody waits in vain: once a connected client has read the answers to everything it asked, no request is pending,
   * the subscription is created, and every live item is open and either registered or without a stub.
   */
  lemma NobodyWaitsInVain(steps: seq<Step>)
    requires ClosesCleanly(steps) && Run(steps).client.transport
    requires Run(steps).handled == |Run(steps).client.asked| && Run(steps).delivered == |Run(steps).sent|
    ensures var c := Run(steps).client;
            && c.pending == map[] && c.state.Created?
            && forall x :: x in c.items ==> c.items[x].FullyOpen() && !c.items[x].state.Creating?
  {
    EveryRun(steps);
    EveryPendingAnswered(steps);
    NothingPending(Run(steps));
  }

  lemma PendingAhead(w: World, r: nat)
    requires Inv(w) && PendingAnswered(w) && w.handled == |w.client.asked| && r in w.client.pending
    ensures ReplyAhead(w, r)
  {
    assert PendingOk(w.client, r);
  }

  lemma NothingPending(w: World)
    requires Inv(w) && PendingAnswered(w) && w.client.transport
    requires w.handled == |w.client.asked| && w.delivered == |w.sent|
    ensures w.client.pending == map[] && w.client.state.Created?
    ensures forall x :: x in w.client.items ==> w.client.items[x].FullyOpen() && !w.client.items[x].state.Creating?
  {
    var c := w.client;
    forall r | r in c.pending ensures ReplyAhead(w, r) { PendingAhead(w, r); }
    assert forall r :: !ReplyAhead(w, r);
    assert c.pending == map[];
    forall x | x in c.items ensures c.items[x].FullyOpen() && !c.items[x].state.Creating? {
      assert ItemOk(c, x, {});
      CreatingIff(c, x, {});
    }
  }
}
