/**
 What the client's steps mean for those who look at its items: which value is shown, and in which state an item
 is, after each message and at either end of a session. The cases are written out on the fields.
 */
module SubscriptionMeaning {
  import opened DataValues
  import opened SubscriptionClient
  import opened SubscriptionClientInvariant
  import opened SubscriptionProtocol
  import opened SubscriptionAgreement

  /** Nothing but this item and the routing has changed. */
  predicate OnlyItem(c: Client, d: Client, x: ItemRef) {
    && d.items.Keys == c.items.Keys && d.asked == c.asked && !d.panicked
    && (forall y :: y in c.items && y != x ==> d.items[y] == c.items[y])
  }

  // ---------- notifications ----------

  /**
   * A value is shown if no source time was shown before, or if its source time and then its server time are not
   * before those shown. A bad value that is news ends the routing; nothing else changes.
   */
  predicate DataTaken(c: Client, d: Client, k: int, v: DataValue) {
    if k !in c.observers then d == c
    else
      var x := c.observers[k];
      && x in c.items && OnlyItem(c, d, x) && d.pending == c.pending
      && var shown := c.items[x].current;
         var newest := shown.sourceTime == 0 || shown.sourceTime < v.sourceTime
                       || (shown.sourceTime == v.sourceTime && shown.serverTime <= v.serverTime);
         && d.items[x].current == (if newest then v else shown)
         && if v.status.IsBad() && v != shown
            then && d.observers == c.observers - {k}
                 && d.items[x] == c.items[x].(state := Deleted, id := 0, current := d.items[x].current)
            else d.observers == c.observers && d.items[x] == c.items[x].(current := d.items[x].current)
  }

  lemma DataHandled(c: Client, k: int, v: DataValue)
    requires ClientInv(c, {}) && k in c.observers && c.observers[k] in c.items
    requires c.items[c.observers[k]].kind.ValueKind?
    ensures DataTaken(c, ItemData(c, c.observers[k], v), k, v)
  {
    assert ObserverOk(c, k) && ItemOk(c, c.observers[k], {});
  }

  lemma DataArrives(w: World, now: Time, k: int, v: DataValue)
    requires Inv(w) && w.delivered < |w.sent| && w.sent[w.delivered] == DataNote(k, v)
    ensures DataTaken(w.client, Apply(w, Deliver(now)).client, k, v)
  {
    var c := w.client;
    InvIsAlive(c);
    assert MessageOk(w, w.delivered);
    if k in c.observers {
      assert KnownOk(w, k);
      DataHandled(c, k, v);
    }
  }

  /** A good event changes nothing; a bad one ends the routing. */
  predicate EventTaken(c: Client, d: Client, k: int, bad: bool, carried: bool) {
    if !carried || !bad || k !in c.observers then d == c
    else
      var x := c.observers[k];
      && x in c.items && OnlyItem(c, d, x) && d.pending == c.pending && d.observers == c.observers - {k}
      && d.items[x] == c.items[x].(state := Deleted)
  }

  lemma EventArrives(w: World, now: Time, k: int, bad: bool, carried: bool)
    requires Inv(w) && w.delivered < |w.sent| && w.sent[w.delivered] == EventNote(k, bad, carried)
    ensures EventTaken(w.client, Apply(w, Deliver(now)).client, k, bad, carried)
  {
    var c := w.client;
    InvIsAlive(c);
    assert MessageOk(w, w.delivered);
    if k in c.observers {
      assert ObserverOk(c, k) && KnownOk(w, k) && ItemOk(c, c.observers[k], {});
    }
  }

  // ---------- replies ----------

  /** The value is the one shown before, marked as failed, with a bad status. */
  predicate MarkedFailed(shown: DataValue, now: DataValue) {
    && now.value == shown.value && now.sourceTime == shown.sourceTime && now.serverTime == shown.serverTime
    && now.qualifier == shown.qualifier | FAILED && now.status.severity.BadSeverity?
  }

  /** The item has no stub, its value is marked as failed, and all else is as before. */
  predicate RefusedItem(before: Item, after: Item) {
    && after == before.(state := Deleted, current := after.current)
    && if before.kind.ValueKind? then MarkedFailed(before.current, after.current) else after.current == before.current
  }

  /** A good reply registers the item under its id; a refused one leaves it without a stub and its value failed. */
  predicate ReplyTaken(c: Client, d: Client, r: nat, ok: bool, id: int) {
    && r in c.pending && c.pending[r].ItemResult? && d.pending == c.pending - {r}
    && var x := c.pending[r].item;
       && OnlyItem(c, d, x)
       && if x !in c.items then d.observers == c.observers
          else if ok then d.observers == c.observers[id := x] && d.items[x] == c.items[x].(state := Created, id := id)
          else d.observers == c.observers && RefusedItem(c.items[x], d.items[x])
  }

  lemma RefusedIs(item: Item)
    requires item.subscribed
    ensures RefusedItem(item, Refused(item, BAD))
  {
  }

  lemma ReplyHandled(c: Client, r: nat, ok: bool, id: int)
    requires ClientInv(c, {}) && r in c.pending && c.pending[r].ItemResult? && (ok ==> id !in c.observers)
    ensures ReplyTaken(c, ItemCreated(c.(pending := c.pending - {r}), c.pending[r].item, ok, id), r, ok, id)
  {
    var x := c.pending[r].item;
    assert PendingOk(c, r);
    if x in c.items {
      assert ItemOk(c, x, {});
      RefusedIs(c.items[x]);
    }
  }

  lemma ReplyArrives(w: World, now: Time, r: nat, ok: bool, id: int)
    requires Inv(w) && w.delivered < |w.sent| && w.sent[w.delivered] == ItemReply(r, ok, id)
    ensures ReplyTaken(w.client, Apply(w, Deliver(now)).client, r, ok, id)
  {
    var c := w.client;
    InvIsAlive(c);
    FreshIdInReply(w);
    assert MessageOk(w, w.delivered) && Waits(c, r);
    ReplyHandled(c, r, ok, id);
  }

  // ---------- both ends of a session ----------

  /** An item once its subscription is there: open, and shown offline and being created if it is subscribed. */
  predicate OpenedItem(before: Item, after: Item, now: Time) {
    && after.FullyOpen() && after.kind == before.kind && after.subscribed == before.subscribed
    && (after.state.Creating? <==> before.subscribed) && !after.state.Created?
    && var v := before.current;
       after.current == if before.subscribed && before.kind.ValueKind?
                        then DataValue(v.value, OFFLINE, v.sourceTime, now, v.status) else v
  }

  lemma OpenedOne(c: Client, x: ItemRef, now: Time)
    requires x in c.items && Openable(c, x)
    ensures var d := ItemChannelOpened(c, x, now);
            && d.items.Keys == c.items.Keys && OpenedItem(c.items[x], d.items[x], now)
            && forall y :: y in c.items && y != x ==> d.items[y] == c.items[y]
  {
    var item := Opening(c.items[x], c.subscriptionId, now);
    var result := if item.subscribed then item.(state := Creating) else item;
    assert c.items[x := item][x := result] == c.items[x := result];
    assert ItemChannelOpened(c, x, now).items == c.items[x := result];
  }

  lemma {:induction false} OpenAllShows(c: Client, xs: seq<ItemRef>, now: Time)
    requires !c.panicked && Distinct(xs) && forall x :: x in xs ==> x in c.items && Openable(c, x)
    ensures var d := OpenAll(c, xs, now);
            && d.items.Keys == c.items.Keys
            && (forall x :: x in xs ==> OpenedItem(c.items[x], d.items[x], now))
            && forall y :: y in c.items && y !in xs ==> d.items[y] == c.items[y]
    decreases |xs|
  {
    if xs != [] {
      var d := ItemChannelOpened(c, xs[0], now);
      assert xs[0] in xs && xs[0] !in xs[1..];
      OpenOne(c, xs, now);
      OpenedOne(c, xs[0], now);
      TailMembers(xs, set x | x in xs);
      OpenAllShows(d, xs[1..], now);
    }
  }

  /** The reply that creates the subscription opens every item. */
  lemma SubscriptionArrives(w: World, now: Time)
    requires Inv(w) && w.delivered < |w.sent| && w.sent[w.delivered].SubscriptionReply?
    ensures var c, d := w.client, Apply(w, Deliver(now)).client;
            && d.state.Created? && d.items.Keys == c.items.Keys
            && forall x :: x in c.items ==> OpenedItem(c.items[x], d.items[x], now)
  {
    var c := w.client;
    InvIsAlive(c);
    assert MessageOk(w, w.delivered);
    AllOpened(c, now);
  }

  lemma AllOpened(c: Client, now: Time)
    requires ClientInv(c, {}) && c.state.Creating?
    ensures var d := SubscriptionCreated(c.(pending := c.pending - {c.base}), true, 1, now);
            && d.state.Created? && d.items.Keys == c.items.Keys
            && forall x :: x in c.items ==> OpenedItem(c.items[x], d.items[x], now)
  {
    var live := Live(c.monitored, c.items);
    LiveDistinct(c.monitored, c.items);
    forall x | x in live ensures x in c.items && Openable(Subscribed(c), x) { assert ItemOk(c, x, {}); }
    SubscriptionCreatedKeeps(c, now);
    OpenAllShows(Subscribed(c), live, now);
  }

  /**
   * An item once its session is lost: closed, without a stub. The value of a registered item is shown offline, that
   * of an item being created is failed as disconnected, and any other is as before.
   */
  predicate LostItem(before: Item, after: Item) {
    && after.FullyClosed() && after.state.Deleted? && after.id == 0 && after.subscriptionId == 0
    && after.kind == before.kind && after.subscribed == before.subscribed
    && var v := before.current;
       after.current ==
       if before.kind.EventKind? || before.state.Deleted? then v
       else if before.state.Created?
       then DataValue(v.value, v.qualifier | OFFLINE, v.sourceTime, v.serverTime, v.status)
       else DataValue(v.value, v.qualifier | FAILED, v.sourceTime, v.serverTime, BAD_DISCONNECTED)
  }

  /** Exactly the items being created are told of the disconnection. */
  lemma FailedItem(c: Client, x: ItemRef)
    requires ClientInv(c, {}) && x in c.items && c.items[x].FullyOpen()
    ensures Failed(c).items.Keys == c.items.Keys
    ensures Failed(c).items[x] ==
            if c.items[x].state.Creating? then Refused(c.items[x], BAD_DISCONNECTED) else c.items[x]
  {
    CreatingIff(c, x, {});
    if c.items[x].state.Creating? {
      var r :| r in c.pending && c.pending[r] == ItemResult(x);
      assert ItemResult(x) in c.pending.Values;
    }
  }

  lemma LostWhileCreating(item: Item)
    requires item.FullyOpen() && item.state.Creating? && item.subscribed
    ensures LostItem(item, Closing(Refused(item, BAD_DISCONNECTED)))
  {
    var q := Refused(item, BAD_DISCONNECTED);
    assert q.state.Deleted? && Closing(q).current == q.current;
  }

  lemma LostOtherwise(item: Item)
    requires item.FullyOpen() && !item.state.Creating? && (item.state.Created? ==> item.subscribed)
    ensures LostItem(item, Closing(item))
  {
  }

  lemma LostIs(item: Item)
    requires item.FullyOpen() && (!item.state.Deleted? ==> item.subscribed)
    ensures LostItem(item, Closing(if item.state.Creating? then Refused(item, BAD_DISCONNECTED) else item))
  {
    if item.state.Creating? { LostWhileCreating(item); } else { LostOtherwise(item); }
  }

  lemma SessionEnds(w: World, x: ItemRef)
    requires Inv(w) && w.client.sessionCreated && CanClose(w.client) && x in w.client.items
    ensures var d := Apply(w, Disconnect).client; x in d.items && LostItem(w.client.items[x], d.items[x])
  {
    ItemIsLost(w.client, x);
  }

  lemma ItemIsLost(c: Client, x: ItemRef)
    requires ClientInv(c, {}) && c.sessionCreated && CanClose(c) && x in c.items
    ensures x in SessionLost(c).items && LostItem(c.items[x], SessionLost(c).items[x])
  {
    assert ItemOk(c, x, {});
    SessionLostIs(c);
    ClosedIsCloseable(c);
    CloseAllCloses(Closed(c), Live(c.monitored, c.items));
    FailedItem(c, x);
    LostIs(c.items[x]);
    assert x in Live(c.monitored, c.items);
  }
}
