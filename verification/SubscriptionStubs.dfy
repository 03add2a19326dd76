/**
 A `SubscriptionStub` in the form of its source: the items of one subscription and the messages about
 them. Its methods are the server's steps of `SubscriptionProtocol`, and keep what a client relies on:
 ids are never used again, nothing is reported under an id before it was announced, and a bad report is
 the last one.
 */
module SubscriptionStubs {
  import opened DataValues
  import opened SubscriptionClient
  import opened SubscriptionProtocol

  predicate Announces(m: Message, id: int) { m.ItemReply? && m.ok && m.id == id }

  predicate Reports(m: Message, id: int) { (m.DataNote? || m.EventNote?) && m.id == id }

  predicate EndsItem(m: Message, id: int) {
    (m.DataNote? && m.id == id && m.value.status.IsBad()) || (m.EventNote? && m.id == id && m.bad)
  }

  /** The id was announced before this position. */
  predicate AnnouncedBefore(sent: seq<Message>, j: nat, id: int)
    requires j <= |sent|
  {
    exists i :: 0 <= i < j && Announces(sent[i], id)
  }

  /** No id is announced twice. */
  ghost predicate OneAnnouncementEach(sent: seq<Message>) {
    forall i, j, id :: 0 <= i < j < |sent| && Announces(sent[i], id) ==> !Announces(sent[j], id)
  }

  ghost predicate ReportsAnnounced(sent: seq<Message>) {
    forall j, id :: 0 <= j < |sent| && Reports(sent[j], id) ==> AnnouncedBefore(sent, j, id)
  }

  ghost predicate NothingAfterTheEnd(sent: seq<Message>) {
    forall i, j, id :: 0 <= i < j < |sent| && EndsItem(sent[i], id) ==> !Reports(sent[j], id)
  }

  /** What a client may rely on in the messages of one subscription. */
  ghost predicate Orderly(sent: seq<Message>) {
    OneAnnouncementEach(sent) && ReportsAnnounced(sent) && NothingAfterTheEnd(sent)
  }

  /** The items held were announced and have not reported their end; all ids announced are below the next. */
  ghost predicate ItemsOk(nextId: int, items: map<int, Kind>, sent: seq<Message>) {
    && (forall i, id :: 0 <= i < |sent| && Announces(sent[i], id) ==> id < nextId)
    && (forall id :: id in items ==> AnnouncedBefore(sent, |sent|, id))
    && (forall i, id :: 0 <= i < |sent| && id in items ==> !EndsItem(sent[i], id))
  }

  lemma AnnouncedStays(sent: seq<Message>, m: Message, j: nat, id: int)
    requires j <= |sent| && AnnouncedBefore(sent, j, id)
    ensures AnnouncedBefore(sent + [m], j, id) && AnnouncedBefore(sent + [m], |sent| + 1, id)
  {
    var i :| 0 <= i < j && Announces(sent[i], id);
    assert Announces((sent + [m])[i], id);
  }

  lemma SendKeepsOrder(sent: seq<Message>, m: Message)
    requires Orderly(sent)
    requires forall i, id :: 0 <= i < |sent| && Announces(sent[i], id) ==> !Announces(m, id)
    requires forall id :: Reports(m, id) ==> AnnouncedBefore(sent, |sent|, id)
    requires forall i, id :: 0 <= i < |sent| && EndsItem(sent[i], id) ==> !Reports(m, id)
    ensures Orderly(sent + [m])
  {
    var all := sent + [m];
    forall j, id | 0 <= j < |all| && Reports(all[j], id) ensures AnnouncedBefore(all, j, id) {
      if j < |sent| {
        assert Reports(sent[j], id);
        AnnouncedStays(sent, m, j, id);
      } else {
        AnnouncedStays(sent, m, |sent|, id);
      }
    }
  }

  lemma SendKeepsItems(nextId: int, items: map<int, Kind>, sent: seq<Message>, m: Message)
    requires ItemsOk(nextId, items, sent)
    requires forall id :: Announces(m, id) ==> id < nextId
    requires forall id :: id in items ==> !EndsItem(m, id)
    ensures ItemsOk(nextId, items, sent + [m])
  {
    forall id | id in items ensures AnnouncedBefore(sent + [m], |sent| + 1, id) {
      AnnouncedStays(sent, m, |sent|, id);
    }
  }

  /** The next id is new to everything sent and held. */
  lemma NextIdIsNew(nextId: int, items: map<int, Kind>, sent: seq<Message>)
    requires Orderly(sent) && ItemsOk(nextId, items, sent)
    ensures nextId !in items && !AnnouncedBefore(sent, |sent|, nextId)
    ensures forall i :: 0 <= i < |sent| ==> !Announces(sent[i], nextId) && !EndsItem(sent[i], nextId)
  {
    forall i | 0 <= i < |sent| ensures !Announces(sent[i], nextId) && !EndsItem(sent[i], nextId) {
      assert forall id :: EndsItem(sent[i], id) ==> Reports(sent[i], id);
    }
  }

  lemma CreateKeeps(nextId: int, items: map<int, Kind>, sent: seq<Message>, request: nat, kind: Kind)
    requires Orderly(sent) && ItemsOk(nextId, items, sent)
    ensures var all := sent + [ItemReply(request, true, nextId)];
            Orderly(all) && ItemsOk(nextId + 1, items[nextId := kind], all)
  {
    var m := ItemReply(request, true, nextId);
    NextIdIsNew(nextId, items, sent);
    SendKeepsOrder(sent, m);
    SendKeepsItems(nextId + 1, items, sent, m);
    assert Announces((sent + [m])[|sent|], nextId);
  }

  /** A report under the id of an item that is held; one that ends the item comes with its removal. */
  lemma ReportKeeps(nextId: int, items: map<int, Kind>, sent: seq<Message>, m: Message, id: int)
    requires Orderly(sent) && ItemsOk(nextId, items, sent) && id in items && Reports(m, id)
    ensures Orderly(sent + [m])
    ensures ItemsOk(nextId, if EndsItem(m, id) then items - {id} else items, sent + [m])
    ensures ItemsOk(nextId, items - {id}, sent)
  {
    SendKeepsOrder(sent, m);
    SendKeepsItems(nextId, if EndsItem(m, id) then items - {id} else items, sent, m);
  }

  class SubscriptionStub {
    var nextId: int
    var items: map<int, Kind>
    var sent: seq<Message>

    // Where each item id was announced, and how the server let it go.
    ghost var issued: map<int, Issue>
    ghost var ended: map<int, End>

    /** The world in which this is subscription n, with everything else as in `w`. */
    ghost function In(w: World, n: int): World
      reads this
    {
      w.(stubs := w.stubs[n := Stub(nextId, items)], sent := sent, issued := issued, ended := ended)
    }

    ghost predicate Valid()
      reads this
    {
      Orderly(sent) && ItemsOk(nextId, items, sent)
    }

    constructor ()
      ensures Valid() && nextId == 1 && items == map[] && sent == []
    {
      nextId, items, sent, issued, ended := 1, map[], [], map[], map[];
    }

    /** A new item gets an id never announced before, and its announcement is sent before it can report. */
    method OnCreateMonitoredItem(request: nat, kind: Kind, accept: bool, ghost w: World, ghost n: int)
      requires Valid()
      modifies this
      ensures Valid() && sent == old(sent) + [ItemReply(request, accept, if accept then nextId - 1 else 0)]
      ensures In(w, n) == ServeRequest(old(In(w, n)), Request(request, CreateItem(n, kind)), accept)
      ensures accept ==> nextId - 1 !in old(items) && items == old(items)[nextId - 1 := kind]
      ensures accept ==> !AnnouncedBefore(old(sent), |old(sent)|, nextId - 1)
      ensures accept ==> Announces(sent[|old(sent)|], nextId - 1)
      ensures !accept ==> items == old(items) && nextId == old(nextId)
    {
      if !accept {
        SendKeepsOrder(sent, ItemReply(request, false, 0));
        SendKeepsItems(nextId, items, sent, ItemReply(request, false, 0));
        sent := sent + [ItemReply(request, false, 0)];
        return;
      }
      NextIdIsNew(nextId, items, sent);
      CreateKeeps(nextId, items, sent, request, kind);
      var id := nextId;
      nextId := nextId + 1;
      items := items[id := kind];
      issued := issued[id := Issue(kind, |sent|)];
      sent := sent + [ItemReply(request, true, id)];
    }

    method OnDeleteMonitoredItem(request: nat, id: int, ghost w: World, ghost n: int)
      requires Valid()
      modifies this
      ensures Valid() && items == old(items) - {id} && sent == old(sent) + [DeleteReply(request)]
      ensures In(w, n) == ServeRequest(old(In(w, n)), Request(request, DeleteItem(n, id)), true)
    {
      SendKeepsOrder(sent, DeleteReply(request));
      SendKeepsItems(nextId, items, sent, DeleteReply(request));
      items := items - {id};
      sent := sent + [DeleteReply(request)];
    }

    /** A value is reported only under the id of an item that is held; a bad one is its last. */
    method OnDataChange(id: int, value: DataValue, ghost w: World, ghost n: int)
      requires Valid() && (value.Failed() ==> value.status.IsBad()) && (id in items ==> items[id].ValueKind?)
      modifies this
      ensures Valid() && In(w, n) == SampleItem(old(In(w, n)), n, id, value)
      ensures sent == old(sent) + (if id in old(items) then [DataNote(id, value)] else [])
      ensures items == if value.status.IsBad() then old(items) - {id} else old(items)
    {
      if id !in items { return; }
      ReportKeeps(nextId, items, sent, DataNote(id, value), id);
      if value.status.IsBad() {
        items := items - {id};
        ended := ended[id := BadValue(|sent|, value)];
      }
      sent := sent + [DataNote(id, value)];
    }

    method Raise(id: int, bad: bool, payload: Payload, ghost w: World, ghost n: int)
      requires id in items ==> items[id].EventKind?
      modifies this
      ensures In(w, n) == RaiseEvent(old(In(w, n)), n, id, bad, payload) && nextId == old(nextId)
      ensures items == if bad then old(items) - {id} else old(items)
      ensures sent == old(sent) +
                if id in old(items) && !payload.Screened? then [EventNote(id, bad, payload.Convertible?)] else []
    {
      if id !in items { return; }
      if bad {
        items := items - {id};
        ended := ended[id := if payload.Convertible? then BadEvent(|sent|) else Muted];
      }
      if payload.Screened? { return; }
      sent := sent + [EventNote(id, bad, payload.Convertible?)];
    }

    /** An event is reported only under the id of an item that is held; a bad status ends it in any case. */
    method OnEvent(id: int, bad: bool, payload: Payload, ghost w: World, ghost n: int)
      requires Valid() && (id in items ==> items[id].EventKind?)
      modifies this
      ensures Valid() && In(w, n) == RaiseEvent(old(In(w, n)), n, id, bad, payload)
      ensures items == if bad then old(items) - {id} else old(items)
      ensures sent == old(sent) +
                if id in old(items) && !payload.Screened? then [EventNote(id, bad, payload.Convertible?)] else []
    {
      if id in items {
        ReportKeeps(nextId, items, sent, EventNote(id, bad, payload.Convertible?), id);
      } else {
        assert items - {id} == items;
      }
      Raise(id, bad, payload, w, n);
    }
  }
}
