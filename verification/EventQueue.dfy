/** The queue that merges view events until they are sent (`ViewEventQueue`). */
module EventQueue {
  import opened Collections

  type Verbs = bv8

  const NODE_ADDED: Verbs := 1
  const NODE_DELETED: Verbs := 2

  const NULL_ID := 0

  datatype Event = ModelChange(node: int, typeDefinition: int, verb: Verbs)
                 | SemanticChange(node: int)

  /** What the wire conversion checks of every model change. */
  predicate IsValid(event: Event)
    requires event.ModelChange?
  {
    && event.node != NULL_ID
    && event.verb != 0
    && (event.verb & NODE_ADDED != 0 ==> event.typeDefinition != NULL_ID)
    && (event.verb & NODE_DELETED != 0 ==> event.verb == NODE_DELETED)
  }

  /**
   * What the conversion rejects: a change without a node, without a verb, an added node without a type, and a
   * deletion that comes with another verb. Everything else passes.
   */
  lemma WhatIsRejected(node: int, typeDefinition: int, verb: Verbs)
    ensures !IsValid(ModelChange(0, typeDefinition, verb)) && !IsValid(ModelChange(node, typeDefinition, 0))
    ensures !IsValid(ModelChange(node, 0, verb | 1))
    ensures !IsValid(ModelChange(node, typeDefinition, verb | 2)) || verb | 2 == 2
    ensures node != 0 && typeDefinition != 0 && verb != 0 && verb & 2 == 0 ==>
              IsValid(ModelChange(node, typeDefinition, verb))
    ensures node != 0 ==> IsValid(ModelChange(node, typeDefinition, 2)) && IsValid(ModelChange(node, 0, 4))
  {
  }

  /** A deletion outweighs everything else. */
  function Combined(verb: Verbs): Verbs {
    if verb & NODE_DELETED != 0 then NODE_DELETED else verb
  }

  /** Whether an event is absorbed by one that is queued already. */
  predicate Absorbs(queued: Event, event: Event) {
    if event.ModelChange? then queued.ModelChange? && queued.node == event.node else queued == event
  }

  function Absorb(queued: Event, event: Event): Event
    requires Absorbs(queued, event)
  {
    if event.SemanticChange? then queued
    else ModelChange(queued.node,
                     if queued.typeDefinition == NULL_ID then event.typeDefinition else queued.typeDefinition,
                     Combined(queued.verb | event.verb))
  }

  /** The queue after one more event. */
  function Queued(queue: seq<Event>, event: Event): seq<Event> {
    if queue == [] then [event]
    else if Absorbs(queue[0], event) then [Absorb(queue[0], event)] + queue[1..]
    else [queue[0]] + Queued(queue[1..], event)
  }

  // What the events received say about one node, whatever else they say.

  function ChangesOf(log: seq<Event>, node: int): seq<Event> {
    if log == [] then []
    else (if log[0].ModelChange? && log[0].node == node then [log[0]] else []) + ChangesOf(log[1..], node)
  }

  /** The union of all verbs. */
  function AllVerbs(changes: seq<Event>): Verbs
    requires forall e :: e in changes ==> e.ModelChange?
  {
    if changes == [] then 0 else changes[0].verb | AllVerbs(changes[1..])
  }

  /** The first type definition that is not null. */
  function FirstType(changes: seq<Event>): int
    requires forall e :: e in changes ==> e.ModelChange?
  {
    if changes == [] then NULL_ID
    else if changes[0].typeDefinition != NULL_ID then changes[0].typeDefinition else FirstType(changes[1..])
  }

  function VerbOf(log: seq<Event>, node: int): Verbs {
    ChangesMembers(log, node);
    var changes := ChangesOf(log, node);
    if |changes| == 1 then changes[0].verb else Combined(AllVerbs(changes))
  }

  function TypeOf(log: seq<Event>, node: int): int {
    ChangesMembers(log, node);
    FirstType(ChangesOf(log, node))
  }

  lemma {:induction false} ChangesMembers(log: seq<Event>, node: int)
    ensures forall e :: e in ChangesOf(log, node) <==> e in log && e.ModelChange? && e.node == node
  {
    if log != [] {
      ChangesMembers(log[1..], node);
      assert log == [log[0]] + log[1..];
    }
  }

  lemma {:induction false} ChangesSnoc(log: seq<Event>, event: Event, node: int)
    ensures ChangesOf(log + [event], node) ==
            ChangesOf(log, node) + if event.ModelChange? && event.node == node then [event] else []
  {
    if log == [] {
      assert log + [event] == [event] && [event][1..] == [];
    } else {
      assert (log + [event])[1..] == log[1..] + [event];
      ChangesSnoc(log[1..], event, node);
      var first := if log[0].ModelChange? && log[0].node == node then [log[0]] else [];
      var last := if event.ModelChange? && event.node == node then [event] else [];
      Reassociate(first, ChangesOf(log[1..], node), last);
    }
  }

  lemma OrLaws(a: Verbs, b: Verbs, c: Verbs)
    ensures a | (b | c) == (a | b) | c && a | b == b | a && a | 0 == a
  {
  }

  lemma CombinedOr(a: Verbs, b: Verbs)
    ensures Combined(Combined(a) | b) == Combined(a | b)
  {
  }

  lemma {:induction false} VerbsSnoc(changes: seq<Event>, event: Event)
    requires event.ModelChange? && forall e :: e in changes ==> e.ModelChange?
    ensures AllVerbs(changes + [event]) == AllVerbs(changes) | event.verb
  {
    if changes == [] {
      assert changes + [event] == [event] && [event][1..] == [];
      OrLaws(event.verb, 0, 0);
    } else {
      assert (changes + [event])[1..] == changes[1..] + [event];
      VerbsSnoc(changes[1..], event);
      OrLaws(changes[0].verb, AllVerbs(changes[1..]), event.verb);
    }
  }

  lemma {:induction false} TypeSnoc(changes: seq<Event>, event: Event)
    requires event.ModelChange? && forall e :: e in changes ==> e.ModelChange?
    ensures FirstType(changes + [event]) ==
            if FirstType(changes) != NULL_ID then FirstType(changes) else event.typeDefinition
  {
    if changes == [] {
      assert changes + [event] == [event] && [event][1..] == [];
    } else {
      assert (changes + [event])[1..] == changes[1..] + [event];
      TypeSnoc(changes[1..], event);
    }
  }

  /** The type of the first change that has one. */
  lemma {:induction false} FirstTypeIs(changes: seq<Event>, i: nat)
    requires i < |changes| && forall e :: e in changes ==> e.ModelChange?
    requires changes[i].typeDefinition != 0 && forall j :: 0 <= j < i ==> changes[j].typeDefinition == 0
    ensures FirstType(changes) == changes[i].typeDefinition
  {
    if i > 0 { FirstTypeIs(changes[1..], i - 1); }
  }

  // The queue holds one summary for each node and each semantic change.

  ghost predicate Summary(queued: Event, log: seq<Event>) {
    if queued.SemanticChange? then queued in log
    else
      && ChangesOf(log, queued.node) != []
      && queued.verb == VerbOf(log, queued.node)
      && queued.typeDefinition == TypeOf(log, queued.node)
  }

  ghost predicate Covered(queue: seq<Event>, event: Event) {
    exists i :: 0 <= i < |queue| && Absorbs(queue[i], event)
  }

  predicate OneEach(queue: seq<Event>) {
    forall i, j :: 0 <= i < j < |queue| ==> !Absorbs(queue[i], queue[j])
  }

  ghost predicate Represents(queue: seq<Event>, log: seq<Event>) {
    && OneEach(queue)
    && (forall i :: 0 <= i < |queue| ==> Summary(queue[i], log))
    && (forall e :: e in log ==> Covered(queue, e))
  }

  /** Position `k` is the first that absorbs the event, or the end. */
  predicate FirstAbsorbing(queue: seq<Event>, event: Event, k: nat) {
    && k <= |queue|
    && (forall i :: 0 <= i < k ==> !Absorbs(queue[i], event))
    && (k < |queue| ==> Absorbs(queue[k], event))
  }

  lemma {:induction false} QueuedAt(queue: seq<Event>, event: Event, k: nat)
    requires FirstAbsorbing(queue, event, k)
    ensures Queued(queue, event) == if k < |queue| then queue[k := Absorb(queue[k], event)] else queue + [event]
  {
    if k > 0 { QueuedAt(queue[1..], event, k - 1); }
  }

  /** Another event leaves the other summaries as they are. */
  lemma SummaryStays(queued: Event, log: seq<Event>, event: Event)
    requires Summary(queued, log) && (queued.ModelChange? ==> !Absorbs(queued, event))
    ensures Summary(queued, log + [event])
  {
    if queued.ModelChange? {
      ChangesSnoc(log, event, queued.node);
      assert ChangesOf(log + [event], queued.node) == ChangesOf(log, queued.node);
    }
  }

  lemma SummaryGrows(queued: Event, log: seq<Event>, event: Event)
    requires Summary(queued, log) && Absorbs(queued, event)
    ensures Summary(Absorb(queued, event), log + [event])
  {
    if event.ModelChange? {
      var changes := ChangesOf(log, event.node);
      ChangesSnoc(log, event, event.node);
      ChangesMembers(log, event.node);
      VerbsSnoc(changes, event);
      TypeSnoc(changes, event);
      if |changes| == 1 {
        assert changes[1..] == [];
        OrLaws(changes[0].verb, 0, 0);
      } else {
        CombinedOr(AllVerbs(changes), event.verb);
      }
    }
  }

  lemma NewSummary(log: seq<Event>, event: Event)
    requires event.ModelChange? ==> ChangesOf(log, event.node) == []
    ensures Summary(event, log + [event])
  {
    if event.ModelChange? {
      ChangesSnoc(log, event, event.node);
      TypeSnoc([], event);
      assert [] + [event] == [event];
    }
  }

  lemma AbsorbKeeps(queue: seq<Event>, log: seq<Event>, event: Event, k: nat)
    requires Represents(queue, log) && k < |queue| && Absorbs(queue[k], event)
    ensures Represents(queue[k := Absorb(queue[k], event)], log + [event])
  {
    var after := queue[k := Absorb(queue[k], event)];
    forall i | 0 <= i < |after| ensures Summary(after[i], log + [event]) {
      if i == k {
        SummaryGrows(queue[k], log, event);
      } else {
        assert !Absorbs(queue[i], queue[k]) && !Absorbs(queue[k], queue[i]);
        SummaryStays(queue[i], log, event);
      }
    }
    forall e | e in log + [event] ensures Covered(after, e) {
      if e in log {
        assert Covered(queue, e);
        var i :| 0 <= i < |queue| && Absorbs(queue[i], e);
        assert Absorbs(after[i], e);
      } else {
        assert Absorbs(after[k], e);
      }
    }
  }

  lemma CoveredByNode(queue: seq<Event>, log: seq<Event>, event: Event)
    requires Represents(queue, log) && event.ModelChange? && ChangesOf(log, event.node) != []
    ensures Covered(queue, event)
  {
    ChangesMembers(log, event.node);
    var e := ChangesOf(log, event.node)[0];
    assert e in log && Covered(queue, e);
    var i :| 0 <= i < |queue| && Absorbs(queue[i], e);
    assert Absorbs(queue[i], event);
  }

  lemma AppendKeeps(queue: seq<Event>, log: seq<Event>, event: Event)
    requires Represents(queue, log) && !Covered(queue, event)
    ensures Represents(queue + [event], log + [event])
  {
    var after := queue + [event];
    if event.ModelChange? && ChangesOf(log, event.node) != [] { CoveredByNode(queue, log, event); }
    NewSummary(log, event);
    forall i | 0 <= i < |after| ensures Summary(after[i], log + [event]) {
      if i < |queue| { SummaryStays(queue[i], log, event); }
    }
    forall e | e in log + [event] ensures Covered(after, e) {
      if e in log {
        assert Covered(queue, e);
        var i :| 0 <= i < |queue| && Absorbs(queue[i], e);
        assert Absorbs(after[i], e);
      } else {
        assert Absorbs(after[|queue|], e);
      }
    }
  }

  lemma QueuedKeepsAt(queue: seq<Event>, log: seq<Event>, event: Event, k: nat)
    requires Represents(queue, log) && FirstAbsorbing(queue, event, k)
    ensures Represents(Queued(queue, event), log + [event])
  {
    QueuedAt(queue, event, k);
    if k < |queue| { AbsorbKeeps(queue, log, event, k); } else { AppendKeeps(queue, log, event); }
  }

  lemma {:induction false} HasFirst(queue: seq<Event>, event: Event) returns (k: nat)
    ensures FirstAbsorbing(queue, event, k)
  {
    if queue == [] || Absorbs(queue[0], event) { return 0; }
    var rest := HasFirst(queue[1..], event);
    k := rest + 1;
    assert forall i :: 0 <= i < rest ==> queue[1..][i] == queue[i + 1];
  }

  lemma QueuedKeeps(queue: seq<Event>, log: seq<Event>, event: Event)
    requires Represents(queue, log)
    ensures Represents(Queued(queue, event), log + [event])
  {
    var k := HasFirst(queue, event);
    QueuedKeepsAt(queue, log, event, k);
  }

  // Main results.

  /** The events received so far, folded into an empty queue. */
  function Coalesced(log: seq<Event>): seq<Event> {
    if log == [] then [] else Queued(Coalesced(log[..|log| - 1]), log[|log| - 1])
  }

  lemma {:induction false} CoalescedRepresents(log: seq<Event>)
    ensures Represents(Coalesced(log), log)
  {
    if log != [] {
      CoalescedRepresents(log[..|log| - 1]);
      QueuedKeeps(Coalesced(log[..|log| - 1]), log[..|log| - 1], log[|log| - 1]);
      assert log == log[..|log| - 1] + [log[|log| - 1]];
    }
  }

  ghost predicate AllValid(log: seq<Event>) {
    forall e :: e in log && e.ModelChange? ==> IsValid(e)
  }

  lemma {:induction false} VerbBits(changes: seq<Event>, bit: Verbs)
    requires forall e :: e in changes ==> e.ModelChange?
    ensures AllVerbs(changes) & bit != 0 <==> exists e :: e in changes && e.verb & bit != 0
  {
    if changes == [] {
      assert (0 as Verbs) & bit == 0;
    } else {
      VerbBits(changes[1..], bit);
      MaskOr(changes[0].verb, AllVerbs(changes[1..]), bit);
      assert changes == [changes[0]] + changes[1..];
      assert changes[0] in changes;
    }
  }

  lemma MaskOr(a: Verbs, b: Verbs, bit: Verbs)
    ensures (a | b) & bit != 0 <==> a & bit != 0 || b & bit != 0
  {
  }

  lemma {:induction false} TypeOfSome(changes: seq<Event>)
    requires forall e :: e in changes ==> e.ModelChange?
    ensures FirstType(changes) != NULL_ID <==> exists e :: e in changes && e.ModelChange? && e.typeDefinition != NULL_ID
  {
    if changes != [] {
      TypeOfSome(changes[1..]);
      assert changes == [changes[0]] + changes[1..];
      assert changes[0] in changes;
    }
  }

  /** For valid events the verb is deletion alone if any event was one, and otherwise the union of all verbs. */
  lemma ValidVerb(log: seq<Event>, node: int)
    requires AllValid(log)
    ensures VerbOf(log, node) ==
            if exists e :: e in ChangesOf(log, node) && e.ModelChange? && e.verb == NODE_DELETED then NODE_DELETED
            else (ChangesMembers(log, node); AllVerbs(ChangesOf(log, node)))
  {
    var changes := ChangesOf(log, node);
    ChangesMembers(log, node);
    VerbBits(changes, NODE_DELETED);
    if |changes| == 1 {
      assert changes[1..] == [] && changes[0] in changes;
      OrLaws(changes[0].verb, 0, 0);
    }
  }

  /** Every dequeued model change passes the wire conversion's check if every event received did. */
  lemma DequeuedValid(queue: seq<Event>, log: seq<Event>, i: nat)
    requires Represents(queue, log) && AllValid(log) && i < |queue| && queue[i].ModelChange?
    ensures IsValid(queue[i])
  {
    var node := queue[i].node;
    var changes := ChangesOf(log, node);
    assert Summary(queue[i], log);
    ChangesMembers(log, node);
    ValidVerb(log, node);
    VerbBits(changes, NODE_ADDED);
    VerbBits(changes, NODE_DELETED);
    VerbBits(changes, 0xFF);
    TypeOfSome(changes);
    assert changes[0] in changes && IsValid(changes[0]);
  }

  lemma SameBits(a: Verbs, b: Verbs)
    requires a & 1 != 0 <==> b & 1 != 0
    requires a & 2 != 0 <==> b & 2 != 0
    requires a & 4 != 0 <==> b & 4 != 0
    requires a & 8 != 0 <==> b & 8 != 0
    requires a & 16 != 0 <==> b & 16 != 0
    requires a & 32 != 0 <==> b & 32 != 0
    requires a & 64 != 0 <==> b & 64 != 0
    requires a & 128 != 0 <==> b & 128 != 0
    ensures a == b
  {
  }

  lemma SameBit(a: seq<Event>, b: seq<Event>, bit: Verbs)
    requires forall e :: e in a || e in b ==> e.ModelChange?
    requires forall e :: e in a <==> e in b
    ensures AllVerbs(a) & bit != 0 <==> AllVerbs(b) & bit != 0
  {
    VerbBits(a, bit);
    VerbBits(b, bit);
  }

  lemma SameVerbs(a: seq<Event>, b: seq<Event>)
    requires forall e :: e in a || e in b ==> e.ModelChange?
    requires forall e :: e in a <==> e in b
    ensures AllVerbs(a) == AllVerbs(b)
  {
    SameBit(a, b, 1);
    SameBit(a, b, 2);
    SameBit(a, b, 4);
    SameBit(a, b, 8);
    SameBit(a, b, 16);
    SameBit(a, b, 32);
    SameBit(a, b, 64);
    SameBit(a, b, 128);
    SameBits(AllVerbs(a), AllVerbs(b));
  }

  lemma {:induction false} ChangesCount(log: seq<Event>, node: int, e: Event)
    ensures multiset(ChangesOf(log, node))[e] == if e.ModelChange? && e.node == node then multiset(log)[e] else 0
  {
    if log != [] {
      ChangesCount(log[1..], node, e);
      assert log == [log[0]] + log[1..];
    }
  }

  lemma SameChanges(a: seq<Event>, b: seq<Event>, node: int)
    requires multiset(a) == multiset(b)
    ensures multiset(ChangesOf(a, node)) == multiset(ChangesOf(b, node))
  {
    forall e ensures multiset(ChangesOf(a, node))[e] == multiset(ChangesOf(b, node))[e] {
      ChangesCount(a, node, e);
      ChangesCount(b, node, e);
    }
  }

  lemma SameMembers(a: seq<Event>, b: seq<Event>)
    requires multiset(a) == multiset(b)
    ensures |a| == |b| && forall e :: e in a <==> e in b
  {
    assert |multiset(a)| == |a| && |multiset(b)| == |b|;
    forall e ensures e in a <==> e in b { assert e in a <==> e in multiset(a); assert e in b <==> e in multiset(b); }
  }

  lemma VerbAnyOrder(a: seq<Event>, b: seq<Event>, node: int)
    requires multiset(a) == multiset(b)
    ensures VerbOf(a, node) == VerbOf(b, node)
  {
    var ca, cb := ChangesOf(a, node), ChangesOf(b, node);
    SameChanges(a, b, node);
    SameMembers(ca, cb);
    ChangesMembers(a, node);
    ChangesMembers(b, node);
    SameVerbs(ca, cb);
    if |ca| == 1 { assert ca[0] in cb; }
  }

  /** Whatever the order of arrival, the queue says the same about every node, and holds the same semantic changes. */
  lemma OrderDoesNotMatter(a: seq<Event>, b: seq<Event>, queued: Event)
    requires multiset(a) == multiset(b) && queued in Coalesced(a)
    ensures queued.SemanticChange? ==> queued in Coalesced(b)
    ensures queued.ModelChange? ==>
              exists other :: other in Coalesced(b) && other.ModelChange?
                              && other.node == queued.node && other.verb == queued.verb
  {
    CoalescedRepresents(a);
    CoalescedRepresents(b);
    SameMembers(a, b);
    assert Summary(queued, a);
    var e := queued;
    if queued.ModelChange? {
      ChangesMembers(a, queued.node);
      e := ChangesOf(a, queued.node)[0];
      VerbAnyOrder(a, b, queued.node);
    }
    assert e in b && Covered(Coalesced(b), e);
    var i :| 0 <= i < |Coalesced(b)| && Absorbs(Coalesced(b)[i], e);
    assert Coalesced(b)[i] in Coalesced(b) && Summary(Coalesced(b)[i], b);
  }

  /** The update of a queued model change. */
  method Merge(queued: Event, event: Event) returns (r: Event)
    requires event.ModelChange? && Absorbs(queued, event)
    ensures r == Absorb(queued, event)
  {
    r := queued;
    if r.typeDefinition == NULL_ID { r := r.(typeDefinition := event.typeDefinition); }
    r := r.(verb := r.verb | event.verb);
    if r.verb & NODE_DELETED != 0 { r := r.(verb := NODE_DELETED); }
  }

  /** The queue itself, with everything received since it was last emptied. */
  class ViewEventQueue {
    var queue: seq<Event>
    ghost var received: seq<Event>

    ghost predicate Valid()
      reads this
    {
      Represents(queue, received)
    }

    constructor ()
      ensures Valid() && queue == [] && received == []
    {
      queue, received := [], [];
    }

    /** The loop both additions start with. */
    method FindAbsorbing(event: Event) returns (k: nat)
      ensures FirstAbsorbing(queue, event, k)
    {
      k := 0;
      while k < |queue| && !Absorbs(queue[k], event)
        invariant k <= |queue| && forall i :: 0 <= i < k ==> !Absorbs(queue[i], event)
      {
        k := k + 1;
      }
    }

    method AddModelChange(event: Event)
      requires Valid() && event.ModelChange?
      modifies this
      ensures Valid() && received == old(received) + [event] && queue == Queued(old(queue), event)
    {
      var k := FindAbsorbing(event);
      QueuedAt(queue, event, k);
      QueuedKeepsAt(queue, received, event, k);
      received := received + [event];
      if k < |queue| {
        var queued := Merge(queue[k], event);
        queue := queue[k := queued];
      } else {
        queue := queue + [event];
      }
      assert queue == Queued(old(queue), event);
    }

    method AddNodeSemanticChange(event: Event)
      requires Valid() && event.SemanticChange?
      modifies this
      ensures Valid() && received == old(received) + [event] && queue == Queued(old(queue), event)
    {
      var k := FindAbsorbing(event);
      QueuedAt(queue, event, k);
      QueuedKeepsAt(queue, received, event, k);
      received := received + [event];
      if k == |queue| { queue := queue + [event]; } else { assert queue[k := queue[k]] == queue; }
      assert queue == Queued(old(queue), event);
    }

    /** Hands over one valid summary for each node and each semantic change, and starts again. */
    method GetEvents() returns (events: seq<Event>)
      requires Valid()
      modifies this
      ensures Valid() && queue == [] && received == []
      ensures events == old(queue) && Represents(events, old(received))
      ensures AllValid(old(received)) ==>
                forall i :: 0 <= i < |events| && events[i].ModelChange? ==> IsValid(events[i])
    {
      events := queue;
      if AllValid(received) {
        forall i | 0 <= i < |events| && events[i].ModelChange? ensures IsValid(events[i]) {
          DequeuedValid(queue, received, i);
        }
      }
      queue, received := [], [];
    }
  }
}
