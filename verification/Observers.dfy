/** A list of observers that may be changed while it is being iterated (`ObserverList`). */
module Observers {

  datatype Slot = Null | Observer(id: int)

  /** The registered observers, in order. */
  function Live(slots: seq<Slot>): seq<int> {
    if slots == [] then []
    else (if slots[0].Null? then [] else [slots[0].id]) + Live(slots[1..])
  }

  function Nulls(slots: seq<Slot>): nat {
    if slots == [] then 0 else (if slots[0].Null? then 1 else 0) + Nulls(slots[1..])
  }

  function Without(ids: seq<int>, id: int): seq<int> {
    if ids == [] then [] else (if ids[0] == id then [] else [ids[0]]) + Without(ids[1..], id)
  }

  predicate DistinctSlots(slots: seq<Slot>) {
    forall i, j :: 0 <= i < j < |slots| && slots[i].Observer? ==> slots[i] != slots[j]
  }

  lemma {:induction false} Concat(a: seq<Slot>, b: seq<Slot>)
    ensures Live(a + b) == Live(a) + Live(b) && Nulls(a + b) == Nulls(a) + Nulls(b)
  {
    if a == [] {
      assert a + b == b;
    } else {
      assert (a + b)[1..] == a[1..] + b;
      Concat(a[1..], b);
    }
  }

  lemma {:induction false} LiveMembers(slots: seq<Slot>, id: int)
    ensures id in Live(slots) <==> Observer(id) in slots
  {
    if slots != [] {
      LiveMembers(slots[1..], id);
      assert slots == [slots[0]] + slots[1..];
    }
  }

  lemma {:induction false} NothingToRemove(ids: seq<int>, id: int)
    requires id !in ids
    ensures Without(ids, id) == ids
  {
    if ids != [] { NothingToRemove(ids[1..], id); }
  }

  lemma {:induction false} RemoveMiddle(a: seq<int>, id: int, b: seq<int>)
    requires id !in a && id !in b
    ensures Without(a + [id] + b, id) == a + b
  {
    if a == [] {
      assert a + [id] + b == [id] + b && ([id] + b)[1..] == b && a + b == b;
      NothingToRemove(b, id);
    } else {
      assert (a + [id] + b)[1..] == a[1..] + [id] + b;
      RemoveMiddle(a[1..], id, b);
    }
  }

  lemma LiveSplit(a: seq<Slot>, slot: Slot, b: seq<Slot>)
    ensures Live(a + [slot] + b) == Live(a) + (if slot.Null? then [] else [slot.id]) + Live(b)
    ensures Nulls(a + [slot] + b) == Nulls(a) + (if slot.Null? then 1 else 0) + Nulls(b)
  {
    assert [slot][1..] == [];
    Concat(a + [slot], b);
    Concat(a, [slot]);
  }

  lemma RemoveAround(slots: seq<Slot>, p: nat)
    requires DistinctSlots(slots) && p < |slots| && slots[p].Observer?
    ensures Live(slots[..p]) + Live(slots[p + 1..]) == Without(Live(slots), slots[p].id)
    ensures Nulls(slots[..p]) + Nulls(slots[p + 1..]) == Nulls(slots)
  {
    var a, x, b := slots[..p], slots[p], slots[p + 1..];
    assert slots == a + [x] + b;
    LiveSplit(a, x, b);
    assert x !in a && x !in b;
    LiveMembers(a, x.id);
    LiveMembers(b, x.id);
    RemoveMiddle(Live(a), x.id, Live(b));
  }

  /** Clearing an observer's slot and erasing it look the same from outside. */
  lemma ClearAt(slots: seq<Slot>, p: nat)
    requires DistinctSlots(slots) && p < |slots| && slots[p].Observer?
    ensures DistinctSlots(slots[p := Null]) && Nulls(slots[p := Null]) == Nulls(slots) + 1
    ensures Live(slots[p := Null]) == Without(Live(slots), slots[p].id)
  {
    RemoveAround(slots, p);
    assert slots[p := Null] == slots[..p] + [Null] + slots[p + 1..];
    LiveSplit(slots[..p], Null, slots[p + 1..]);
  }

  lemma EraseAt(slots: seq<Slot>, p: nat)
    requires DistinctSlots(slots) && p < |slots| && slots[p].Observer?
    ensures var rest := slots[..p] + slots[p + 1..];
            DistinctSlots(rest) && Nulls(rest) == Nulls(slots) && Live(rest) == Without(Live(slots), slots[p].id)
  {
    RemoveAround(slots, p);
    Concat(slots[..p], slots[p + 1..]);
  }

  lemma {:induction false} SlotCount(slots: seq<Slot>)
    ensures |slots| == |Live(slots)| + Nulls(slots)
  {
    if slots != [] { SlotCount(slots[1..]); }
  }

  lemma {:induction false} NoNulls(slots: seq<Slot>)
    ensures Nulls(slots) == 0 <==> Null !in slots
  {
    if slots != [] {
      NoNulls(slots[1..]);
      assert slots == [slots[0]] + slots[1..];
    }
  }

  /**
   * A live iterator: its position, what it has returned, and the observers registered ever since it
   * began.
   */
  datatype Iteration = Iteration(index: nat, ghost returned: seq<int>, ghost stable: set<int>)

  /** Who was registered all along has been returned once if its slot was passed, and not yet otherwise. */
  ghost predicate IterationOk(slots: seq<Slot>, it: Iteration) {
    && it.index <= |slots|
    && (forall id :: id in it.stable ==> Observer(id) in slots)
    && (forall p :: 0 <= p < |slots| && slots[p].Observer? && slots[p].id in it.stable ==>
          multiset(it.returned)[slots[p].id] == if p < it.index then 1 else 0)
  }

  ghost function Forgetting(it: Iteration, id: int): Iteration { it.(stable := it.stable - {id}) }

  function ForgetAll(iterators: map<nat, Iteration>, ghost id: int): map<nat, Iteration> {
    map it | it in iterators :: Iteration(iterators[it].index, iterators[it].returned, iterators[it].stable - {id})
  }

  ghost function Begun(slots: seq<Slot>): Iteration { Iteration(0, [], set id | id in Live(slots)) }

  lemma BegunOk(slots: seq<Slot>)
    ensures IterationOk(slots, Begun(slots))
  {
    forall id | id in Live(slots) ensures Observer(id) in slots { LiveMembers(slots, id); }
  }

  lemma AddKeeps(slots: seq<Slot>, it: Iteration, id: int)
    requires IterationOk(slots, it) && Observer(id) !in slots
    ensures IterationOk(slots + [Observer(id)], it)
  {
  }

  lemma ClearKeeps(slots: seq<Slot>, it: Iteration, p: nat)
    requires IterationOk(slots, it) && p < |slots| && slots[p].Observer?
    ensures IterationOk(slots[p := Null], Forgetting(it, slots[p].id))
  {
    forall id | id in it.stable - {slots[p].id} ensures Observer(id) in slots[p := Null] {
      var q :| 0 <= q < |slots| && slots[q] == Observer(id);
      assert slots[p := Null][q] == Observer(id);
    }
  }

  lemma ClearKeepsAll(slots: seq<Slot>, iterators: map<nat, Iteration>, p: nat)
    requires p < |slots| && slots[p].Observer?
    requires forall it :: it in iterators ==> IterationOk(slots, iterators[it])
    ensures var after := ForgetAll(iterators, slots[p].id);
            |after| == |iterators| && forall it :: it in after ==> IterationOk(slots[p := Null], after[it])
  {
    var after := ForgetAll(iterators, slots[p].id);
    assert after.Keys == iterators.Keys;
    forall it | it in after ensures IterationOk(slots[p := Null], after[it]) {
      ClearKeeps(slots, iterators[it], p);
    }
  }

  lemma SkipKeeps(slots: seq<Slot>, it: Iteration, next: nat)
    requires IterationOk(slots, it) && it.index <= next <= |slots|
    requires forall p :: it.index <= p < next ==> slots[p].Null?
    ensures IterationOk(slots, it.(index := next))
  {
  }

  lemma ReturnKeeps(slots: seq<Slot>, it: Iteration)
    requires DistinctSlots(slots) && IterationOk(slots, it) && it.index < |slots| && slots[it.index].Observer?
    ensures IterationOk(slots, Iteration(it.index + 1, it.returned + [slots[it.index].id], it.stable))
  {
    var id := slots[it.index].id;
    forall p | 0 <= p < |slots| && slots[p].Observer? && slots[p].id in it.stable
      ensures multiset(it.returned + [id])[slots[p].id] == if p < it.index + 1 then 1 else 0
    {
      assert p != it.index ==> slots[p] != slots[it.index];
    }
  }

  /** An iterator that has reached the end has returned everyone registered all along exactly once. */
  lemma ExactlyOnce(slots: seq<Slot>, it: Iteration, id: int)
    requires IterationOk(slots, it) && it.index == |slots| && id in it.stable
    ensures multiset(it.returned)[id] == 1
  {
    var p :| 0 <= p < |slots| && slots[p] == Observer(id);
  }

  /** Live iterators are named by numbers. */
  class ObserverList {
    var observers: seq<Slot>
    var iterationDepth: int
    var nullCount: int
    var iterators: map<nat, Iteration>
    var nextIterator: nat

    // How often the null pointer itself was asked to be removed and an empty slot was found.
    ghost var nullRemovals: nat

    ghost predicate Valid()
      reads this
    {
      && DistinctSlots(observers)
      && nullCount == Nulls(observers) + nullRemovals
      && iterationDepth == |iterators|
      && (iterationDepth == 0 ==> nullCount == 0)
      && (forall it :: it in iterators ==> it < nextIterator && IterationOk(observers, iterators[it]))
    }

    constructor ()
      ensures Valid() && Live(observers) == [] && iterators == map[] && nullRemovals == 0
    {
      observers, iterationDepth, nullCount, iterators, nextIterator := [], 0, 0, map[], 0;
      nullRemovals := 0;
    }

    /** `std::find`. */
    method Find(slot: Slot) returns (p: nat)
      ensures p <= |observers|
      ensures p < |observers| ==> observers[p] == slot
      ensures p == |observers| ==> slot !in observers
    {
      p := 0;
      while p < |observers| && observers[p] != slot
        invariant p <= |observers|
        invariant forall i :: 0 <= i < p ==> observers[i] != slot
      {
        p := p + 1;
      }
    }

    method HasObserver(slot: Slot) returns (found: bool)
      ensures slot.Observer? ==> (found <==> slot.id in Live(observers))
      ensures slot.Null? ==> (found <==> Nulls(observers) > 0)
    {
      var p := Find(slot);
      found := p < |observers|;
      if slot.Observer? { LiveMembers(observers, slot.id); }
      NoNulls(observers);
    }

    /** Both of the source's checks are preconditions: no null pointer, nobody twice. */
    method AddObserver(id: int)
      requires Valid() && id !in Live(observers)
      modifies this`observers
      ensures Valid() && Live(observers) == old(Live(observers)) + [id]
    {
      LiveMembers(observers, id);
      Concat(observers, [Observer(id)]);
      assert [Observer(id)][1..] == [];
      forall it | it in iterators ensures IterationOk(observers + [Observer(id)], iterators[it]) {
        AddKeeps(observers, iterators[it], id);
      }
      observers := observers + [Observer(id)];
    }

    /** While someone iterates a slot is only cleared, so that no position moves. */
    method ClearSlot(p: nat)
      requires Valid() && p < |observers| && observers[p].Observer? && iterationDepth > 0
      modifies this`observers, this`nullCount, this`iterators
      ensures Valid() && observers == old(observers)[p := Null]
      ensures iterators == ForgetAll(old(iterators), old(observers)[p].id)
    {
      ClearAt(observers, p);
      ClearKeepsAll(observers, iterators, p);
      ghost var id := observers[p].id;
      iterators := ForgetAll(iterators, id);
      observers := observers[p := Null];
      nullCount := nullCount + 1;
    }

    method RemoveObserver(id: int)
      requires Valid()
      modifies this`observers, this`nullCount, this`iterators
      ensures Valid() && Live(observers) == Without(old(Live(observers)), id)
      ensures iterationDepth > 0 ==> |observers| == |old(observers)|
      ensures iterators == ForgetAll(old(iterators), id)
    {
      var p := Find(Observer(id));
      if p == |observers| {
        LiveMembers(observers, id);
        NothingToRemove(Live(observers), id);
        forall it | it in iterators ensures iterators[it] == Forgetting(iterators[it], id) {
          assert IterationOk(observers, iterators[it]);
          assert iterators[it].stable - {id} == iterators[it].stable;
        }
      } else {
        if iterationDepth > 0 {
          ClearAt(observers, p);
          ClearSlot(p);
        } else {
          EraseAt(observers, p);
          assert iterators == map[];
          observers := observers[..p] + observers[p + 1..];
        }
      }
    }

    /** Removing the null pointer changes nothing but the count of empty slots, which it may put too high. */
    method RemoveNull()
      requires Valid()
      modifies this`observers, this`nullCount, this`nullRemovals
      ensures Valid() && observers == old(observers)
      ensures nullCount == old(nullCount) + if Nulls(observers) > 0 then 1 else 0
    {
      NoNulls(observers);
      var p := Find(Null);
      if p < |observers| {
        assert observers[p := Null] == observers;
        observers := observers[p := Null];
        nullCount := nullCount + 1;
        nullRemovals := nullRemovals + 1;
      }
    }

    method BeginIteration() returns (it: nat)
      requires Valid()
      modifies this`iterationDepth, this`iterators, this`nextIterator
      ensures Valid() && it !in old(iterators) && iterators == old(iterators)[it := Begun(observers)]
      ensures iterationDepth == old(iterationDepth) + 1
    {
      it := nextIterator;
      nextIterator := nextIterator + 1;
      iterationDepth := iterationDepth + 1;
      BegunOk(observers);
      iterators := iterators[it := Iteration(0, [], set id | id in Live(observers))];
    }

    /** The next registered observer; after the last, everyone registered all along has been returned exactly once. */
    method GetNext(it: nat) returns (r: Slot)
      requires Valid() && it in iterators
      modifies this`iterators
      ensures Valid() && it in iterators && iterators == old(iterators)[it := iterators[it]]
      ensures iterators[it].stable == old(iterators)[it].stable
      ensures r.Observer? ==> r.id in Live(observers) && iterators[it].returned == old(iterators)[it].returned + [r.id]
      ensures r.Null? ==> iterators[it].returned == old(iterators)[it].returned
      ensures r.Null? ==> forall id :: id in iterators[it].stable ==> multiset(iterators[it].returned)[id] == 1
    {
      var now := iterators[it];
      var index := now.index;
      while index < |observers| && observers[index].Null?
        invariant now.index <= index <= |observers|
        invariant forall p :: now.index <= p < index ==> observers[p].Null?
      {
        index := index + 1;
      }
      SkipKeeps(observers, now, index);
      if index < |observers| {
        r := observers[index];
        LiveMembers(observers, r.id);
        ReturnKeeps(observers, now.(index := index));
        iterators := iterators[it := Iteration(index + 1, now.returned + [r.id], now.stable)];
      } else {
        r := Null;
        forall id | id in now.stable ensures multiset(now.returned)[id] == 1 {
          ExactlyOnce(observers, now.(index := index), id);
        }
        iterators := iterators[it := Iteration(index, now.returned, now.stable)];
      }
    }

    /** The last iterator to end clears away the empty slots. */
    method EndIteration(it: nat)
      requires Valid() && it in iterators
      modifies this
      ensures Valid() && Live(observers) == old(Live(observers)) && iterators == old(iterators) - {it}
      ensures iterators != map[] ==> observers == old(observers)
    {
      iterationDepth := iterationDepth - 1;
      iterators := iterators - {it};
      if iterationDepth == 0 && nullCount > 0 { Compact(); }
    }

    /** `std::remove` and `erase` of the empty slots. */
    method Compact()
      requires DistinctSlots(observers)
      modifies this`observers, this`nullCount, this`nullRemovals
      ensures DistinctSlots(observers) && Live(observers) == old(Live(observers))
      ensures Nulls(observers) == nullCount == nullRemovals == 0
    {
      var kept: seq<Slot> := [];
      var i := 0;
      while i < |observers|
        invariant 0 <= i <= |observers| && observers == old(observers)
        invariant Live(kept) == Live(observers[..i]) && Nulls(kept) == 0
        invariant DistinctSlots(kept) && forall s :: s in kept ==> s in observers[..i]
      {
        var slot := observers[i];
        assert observers[..i + 1] == observers[..i] + [slot] && [slot][1..] == [];
        Concat(observers[..i], [slot]);
        if slot.Observer? {
          Concat(kept, [slot]);
          assert slot !in observers[..i];
          kept := kept + [slot];
        }
        i := i + 1;
      }
      assert observers[..|observers|] == observers;
      observers, nullCount, nullRemovals := kept, 0, 0;
    }
  }

  /** The null pointer removed while its slot is empty: two nulls are counted where there is one. */
  method NullCountedTwice() returns (list: ObserverList)
    ensures list.Valid() && list.nullCount == 2 && Nulls(list.observers) == 1
  {
    list := new ObserverList();
    list.AddObserver(7);
    SlotCount(list.observers);
    var it := list.BeginIteration();
    list.RemoveObserver(7);
    assert Without([7], 7) == [] by { assert [7][1..] == []; }
    SlotCount(list.observers);
    list.RemoveNull();
  }
}
