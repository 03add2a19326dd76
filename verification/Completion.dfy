/** The one-shot completion gate (`AsyncCompletion`). */
module Completion {

  datatype Error = NoError | Error(code: int)

  /** What a wait completes with: the gate's error, or the news that the wait was cancelled. */
  datatype Outcome = Settled(error: Error) | Cancelled

  /** What the awaiting coroutine sees. */
  datatype Answer = Returned | DeadlineFired | Rethrown(code: int) | Aborted

  function WaitAnswer(outcome: Outcome): Answer {
    if outcome.Settled? && outcome.error.Error? then Rethrown(outcome.error.code)
    else if outcome.Cancelled? then Aborted else Returned
  }

  function WaitForAnswer(outcome: Outcome): Answer {
    if outcome.Settled? && outcome.error.Error? then Rethrown(outcome.error.code)
    else if outcome.Cancelled? then DeadlineFired else Returned
  }

  /** A wait returns exactly if the gate was settled without an error; it never takes a cancellation for that. */
  lemma OnlySettledReturns(outcome: Outcome, code: int)
    ensures WaitAnswer(outcome) == Returned <==> outcome == Settled(NoError)
    ensures WaitForAnswer(outcome) == Returned <==> outcome == Settled(NoError)
    ensures WaitAnswer(Settled(Error(code))) == WaitForAnswer(Settled(Error(code))) == Rethrown(code)
    ensures WaitAnswer(Cancelled) == Aborted && WaitForAnswer(Cancelled) == DeadlineFired
  {
  }

  /**
   * How far a waiter has got: unclaimed exactly while it is listed, and then not completed; completed
   * exactly once otherwise, with the gate's own error unless it was cancelled.
   */
  predicate WaiterOk(listed: bool, claimed: bool, outcomes: seq<Outcome>, completed: bool, error: Error) {
    && claimed == !listed
    && (listed ==> outcomes == [])
    && (!listed ==> |outcomes| == 1 && (outcomes[0].Settled? ==> completed && outcomes[0].error == error))
  }

  predicate Ascending(waiters: seq<nat>) {
    forall i, j :: 0 <= i < j < |waiters| ==> waiters[i] < waiters[j]
  }

  /** Whoever has not been completed yet gets the gate's error. */
  function SettleAll(outcomes: seq<seq<Outcome>>, error: Error): seq<seq<Outcome>> {
    seq(|outcomes|, w requires 0 <= w < |outcomes| => if outcomes[w] == [] then [Settled(error)] else outcomes[w])
  }

  lemma Unlisted(waiters: seq<nat>, p: nat)
    requires Ascending(waiters) && p < |waiters|
    ensures var rest := waiters[..p] + waiters[p + 1..];
            Ascending(rest) && waiters[p] !in rest && forall w :: w != waiters[p] ==> (w in rest <==> w in waiters)
  {
    var rest := waiters[..p] + waiters[p + 1..];
    forall w | w != waiters[p] && w in waiters ensures w in rest {
      var i :| 0 <= i < |waiters| && waiters[i] == w;
      assert rest[if i < p then i else i - 1] == w;
    }
  }

  /** Waiters are numbered in the order in which they come. */
  class Gate {
    var completed: bool
    var error: Error
    var waiters: seq<nat>
    var claimed: seq<bool>

    // What each waiter has been completed with, and the order in which that happened.
    ghost var outcomes: seq<seq<Outcome>>
    ghost var order: seq<nat>

    ghost predicate Valid()
      reads this
    {
      && Ascending(waiters)
      && |outcomes| == |claimed|
      && (forall w :: w in waiters ==> w < |claimed|)
      && (completed ==> waiters == [])
      && (!completed ==> error == NoError)
      && (forall w :: 0 <= w < |claimed| ==> WaiterOk(w in waiters, claimed[w], outcomes[w], completed, error))
    }

    constructor ()
      ensures Valid() && !completed && claimed == []
    {
      completed, error, waiters, claimed := false, NoError, [], [];
      outcomes, order := [], [];
    }

    /** A wait joins the list, or completes at once with the stored error. */
    method Wait() returns (w: nat)
      requires Valid()
      modifies this`waiters, this`claimed, this`outcomes, this`order
      ensures Valid() && w == old(|claimed|) && |claimed| == w + 1
      ensures outcomes == old(outcomes) + [if completed then [Settled(error)] else []]
      ensures waiters == old(waiters) + if completed then [] else [w]
    {
      w := |claimed|;
      assert forall i :: 0 <= i < |waiters| ==> waiters[i] in waiters;
      claimed := claimed + [completed];
      outcomes := outcomes + [if completed then [Settled(error)] else []];
      if completed {
        order := order + [w];
      } else {
        waiters := waiters + [w];
      }
    }

    /**
     * The waiter's cancellation slot fires, at any time. Only a waiter not yet completed leaves, and the
     * list entry it erases is there.
     */
    method Cancel(w: nat)
      requires Valid() && w < |claimed|
      modifies this`waiters, this`claimed, this`outcomes, this`order
      ensures Valid() && |claimed| == old(|claimed|)
      ensures outcomes == old(outcomes)[w := if old(outcomes[w]) == [] then [Cancelled] else old(outcomes[w])]
      ensures forall v :: v in waiters <==> v in old(waiters) && v != w
    {
      if claimed[w] { return; }
      var p := 0;
      while waiters[p] != w
        invariant 0 <= p < |waiters| && w in waiters[p..]
        decreases |waiters| - p
      {
        p := p + 1;
      }
      Unlisted(waiters, p);
      claimed := claimed[w := true];
      waiters := waiters[..p] + waiters[p + 1..];
      outcomes := outcomes[w := [Cancelled]];
      order := order + [w];
    }

    /** Everyone still waiting gets the error, in the order of joining. */
    method Finish(e: Error)
      requires Valid() && !completed
      modifies this
      ensures Valid() && completed && error == e && waiters == [] && |claimed| == old(|claimed|)
      ensures outcomes == SettleAll(old(outcomes), e)
      ensures order == old(order) + old(waiters)
    {
      completed, error := true, e;
      var list := waiters;
      waiters := [];
      var i := 0;
      while i < |list|
        invariant 0 <= i <= |list| && completed && error == e && waiters == []
        invariant |claimed| == |outcomes| == old(|claimed|)
        invariant forall w :: 0 <= w < |claimed| ==> claimed[w] == (old(claimed)[w] || w in list[..i])
        invariant forall w :: 0 <= w < |claimed| ==>
          outcomes[w] == if w in list[..i] then [Settled(e)] else old(outcomes)[w]
        invariant order == old(order) + list[..i]
      {
        var w := list[i];
        assert w in old(waiters);
        assert list[..i + 1] == list[..i] + [w];
        if !claimed[w] {
          claimed := claimed[w := true];
          outcomes := outcomes[w := outcomes[w] + [Settled(e)]];
          order := order + [w];
        }
        i := i + 1;
      }
      assert list[..|list|] == list;
    }

    method Complete()
      requires Valid() && !completed
      modifies this
      ensures Valid() && completed && error == NoError && waiters == [] && |claimed| == old(|claimed|)
      ensures outcomes == SettleAll(old(outcomes), NoError) && order == old(order) + old(waiters)
    {
      Finish(NoError);
    }

    method Fail(code: int)
      requires Valid() && !completed
      modifies this
      ensures Valid() && completed && error == Error(code) && waiters == [] && |claimed| == old(|claimed|)
      ensures outcomes == SettleAll(old(outcomes), Error(code)) && order == old(order) + old(waiters)
    {
      Finish(Error(code));
    }

    /** Settles an open gate and leaves a settled one alone. */
    method TryComplete() returns (first: bool)
      requires Valid()
      modifies this
      ensures Valid() && completed && first == !old(completed) && |claimed| == old(|claimed|)
      ensures first ==> error == NoError && outcomes == SettleAll(old(outcomes), NoError)
      ensures !first ==> unchanged(this)
    {
      if completed { return false; }
      Finish(NoError);
      return true;
    }

    /** Once the gate is settled everyone who ever waited has been completed exactly once. */
    lemma AllAnswered(w: nat)
      requires Valid() && completed && w < |claimed|
      ensures |outcomes[w]| == 1
      ensures outcomes[w][0].Settled? ==>
                var answer := if error.Error? then Rethrown(error.code) else Returned;
                WaitAnswer(outcomes[w][0]) == WaitForAnswer(outcomes[w][0]) == answer
      ensures !outcomes[w][0].Settled? ==>
                WaitAnswer(outcomes[w][0]) == Aborted && WaitForAnswer(outcomes[w][0]) == DeadlineFired
    {
      assert WaiterOk(w in waiters, claimed[w], outcomes[w], completed, error);
    }
  }
}
