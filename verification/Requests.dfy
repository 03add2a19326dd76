/**
 The request table of `SessionProxy`: ids that wrap at INT_MAX, handlers stored by id, responses that
 look them up, and the teardown that fails whatever is pending while those handlers issue new requests.

 Requests are numbered 0, 1, 2, ... in the order `Request` is called; the number stands for its handler.
 */
module Requests {
  import opened Collections

  const INT_MAX := 0x7FFF_FFFF

  /** How a handler was called: with the response to some request, read in some session, or with Bad_Disconnected. */
  datatype Call = Response(session: nat, request: nat) | Disconnected

  /**
   `table` is `requests_`; `moved` are the handlers teardown took out of it and has not called yet.
   `wire` are the requests of this session whose response has not been read. The rest is history.
   */
  datatype State = State(
    nextId: int,
    table: map<int, nat>,
    moved: set<nat>,
    connected: bool,
    wire: set<nat>,
    session: nat,
    issued: nat,
    handled: set<nat>,
    sentIn: map<nat, nat>,
    calls: map<nat, seq<Call>>)

  const START := State(1, map[], {}, false, {}, 0, 0, {}, map[], map[])

  datatype Step =
    | Connect
    | Drop
    | Issue(handler: bool)
    | Receive(request: nat)
    | Teardown
    | CallMoved(request: nat)

  function IdOf(n: nat): int { n % INT_MAX + 1 }

  /** The requests whose handlers are in the table. */
  function Pending(s: State): set<nat> { set id | id in s.table :: s.table[id] }

  function CallsOf(s: State, n: nat): seq<Call> { if n in s.calls then s.calls[n] else [] }

  function Called(s: State, n: nat, call: Call): State { s.(calls := s.calls[n := CallsOf(s, n) + [call]]) }

  /** `SessionProxy::Request`; it writes to the wire only if there is a transport. */
  function IssueRequest(s: State, handler: bool): State {
    var n := s.issued;
    s.(nextId := if s.nextId == INT_MAX then 1 else s.nextId + 1,
       table := if handler then s.table[s.nextId := n] else s.table,
       wire := if s.connected then s.wire + {n} else s.wire,
       sentIn := if s.connected then s.sentIn[n := s.session] else s.sentIn,
       issued := n + 1,
       handled := if handler then s.handled + {n} else s.handled)
  }

  /** `OnMessageReceived`, for the response to request n. */
  function ReceiveResponse(s: State, n: nat): State {
    var s1 := s.(wire := s.wire - {n});
    if IdOf(n) !in s.table then s1
    else Called(s1.(table := s.table - {IdOf(n)}), s.table[IdOf(n)], Response(s.session, n))
  }

  /** One atomic piece of work; a piece that is not possible changes nothing. */
  function Apply(s: State, step: Step): State {
    match step
    case Connect => s.(connected := true, session := s.session + 1, wire := {})
    case Drop => s.(connected := false, wire := {})
    case Issue(handler) => IssueRequest(s, handler)
    case Receive(n) => if n in s.wire then ReceiveResponse(s, n) else s
    case Teardown => s.(table := map[], moved := s.moved + Pending(s))
    case CallMoved(n) => if n in s.moved then Called(s.(moved := s.moved - {n}), n, Disconnected) else s
  }

  function Run(s: State, steps: seq<Step>): State {
    if steps == [] then s else Apply(Run(s, steps[..|steps| - 1]), steps[|steps| - 1])
  }

  /** Two requests have the same id exactly when a multiple of INT_MAX requests lies between them. */
  predicate Apart(n: int, m: int) { (m - n) % INT_MAX == 0 }

  lemma SameId(n: nat, m: nat)
    ensures IdOf(n) == IdOf(m) <==> Apart(n, m)
  {
    var q, r := n / INT_MAX, n % INT_MAX;
    var p, t := m / INT_MAX, m % INT_MAX;
    assert m - n == (p - q) * INT_MAX + (t - r);
  }

  lemma NextId(n: nat)
    ensures IdOf(n + 1) == if IdOf(n) == INT_MAX then 1 else IdOf(n) + 1
  {
  }

  // ---------- what holds in every run ----------

  /** A stored handler sits under its own id and has not been called. */
  predicate StoredOk(s: State, id: int)
    requires id in s.table
  {
    var n := s.table[id];
    id == IdOf(n) && n in s.handled && n !in s.moved && CallsOf(s, n) == []
  }

  predicate WireOk(s: State, n: nat) { n in s.sentIn && s.sentIn[n] == s.session }

  predicate Stored(s: State, n: nat) { IdOf(n) in s.table && s.table[IdOf(n)] == n }

  /** Request r was sent in the session, and has the id of request n. */
  predicate Answers(s: State, n: nat, session: nat, r: nat) {
    r in s.sentIn && s.sentIn[r] == session && Apart(r, n)
  }

  /** A handler was called at most once, and then by a response with its id, in the session that request was sent in. */
  predicate CallsOk(s: State, n: nat)
    requires n in s.calls
  {
    && n in s.handled && n !in s.moved && |s.calls[n]| == 1
    && match s.calls[n][0]
       case Response(session, r) => Answers(s, n, session, r)
       case Disconnected => true
  }

  predicate Inv(s: State) {
    && s.nextId == IdOf(s.issued)
    && (forall id :: id in s.table ==> StoredOk(s, id))
    && (forall n :: n in s.wire ==> WireOk(s, n)) && (!s.connected ==> s.wire == {})
    && s.moved <= s.handled
    && (forall n :: n in s.handled ==> n < s.issued)
    && (forall n :: n in s.calls ==> CallsOk(s, n))
    && (forall n :: n in s.sentIn ==> n < s.issued)
  }

  lemma IssueKeeps(s: State, handler: bool)
    requires Inv(s)
    ensures Inv(IssueRequest(s, handler))
  {
    var t := IssueRequest(s, handler);
    NextId(s.issued);
    forall id | id in t.table ensures StoredOk(t, id) {
      if id in s.table { assert StoredOk(s, id); }
      assert s.issued in s.calls ==> CallsOk(s, s.issued);
    }
    forall m | m in t.wire ensures WireOk(t, m) { if m in s.wire { assert WireOk(s, m); } }
    forall m | m in t.calls ensures CallsOk(t, m) { assert CallsOk(s, m); }
  }

  lemma ReceiveKeeps(s: State, n: nat)
    requires Inv(s) && n in s.wire
    ensures Inv(ReceiveResponse(s, n))
  {
    var t := ReceiveResponse(s, n);
    assert WireOk(s, n);
    if IdOf(n) in s.table {
      assert StoredOk(s, IdOf(n));
      SameId(n, s.table[IdOf(n)]);
    }
    forall id | id in t.table ensures StoredOk(t, id) { assert StoredOk(s, id); }
    forall m | m in t.wire ensures WireOk(t, m) { assert WireOk(s, m); }
    forall m | m in t.calls ensures CallsOk(t, m) { if m in s.calls { assert CallsOk(s, m); } }
  }

  /** A handler that was called is nowhere in the table, and a stored one is under its own id. */
  lemma PendingIsStored(s: State, n: nat)
    requires Inv(s)
    ensures n in Pending(s) <==> Stored(s, n)
    ensures n in Pending(s) ==> CallsOf(s, n) == [] && n !in s.moved && n in s.handled
  {
    forall id | id in s.table && s.table[id] == n ensures id == IdOf(n) { assert StoredOk(s, id); }
    if Stored(s, n) { assert StoredOk(s, IdOf(n)); }
  }

  lemma TeardownKeeps(s: State)
    requires Inv(s)
    ensures Inv(Apply(s, Teardown))
  {
    var t := Apply(s, Teardown);
    forall m | m in t.moved ensures m in t.handled { PendingIsStored(s, m); }
    forall m | m in t.wire ensures WireOk(t, m) { assert WireOk(s, m); }
    forall m | m in t.calls ensures CallsOk(t, m) {
      assert CallsOk(s, m);
      PendingIsStored(s, m);
    }
  }

  lemma MovedIsUncalled(s: State, n: nat)
    requires Inv(s) && n in s.moved
    ensures n !in s.calls
  {
    assert forall m :: m in s.calls ==> CallsOk(s, m);
  }

  lemma CallMovedKeeps(s: State, n: nat)
    requires Inv(s) && n in s.moved
    ensures Inv(Apply(s, CallMoved(n)))
  {
    var t := Apply(s, CallMoved(n));
    MovedIsUncalled(s, n);
    forall id | id in t.table ensures StoredOk(t, id) { assert StoredOk(s, id); }
    forall m | m in t.wire ensures WireOk(t, m) { assert WireOk(s, m); }
    forall m | m in t.calls ensures CallsOk(t, m) { if m in s.calls { assert CallsOk(s, m); } }
  }

  lemma StepKeeps(s: State, step: Step)
    requires Inv(s)
    ensures Inv(Apply(s, step))
  {
    match step {
      case Issue(handler) => IssueKeeps(s, handler);
      case Receive(n) => if n in s.wire { ReceiveKeeps(s, n); }
      case Teardown => TeardownKeeps(s);
      case CallMoved(n) => if n in s.moved { CallMovedKeeps(s, n); }
      case _ =>
        var t := Apply(s, step);
        forall id | id in t.table ensures StoredOk(t, id) { assert StoredOk(s, id); }
        forall m | m in t.calls ensures CallsOk(t, m) { assert CallsOk(s, m); }
    }
  }

  lemma {:induction false} RunKeeps(s: State, steps: seq<Step>)
    requires Inv(s)
    ensures Inv(Run(s, steps))
  {
    if steps != [] {
      RunKeeps(s, steps[..|steps| - 1]);
      StepKeeps(Run(s, steps[..|steps| - 1]), steps[|steps| - 1]);
    }
  }

  /**
   In every run, however many requests it issues, a handler is called at most once, never while it waits, and a
   response that calls it has its id and was read in the session in which the request it answers was sent.
   */
  lemma HandlersFireAtMostOnce(steps: seq<Step>, n: nat)
    ensures var s := Run(START, steps);
            && |CallsOf(s, n)| <= 1 && (CallsOf(s, n) != [] ==> n in s.handled)
            && (n in Pending(s) || n in s.moved ==> CallsOf(s, n) == [])
            && (forall k: nat, r: nat :: CallsOf(s, n) == [Response(k, r)] ==> Answers(s, n, k, r))
  {
    RunKeeps(START, steps);
    var s := Run(START, steps);
    PendingIsStored(s, n);
    if n in s.calls { assert CallsOk(s, n); }
  }

  // ---------- when a handler is lost ----------

  /** The handler is stored, moved out, or has been called. */
  predicate Tracked(s: State, n: nat) { Stored(s, n) || n in s.moved || CallsOf(s, n) != [] }

  predicate NoneLost(s: State) { forall n :: n in s.handled ==> Tracked(s, n) }

  /** The step stores a handler a multiple of INT_MAX requests after one that is still pending. */
  predicate Loses(s: State, step: Step) {
    step == Issue(true) && exists m :: m in Pending(s) && Apart(m, s.issued)
  }

  /** No step of the run loses a handler. */
  predicate KeepsHandlers(s: State, steps: seq<Step>) {
    forall i :: 0 <= i < |steps| ==> !Loses(Run(s, steps[..i]), steps[i])
  }

  lemma KeepsSnoc(s: State, before: seq<Step>, step: Step)
    ensures KeepsHandlers(s, before + [step]) <==> KeepsHandlers(s, before) && !Loses(Run(s, before), step)
  {
    var steps := before + [step];
    forall i | 0 <= i < |before| ensures steps[..i] == before[..i] && steps[i] == before[i] { }
    assert steps[..|before|] == before;
    if KeepsHandlers(s, steps) {
      forall i | 0 <= i < |before| ensures !Loses(Run(s, before[..i]), before[i]) {
        assert !Loses(Run(s, steps[..i]), steps[i]);
      }
      assert !Loses(Run(s, steps[..|before|]), steps[|before|]);
    }
  }

  lemma IssueLoses(s: State)
    requires Inv(s)
    ensures NoneLost(IssueRequest(s, true)) <==> NoneLost(s) && !Loses(s, Issue(true))
  {
    var t, n := IssueRequest(s, true), s.issued;
    if NoneLost(s) && !Loses(s, Issue(true)) {
      forall m | m in t.handled ensures Tracked(t, m) {
        if m != n && Stored(s, m) {
          PendingIsStored(s, m);
          SameId(m, n);
        }
      }
    }
    if m :| m in s.handled && !Tracked(s, m) {
      assert m in t.handled && !Tracked(t, m);
    }
    if m :| m in Pending(s) && Apart(m, n) {
      PendingIsStored(s, m);
      SameId(m, n);
      assert m in t.handled && !Tracked(t, m);
    }
  }

  lemma StepKeepsTrack(s: State, step: Step, m: nat)
    requires Inv(s) && step != Issue(true) && m in s.handled
    ensures Tracked(Apply(s, step), m) <==> Tracked(s, m)
  {
    PendingIsStored(s, m);
    if step.Receive? && IdOf(step.request) in s.table { assert StoredOk(s, IdOf(step.request)); }
  }

  lemma StepLoses(s: State, step: Step)
    requires Inv(s)
    ensures NoneLost(Apply(s, step)) <==> NoneLost(s) && !Loses(s, step)
  {
    if step == Issue(true) {
      IssueLoses(s);
    } else {
      forall m | m in s.handled ensures Tracked(Apply(s, step), m) <==> Tracked(s, m) { StepKeepsTrack(s, step, m); }
    }
  }

  lemma {:induction false} NoneLostIff(steps: seq<Step>)
    ensures NoneLost(Run(START, steps)) <==> KeepsHandlers(START, steps)
  {
    if steps != [] {
      var before, last := steps[..|steps| - 1], steps[|steps| - 1];
      assert steps == before + [last];
      KeepsSnoc(START, before, last);
      NoneLostIff(before);
      RunKeeps(START, before);
      StepLoses(Run(START, before), last);
    }
  }

  /** Every handler waits or has been called exactly once if and only if no step of the run loses one. */
  lemma HandlersFireOnce(steps: seq<Step>)
    ensures var s := Run(START, steps);
            KeepsHandlers(START, steps) <==>
            forall n :: n in s.handled ==> |CallsOf(s, n)| == if n in Pending(s) || n in s.moved then 0 else 1
  {
    NoneLostIff(steps);
    var s := Run(START, steps);
    forall n | n in s.handled
      ensures Tracked(s, n) <==>
              |CallsOf(s, n)| == if n in Pending(s) || n in s.moved then 0 else 1
    {
      RunKeeps(START, steps);
      HandlersFireAtMostOnce(steps, n);
      PendingIsStored(s, n);
    }
  }

  /** A new handler replaces a pending one exactly when a multiple of INT_MAX requests lies between them. */
  lemma LostHandler(s: State, n: nat)
    requires Inv(s) && n in Pending(s)
    ensures n !in Pending(IssueRequest(s, true)) <==> Apart(n, s.issued)
  {
    PendingIsStored(s, n);
    IssueKeeps(s, true);
    PendingIsStored(IssueRequest(s, true), n);
    assert StoredOk(s, IdOf(n));
    SameId(n, s.issued);
  }

  // ---------- when a response reaches another handler ----------

  /** Every handler called with a response was called with its own. */
  predicate OwnOnly(s: State) {
    forall n :: n in s.calls && |s.calls[n]| == 1 && s.calls[n][0].Response? ==> s.calls[n][0].request == n
  }

  /** The response read by the step finds a handler pending that is not its own but has the same id. */
  predicate Misdirects(s: State, step: Step) {
    && step.Receive? && step.request in s.wire
    && exists m :: m in Pending(s) && m != step.request && Apart(step.request, m)
  }

  predicate Directs(s: State, steps: seq<Step>) {
    forall i :: 0 <= i < |steps| ==> !Misdirects(Run(s, steps[..i]), steps[i])
  }

  lemma DirectsSnoc(s: State, before: seq<Step>, step: Step)
    ensures Directs(s, before + [step]) <==> Directs(s, before) && !Misdirects(Run(s, before), step)
  {
    var steps := before + [step];
    forall i | 0 <= i < |before| ensures steps[..i] == before[..i] && steps[i] == before[i] { }
    assert steps[..|before|] == before;
    if Directs(s, steps) {
      forall i | 0 <= i < |before| ensures !Misdirects(Run(s, before[..i]), before[i]) {
        assert !Misdirects(Run(s, steps[..i]), steps[i]);
      }
      assert !Misdirects(Run(s, steps[..|before|]), steps[|before|]);
    }
  }

  /** A response calls exactly the pending handler with its id: its own, or one a multiple of INT_MAX away. */
  lemma ReceiveMeans(s: State, n: nat, m: nat)
    requires Inv(s)
    ensures var t := ReceiveResponse(s, n);
            var hit := m in Pending(s) && Apart(n, m);
            && CallsOf(t, m) == CallsOf(s, m) + (if hit then [Response(s.session, n)] else [])
            && (m in Pending(t) <==> m in Pending(s) && !hit)
  {
    var t := ReceiveResponse(s, n);
    PendingIsStored(s, m);
    SameId(n, m);
    forall id | id in t.table ensures id == IdOf(t.table[id]) { assert StoredOk(s, id); }
    assert Stored(t, m) ==> m in Pending(t);
    if IdOf(n) in s.table { assert StoredOk(s, IdOf(n)); }
  }

  lemma OwnAfter(s: State, t: State, m: nat, call: Call)
    requires m !in s.calls && t.calls == s.calls[m := CallsOf(s, m) + [call]]
    ensures OwnOnly(t) <==> OwnOnly(s) && (call.Response? ==> call.request == m)
  {
    assert CallsOf(s, m) + [call] == [call];
    if OwnOnly(t) {
      assert m in t.calls && t.calls[m] == [call];
      forall k | k in s.calls ensures k in t.calls && t.calls[k] == s.calls[k] { }
    }
  }

  lemma ReceiveDirects(s: State, n: nat)
    requires Inv(s) && n in s.wire
    ensures OwnOnly(ReceiveResponse(s, n)) <==> OwnOnly(s) && !Misdirects(s, Receive(n))
  {
    forall m | m in Pending(s) && Apart(n, m) ensures Stored(s, m) && IdOf(n) == IdOf(m) {
      PendingIsStored(s, m);
      SameId(n, m);
    }
    if IdOf(n) in s.table {
      var m := s.table[IdOf(n)];
      assert StoredOk(s, IdOf(n)) && m in Pending(s);
      SameId(n, m);
      assert m in s.calls ==> CallsOk(s, m);
      OwnAfter(s, ReceiveResponse(s, n), m, Response(s.session, n));
    }
  }

  lemma StepDirects(s: State, step: Step)
    requires Inv(s)
    ensures OwnOnly(Apply(s, step)) <==> OwnOnly(s) && !Misdirects(s, step)
  {
    if step.Receive? && step.request in s.wire {
      ReceiveDirects(s, step.request);
    } else if step.CallMoved? && step.request in s.moved {
      MovedIsUncalled(s, step.request);
      OwnAfter(s, Apply(s, step), step.request, Disconnected);
    }
  }

  /** Responses reach only their own handlers if and only if no response finds a foreign handler under its id. */
  lemma {:induction false} ResponsesFindTheirHandler(steps: seq<Step>)
    ensures OwnOnly(Run(START, steps)) <==> Directs(START, steps)
  {
    if steps != [] {
      var before, last := steps[..|steps| - 1], steps[|steps| - 1];
      assert steps == before + [last];
      DirectsSnoc(START, before, last);
      ResponsesFindTheirHandler(before);
      RunKeeps(START, before);
      StepDirects(Run(START, before), last);
    }
  }

  // ---------- room for the ids is enough ----------

  /** At most `span` requests were issued from any request that is pending or on the wire on. */
  predicate Within(s: State, span: nat) {
    && (forall n :: n in Pending(s) ==> s.issued - n <= span)
    && (forall n :: n in s.wire ==> s.issued - n <= span)
  }

  /** Every request of the run is issued while fewer than INT_MAX lie since any pending or unanswered one. */
  predicate AlwaysRoomy(s: State, steps: seq<Step>) {
    forall i :: 0 <= i < |steps| && steps[i].Issue? ==> Within(Run(s, steps[..i]), INT_MAX - 1)
  }

  lemma RoomyPrefix(s: State, before: seq<Step>, step: Step)
    requires AlwaysRoomy(s, before + [step])
    ensures AlwaysRoomy(s, before) && (step.Issue? ==> Within(Run(s, before), INT_MAX - 1))
  {
    var steps := before + [step];
    assert steps[..|before|] == before && steps[|before|] == step;
    forall i | 0 <= i < |before| && before[i].Issue? ensures Within(Run(s, before[..i]), INT_MAX - 1) {
      assert steps[..i] == before[..i] && steps[i] == before[i];
    }
  }

  lemma StepWithin(s: State, step: Step)
    requires Within(s, INT_MAX) && (step.Issue? ==> Within(s, INT_MAX - 1))
    ensures Within(Apply(s, step), INT_MAX)
  {
    var t := Apply(s, step);
    forall n | n in Pending(t) ensures t.issued - n <= INT_MAX {
      var id :| id in t.table && t.table[id] == n;
      if n != s.issued { assert s.table[id] in Pending(s); }
    }
  }

  lemma {:induction false} RunWithin(steps: seq<Step>)
    requires AlwaysRoomy(START, steps)
    ensures Within(Run(START, steps), INT_MAX)
  {
    if steps != [] {
      var before, last := steps[..|steps| - 1], steps[|steps| - 1];
      assert steps == before + [last];
      RoomyPrefix(START, before, last);
      RunWithin(before);
      StepWithin(Run(START, before), last);
    }
  }

  lemma NearIsNotApart(n: nat, m: nat)
    requires n != m && -INT_MAX < m - n < INT_MAX
    ensures !Apart(n, m)
  {
    assert m - n > 0 ==> (m - n) % INT_MAX == m - n;
    assert m - n < 0 ==> (m - n) % INT_MAX == m - n + INT_MAX;
  }

  lemma RoomyStep(s: State, step: Step)
    requires Inv(s) && Within(s, INT_MAX) && (step.Issue? ==> Within(s, INT_MAX - 1))
    ensures !Loses(s, step) && !Misdirects(s, step)
  {
    forall m | m in Pending(s) ensures m < s.issued { PendingIsStored(s, m); }
    if step.Issue? {
      forall m | m in Pending(s) ensures !Apart(m, s.issued) { NearIsNotApart(m, s.issued); }
    } else if step.Receive? && step.request in s.wire {
      assert WireOk(s, step.request) && step.request < s.issued;
      forall m | m in Pending(s) && m != step.request ensures !Apart(step.request, m) {
        NearIsNotApart(step.request, m);
      }
    }
  }

  /** Room for the ids is enough: no handler is lost and none gets a response that is not its own. */
  lemma {:induction false} RoomIsEnough(steps: seq<Step>)
    requires AlwaysRoomy(START, steps)
    ensures KeepsHandlers(START, steps) && Directs(START, steps)
  {
    if steps != [] {
      var before, last := steps[..|steps| - 1], steps[|steps| - 1];
      assert steps == before + [last];
      RoomyPrefix(START, before, last);
      RoomIsEnough(before);
      RunWithin(before);
      RunKeeps(START, before);
      RoomyStep(Run(START, before), last);
      KeepsSnoc(START, before, last);
      DirectsSnoc(START, before, last);
    }
  }

  // ---------- teardown ----------

  lemma StepStoresNew(s: State, step: Step, n: nat)
    requires n < s.issued && n !in Pending(s)
    ensures s.issued <= Apply(s, step).issued && n !in Pending(Apply(s, step))
  {
    var t := Apply(s, step);
    forall id | id in t.table ensures t.table[id] != n {
      if id in s.table { assert s.table[id] in Pending(s); }
    }
  }

  /** A handler that is not in the table never enters it again. */
  lemma {:induction false} NeverStoredAgain(s: State, steps: seq<Step>, n: nat)
    requires n < s.issued && n !in Pending(s)
    ensures s.issued <= Run(s, steps).issued && n !in Pending(Run(s, steps))
  {
    if steps != [] {
      NeverStoredAgain(s, steps[..|steps| - 1], n);
      StepStoresNew(Run(s, steps[..|steps| - 1]), steps[|steps| - 1], n);
    }
  }

  lemma StepCallsPending(s: State, step: Step, n: nat)
    requires n !in Pending(s)
    ensures var t := Apply(s, step);
            && (n in t.moved ==> n in s.moved)
            && (n !in t.moved ==> CallsOf(t, n) == CallsOf(s, n) + if n in s.moved then [Disconnected] else [])
            && (n in t.moved ==> CallsOf(t, n) == CallsOf(s, n))
  {
    assert forall id :: id in s.table ==> s.table[id] in Pending(s);
  }

  /** Once out of the table, a handler is called only with Bad_Disconnected, and only if teardown moved it out. */
  lemma {:induction false} CalledOnlyIfMoved(s: State, steps: seq<Step>, n: nat)
    requires n < s.issued && n !in Pending(s)
    ensures var t := Run(s, steps);
            && (n in t.moved ==> n in s.moved)
            && (n !in t.moved ==> CallsOf(t, n) == CallsOf(s, n) + if n in s.moved then [Disconnected] else [])
            && (n in t.moved ==> CallsOf(t, n) == CallsOf(s, n))
  {
    if steps != [] {
      var before := steps[..|steps| - 1];
      CalledOnlyIfMoved(s, before, n);
      NeverStoredAgain(s, before, n);
      StepCallsPending(Run(s, before), steps[|steps| - 1], n);
    }
  }

  /**
   Once a teardown has finished its calls, whatever its handlers and later steps did, every handler given before it
   has been called exactly once, if and only if none was lost before it.
   */
  lemma TeardownCallsEveryHandler(steps: seq<Step>, more: seq<Step>)
    requires Run(Apply(Run(START, steps), Teardown), more).moved == {}
    ensures KeepsHandlers(START, steps) <==>
            forall n :: n in Run(START, steps).handled ==>
              |CallsOf(Run(Apply(Run(START, steps), Teardown), more), n)| == 1
  {
    var s := Run(START, steps);
    var u := Run(Apply(s, Teardown), more);
    NoneLostIff(steps);
    RunKeeps(START, steps);
    forall n | n in s.handled ensures |CallsOf(u, n)| == 1 <==> Tracked(s, n) {
      AfterTeardown(s, more, n);
    }
  }

  lemma AfterTeardown(s: State, more: seq<Step>, n: nat)
    requires Inv(s) && n in s.handled && Run(Apply(s, Teardown), more).moved == {}
    ensures |CallsOf(Run(Apply(s, Teardown), more), n)| == 1 <==> Tracked(s, n)
  {
    PendingIsStored(s, n);
    if n in s.calls { assert CallsOk(s, n); }
    CalledOnlyIfMoved(Apply(s, Teardown), more, n);
  }

  // ---------- runs that lose and misdirect ----------

  lemma RunSnoc(s: State, steps: seq<Step>, step: Step)
    ensures Run(s, steps + [step]) == Apply(Run(s, steps), step)
  {
    assert (steps + [step])[..|steps|] == steps;
  }

  /** One request, with or without a handler, then n without. */
  function QuietRun(n: nat, handler: bool): seq<Step> {
    if n == 0 then [Connect, Issue(handler)] else QuietRun(n - 1, handler) + [Issue(false)]
  }

  /** What such a run leaves; the last request that was issued is number n. */
  predicate Quiet(s: State, n: nat, handler: bool) {
    && s.issued == n + 1 && s.connected && s.session == 1 && 0 in s.wire && s.moved == {} && s.calls == map[]
    && s.table == if handler then map[1 := 0] else map[]
  }

  lemma QuietStart(handler: bool)
    ensures Quiet(Run(START, [Connect, Issue(handler)]), 0, handler)
    ensures KeepsHandlers(START, [Connect, Issue(handler)])
  {
    assert [Connect] + [Issue(handler)] == [Connect, Issue(handler)] && [] + [Connect] == [Connect];
    RunSnoc(START, [], Connect);
    RunSnoc(START, [Connect], Issue(handler));
    KeepsSnoc(START, [], Connect);
    KeepsSnoc(START, [Connect], Issue(handler));
    assert START.table[1 := 0] == map[1 := 0];
  }

  lemma QuietNext(s: State, n: nat, handler: bool)
    requires Quiet(s, n, handler)
    ensures Quiet(Apply(s, Issue(false)), n + 1, handler) && !Loses(s, Issue(false))
  {
  }

  lemma {:induction false} QuietRunReaches(n: nat, handler: bool)
    ensures Quiet(Run(START, QuietRun(n, handler)), n, handler)
    ensures KeepsHandlers(START, QuietRun(n, handler))
  {
    if n == 0 {
      QuietStart(handler);
    } else {
      var before := QuietRun(n - 1, handler);
      QuietRunReaches(n - 1, handler);
      QuietNext(Run(START, before), n - 1, handler);
      RunSnoc(START, before, Issue(false));
      KeepsSnoc(START, before, Issue(false));
    }
  }

  /** The INT_MAX-th request after it takes the first handler's id; whatever happens, that handler is never called. */
  lemma HandlerIsLost(more: seq<Step>)
    ensures var steps := QuietRun(INT_MAX - 1, true);
            var s := Run(START, steps);
            && KeepsHandlers(START, steps) && 0 in Pending(s) && Loses(s, Issue(true))
            && CallsOf(Run(IssueRequest(s, true), more), 0) == []
  {
    QuietRunReaches(INT_MAX - 1, true);
    var s := Run(START, QuietRun(INT_MAX - 1, true));
    RunKeeps(START, QuietRun(INT_MAX - 1, true));
    assert 1 in s.table && s.table[1] == 0;
    assert 0 in Pending(s) && Apart(0, s.issued);
    LostHandler(s, 0);
    CalledOnlyIfMoved(IssueRequest(s, true), more, 0);
  }

  /** The late response to a request without a handler calls the handler of the request INT_MAX after it. */
  lemma ResponseIsMisdirected()
    ensures var s := IssueRequest(Run(START, QuietRun(INT_MAX - 1, false)), true);
            && Misdirects(s, Receive(0)) && CallsOf(Apply(s, Receive(0)), INT_MAX) == [Response(1, 0)]
  {
    QuietRunReaches(INT_MAX - 1, false);
    var r := Run(START, QuietRun(INT_MAX - 1, false));
    var s := IssueRequest(r, true);
    RunKeeps(START, QuietRun(INT_MAX - 1, false));
    IssueKeeps(r, true);
    assert r.nextId in s.table && s.table[r.nextId] == INT_MAX;
    assert INT_MAX in Pending(s) && Apart(0, INT_MAX);
    ReceiveMeans(s, 0, INT_MAX);
  }

  // ---------- the table in the form of its source ----------

  /** What one more request adds, and what it displaces. */
  lemma IssueMeans(s: State, handler: bool, m: nat)
    requires Inv(s)
    ensures m in Pending(IssueRequest(s, handler)) <==>
            || (handler && m == s.issued)
            || (m in Pending(s) && !(handler && Apart(m, s.issued)))
  {
    IssueKeeps(s, handler);
    PendingIsStored(s, m);
    PendingIsStored(IssueRequest(s, handler), m);
    SameId(m, s.issued);
  }

  class RequestTable {
    var nextId: int
    var table: map<int, nat>
    var connected: bool

    // Handlers a running teardown has still to call, and the history of the table.
    ghost var moved: set<nat>
    ghost var wire: set<nat>
    ghost var session: nat
    var issued: nat
    ghost var handled: set<nat>
    ghost var sentIn: map<nat, nat>
    ghost var calls: map<nat, seq<Call>>

    ghost function View(): State
      reads this
    {
      State(nextId, table, moved, connected, wire, session, issued, handled, sentIn, calls)
    }

    ghost predicate Valid()
      reads this
    {
      Inv(View())
    }

    constructor ()
      ensures Valid() && View() == START
    {
      nextId, table, connected, issued := 1, map[], false, 0;
      moved, wire, session, handled, sentIn, calls := {}, {}, 0, {}, map[], map[];
    }

    method Store(handler: bool)
      modifies this
      ensures View() == IssueRequest(old(View()), handler)
    {
      var id := nextId;
      nextId := if nextId == INT_MAX then 1 else nextId + 1;
      if handler {
        table := table[id := issued];
        handled := handled + {issued};
      }
      if connected {
        wire := wire + {issued};
        sentIn := sentIn[issued := session];
      }
      issued := issued + 1;
    }

    ghost method Record(n: nat, call: Call)
      modifies this`calls
      ensures View() == Called(old(View()), n, call)
    {
      calls := calls[n := CallsOf(View(), n) + [call]];
    }

    method Receive(id: int, ghost n: nat)
      requires id == IdOf(n)
      modifies this
      ensures View() == ReceiveResponse(old(View()), n)
    {
      wire := wire - {n};
      if id in table {
        var handler := table[id];
        table := table - {id};
        Record(handler, Response(session, n));
      }
    }

    /** A request's handler joins the pending ones and displaces those a multiple of INT_MAX requests before it. */
    method Request(handler: bool)
      requires Valid()
      modifies this
      ensures Valid() && View() == IssueRequest(old(View()), handler) && calls == old(calls)
      ensures forall m :: m in Pending(View()) <==>
                || (handler && m == old(issued))
                || (m in Pending(old(View())) && !(handler && Apart(m, old(issued))))
    {
      IssueKeeps(View(), handler);
      forall m: nat { IssueMeans(View(), handler, m); }
      Store(handler);
    }

    /** The response to request n, of which only the id travels, calls the pending handler with that id, no other. */
    method OnResponse(id: int, ghost n: nat)
      requires Valid() && id == IdOf(n) && n in wire
      modifies this
      ensures Valid() && View() == Apply(old(View()), Step.Receive(n))
      ensures forall m :: m in Pending(View()) <==> m in Pending(old(View())) && !Apart(n, m)
      ensures forall m: nat :: CallsOf(View(), m) == CallsOf(old(View()), m) +
                if m in Pending(old(View())) && Apart(n, m) then [Response(old(session), n)] else []
    {
      ReceiveKeeps(View(), n);
      forall m: nat { ReceiveMeans(View(), n, m); }
      Receive(id, n);
    }

    /** The requests one handler issues while it runs. */
    method Reissue(handlers: seq<bool>, ghost from: nat)
      requires Valid() && from <= issued && forall n :: n in Pending(View()) ==> from <= n
      modifies this
      ensures Valid() && from <= issued && moved == old(moved) && calls == old(calls)
      ensures forall n :: n in Pending(View()) ==> from <= n
    {
      var i := 0;
      while i < |handlers|
        invariant 0 <= i <= |handlers| && Valid() && from <= issued && moved == old(moved) && calls == old(calls)
        invariant forall n :: n in Pending(View()) ==> from <= n
      {
        Request(handlers[i]);
        i := i + 1;
      }
    }

    /** One moved handler is called, and issues new requests as it likes. */
    method CallHandler(n: nat, handlers: seq<bool>, ghost from: nat)
      requires Valid() && n in moved && from <= issued && forall m :: m in Pending(View()) ==> from <= m
      modifies this
      ensures Valid() && moved == old(moved) - {n} && from <= issued
      ensures forall m :: m in Pending(View()) ==> from <= m
      ensures forall m: nat :: CallsOf(View(), m) == CallsOf(old(View()), m) + if m == n then [Disconnected] else []
    {
      CallMovedKeeps(View(), n);
      moved := moved - {n};
      Record(n, Disconnected);
      assert Pending(View()) == old(Pending(View()));
      Reissue(handlers, from);
    }

    /** The handlers are called in any order. */
    method CallHandlers(handlers: set<nat>, reissued: map<nat, seq<bool>>, ghost from: nat)
      requires Valid() && handlers <= moved && from <= issued && forall m :: m in Pending(View()) ==> from <= m
      modifies this
      ensures Valid() && moved == old(moved) - handlers
      ensures forall m :: m in Pending(View()) ==> from <= m
      ensures forall m: nat :: CallsOf(View(), m) ==
                CallsOf(old(View()), m) + if m in handlers then [Disconnected] else []
    {
      var requests := handlers;
      while requests != {}
        invariant Valid() && requests <= handlers && moved == old(moved) - (handlers - requests) && from <= issued
        invariant forall m :: m in Pending(View()) ==> from <= m
        invariant forall m: nat :: CallsOf(View(), m) ==
                    CallsOf(old(View()), m) + if m in handlers - requests then [Disconnected] else []
        decreases |requests|
      {
        ghost var some := Element(requests);
        var n :| n in requests;
        CallHandler(n, if n in reissued then reissued[n] else [], from);
        requests := requests - {n};
      }
    }

    /**
     * All handlers are moved out and then called with Bad_Disconnected, in any order, each issuing new requests as
     * it likes. Every handler that was pending is called once more and no other is called; what is pending
     * afterwards was issued meanwhile.
     */
    method OnSessionDeleted(reissued: map<nat, seq<bool>>)
      requires Valid()
      modifies this
      ensures Valid() && moved == old(moved) && forall n :: n in Pending(View()) ==> old(issued) <= n
      ensures forall n: nat :: CallsOf(View(), n) ==
                CallsOf(old(View()), n) + if n in Pending(old(View())) then [Disconnected] else []
    {
      TeardownKeeps(View());
      var requests := set id | id in table :: table[id];
      forall n | n in requests ensures n !in moved { PendingIsStored(View(), n); }
      moved := moved + Pending(View());
      table := map[];
      assert View() == Apply(old(View()), Teardown);
      CallHandlers(requests, reissued, issued);
    }
  }
}
