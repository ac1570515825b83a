/** The counters with which SendTo(), SetPeerInfo(), CreateGroup() and DestroyGroup() wait for all parts of an operation
    before they raise its completion. Every part reports under the lock; the order is anyone's guess.
 */
module Latch {
  type Result = int

  const S_OK: Result := 0

  /** The counter, the result so far and the completions raised. */
  datatype Counter = Counter(pending: nat, result: Result, raised: seq<Result>)

  /** What a part does when it is finished. */
  function Report(c: Counter, r: Result): Counter
    requires c.pending > 0
  {
    var result := if r != S_OK && c.result == S_OK then r else c.result;
    Counter(c.pending - 1, result, if c.pending == 1 then c.raised + [result] else c.raised)
  }

  // ---------------------------------------------------------------- every order

  /** The caller's own part, which is counted from the beginning and reports last of all in the caller's text; parts are
      added while it is outstanding. */
  const OWN := 0

  /** `outstanding` has the parts that are yet to report, `reports` the results in the order of their arrival. */
  datatype State = State(counter: Counter, outstanding: set<nat>, reports: seq<Result>)

  datatype Step =
    | Add(part: nat)
    | Finished(part: nat, result: Result)

  /** SendTo() counts its targets up front, or one part that succeeds if there are none; the others start with OWN. */
  function Start(parts: set<nat>): State {
    State(Counter(|parts|, S_OK, []), parts, [])
  }

  predicate Enabled(s: State, a: Step) {
    match a
    case Add(part) => OWN in s.outstanding && part !in s.outstanding
    case Finished(part, _) => part in s.outstanding
  }

  function Next(s: State, a: Step): State
    requires Enabled(s, a) && (a.Finished? ==> s.counter.pending > 0)
  {
    match a
    case Add(part) => s.(counter := s.counter.(pending := s.counter.pending + 1), outstanding := s.outstanding + {part})
    case Finished(part, r) => State(Report(s.counter, r), s.outstanding - {part}, s.reports + [r])
  }

  /** The first failure to arrive. */
  function FirstFailure(reports: seq<Result>): (r: Result)
    ensures r == S_OK <==> forall i :: 0 <= i < |reports| ==> reports[i] == S_OK
    ensures r != S_OK ==>
              exists k :: 0 <= k < |reports| && reports[k] == r && forall i :: 0 <= i < k ==> reports[i] == S_OK
  {
    if reports == [] then S_OK
    else if reports[0] != S_OK then reports[0]
    else
      var r := FirstFailure(reports[1..]);
      assert forall i :: 0 <= i < |reports| - 1 ==> reports[1..][i] == reports[i + 1];
      r
  }

  lemma {:induction false} FirstFailureNext(reports: seq<Result>, r: Result)
    ensures FirstFailure(reports + [r]) == if FirstFailure(reports) == S_OK then r else FirstFailure(reports)
  {
    if reports != [] {
      assert (reports + [r])[1..] == reports[1..] + [r];
      FirstFailureNext(reports[1..], r);
    }
  }

  ghost predicate Inv(s: State) {
    && s.counter.pending == |s.outstanding|
    && s.counter.result == FirstFailure(s.reports)
    && s.counter.raised == if s.outstanding == {} then [s.counter.result] else []
  }

  lemma InvStep(s: State, a: Step)
    requires Inv(s) && Enabled(s, a)
    ensures (a.Finished? ==> s.counter.pending > 0) && Inv(Next(s, a))
  {
    if a.Finished? {
      FirstFailureNext(s.reports, a.result);
      assert s.outstanding == {a.part} + (s.outstanding - {a.part});
    }
  }

  ghost predicate Runs(s: State, steps: seq<Step>, s': State)
    decreases |steps|
  {
    if steps == [] then s == s'
    else
      && Enabled(s, steps[0]) && (steps[0].Finished? ==> s.counter.pending > 0)
      && Runs(Next(s, steps[0]), steps[1..], s')
  }

  lemma {:induction false} InvRun(s: State, steps: seq<Step>, s': State)
    requires Inv(s) && Runs(s, steps, s')
    ensures Inv(s')
    decreases |steps|
  {
    if steps != [] {
      InvStep(s, steps[0]);
      InvRun(Next(s, steps[0]), steps[1..], s');
    }
  }

  /** The parts added in the course of a run. */
  function Adds(steps: seq<Step>): nat {
    if steps == [] then 0 else (if steps[0].Add? then 1 else 0) + Adds(steps[1..])
  }

  /** The results reported, in the order of their arrival. */
  function Results(steps: seq<Step>): seq<Result> {
    if steps == [] then [] else (if steps[0].Finished? then [steps[0].result] else []) + Results(steps[1..])
  }

  lemma {:induction false} RunCounts(s: State, steps: seq<Step>, s': State)
    requires Inv(s) && Runs(s, steps, s')
    ensures s'.reports == s.reports + Results(steps)
    ensures |s'.outstanding| + |Results(steps)| == |s.outstanding| + Adds(steps)
    decreases |steps|
  {
    if steps != [] {
      var t := Next(s, steps[0]);
      InvStep(s, steps[0]);
      RunCounts(t, steps[1..], s');
      assert |t.outstanding| == t.counter.pending;
    }
  }

  /** For any number of parts and any order of arrival: the completion is raised at most once, and exactly when all the
      parts have reported, those that there were and those added; its result is the first failure to arrive. The counter
      never goes below 0. */
  lemma CompletesOnce(parts: set<nat>, steps: seq<Step>, s: State)
    requires parts != {} && Runs(Start(parts), steps, s)
    ensures |s.counter.raised| <= 1
    ensures |s.counter.raised| == 1 <==> s.outstanding == {}
    ensures |s.counter.raised| == 1 <==> |Results(steps)| == |parts| + Adds(steps)
    ensures s.counter.raised != [] ==> s.counter.raised[0] == FirstFailure(Results(steps))
    ensures forall a :: Enabled(s, a) && a.Finished? ==> s.counter.pending > 0
  {
    InvRun(Start(parts), steps, s);
    RunCounts(Start(parts), steps, s);
    assert [] + Results(steps) == Results(steps);
    forall a | Enabled(s, a) && a.Finished? ensures s.counter.pending > 0 {
      InvStep(s, a);
    }
  }

  /** With the completion raised nothing more can be added or reported. */
  lemma NothingAfter(parts: set<nat>, steps: seq<Step>, s: State, a: Step)
    requires parts != {} && Runs(Start(parts), steps, s) && s.counter.raised != []
    ensures !Enabled(s, a)
  {
    InvRun(Start(parts), steps, s);
  }

  // ---------------------------------------------------------------- in place

  class Completion {
    var pending: nat
    var result: Result
    var raised: seq<Result>

    ghost function Value(): Counter
      reads this
    {
      Counter(pending, result, raised)
    }

    constructor (targets: nat)
      ensures Value() == Counter(if targets == 0 then 1 else targets, S_OK, [])
    {
      pending, result, raised := targets, S_OK, [];
      if targets == 0 {
        pending := 1;
      }
    }

    /** One more part to wait for. */
    method AddPart()
      modifies this
      ensures pending == old(pending) + 1 && result == old(result) && raised == old(raised)
    {
      pending := pending + 1;
    }

    method HandleSendComplete(sResult: Result)
      requires pending > 0
      modifies this
      ensures Value() == Report(old(Value()), sResult)
    {
      if sResult != S_OK && result == S_OK {
        result := sResult;
      }
      pending := pending - 1;
      if pending == 0 {
        raised := raised + [result];
      }
    }
  }
}
