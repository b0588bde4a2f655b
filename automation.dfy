/** The browser-automation capability (Stagehand) as the orchestrator sees
    it: a session object whose every call may fail.  The session here is a
    scripted fake: the n-th call it receives is answered with the n-th
    outcome of its script (and succeeds once the script runs out), and it
    keeps a ghost log of the calls.

    The module also holds what the three handlers share: the run of a
    step sequence inside one `try` block, where the first failing call
    skips every later one. */
module Automation {
  import opened Instructions

  /** The answer to one call: success, or an error carrying the text the
      handler's `catch` renders (`error.message`, or `String(error)`).
      `drops` says whether the failure also ends the browser connection,
      which only the `isConnected` check of the oldest handler observes. */
  datatype Outcome = Ok | Fail(detail: string, drops: bool)

  /** The calls a handler makes: `init` (or `connect` in the oldest
      handler), `page.goto` (or `navigate`), `act` and `close`. */
  datatype Call = Init | Connect | Goto(url: string) | Navigate(url: string) | Act(action: Action) | Close

  predicate IsStart(c: Call) {
    c.Init? || c.Connect?
  }

  predicate IsStep(c: Call) {
    c.Goto? || c.Navigate? || c.Act?
  }

  /** The outcome scripted for the call with index `n`. */
  function OutcomeAt(script: seq<Outcome>, n: nat): Outcome {
    if n < |script| then script[n] else Ok
  }

  /** Every call with an index in [lo, hi) is answered `Ok`. */
  predicate AllOk(script: seq<Outcome>, lo: nat, hi: nat) {
    forall n :: lo <= n < hi ==> OutcomeAt(script, n).Ok?
  }

  function StartCount(log: seq<Call>): nat {
    if log == [] then 0 else StartCount(log[..|log| - 1]) + if IsStart(log[|log| - 1]) then 1 else 0
  }

  function CloseCount(log: seq<Call>): nat {
    if log == [] then 0 else CloseCount(log[..|log| - 1]) + if log[|log| - 1].Close? then 1 else 0
  }

  class Session {
    /** Outcomes of the calls, in the order they arrive. */
    const script: seq<Outcome>
    /** Whether `stagehand.page` is set once `init` has returned. */
    const hasPage: bool
    /** How many calls have been answered. */
    var answered: nat
    /** `stagehand.isConnected`. */
    var connected: bool
    /** The calls received, in order. */
    ghost var log: seq<Call>

    ghost predicate Valid()
      reads this
    {
      answered == |log|
    }

    constructor (script: seq<Outcome>, hasPage: bool)
      ensures Valid()
      ensures this.script == script && this.hasPage == hasPage
      ensures log == [] && !connected
    {
      this.script := script;
      this.hasPage := hasPage;
      answered := 0;
      connected := false;
      log := [];
    }

    /** One awaited call. A successful `init`/`connect` connects the
        session, a successful `close` disconnects it, and a failure that
        drops the connection disconnects it too. */
    method Perform(c: Call) returns (o: Outcome)
      requires Valid()
      modifies this
      ensures Valid()
      ensures o == OutcomeAt(script, old(answered))
      ensures log == old(log) + [c]
      ensures connected == if o.Fail? then old(connected) && !o.drops
                           else if IsStart(c) then true
                           else if c.Close? then false
                           else old(connected)
    {
      o := OutcomeAt(script, answered);
      answered := answered + 1;
      log := log + [c];
      if o.Fail? {
        connected := connected && !o.drops;
      } else if IsStart(c) {
        connected := true;
      } else if c.Close? {
        connected := false;
      }
    }
  }

  /** How far a step sequence got: the failure that ended it (`Ok` when
      none did) and the calls that were made. */
  datatype Trace = Trace(failure: Outcome, calls: seq<Call>)

  /** The steps of a `try` block run against a script, the first step
      being answered by the outcome at index `base`: each step is made
      only if no earlier one failed. */
  function RunSteps(steps: seq<Call>, script: seq<Outcome>, base: nat): Trace
  {
    if steps == [] then Trace(Ok, [])
    else
      var prev := RunSteps(steps[..|steps| - 1], script, base);
      if prev.failure.Fail? then prev
      else Trace(OutcomeAt(script, base + |prev.calls|), prev.calls + [steps[|steps| - 1]])
  }

  /** The calls made are a prefix of the steps; when none failed they are
      all the steps, each answered `Ok`; otherwise the last call made is the
      one that failed and every call before it was answered `Ok`. */
  lemma {:induction false} RunStepsShape(steps: seq<Call>, script: seq<Outcome>, base: nat)
    ensures var t := RunSteps(steps, script, base);
            && |t.calls| <= |steps| && t.calls == steps[..|t.calls|]
            && (t.failure.Ok? ==> t.calls == steps && AllOk(script, base, base + |steps|))
            && (t.failure.Fail? ==>
                  && |t.calls| >= 1
                  && t.failure == OutcomeAt(script, base + |t.calls| - 1)
                  && AllOk(script, base, base + |t.calls| - 1))
  {
    if steps != [] {
      var init := steps[..|steps| - 1];
      RunStepsShape(init, script, base);
      var prev := RunSteps(init, script, base);
      if prev.failure.Fail? {
        assert init[..|prev.calls|] == steps[..|prev.calls|];
      } else {
        assert AllOk(script, base, base + |init|);
      }
    }
  }

  /** A step sequence stops exactly at its first failing step: every step
      before it was made and answered `Ok`, and no step after it was made. */
  lemma {:induction false} FirstFailureStops(steps: seq<Call>, script: seq<Outcome>, base: nat, k: nat)
    requires k < |steps|
    requires OutcomeAt(script, base + k).Fail?
    requires AllOk(script, base, base + k)
    ensures RunSteps(steps, script, base) == Trace(OutcomeAt(script, base + k), steps[..k + 1])
  {
    RunStepsShape(steps, script, base);
    var t := RunSteps(steps, script, base);
    assert t.failure.Fail? && |t.calls| == k + 1;
  }

  /** The run of a step sequence depends only on the outcomes of the calls
      it made. */
  lemma {:induction false} RunStepsLocal(steps: seq<Call>, s1: seq<Outcome>, s2: seq<Outcome>, base: nat)
    requires forall n :: base <= n < base + |RunSteps(steps, s1, base).calls| ==> OutcomeAt(s1, n) == OutcomeAt(s2, n)
    ensures RunSteps(steps, s1, base) == RunSteps(steps, s2, base)
  {
    if steps != [] {
      var prev := RunSteps(steps[..|steps| - 1], s1, base);
      RunStepsLocal(steps[..|steps| - 1], s1, s2, base);
    }
  }

  /** Counting calls distributes over concatenation. */
  lemma {:induction false} CountsAppend(a: seq<Call>, b: seq<Call>)
    ensures StartCount(a + b) == StartCount(a) + StartCount(b)
    ensures CloseCount(a + b) == CloseCount(a) + CloseCount(b)
  {
    if b != [] {
      assert (a + b)[..|a + b| - 1] == a + b[..|b| - 1];
      CountsAppend(a, b[..|b| - 1]);
    } else {
      assert a + b == a;
    }
  }

  /** Steps neither start nor close a session. */
  lemma {:induction false} StepsCountNothing(steps: seq<Call>)
    requires forall i :: 0 <= i < |steps| ==> IsStep(steps[i])
    ensures StartCount(steps) == 0 && CloseCount(steps) == 0
  {
    if steps != [] {
      StepsCountNothing(steps[..|steps| - 1]);
    }
  }

  /** A run of steps makes neither a start nor a close call. */
  lemma RunStepsCountNothing(steps: seq<Call>, script: seq<Outcome>, base: nat)
    requires forall i :: 0 <= i < |steps| ==> IsStep(steps[i])
    ensures StartCount(RunSteps(steps, script, base).calls) == 0
    ensures CloseCount(RunSteps(steps, script, base).calls) == 0
  {
    var u := RunSteps(steps, script, base);
    RunStepsShape(steps, script, base);
    assert forall i :: 0 <= i < |u.calls| ==> u.calls[i] == steps[i];
    StepsCountNothing(u.calls);
  }

  /** One awaited step inside the `try` block, the call `c` at index `k` of
      the planned steps: made only while no earlier step has failed.
      Before it the session has seen the `start` call at index 0 and the
      steps before `k` as `RunSteps` says; afterwards, the steps up to `k`. */
  method Step(session: Session, plan: seq<Call>, k: nat, c: Call, start: Call, failure: Outcome)
    returns (failure': Outcome)
    requires session.Valid() && k < |plan| && plan[k] == c && IsStep(c)
    requires failure == RunSteps(plan[..k], session.script, 1).failure
    requires session.log == [start] + RunSteps(plan[..k], session.script, 1).calls
    modifies session
    ensures session.Valid()
    ensures failure' == RunSteps(plan[..k + 1], session.script, 1).failure
    ensures session.log == [start] + RunSteps(plan[..k + 1], session.script, 1).calls
    ensures failure.Fail? ==> failure' == failure && session.log == old(session.log)
    ensures session.connected == if failure.Ok? then old(session.connected) && !(failure'.Fail? && failure'.drops)
                                 else old(session.connected)
  {
    assert plan[..k + 1][..k] == plan[..k];
    ghost var prev := RunSteps(plan[..k], session.script, 1);
    assert RunSteps(plan[..k + 1], session.script, 1)
        == if prev.failure.Fail? then prev
           else Trace(OutcomeAt(session.script, 1 + |prev.calls|), prev.calls + [c]);
    if failure.Ok? {
      failure' := session.Perform(c);
      assert session.log == [start] + (prev.calls + [c]);
    } else {
      failure' := failure;
    }
  }
}
