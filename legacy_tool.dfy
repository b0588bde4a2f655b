/** The `book_reservation` tool of the oldest revision (`build/tools.js`).
    It runs the same OpenTable steps as the later handlers, with three
    differences in its error handling: a missing Browserbase key is thrown
    rather than reported, `close` is called only while the session is
    still connected, and an error from `close` escapes the handler,
    replacing the message it would have returned. Its result is a plain
    text; `Failure` stands for the rejected promise, carrying the error's
    message. It does not look for a page object. */
module LegacyTool {
  import opened Wrappers
  import opened TimeMapper
  import opened Instructions
  import opened Automation
  import opened OpenTable

  const BrowserbaseKeyName := "BROWSERBASE_API_KEY"
  const KeyMissing := "Browserbase API key is not set in environment variables."

  function TimeSteps(timeValue: Option<string>): seq<Call> {
    if timeValue.Some? then [Act(PickTimeOption(timeValue.value))] else []
  }

  /** The calls of the `try` block after `connect`, in order, for a given
      time value and day label. */
  function Plan(p: Params, timeValue: Option<string>, dayLabel: string): seq<Call> {
    [Navigate(OpenTableUrl)] + FindSteps(p) + TimeSteps(timeValue) + BookingSteps(dayLabel)
  }

  function Steps(p: Params, host: Host): seq<Call> {
    Plan(p, MapTimeToValue(p.timePreference), host.dayLabel(p.date))
  }

  // ---------------------------------------------------------------------
  // What a call of the tool does

  /** The `try` block: `connect`, then the steps. */
  function TryRun(p: Params, host: Host, script: seq<Outcome>): Trace {
    var connect := OutcomeAt(script, 0);
    if connect.Fail? then Trace(connect, [Connect])
    else
      var t := RunSteps(Steps(p, host), script, 1);
      Trace(t.failure, [Connect] + t.calls)
  }

  /** `stagehand.isConnected` when the `finally` block runs: `connect`
      succeeded and the error that ended the `try` block, if any, did not
      drop the connection. */
  predicate ConnectedAtEnd(p: Params, host: Host, script: seq<Outcome>) {
    var t := TryRun(p, host, script);
    OutcomeAt(script, 0).Ok? && !(t.failure.Fail? && t.failure.drops)
  }

  /** The `try` block's calls, then `close` if the session is still connected. */
  function Calls(p: Params, host: Host, script: seq<Outcome>): seq<Call> {
    if !IsSet(host.env, BrowserbaseKeyName) then []
    else TryRun(p, host, script).calls + if ConnectedAtEnd(p, host, script) then [Close] else []
  }

  /** The message the `try`/`catch` blocks leave, returned unless `close`
      fails, in which case the handler rejects with `close`'s error. */
  function Result(p: Params, host: Host, script: seq<Outcome>): Result<string, string> {
    if !IsSet(host.env, BrowserbaseKeyName) then Failure(KeyMissing)
    else
      var t := TryRun(p, host, script);
      var close := OutcomeAt(script, |t.calls|);
      if ConnectedAtEnd(p, host, script) && close.Fail? then Failure(close.detail)
      else if t.failure.Fail? then Success(FailureMessage(p.region, t.failure.detail))
      else Success(SuccessMessage(p))
  }

  // ---------------------------------------------------------------------
  // The handler

  /** The handler; the session it creates is returned so that what it
      received can be stated (`null` when the key check threw). */
  method BookReservation(p: Params, host: Host, script: seq<Outcome>) returns (r: Result<string, string>, session: Session?)
    ensures r == Result(p, host, script)
    ensures session == null <==> !IsSet(host.env, BrowserbaseKeyName)
    ensures session != null ==> fresh(session) && session.Valid() && session.log == Calls(p, host, script)
  {
    if !IsSet(host.env, BrowserbaseKeyName) {
      return Failure(KeyMissing), null;
    }
    var s;
    r, s := Automate(p, host, script);
    session := s;
  }

  /** The handler from the creation of the session on. */
  method Automate(p: Params, host: Host, script: seq<Outcome>) returns (r: Result<string, string>, session: Session)
    requires IsSet(host.env, BrowserbaseKeyName)
    ensures fresh(session) && session.Valid()
    ensures r == Result(p, host, script) && session.log == Calls(p, host, script)
  {
    session := new Session(script, true);
    var resultMessage := InitialMessage(p.region);
    var failure := TryBlock(p, host, session);
    if failure.Ok? {
      resultMessage := SuccessMessage(p);
    } else {
      resultMessage := FailureMessage(p.region, failure.detail);
    }
    if session.connected {
      // nothing catches an error of `close`
      var closed := session.Perform(Close);
      if closed.Fail? {
        return Failure(closed.detail), session;
      }
    } else {
      assert session.log == session.log + [];
    }
    r := Success(resultMessage);
  }

  /** The `try` block on a fresh session. */
  method TryBlock(p: Params, host: Host, session: Session) returns (failure: Outcome)
    requires session.Valid() && session.log == [] && !session.connected
    modifies session
    ensures session.Valid()
    ensures var t := TryRun(p, host, session.script);
            failure == t.failure && session.log == t.calls
    ensures session.connected == ConnectedAtEnd(p, host, session.script)
  {
    failure := session.Perform(Connect);
    if failure.Ok? {
      failure := SearchAndOpenFirst(session, p, host);
    }
  }

  /** The steps after `connect`, each made only while no earlier one has
      failed; the time is selected only when the preference could be mapped. */
  method SearchAndOpenFirst(session: Session, p: Params, host: Host) returns (failure: Outcome)
    requires session.Valid() && session.log == [Connect] && session.connected
    modifies session
    ensures session.Valid()
    ensures failure == RunSteps(Steps(p, host), session.script, 1).failure
    ensures session.log == [Connect] + RunSteps(Steps(p, host), session.script, 1).calls
    ensures session.connected == !(failure.Fail? && failure.drops)
  {
    var timeValue := MapTimeToValue(p.timePreference);
    var dayLabel := host.dayLabel(p.date);
    var plan := Plan(p, timeValue, dayLabel);
    PlanLayout(Navigate(OpenTableUrl), p, TimeSteps(timeValue), dayLabel);
    failure := SearchTables(session, Connect, plan, p);
    var k := 6;
    if timeValue.Some? {
      failure := Step(session, plan, 6, Act(PickTimeOption(timeValue.value)), Connect, failure);
      k := 7;
    }
    failure := Book(session, Connect, plan, k, dayLabel, failure);
  }

  // ---------------------------------------------------------------------
  // Properties

  /** Without the Browserbase key the handler throws before creating a
      session; no other credential is looked at. */
  lemma MissingKeyThrows(p: Params, host: Host, script: seq<Outcome>)
    ensures !IsSet(host.env, BrowserbaseKeyName) <==> Result(p, host, script) == Failure(KeyMissing) && Calls(p, host, script) == []
    ensures IsSet(host.env, BrowserbaseKeyName) ==> Calls(p, host, script)[0] == Connect
  {
    if IsSet(host.env, BrowserbaseKeyName) {
      assert Calls(p, host, script)[0] == Connect;
    }
  }

  lemma StepsAreSteps(p: Params, host: Host)
    ensures forall i :: 0 <= i < |Steps(p, host)| ==> IsStep(Steps(p, host)[i])
  {
  }

  /** `connect` is called once and `close` is called exactly when `connect`
      succeeded and no failure dropped the connection, as the last call. */
  lemma CloseIffConnected(p: Params, host: Host, script: seq<Outcome>)
    requires IsSet(host.env, BrowserbaseKeyName)
    ensures var calls := Calls(p, host, script);
            && StartCount(calls) == 1
            && CloseCount(calls) == (if ConnectedAtEnd(p, host, script) then 1 else 0)
            && (ConnectedAtEnd(p, host, script) ==> calls[|calls| - 1] == Close)
  {
    var t := TryRun(p, host, script);
    TryRunCounts(p, host, script);
    var tail := if ConnectedAtEnd(p, host, script) then [Close] else [];
    assert StartCount(tail) == 0 && CloseCount(tail) == |tail| by {
      if tail != [] { assert tail[..0] == []; }
    }
    CountsAppend(t.calls, tail);
  }

  /** The `try` block connects once and does not close. */
  lemma TryRunCounts(p: Params, host: Host, script: seq<Outcome>)
    ensures StartCount(TryRun(p, host, script).calls) == 1
    ensures CloseCount(TryRun(p, host, script).calls) == 0
  {
    assert StartCount([Connect]) == 1 && CloseCount([Connect]) == 0 by {
      assert [Connect][..0] == [];
    }
    if OutcomeAt(script, 0).Ok? {
      StepsAreSteps(p, host);
      RunStepsCountNothing(Steps(p, host), script, 1);
      CountsAppend([Connect], RunSteps(Steps(p, host), script, 1).calls);
    }
  }

  /** An error from `close` escapes the handler, even after a successful
      run: the tool then rejects instead of returning its message. */
  lemma CloseErrorPropagates(p: Params, host: Host, script: seq<Outcome>)
    requires IsSet(host.env, BrowserbaseKeyName) && ConnectedAtEnd(p, host, script)
    ensures var close := OutcomeAt(script, |TryRun(p, host, script).calls|);
            && (close.Fail? ==> Result(p, host, script) == Failure(close.detail))
            && (close.Ok? ==> Result(p, host, script).Success?)
  {
  }

  /** When every call made, `close` included, succeeds, the success message
      is returned. */
  lemma AllStepsSucceed(p: Params, host: Host, script: seq<Outcome>)
    requires IsSet(host.env, BrowserbaseKeyName)
    requires AllOk(script, 0, 2 + |Steps(p, host)|)
    ensures Result(p, host, script) == Success(SuccessMessage(p))
    ensures Calls(p, host, script) == [Connect] + Steps(p, host) + [Close]
  {
    assert OutcomeAt(script, 0).Ok? && OutcomeAt(script, 1 + |Steps(p, host)|).Ok?;
    RunStepsShape(Steps(p, host), script, 1);
  }

  /** Otherwise the tool rejects with the error of `close`, or returns the
      failure message naming the region and the error. */
  lemma SomeCallFailed(p: Params, host: Host, script: seq<Outcome>)
    requires IsSet(host.env, BrowserbaseKeyName)
    requires !AllOk(script, 0, 2 + |Steps(p, host)|)
    ensures || Result(p, host, script).Failure?
            || exists detail :: Result(p, host, script) == Success(FailureMessage(p.region, detail))
  {
    TryRunSucceeds(p, host, script);
    var t := TryRun(p, host, script);
    if t.failure.Ok? {
      assert OutcomeAt(script, 1 + |Steps(p, host)|).Fail?;
    }
  }

  /** A `try` block without failure made every step, each answered `Ok`. */
  lemma TryRunSucceeds(p: Params, host: Host, script: seq<Outcome>)
    ensures var t := TryRun(p, host, script);
            t.failure.Ok? ==> |t.calls| == 1 + |Steps(p, host)| && AllOk(script, 0, 1 + |Steps(p, host)|)
  {
    var steps := Steps(p, host);
    if OutcomeAt(script, 0).Ok? {
      var u := RunSteps(steps, script, 1);
      RunStepsShape(steps, script, 1);
      if u.failure.Ok? {
        forall n | 0 <= n < 1 + |steps| ensures OutcomeAt(script, n).Ok? {
          if n > 0 { assert 1 <= n < 1 + |steps|; }
        }
      }
    }
  }

  /** A failing step that drops the connection is reported in the returned
      message, and the session is never closed. */
  lemma DroppedSessionNotClosed(p: Params, host: Host, script: seq<Outcome>, k: nat)
    requires IsSet(host.env, BrowserbaseKeyName) && OutcomeAt(script, 0).Ok?
    requires k < |Steps(p, host)|
    requires AllOk(script, 1, 1 + k) && OutcomeAt(script, 1 + k).Fail? && OutcomeAt(script, 1 + k).drops
    ensures Calls(p, host, script) == [Connect] + Steps(p, host)[..k + 1]
    ensures Result(p, host, script) == Success(FailureMessage(p.region, OutcomeAt(script, 1 + k).detail))
  {
    FirstFailureStops(Steps(p, host), script, 1, k);
  }

  /** A failing step that keeps the connection is reported in the returned
      message when `close` then succeeds; no later step is made. */
  lemma FirstFailingStepReported(p: Params, host: Host, script: seq<Outcome>, k: nat)
    requires IsSet(host.env, BrowserbaseKeyName) && OutcomeAt(script, 0).Ok?
    requires k < |Steps(p, host)|
    requires AllOk(script, 1, 1 + k) && OutcomeAt(script, 1 + k).Fail? && !OutcomeAt(script, 1 + k).drops
    requires OutcomeAt(script, 2 + k).Ok?
    ensures Calls(p, host, script) == [Connect] + Steps(p, host)[..k + 1] + [Close]
    ensures Result(p, host, script) == Success(FailureMessage(p.region, OutcomeAt(script, 1 + k).detail))
  {
    FirstFailureStops(Steps(p, host), script, 1, k);
  }

  /** A failing `connect` is reported in the returned message; nothing else
      is called, `close` included. */
  lemma ConnectFailureReported(p: Params, host: Host, script: seq<Outcome>)
    requires IsSet(host.env, BrowserbaseKeyName) && OutcomeAt(script, 0).Fail?
    ensures Calls(p, host, script) == [Connect]
    ensures Result(p, host, script) == Success(FailureMessage(p.region, OutcomeAt(script, 0).detail))
  {
  }

  /** The time is selected with the instruction of this revision, as the
      seventh step, exactly when the preference could be mapped. */
  lemma TimeStepConditional(p: Params, host: Host)
    ensures var tv := MapTimeToValue(p.timePreference);
            && |Steps(p, host)| == (if tv.Some? then 10 else 9)
            && Steps(p, host)[0] == Navigate(OpenTableUrl)
            && (tv.Some? ==> Steps(p, host)[6] == Act(PickTimeOption(tv.value)))
  {
  }
}
