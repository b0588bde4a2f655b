/** `handleReservationRequest` of the current handler, and the
    `book_reservation` tool handler compiled from an earlier revision of it:
    check the credentials, open one automation session, run the fixed
    OpenTable step sequence, close the session if and only if `init`
    succeeded, and turn the outcome into a tool result
    `{content: [{type: "text", text}], isError}`.

    The two revisions differ only in the text of the error raised when the
    session has no page object; `Build` selects it. */
module Reservation {
  import opened Wrappers
  import opened TimeMapper
  import opened Automation
  import opened OpenTable
  import opened Instructions

  datatype Content = Text(text: string)

  /** The tool result: always exactly one text item and an error flag. */
  datatype ToolResult = ToolResult(content: seq<Content>, isError: bool)

  function TextResult(text: string, isError: bool): ToolResult {
    ToolResult([Text(text)], isError)
  }

  /** The TypeScript source, or the JavaScript compiled from an earlier revision. */
  datatype Build = Source | Compiled

  // ---------------------------------------------------------------------
  // Credentials

  const AnthropicKeyName := "ANTHROPIC_API_KEY"
  const BrowserbaseKeyName := "BROWSERBASE_API_KEY"
  const BrowserbaseProjectName := "BROWSERBASE_PROJECT_ID"

  const LlmKeyMissing := "LLM API key (ANTHROPIC_API_KEY) is not set in environment variables."
  const BrowserbaseMissing := "Browserbase API key or Project ID is not set in environment variables."

  predicate CredentialsPresent(env: map<string, string>) {
    IsSet(env, AnthropicKeyName) && IsSet(env, BrowserbaseKeyName) && IsSet(env, BrowserbaseProjectName)
  }

  /** The credential check: the LLM key first, then the Browserbase key and project. */
  function CredentialError(env: map<string, string>): Option<string> {
    if !IsSet(env, AnthropicKeyName) then Some(LlmKeyMissing)
    else if !IsSet(env, BrowserbaseKeyName) || !IsSet(env, BrowserbaseProjectName) then Some(BrowserbaseMissing)
    else None
  }

  const PageMissingText := "Failed to get page object from Stagehand."

  /** The error raised when the session has no page object; the source
      prefixes it with the handler's name. */
  function PageMissing(b: Build): string {
    match b
    case Source => "[handleReservationRequest] " + PageMissingText
    case Compiled => PageMissingText
  }

  // ---------------------------------------------------------------------
  // The step sequence

  function TimeSteps(timeValue: Option<string>): seq<Call> {
    if timeValue.Some? then [Act(PickTime(timeValue.value))] else []
  }

  /** The calls of the `try` block after `init`, in order; the time is
      selected only when the preference could be mapped. */
  function Steps(p: Params, timeValue: Option<string>, dayLabel: string): seq<Call> {
    [Goto(OpenTableUrl)] + FindSteps(p) + TimeSteps(timeValue) + BookingSteps(dayLabel)
  }

  function RequestSteps(p: Params, host: Host): seq<Call> {
    Steps(p, MapTimeToValue(p.timePreference), host.dayLabel(p.date))
  }

  // ---------------------------------------------------------------------
  // What a request does
  //
  // A request is described by two functions: the tool result it returns
  // (`Result`) and the calls its session receives (`Calls`).

  function Result(b: Build, p: Params, host: Host, script: seq<Outcome>, hasPage: bool): ToolResult {
    match CredentialError(host.env)
    case Some(msg) => TextResult("Error: " + msg, true)
    case None => SessionResult(b, p, host, script, hasPage)
  }

  /** No calls without the credentials; otherwise the session's calls. */
  function Calls(b: Build, p: Params, host: Host, script: seq<Outcome>, hasPage: bool): seq<Call> {
    if CredentialsPresent(host.env) then SessionCalls(b, p, host, script, hasPage) else []
  }

  /** The result once a session exists: the `catch` block's message for
      the error the `try` block raised, or the success message. */
  function SessionResult(b: Build, p: Params, host: Host, script: seq<Outcome>, hasPage: bool): ToolResult {
    var t := TryRun(b, p, host, script, hasPage);
    if t.failure.Fail? then TextResult(FailureMessage(p.region, t.failure.detail), true)
    else TextResult(SuccessMessage(p), false)
  }

  /** The calls of the `try` block, then `close` in the `finally` block
      exactly when `init` succeeded. */
  function SessionCalls(b: Build, p: Params, host: Host, script: seq<Outcome>, hasPage: bool): seq<Call> {
    TryRun(b, p, host, script, hasPage).calls + if OutcomeAt(script, 0).Ok? then [Close] else []
  }

  /** The `try` block: `init`, the page check, then the steps. Its failure
      is the error the `catch` block receives, `Ok` when none was thrown. */
  function TryRun(b: Build, p: Params, host: Host, script: seq<Outcome>, hasPage: bool): Trace {
    var init := OutcomeAt(script, 0);
    if init.Fail? then Trace(init, [Init])
    else if !hasPage then Trace(Fail(PageMissing(b), false), [Init])
    else
      var t := RunSteps(RequestSteps(p, host), script, 1);
      Trace(t.failure, [Init] + t.calls)
  }

  // ---------------------------------------------------------------------
  // The handler

  /** The handler. The session it creates is returned so that what it
      received can be stated; it is `null` when no session was created.
      `init` is called once, and `close` once exactly when `init` succeeded. */
  method HandleReservationRequest(b: Build, p: Params, host: Host, script: seq<Outcome>, hasPage: bool)
    returns (r: ToolResult, session: Session?)
    ensures r == Result(b, p, host, script, hasPage)
    ensures session == null <==> !CredentialsPresent(host.env)
    ensures session != null ==>
              && fresh(session) && session.Valid()
              && session.log == Calls(b, p, host, script, hasPage)
              && StartCount(session.log) == 1
              && CloseCount(session.log) == (if OutcomeAt(script, 0).Ok? then 1 else 0)
  {
    var env := host.env;
    if !IsSet(env, AnthropicKeyName) {
      return TextResult("Error: " + LlmKeyMissing, true), null;
    }
    if !IsSet(env, BrowserbaseKeyName) || !IsSet(env, BrowserbaseProjectName) {
      return TextResult("Error: " + BrowserbaseMissing, true), null;
    }
    var s;
    r, s := Automate(b, p, host, script, hasPage);
    CloseIffInitSucceeded(b, p, host, script, hasPage);
    session := s;
  }

  /** The handler from the creation of the session on: the `try` block,
      the result it leads to, and `close` in the `finally` block exactly
      when `init` succeeded, whatever `close` itself answers. */
  method Automate(b: Build, p: Params, host: Host, script: seq<Outcome>, hasPage: bool)
    returns (r: ToolResult, session: Session)
    ensures fresh(session) && session.Valid()
    ensures r == SessionResult(b, p, host, script, hasPage)
    ensures session.log == SessionCalls(b, p, host, script, hasPage)
  {
    session := new Session(script, hasPage);
    var resultMessage := InitialMessage(p.region);
    var isResultError := true;
    var failure, isInitialized := TryBlock(b, p, host, session);
    if failure.Ok? {
      resultMessage := SuccessMessage(p);
      isResultError := false;
    } else {
      resultMessage := FailureMessage(p.region, failure.detail);
      isResultError := true;
    }
    if isInitialized {
      // a failing close is logged and ignored
      var closed := session.Perform(Close);
    } else {
      assert session.log == session.log + [];
    }
    r := TextResult(resultMessage, isResultError);
  }

  /** The `try` block on a fresh session: `init`, the page check and the steps. */
  method TryBlock(b: Build, p: Params, host: Host, session: Session) returns (failure: Outcome, isInitialized: bool)
    requires session.Valid() && session.log == []
    modifies session
    ensures session.Valid()
    ensures isInitialized == OutcomeAt(session.script, 0).Ok?
    ensures var t := TryRun(b, p, host, session.script, session.hasPage);
            failure == t.failure && session.log == t.calls
  {
    isInitialized := false;
    failure := session.Perform(Init);
    if failure.Ok? {
      isInitialized := true;
      if !session.hasPage {
        failure := Fail(PageMissing(b), false);
      } else {
        failure := SearchAndOpenFirst(session, p, host);
      }
    }
  }

  /** The `try` block after `init` and the page check, one awaited call
      per planned step, each made only while no earlier one has failed; the
      time is selected only when the preference could be mapped. The time
      value and the day label are computed up front, which changes nothing
      since both are pure. */
  method SearchAndOpenFirst(session: Session, p: Params, host: Host) returns (failure: Outcome)
    requires session.Valid() && session.log == [Init]
    modifies session
    ensures session.Valid()
    ensures failure == RunSteps(RequestSteps(p, host), session.script, 1).failure
    ensures session.log == [Init] + RunSteps(RequestSteps(p, host), session.script, 1).calls
  {
    var timeValue := MapTimeToValue(p.timePreference);
    var dayLabel := host.dayLabel(p.date);
    var plan := Steps(p, timeValue, dayLabel);
    PlanLayout(Goto(OpenTableUrl), p, TimeSteps(timeValue), dayLabel);
    failure := SearchTables(session, Init, plan, p);
    var k := 6;
    if timeValue.Some? {
      failure := Step(session, plan, 6, Act(PickTime(timeValue.value)), Init, failure);
      k := 7;
    }
    failure := Book(session, Init, plan, k, dayLabel, failure);
  }

  // ---------------------------------------------------------------------
  // Properties

  /** The LLM key is checked first, then the Browserbase key and project;
      the check passes exactly when all three are set. */
  lemma CredentialOrder(env: map<string, string>)
    ensures CredentialError(env) == Some(LlmKeyMissing) <==> !IsSet(env, AnthropicKeyName)
    ensures CredentialError(env) == Some(BrowserbaseMissing) <==>
              IsSet(env, AnthropicKeyName) && (!IsSet(env, BrowserbaseKeyName) || !IsSet(env, BrowserbaseProjectName))
    ensures CredentialError(env).None? <==> CredentialsPresent(env)
  {
    assert |LlmKeyMissing| == 68 && |BrowserbaseMissing| == 70;
  }

  /** A missing credential is reported with the `Error: ` prefix before any
      call is made; otherwise `init` is the first call. */
  lemma CredentialsFirst(b: Build, p: Params, host: Host, script: seq<Outcome>, hasPage: bool)
    ensures !CredentialsPresent(host.env) ==>
              && Calls(b, p, host, script, hasPage) == []
              && Result(b, p, host, script, hasPage) == TextResult("Error: " + CredentialError(host.env).value, true)
    ensures CredentialsPresent(host.env) ==>
              var calls := Calls(b, p, host, script, hasPage);
              |calls| >= 1 && calls[0] == Init
  {
  }

  lemma RequestStepsAreSteps(p: Params, host: Host)
    ensures forall i :: 0 <= i < |RequestSteps(p, host)| ==> IsStep(RequestSteps(p, host)[i])
  {
  }

  /** `init` is called once when the credentials are present, `close` is
      called exactly when `init` succeeded, and it is then the last call. */
  lemma CloseIffInitSucceeded(b: Build, p: Params, host: Host, script: seq<Outcome>, hasPage: bool)
    ensures var calls := Calls(b, p, host, script, hasPage);
            && StartCount(calls) == (if CredentialsPresent(host.env) then 1 else 0)
            && CloseCount(calls) == (if CredentialsPresent(host.env) && OutcomeAt(script, 0).Ok? then 1 else 0)
            && (CloseCount(calls) == 1 ==> calls[|calls| - 1] == Close)
  {
    if CredentialsPresent(host.env) {
      var t := TryRun(b, p, host, script, hasPage);
      assert StartCount([Init]) == 1 && CloseCount([Init]) == 0 by {
        assert [Init][..0] == [];
      }
      if OutcomeAt(script, 0).Ok? && hasPage {
        RequestStepsAreSteps(p, host);
        RunStepsCountNothing(RequestSteps(p, host), script, 1);
        CountsAppend([Init], RunSteps(RequestSteps(p, host), script, 1).calls);
      }
      var tail := if OutcomeAt(script, 0).Ok? then [Close] else [];
      assert StartCount(tail) == 0 && CloseCount(tail) == |tail| by {
        if tail != [] { assert tail[..0] == []; }
      }
      CountsAppend(t.calls, tail);
    }
  }

  /** The outcome `close` is answered with changes nothing: a request's
      result and calls depend only on the outcomes of the calls of the
      `try` block, and `close` comes after all of them. */
  lemma CloseOutcomeIgnored(b: Build, p: Params, host: Host, s1: seq<Outcome>, s2: seq<Outcome>, hasPage: bool)
    requires forall n :: 0 <= n < |TryRun(b, p, host, s1, hasPage).calls| ==> OutcomeAt(s1, n) == OutcomeAt(s2, n)
    ensures Result(b, p, host, s1, hasPage) == Result(b, p, host, s2, hasPage)
    ensures Calls(b, p, host, s1, hasPage) == Calls(b, p, host, s2, hasPage)
  {
    TryRunLocal(b, p, host, s1, s2, hasPage);
    assert OutcomeAt(s1, 0) == OutcomeAt(s2, 0);
  }

  /** The `try` block depends only on the outcomes of the calls it made. */
  lemma TryRunLocal(b: Build, p: Params, host: Host, s1: seq<Outcome>, s2: seq<Outcome>, hasPage: bool)
    requires forall n :: 0 <= n < |TryRun(b, p, host, s1, hasPage).calls| ==> OutcomeAt(s1, n) == OutcomeAt(s2, n)
    ensures TryRun(b, p, host, s1, hasPage) == TryRun(b, p, host, s2, hasPage)
  {
    assert OutcomeAt(s1, 0) == OutcomeAt(s2, 0);
    if OutcomeAt(s1, 0).Ok? && hasPage {
      var steps := RequestSteps(p, host);
      var t := RunSteps(steps, s1, 1);
      assert |TryRun(b, p, host, s1, hasPage).calls| == 1 + |t.calls|;
      RunStepsLocal(steps, s1, s2, 1);
    }
  }

  /** The first failing step ends the `try` block: the steps before it were
      made, none after it, the result names the region and the error, and
      the session is closed. */
  lemma FirstFailingStepAborts(b: Build, p: Params, host: Host, script: seq<Outcome>, hasPage: bool, k: nat)
    requires CredentialsPresent(host.env) && OutcomeAt(script, 0).Ok? && hasPage
    requires k < |RequestSteps(p, host)|
    requires AllOk(script, 1, 1 + k) && OutcomeAt(script, 1 + k).Fail?
    ensures Result(b, p, host, script, hasPage) ==
              TextResult(FailureMessage(p.region, OutcomeAt(script, 1 + k).detail), true)
    ensures Calls(b, p, host, script, hasPage) == [Init] + RequestSteps(p, host)[..k + 1] + [Close]
  {
    CredentialOrder(host.env);
    FirstFailureStops(RequestSteps(p, host), script, 1, k);
  }

  /** A run of the steps where every call is answered `Ok` makes them all. */
  lemma AllOkRunsEverything(steps: seq<Call>, script: seq<Outcome>, base: nat)
    requires AllOk(script, base, base + |steps|)
    ensures RunSteps(steps, script, base) == Trace(Ok, steps)
  {
    RunStepsShape(steps, script, base);
  }

  /** When every call succeeds, the success message names the search term
      and the date, and every step was made, between `init` and `close`. */
  lemma AllStepsSucceed(b: Build, p: Params, host: Host, script: seq<Outcome>, hasPage: bool)
    requires CredentialsPresent(host.env) && hasPage
    requires AllOk(script, 0, 1 + |RequestSteps(p, host)|)
    ensures Result(b, p, host, script, hasPage) == TextResult(SuccessMessage(p), false)
    ensures Calls(b, p, host, script, hasPage) == [Init] + RequestSteps(p, host) + [Close]
  {
    CredentialOrder(host.env);
    assert OutcomeAt(script, 0).Ok?;
    AllOkRunsEverything(RequestSteps(p, host), script, 1);
  }

  /** A result is a success exactly when the credentials are present, the
      page exists and every call of the `try` block succeeded. */
  lemma SuccessExactly(b: Build, p: Params, host: Host, script: seq<Outcome>, hasPage: bool)
    ensures !Result(b, p, host, script, hasPage).isError <==>
              CredentialsPresent(host.env) && hasPage && AllOk(script, 0, 1 + |RequestSteps(p, host)|)
  {
    CredentialOrder(host.env);
    if CredentialsPresent(host.env) && hasPage {
      if OutcomeAt(script, 0).Ok? {
        TryBlockSucceeds(p, host, script);
      } else {
        assert !AllOk(script, 0, 1 + |RequestSteps(p, host)|) by {
          assert OutcomeAt(script, 0).Fail?;
        }
      }
    }
  }

  /** After a successful `init`, the steps all succeed exactly when every
      call from `init` on is answered `Ok`. */
  lemma TryBlockSucceeds(p: Params, host: Host, script: seq<Outcome>)
    requires OutcomeAt(script, 0).Ok?
    ensures RunSteps(RequestSteps(p, host), script, 1).failure.Ok? <==> AllOk(script, 0, 1 + |RequestSteps(p, host)|)
  {
    var steps := RequestSteps(p, host);
    var t := RunSteps(steps, script, 1);
    RunStepsShape(steps, script, 1);
    if t.failure.Ok? {
      assert AllOk(script, 0, 1 + |steps|) by {
        forall n | 0 <= n < 1 + |steps| ensures OutcomeAt(script, n).Ok? {
          if n > 0 { assert 1 <= n < 1 + |steps|; }
        }
      }
    } else {
      assert !AllOk(script, 0, 1 + |steps|) by {
        assert OutcomeAt(script, 1 + |t.calls| - 1).Fail?;
      }
    }
  }

  /** Every result holds one text: the success message, a credential error,
      or the failure message naming the region and the error. */
  lemma ResultTexts(b: Build, p: Params, host: Host, script: seq<Outcome>, hasPage: bool)
    ensures var r := Result(b, p, host, script, hasPage);
            && |r.content| == 1
            && (!r.isError ==> r.content[0].text == SuccessMessage(p))
            && (r.isError && !CredentialsPresent(host.env) ==>
                  r.content[0].text == "Error: " + CredentialError(host.env).value)
            && (r.isError && CredentialsPresent(host.env) ==>
                  exists detail :: r.content[0].text == FailureMessage(p.region, detail))
  {
    CredentialOrder(host.env);
    if CredentialsPresent(host.env) {
      var t := TryRun(b, p, host, script, hasPage);
      if t.failure.Fail? {
        assert Result(b, p, host, script, hasPage).content[0].text == FailureMessage(p.region, t.failure.detail);
      }
    }
  }

  /** A failing `init` ends the request with no other call, not even `close`;
      a missing page object is handled as a failure after `init`, so the
      session is closed. */
  lemma InitAndPageFailures(b: Build, p: Params, host: Host, script: seq<Outcome>, hasPage: bool)
    requires CredentialsPresent(host.env)
    ensures OutcomeAt(script, 0).Fail? ==>
              && Result(b, p, host, script, hasPage) == TextResult(FailureMessage(p.region, OutcomeAt(script, 0).detail), true)
              && Calls(b, p, host, script, hasPage) == [Init]
    ensures OutcomeAt(script, 0).Ok? && !hasPage ==>
              && Result(b, p, host, script, hasPage) == TextResult(FailureMessage(p.region, PageMissing(b)), true)
              && Calls(b, p, host, script, hasPage) == [Init, Close]
  {
    CredentialOrder(host.env);
    if OutcomeAt(script, 0).Ok? && !hasPage {
      assert [Init] + [Close] == [Init, Close];
    }
  }

  /** The steps run in their fixed order; an unmappable time preference
      removes the time step and nothing else. */
  lemma StepOrder(p: Params, value: string, dayLabel: string)
    ensures var with := Steps(p, Some(value), dayLabel);
            && with == [Goto(OpenTableUrl), Act(TogglePicker), Act(PickRegion(p.region)),
                        Act(TypeTerm(p.searchTerm)), Act(FindTable), Act(PartySize(p.partySize)),
                        Act(PickTime(value)),
                        Act(OpenDatePicker), Act(PickDay(dayLabel)), Act(OpenFirstCard)]
            && Steps(p, None, dayLabel) == with[..6] + with[7..]
  {
  }

  /** The time step is made exactly when `mapTimeToValue` gives a value,
      as the seventh step. */
  lemma TimeStepConditional(p: Params, host: Host)
    ensures var tv := MapTimeToValue(p.timePreference);
            && |RequestSteps(p, host)| == (if tv.Some? then 10 else 9)
            && (tv.Some? ==> RequestSteps(p, host)[6] == Act(PickTime(tv.value)))
  {
  }

  /** The compiled revision behaves as the source does, down to the calls;
      only the text of a missing page object's error lacks the prefix. */
  lemma BuildsAgree(p: Params, host: Host, script: seq<Outcome>, hasPage: bool)
    ensures Calls(Source, p, host, script, hasPage) == Calls(Compiled, p, host, script, hasPage)
    ensures hasPage ==> Result(Source, p, host, script, hasPage) == Result(Compiled, p, host, script, hasPage)
    ensures PageMissing(Source) == "[handleReservationRequest] " + PageMissing(Compiled)
  {
    var t1 := TryRun(Source, p, host, script, hasPage);
    var t2 := TryRun(Compiled, p, host, script, hasPage);
    assert t1.calls == t2.calls;
    if hasPage {
      assert t1 == t2;
    }
  }
}
