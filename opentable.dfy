/** What the three `book_reservation` handlers share: the request, the
    texts of the result, and the OpenTable steps other than the time
    selection, whose instruction text differs between the revisions. */
module OpenTable {
  import opened Instructions
  import opened Automation

  /** A validated request. */
  datatype Params = Params(date: string, region: string, timePreference: string,
                           searchTerm: string, partySize: nat)

  /** What the process supplies: its environment variables, and the
      rendering of a date as the day label of the calendar, which depends
      on the locale and time zone of the host (`getDayAriaLabel`). */
  datatype Host = Host(env: map<string, string>, dayLabel: string -> string)

  /** `process.env[name]` is truthy: present and not the empty string. */
  predicate IsSet(env: map<string, string>, name: string) {
    name in env && env[name] != ""
  }

  // ---------------------------------------------------------------------
  // Result texts

  /** The text `resultMessage` starts with; every path overwrites it. */
  function InitialMessage(region: string): string {
    "Failed to automate OpenTable for region " + region + "."
  }

  /** The text the `catch` block builds from the error it receives. */
  function FailureMessage(region: string, detail: string): string {
    "Failed during OpenTable automation for region " + region + ". Error: " + detail
  }

  function SuccessMessage(p: Params): string {
    "Successfully selected the first restaurant for \"" + p.searchTerm + "\" on " + p.date + ". Further steps needed."
  }

  // ---------------------------------------------------------------------
  // Steps

  const OpenTableUrl := "https://www.opentable.com"

  /** After opening the site: the location picker, the region, the search
      term, the search button and the party size. */
  function FindSteps(p: Params): seq<Call> {
    [Act(TogglePicker), Act(PickRegion(p.region)), Act(TypeTerm(p.searchTerm)),
     Act(FindTable), Act(PartySize(p.partySize))]
  }

  /** After the time: the date picker, the day and the first restaurant card. */
  function BookingSteps(dayLabel: string): seq<Call> {
    [Act(OpenDatePicker), Act(PickDay(dayLabel)), Act(OpenFirstCard)]
  }

  /** Where the parts of a plan `[open] + FindSteps(p) + middle +
      BookingSteps(dayLabel)` sit. */
  lemma PlanLayout(open: Call, p: Params, middle: seq<Call>, dayLabel: string)
    ensures var plan := [open] + FindSteps(p) + middle + BookingSteps(dayLabel);
            && |plan| == 9 + |middle|
            && plan[0] == open && plan[1..6] == FindSteps(p)
            && plan[6..6 + |middle|] == middle
            && plan[6 + |middle|..] == BookingSteps(dayLabel)
  {
  }

  /** The first six planned steps: opening the site with the call at index
      0 (`page.goto` or `navigate`), then the find steps, after the `start`
      call that opened the session. A failure that drops the connection
      leaves the session disconnected. */
  method SearchTables(session: Session, start: Call, plan: seq<Call>, p: Params) returns (failure: Outcome)
    requires session.Valid() && session.log == [start]
    requires 6 <= |plan| && IsStep(plan[0]) && plan[1..6] == FindSteps(p)
    modifies session
    ensures session.Valid()
    ensures failure == RunSteps(plan[..6], session.script, 1).failure
    ensures session.log == [start] + RunSteps(plan[..6], session.script, 1).calls
    ensures session.connected == (old(session.connected) && !(failure.Fail? && failure.drops))
  {
    failure := Ok;
    assert plan[..0] == [];
    assert plan[1] == Act(TogglePicker) && plan[2] == Act(PickRegion(p.region))
        && plan[3] == Act(TypeTerm(p.searchTerm)) && plan[4] == Act(FindTable)
        && plan[5] == Act(PartySize(p.partySize)) by {
      assert forall i :: 1 <= i < 6 ==> plan[i] == plan[1..6][i - 1];
    }
    failure := Step(session, plan, 0, plan[0], start, failure);
    failure := Step(session, plan, 1, Act(TogglePicker), start, failure);
    failure := Step(session, plan, 2, Act(PickRegion(p.region)), start, failure);
    failure := Step(session, plan, 3, Act(TypeTerm(p.searchTerm)), start, failure);
    failure := Step(session, plan, 4, Act(FindTable), start, failure);
    failure := Step(session, plan, 5, Act(PartySize(p.partySize)), start, failure);
  }

  /** The last three planned steps, from index `k` on, each made only while
      no earlier step has failed. */
  method Book(session: Session, start: Call, plan: seq<Call>, k: nat, dayLabel: string, failure: Outcome)
    returns (failure': Outcome)
    requires session.Valid()
    requires k + 3 == |plan| && plan[k..] == BookingSteps(dayLabel)
    requires failure == RunSteps(plan[..k], session.script, 1).failure
    requires session.log == [start] + RunSteps(plan[..k], session.script, 1).calls
    modifies session
    ensures session.Valid()
    ensures failure' == RunSteps(plan, session.script, 1).failure
    ensures session.log == [start] + RunSteps(plan, session.script, 1).calls
    ensures failure.Fail? ==> failure' == failure
    ensures session.connected == if failure.Ok? then old(session.connected) && !(failure'.Fail? && failure'.drops)
                                 else old(session.connected)
  {
    assert plan[k] == Act(OpenDatePicker) && plan[k + 1] == Act(PickDay(dayLabel)) && plan[k + 2] == Act(OpenFirstCard) by {
      assert forall i :: k <= i < k + 3 ==> plan[i] == plan[k..][i - k];
    }
    failure' := Step(session, plan, k, Act(OpenDatePicker), start, failure);
    failure' := Step(session, plan, k + 1, Act(PickDay(dayLabel)), start, failure');
    failure' := Step(session, plan, k + 2, Act(OpenFirstCard), start, failure');
    assert plan[..k + 3] == plan;
  }
}
