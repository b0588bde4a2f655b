/** The natural-language instructions the handlers give Stagehand's `act`.
    Each is an `Action` value; `Instruction` is the text that is sent. */
module Instructions {
  import opened JsText

  datatype Action =
    | TogglePicker
    | PickRegion(region: string)
    | TypeTerm(term: string)
    | FindTable
    | PartySize(size: nat)
    /** The time selection of the two current revisions. */
    | PickTime(value: string)
    /** The time selection of the oldest revision, worded differently. */
    | PickTimeOption(value: string)
    | OpenDatePicker
    | PickDay(dayLabel: string)
    | OpenFirstCard

  function Instruction(a: Action): string {
    match a
    case TogglePicker => "Click the button with aria-label \"Toggle location picker\""
    case PickRegion(region) => "Click the link for the region \"" + region + "\""
    case TypeTerm(term) => "Type \"" + term + "\" into the input field with placeholder \"Location, Restaurant or Cuisine\""
    case FindTable => "Click the button with aria-label \"Find a table\""
    // the party size in plain decimal, as `Number.prototype.toString` renders integers below 10^21
    case PartySize(size) => "Select the option for \"" + Render(size) + "\" in the party size dropdown"
    case PickTime(value) => "Select the time option with value \"" + value + "\" in the time dropdown"
    case PickTimeOption(value) => "Select the option with value \"" + value + "\" in the time selector dropdown"
    case OpenDatePicker => "Click the date picker button"
    case PickDay(dayLabel) => "Click the button with aria-label \"" + dayLabel + "\""
    case OpenFirstCard => "Click the first element matching selector `[data-test=\"restaurant-card\"]`"
  }

  /** The text of a step names its argument unambiguously: two steps of the
      same kind with the same text have the same argument. */
  lemma InstructionNamesArgument(a: Action, b: Action)
    requires || (a.PickRegion? && b.PickRegion?) || (a.TypeTerm? && b.TypeTerm?)
             || (a.PartySize? && b.PartySize?) || (a.PickTime? && b.PickTime?)
             || (a.PickTimeOption? && b.PickTimeOption?) || (a.PickDay? && b.PickDay?)
    requires Instruction(a) == Instruction(b)
    ensures a == b
  {
    match a
    case PickRegion(x) => Unframe("Click the link for the region \"", x, b.region, "\"");
    case TypeTerm(x) => Unframe("Type \"", x, b.term, "\" into the input field with placeholder \"Location, Restaurant or Cuisine\"");
    case PartySize(x) =>
      Unframe("Select the option for \"", Render(x), Render(b.size), "\" in the party size dropdown");
    case PickTime(x) => Unframe("Select the time option with value \"", x, b.value, "\" in the time dropdown");
    case PickTimeOption(x) => Unframe("Select the option with value \"", x, b.value, "\" in the time selector dropdown");
    case PickDay(x) => Unframe("Click the button with aria-label \"", x, b.dayLabel, "\"");
  }

  lemma Unframe(p: string, x: string, y: string, q: string)
    requires p + x + q == p + y + q
    ensures x == y
  {
    assert |x| == |y|;
    assert x == (p + x + q)[|p|..|p| + |x|];
    assert y == (p + y + q)[|p|..|p| + |y|];
  }
}
