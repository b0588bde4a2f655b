# Restaurant reservation orchestrator, modelled in Dafny

The restaurant reservation service takes one booking request per input
line. A request is JSON with `date`, `region`, `time_preference`,
`search_term` and an optional `party_size`. The service drives a remote
browser (Stagehand on Browserbase) through a fixed OpenTable script: open
the site, pick the region, search, set the party size, pick the time when
the free-text preference can be mapped to the time dropdown, pick the day,
and open the first restaurant card. It answers with one tool result
`{content: [{type: "text", text}], isError}`.

The model covers three revisions of the handler:

- `restaurant_reservation/src/index.ts`: the current source. It holds
  `mapTimeToValue`, the input schema, `handleReservationRequest` and the
  per-line stdin handler in `main`.
- `restaurant_reservation/build/index.js`: the `book_reservation` tool
  handler compiled from an earlier revision. It behaves like the source
  except for the text of one error.
- `restaurant_reservation/build/tools.js`: the oldest handler. It uses
  `connect`/`navigate`, throws on a missing key, closes only while
  `isConnected`, lets an error from `close` escape, and returns a plain
  string.

The modules, in dependency order:

- `Wrappers` (`wrappers.dfy`): `Option` and `Result`.
- `JsText` (`js_text.dfy`): the JavaScript string primitives used.
  - `\d` and `\s`.
  - ASCII case folding.
  - `trim`.
  - `Number.prototype.toString` and `parseInt` on naturals.
  - `padStart(2, '0')`.
- `Instructions` (`instructions.dfy`): the texts sent to `act`.
- `TimeMapper` (`time_mapper.dfy`): `mapTimeToValue`.
  - A hand-written matcher with JavaScript's leftmost-first, backtracking
    semantics for `(\d{1,2}):?(\d{2})?\s?(AM|PM)` with the `i` flag.
  - A declarative description of the pattern, proved to agree with the
    matcher.
  - The 12-to-24-hour conversion and the value format.
- `Automation` (`automation.dfy`): the automation session.
  - A class `Session` answers each call with the next outcome of a script,
    and keeps a ghost log of the calls it received.
  - `RunSteps` describes a `try` block whose first failing call skips the
    rest.
- `OpenTable` (`opentable.dfy`): what the three handlers share.
  - The request type `Params`.
  - The result texts.
  - The search and booking steps, as methods that make one awaited call
    per step.
- `Reservation` (`reservation.dfy`): `handleReservationRequest`, for both
  the source and the compiled revision.
- `LegacyTool` (`legacy_tool.dfy`): the handler of `build/tools.js`.
- `Validation` (`validation.dfy`): the zod schema as `safeParse` applies
  it, and the aggregated error message.
- `LineHandler` (`line_handler.dfy`): the per-line handler.
  - Trim the line and ignore it when blank.
  - Replace backticks with double quotes.
  - Parse, validate and handle the request.
  - Write one line to stdout, or an error text to stderr.

Each handler is imperative Dafny over a `Session` object. Its result, and
the calls its session receives, are equal to two specification functions:
`Result` and `Calls`. The lemmas state what the handler promises about those
functions.

The model follows the code. The schema's field descriptions
(`src/index.ts:38-42`) speak of "the desired date", "the region" and so on,
but `z.string()` accepts the empty string, and so does the model. Nothing in
the code serialises concurrent lines.

## Model

| member | source | states |
|---|---|---|
| JsText.Render | restaurant_reservation/src/index.ts:31-32 | `toString` of a natural: a non-empty run of digits, without a leading zero unless it is "0", that `parseInt` reads back as the number |
| JsText.PadStart2 | restaurant_reservation/src/index.ts:31-32 | `padStart(2, '0')`: the length becomes two if it was shorter, the string ends the result, and only zeros come before it |
| JsText.PaddedRoundTrip | restaurant_reservation/src/index.ts:31-33 | a padded rendering is all digits and reads back as the number it renders |
| JsText.LeadingZero | restaurant_reservation/src/index.ts:31-32 | a leading zero does not change the value read |
| TimeMapper.PeriodLetters | restaurant_reservation/src/index.ts:21 | under the `i` flag the letters of `(AM\|PM)` match in either case: AM is found exactly at `a`/`A` followed by `m`/`M`, PM exactly at `p`/`P` followed by `m`/`M` |
| JsText.Trim | restaurant_reservation/src/index.ts:210 | the trimmed text is no longer than the line and neither starts nor ends with white space |
| JsText.TrimRemovesEnds | restaurant_reservation/src/index.ts:210 | trimming keeps one contiguous slice of the line, and only white space lies before and after it |
| JsText.TrimBlank | restaurant_reservation/src/index.ts:210-215 | a line trims to empty exactly when every character is white space |
| JsText.TrimIdempotent | restaurant_reservation/src/index.ts:210 | trimming twice is trimming once |
| Instructions.InstructionNamesArgument | restaurant_reservation/src/index.ts:125-168 | two `act` instructions of the same kind with the same text have the same region, term, party size, time value or day label |
| TimeMapper.MatchAt | restaurant_reservation/src/index.ts:21 | a match found at a position starts there, and its choice fits the pattern there and yields the captured groups |
| TimeMapper.Search | restaurant_reservation/src/index.ts:21 | `match` returns a match starting at or after the position searched from, with the groups the pattern captures there |
| TimeMapper.MatchAtSpec | restaurant_reservation/src/index.ts:21 | at one position the matcher fails exactly when no way of reading the pattern fits; otherwise it returns the fitting reading that backtracking tries first |
| TimeMapper.SearchSpec | restaurant_reservation/src/index.ts:21 | the search finds nothing exactly when the pattern fits nowhere; otherwise it returns the leftmost position where it fits, and there the first reading in backtracking order |
| TimeMapper.MapTimeToValueAbsent | restaurant_reservation/src/index.ts:21-22 | `mapTimeToValue` returns undefined exactly when the pattern fits nowhere in the preference (likewise the copies in `build/index.js` and `build/tools.js`) |
| TimeMapper.MapTimeToValueOfFirstMatch | restaurant_reservation/src/index.ts:20-34 | at the first match, the value is built from the hour converted to the 24-hour clock and from the minutes, which are 0 when the minutes group is absent (likewise the copies in `build/index.js` and `build/tools.js`) |
| TimeMapper.ClockRoundTrip | restaurant_reservation/src/index.ts:28-29 | the PM rule (add 12 unless the hour is 12) and the AM rule (12 becomes 0) map hours 1-12 with a period one to one onto hours 0-23 |
| TimeMapper.TimeValueRoundTrip | restaurant_reservation/src/index.ts:31-33 | the value `2000-02-01THH:MM:00` reads back as the hour and minute it was built from |
| TimeMapper.MappedValueReadsBack | restaurant_reservation/src/index.ts:20-34 | every mapped value has the fixed date prefix and reads back as the first match's converted hour and minute; hour and minute are not range-checked |
| TimeMapper.ExampleSevenPm | restaurant_reservation/build/tools.js:43-44 | "7 PM" maps to `2000-02-01T19:00:00` |
| TimeMapper.ExampleHalfPastMidnight | restaurant_reservation/src/index.ts:29 | "12:30 AM" maps to `2000-02-01T00:30:00` |
| TimeMapper.ExampleLunchtime | restaurant_reservation/build/tools.js:33 | "lunchtime" maps to undefined |
| TimeMapper.ExampleGivesBackDigit | restaurant_reservation/src/index.ts:21 | in "730 PM" the greedy hour gives a digit back so that the minutes group matches: the value is `2000-02-01T19:30:00` |
| Automation.Session.Perform | restaurant_reservation/src/index.ts:108-186 | each awaited call is answered by the next scripted outcome and logged; a successful `init` connects, `close` disconnects, and a failure that drops the connection disconnects |
| Automation.RunStepsShape | restaurant_reservation/src/index.ts:118-177 | the calls a `try` block makes are a prefix of its steps; with no failure they are all the steps, each answered `Ok`; otherwise the last call made is the one that failed and all before it succeeded |
| Automation.FirstFailureStops | restaurant_reservation/src/index.ts:118-177 | when step `k` is the first to fail, the steps up to and including `k` are made and none after it |
| Automation.Step | restaurant_reservation/src/index.ts:120-168 | one awaited step: made only while no earlier step failed, and leaving the session's log and the failure as `RunSteps` gives them for one more step |
| OpenTable.SearchTables | restaurant_reservation/src/index.ts:120-143 | opening the site and the five search steps, one awaited call each, as `RunSteps` gives them |
| OpenTable.Book | restaurant_reservation/src/index.ts:156-168 | the date picker, day and first-card steps, each made only while no earlier step failed |
| Reservation.HandleReservationRequest | restaurant_reservation/src/index.ts:69-195 | the handler returns `Result`; it creates a session exactly when all three credentials are set, and that session then received exactly `Calls`, with one `init` and one `close` exactly when `init` succeeded |
| Reservation.Automate | restaurant_reservation/src/index.ts:93-194 | from the creation of the session on: the result is the `catch` message or the success message, and `close` follows the `try` block exactly when `init` succeeded, whatever `close` answers |
| Reservation.TryBlock | restaurant_reservation/src/index.ts:105-116 | the `try` block: the initialised flag is set exactly when `init` succeeds, a missing page raises an error, and the steps follow |
| Reservation.SearchAndOpenFirst | restaurant_reservation/src/index.ts:118-170 | the step sequence, one awaited call per planned step, with the time step only when the preference maps |
| Reservation.CredentialOrder | restaurant_reservation/src/index.ts:80-89 | the LLM key is reported first, then the Browserbase key or project id; the check passes exactly when all three are set (likewise in `build/index.js`) |
| Reservation.CredentialsFirst | restaurant_reservation/src/index.ts:80-93 | a missing credential gives an `Error: `-prefixed error result and no call at all; otherwise `init` is the first call |
| Reservation.CloseIffInitSucceeded | restaurant_reservation/src/index.ts:181-191 | `init` is called once when the credentials are present, `close` exactly when `init` succeeded, and `close` is then the last call (likewise in `build/index.js`) |
| Reservation.CloseOutcomeIgnored | restaurant_reservation/src/index.ts:184-190 | the outcome of `close` changes neither the result nor the calls |
| Reservation.FirstFailingStepAborts | restaurant_reservation/src/index.ts:177-180 | the first failing step ends the `try` block: the result is the region's failure text with that error, no later step is made, and the session is closed |
| Reservation.AllStepsSucceed | restaurant_reservation/src/index.ts:173-174 | when every call succeeds, the result is the success message naming the search term and the date, and every step was made between `init` and `close` |
| Reservation.SuccessExactly | restaurant_reservation/src/index.ts:101-194 | the result is not an error exactly when the credentials are present, the page exists and every call of the `try` block succeeded (likewise in `build/index.js`) |
| Reservation.ResultTexts | restaurant_reservation/src/index.ts:194 | every result holds exactly one text: the success message, the credential error, or the failure text naming the region |
| Reservation.InitAndPageFailures | restaurant_reservation/src/index.ts:108-116 | a failing `init` is reported and nothing else is called, `close` included; a missing page is reported after `init`, and the session is closed; in `build/index.js` a missing page is handled like any failed step |
| Reservation.StepOrder | restaurant_reservation/src/index.ts:120-168 | the steps in their fixed order: goto, location picker, region, term, find, party size, [time], date picker, day, first card |
| Reservation.TimeStepConditional | restaurant_reservation/src/index.ts:147-154 | the time step is made, as the seventh step, exactly when `mapTimeToValue` gives a value (likewise in `build/index.js`) |
| Reservation.BuildsAgree | restaurant_reservation/build/index.js:61-158 | the compiled handler makes the same calls as the source and returns the same result, except that its missing-page error lacks the `[handleReservationRequest] ` prefix |
| LegacyTool.BookReservation | restaurant_reservation/build/tools.js:51-131 | the old handler returns `Result`; it creates a session exactly when the Browserbase key is set, and that session received exactly `Calls` |
| LegacyTool.Automate | restaurant_reservation/build/tools.js:58-130 | from the creation of the session on: the message is the failure or success text, and `close` is called only while connected; a failing `close` becomes the handler's rejection |
| LegacyTool.TryBlock | restaurant_reservation/build/tools.js:65-119 | `connect`, then the steps; afterwards the session is connected exactly when `connect` succeeded and no failure dropped the connection |
| LegacyTool.SearchAndOpenFirst | restaurant_reservation/build/tools.js:68-112 | `navigate` and the steps, one awaited call each, with this revision's worded time step only when the preference maps |
| LegacyTool.MissingKeyThrows | restaurant_reservation/build/tools.js:53-57 | without the Browserbase key the handler rejects with its message before any call; otherwise `connect` comes first |
| LegacyTool.CloseIffConnected | restaurant_reservation/build/tools.js:124-129 | `connect` is called once, and `close` is called, as the last call, exactly when the session is still connected in `finally` |
| LegacyTool.CloseErrorPropagates | restaurant_reservation/build/tools.js:124-130 | when the session is still connected, a failing `close` replaces the result with its error, and a successful one leaves a returned string |
| LegacyTool.AllStepsSucceed | restaurant_reservation/build/tools.js:118 | when every call, `close` included, succeeds, the success message is returned and every step was made between `connect` and `close` |
| LegacyTool.SomeCallFailed | restaurant_reservation/build/tools.js:120-123 | otherwise the handler rejects, or returns the failure text naming the region |
| LegacyTool.FirstFailingStepReported | restaurant_reservation/build/tools.js:68-129 | a failing step that keeps the connection, followed by a successful `close`, is reported as the failure text with that step's error; no later step is made and `close` is the last call |
| LegacyTool.ConnectFailureReported | restaurant_reservation/build/tools.js:65-129 | a failing `connect` is reported as the failure text with its error, and nothing else is called, `close` included |
| LegacyTool.DroppedSessionNotClosed | restaurant_reservation/build/tools.js:120-129 | a failing step that drops the connection is reported in the returned text, no later step is made, and `close` is not called |
| LegacyTool.TimeStepConditional | restaurant_reservation/build/tools.js:89-96 | the time step has this revision's wording and is the seventh step exactly when `mapTimeToValue` gives a value |
| Validation.Validate | restaurant_reservation/src/index.ts:37-45 | a failed check reports at least one issue |
| Validation.ValidateExactly | restaurant_reservation/src/index.ts:37-45 | a value passes exactly when it is an object with four string fields and a party size that is absent or a positive integer; the request carries those strings and that number, or 2 |
| Validation.IssuesNameFailingFields | restaurant_reservation/src/index.ts:37-43 | each of the five fields is named in an issue exactly when it fails its rule |
| Validation.StringIssuesReport | restaurant_reservation/src/index.ts:38-41 | a text field's issues are about that field only, and there is one exactly when it does not hold a string |
| Validation.PartySizeIssuesReport | restaurant_reservation/src/index.ts:42 | the party size's issues are about that field only, and there is one exactly when it is present and not a positive integer |
| Validation.NotAnObject | restaurant_reservation/src/index.ts:45 | a value that is not an object fails with one issue at the empty path, naming the type received |
| Validation.IssueTexts | restaurant_reservation/src/index.ts:234 | one `path (message)` text per issue, in order |
| Validation.MessageListsEveryIssue | restaurant_reservation/src/index.ts:234 | the text of every issue occurs in the message, after the `Invalid input parameters: ` prefix |
| Validation.LoneIssueMessage | restaurant_reservation/src/index.ts:234 | a lone issue at the empty path is rendered as its message in parentheses after the prefix |
| LineHandler.ReplaceBackticks | restaurant_reservation/src/index.ts:220 | every backtick becomes a double quote; the length and every other character are unchanged |
| LineHandler.NoBacktickLeft | restaurant_reservation/src/index.ts:220 | no backtick is left after pre-processing |
| LineHandler.BacktickFreeUnchanged | restaurant_reservation/src/index.ts:220 | a text without backticks is left as it is |
| LineHandler.ReplaceBackticksIdempotent | restaurant_reservation/src/index.ts:220 | pre-processing twice is pre-processing once |
| LineHandler.Console.Put | restaurant_reservation/src/index.ts:256-261 | one write appends its text to stdout or to stderr and changes nothing else |
| LineHandler.HandleLine | restaurant_reservation/src/index.ts:207-262 | the line handler writes exactly what `Emitted` gives for its line |
| LineHandler.ServeLines | restaurant_reservation/src/index.ts:207 | lines handled one after another to completion write, in order, what each line's handler writes |
| LineHandler.BlankLineSilent | restaurant_reservation/src/index.ts:210-215 | a line writes nothing exactly when it consists of white space, and any other line writes exactly once |
| LineHandler.OneWritePerLine | restaurant_reservation/src/index.ts:210-262 | over a sequence of lines, the number of writes to stdout and stderr together is the number of lines that are not blank |
| LineHandler.StdoutIsLines | restaurant_reservation/src/index.ts:251-256 | every stdout write is a serialised result followed by `'\n'` |
| LineHandler.ParseFailure | restaurant_reservation/src/index.ts:242-249 | a line the parser rejects gets an error result `Fatal error processing request: <detail>. Raw input: <trimmed line>`, quoting the line before its backticks were replaced |
| LineHandler.SchemaFailure | restaurant_reservation/src/index.ts:228-235 | a parsed value that fails the schema gets an error result whose text starts with the prefix and lists every issue |
| LineHandler.ValidRequest | restaurant_reservation/src/index.ts:236-239 | a valid request is answered with what `handleReservationRequest` returns for it |
| LineHandler.ResponseShape | restaurant_reservation/src/index.ts:225-249 | every response holds exactly one text, and it is an error unless the line parsed and passed the schema |

## Left out

- `getDayAriaLabel` depends on the host's locale and time zone. It is the
  parameter `Host.dayLabel`.
- The handlers compute the time value and the day label up front rather
  than between the steps, which changes nothing since both are pure.
- Stagehand, Browserbase and Playwright are foreign. A session is a scripted
  fake: every call succeeds or fails with an error text. The `setTimeout`
  delays are not modelled.
- The constructors of `Stagehand` and `Browserbase` are taken not to throw.
- `JSON.parse` is an abstract partial function, `Env.parse`.
- `JSON.stringify` and the write to stdout are one abstract partial
  function, `Env.serialize`. A write that fails after serialising is modelled
  as a failure of that function.
- The `error instanceof Error ? error.message : String(error)` rendering is
  the error text carried by a failed outcome.
- JSON numbers are exact reals: no floating point rounding, NaN or Infinity.
- Instructions.Instruction: the party size is written in plain decimal, which
  is what `Number.prototype.toString` gives for integers below 10^21. For
  larger integers, which `.int()` accepts, JavaScript writes exponent form
  (`1e+21`), so the text sent to `act` at `src/index.ts:143` differs there.
- Strings are sequences of Unicode characters, while JavaScript strings are
  sequences of UTF-16 code units. A region, search term or other text holding
  a lone surrogate (from a `"\ud800"` escape in the JSON) cannot be
  represented.
- zod internals are not modelled. The field rules are kept, with zod 3's
  default messages, one issue per failing check, in the order of the schema.
- The diagnostics written with `console.error` (and `console.log` in the
  build variants) are not modelled. `Console.stderr` holds only the
  write-failure text.
- The `rl.on('line', async …)` callbacks may interleave. The model handles
  lines one after another, each to completion.
- The `McpServer` / `StdioServerTransport` setup and the tool registration
  are transport plumbing and are not modelled.
- Automation.Session: the source counts nothing. `init` and `close` are
  counted over the ghost log, by `StartCount` and `CloseCount`.
- Reservation.ResultTexts: a failure text is stated as the region's failure
  text for some error detail. Reservation.FirstFailingStepAborts and
  Reservation.InitAndPageFailures name the exact detail.
- LegacyTool.SomeCallFailed: states only that the handler rejects or
  returns a failure text. The exact outcome of each failure is stated by
  other lemmas:
  - a failed `connect`: LegacyTool.ConnectFailureReported;
  - a failing step that keeps the connection: LegacyTool.FirstFailingStepReported
    when `close` then succeeds, LegacyTool.CloseErrorPropagates when it fails;
  - a failing step that drops the connection: LegacyTool.DroppedSessionNotClosed;
  - a failing `close` after every step succeeded: LegacyTool.CloseErrorPropagates.
- Validation.Validate: its own contract says only that at least one issue
  is reported. Validation.ValidateExactly and
  Validation.IssuesNameFailingFields state the rest.
