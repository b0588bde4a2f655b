/** The stdin loop of the current service: every line that is not blank
    after trimming is pre-processed (backticks become double quotes),
    parsed as JSON, checked against the schema and, when valid, handed to
    `handleReservationRequest`; whatever happens, one tool result is built
    and written to stdout as one serialised line, or an error text goes to
    stderr when serialising or writing fails.

    `JSON.parse` and `JSON.stringify` (together with the write) are
    parameters of the model: partial functions whose failure carries the
    text of the error they throw. */
module LineHandler {
  import opened Wrappers
  import opened JsText
  import opened Automation
  import opened OpenTable
  import opened Validation
  import Reservation

  // ---------------------------------------------------------------------
  // Pre-processing

  /** `s.replace(/`/g, '"')`. */
  function ReplaceBackticks(s: string): (r: string)
    ensures |r| == |s|
    ensures forall i :: 0 <= i < |s| ==> r[i] == if s[i] == '`' then '"' else s[i]
  {
    if s == [] then []
    else ReplaceBackticks(s[..|s| - 1]) + [if s[|s| - 1] == '`' then '"' else s[|s| - 1]]
  }

  /** No backtick is left, and no other character moves or changes. */
  lemma NoBacktickLeft(s: string)
    ensures forall i :: 0 <= i < |s| ==> ReplaceBackticks(s)[i] != '`'
    ensures forall i :: 0 <= i < |s| && s[i] != '`' ==> ReplaceBackticks(s)[i] == s[i]
  {
  }

  /** A string without backticks is left as it is, so pre-processing twice
      is pre-processing once. */
  lemma BacktickFreeUnchanged(s: string)
    requires forall i :: 0 <= i < |s| ==> s[i] != '`'
    ensures ReplaceBackticks(s) == s
  {
  }

  lemma ReplaceBackticksIdempotent(s: string)
    ensures ReplaceBackticks(ReplaceBackticks(s)) == ReplaceBackticks(s)
  {
    NoBacktickLeft(s);
    BacktickFreeUnchanged(ReplaceBackticks(s));
  }

  // ---------------------------------------------------------------------
  // What one line leads to

  /** What the process works with: the two library calls and the host. */
  datatype Env = Env(parse: string -> Result<Json, string>,
                     serialize: Reservation.ToolResult -> Result<string, string>,
                     host: Host)

  /** One line of input, with the outcomes the automation service gives to
      the session it may open and whether that session has a page. */
  datatype Request = Request(line: string, script: seq<Outcome>, hasPage: bool)

  const FatalPrefix := "Fatal error processing request: "

  /** The text of the `catch` block; the raw input is the trimmed line as
      it was before pre-processing. */
  function FatalText(detail: string, raw: string): string {
    FatalPrefix + detail + ". Raw input: " + raw
  }

  /** The result built for a trimmed, non-blank line. */
  function ResultFor(env: Env, raw: string, script: seq<Outcome>, hasPage: bool): Reservation.ToolResult {
    match env.parse(ReplaceBackticks(raw))
    case Failure(detail) => Reservation.TextResult(FatalText(detail, raw), true)
    case Success(j) =>
      match Validate(j)
      case Failure(issues) => Reservation.TextResult(InvalidInputMessage(issues), true)
      case Success(p) => Reservation.Result(Reservation.Source, p, env.host, script, hasPage)
  }

  /** The result of a line, none for a blank one. */
  function Response(env: Env, req: Request): Option<Reservation.ToolResult> {
    var raw := Trim(req.line);
    if raw == [] then None else Some(ResultFor(env, raw, req.script, req.hasPage))
  }

  datatype Write = ToStdout(text: string) | ToStderr(text: string)

  const WriteErrorPrefix := "{\"error\": \"Failed to serialize or write result: "

  /** The write a result leads to. */
  function WriteOf(env: Env, r: Reservation.ToolResult): Write {
    match env.serialize(r)
    case Success(s) => ToStdout(s + "\n")
    case Failure(e) => ToStderr(WriteErrorPrefix + e + "\"}\n")
  }

  /** What the handler of one line writes. */
  function Emitted(env: Env, req: Request): seq<Write> {
    match Response(env, req)
    case None => []
    case Some(r) => [WriteOf(env, r)]
  }

  /** What the handlers of a sequence of lines write, line after line. */
  function Writes(env: Env, reqs: seq<Request>): seq<Write> {
    if reqs == [] then [] else Writes(env, reqs[..|reqs| - 1]) + Emitted(env, reqs[|reqs| - 1])
  }

  function StdoutTexts(ws: seq<Write>): seq<string> {
    if ws == [] then []
    else StdoutTexts(ws[..|ws| - 1]) + if ws[|ws| - 1].ToStdout? then [ws[|ws| - 1].text] else []
  }

  function StderrTexts(ws: seq<Write>): seq<string> {
    if ws == [] then []
    else StderrTexts(ws[..|ws| - 1]) + if ws[|ws| - 1].ToStderr? then [ws[|ws| - 1].text] else []
  }

  // ---------------------------------------------------------------------
  // The handler

  /** The two output streams, as the sequence of texts written to each. */
  class Console {
    var stdout: seq<string>
    var stderr: seq<string>

    constructor ()
      ensures stdout == [] && stderr == []
    {
      stdout := [];
      stderr := [];
    }

    method Put(w: Write)
      modifies this
      ensures stdout == old(stdout) + StdoutTexts([w])
      ensures stderr == old(stderr) + StderrTexts([w])
    {
      match w
      case ToStdout(text) =>
        stdout := stdout + [text];
      case ToStderr(text) =>
        stderr := stderr + [text];
    }
  }

  /** The `'line'` handler. */
  method HandleLine(console: Console, env: Env, req: Request)
    modifies console
    ensures console.stdout == old(console.stdout) + StdoutTexts(Emitted(env, req))
    ensures console.stderr == old(console.stderr) + StderrTexts(Emitted(env, req))
  {
    var raw := Trim(req.line);
    if raw == [] {
      return;
    }
    var result: Reservation.ToolResult;
    var corrected := ReplaceBackticks(raw);
    var parsed := env.parse(corrected);
    if parsed.Failure? {
      result := Reservation.TextResult(FatalText(parsed.error, raw), true);
    } else {
      var validation := Validate(parsed.value);
      if validation.Failure? {
        result := Reservation.TextResult(InvalidInputMessage(validation.error), true);
      } else {
        var session;
        result, session := Reservation.HandleReservationRequest(Reservation.Source, validation.value, env.host, req.script, req.hasPage);
      }
    }
    assert result == ResultFor(env, raw, req.script, req.hasPage);
    var serialized := env.serialize(result);
    if serialized.Success? {
      console.Put(ToStdout(serialized.value + "\n"));
    } else {
      console.Put(ToStderr(WriteErrorPrefix + serialized.error + "\"}\n"));
    }
  }

  /** The lines handled one after the other, each to completion. */
  method ServeLines(console: Console, env: Env, reqs: seq<Request>)
    modifies console
    ensures console.stdout == old(console.stdout) + StdoutTexts(Writes(env, reqs))
    ensures console.stderr == old(console.stderr) + StderrTexts(Writes(env, reqs))
  {
    for n := 0 to |reqs|
      invariant console.stdout == old(console.stdout) + StdoutTexts(Writes(env, reqs[..n]))
      invariant console.stderr == old(console.stderr) + StderrTexts(Writes(env, reqs[..n]))
    {
      ServeLine(console, env, reqs, n, old(console.stdout), old(console.stderr));
    }
    assert reqs[..|reqs|] == reqs;
  }

  /** Line `n` handled after the lines before it. */
  method ServeLine(console: Console, env: Env, reqs: seq<Request>, n: nat, ghost out0: seq<string>, ghost err0: seq<string>)
    requires n < |reqs|
    requires console.stdout == out0 + StdoutTexts(Writes(env, reqs[..n]))
    requires console.stderr == err0 + StderrTexts(Writes(env, reqs[..n]))
    modifies console
    ensures console.stdout == out0 + StdoutTexts(Writes(env, reqs[..n + 1]))
    ensures console.stderr == err0 + StderrTexts(Writes(env, reqs[..n + 1]))
  {
    WritesStep(env, reqs, n);
    ghost var a, b := StdoutTexts(Writes(env, reqs[..n])), StdoutTexts(Emitted(env, reqs[n]));
    ghost var c, d := StderrTexts(Writes(env, reqs[..n])), StderrTexts(Emitted(env, reqs[n]));
    HandleLine(console, env, reqs[n]);
    AppendAssociates(out0, a, b);
    AppendAssociates(err0, c, d);
  }

  lemma AppendAssociates(x: seq<string>, a: seq<string>, b: seq<string>)
    ensures x + a + b == x + (a + b)
  {
  }

  /** The writes of the first `n + 1` lines, by stream. */
  lemma WritesStep(env: Env, reqs: seq<Request>, n: nat)
    requires n < |reqs|
    ensures StdoutTexts(Writes(env, reqs[..n + 1])) == StdoutTexts(Writes(env, reqs[..n])) + StdoutTexts(Emitted(env, reqs[n]))
    ensures StderrTexts(Writes(env, reqs[..n + 1])) == StderrTexts(Writes(env, reqs[..n])) + StderrTexts(Emitted(env, reqs[n]))
  {
    assert reqs[..n + 1][..n] == reqs[..n];
    TextsAppend(Writes(env, reqs[..n]), Emitted(env, reqs[n]));
  }

  // ---------------------------------------------------------------------
  // Properties

  /** Splitting the writes by stream distributes over concatenation. */
  lemma {:induction false} TextsAppend(a: seq<Write>, b: seq<Write>)
    ensures StdoutTexts(a + b) == StdoutTexts(a) + StdoutTexts(b)
    ensures StderrTexts(a + b) == StderrTexts(a) + StderrTexts(b)
  {
    if b == [] {
      assert a + b == a;
    } else {
      assert (a + b)[..|a + b| - 1] == a + b[..|b| - 1];
      TextsAppend(a, b[..|b| - 1]);
    }
  }

  /** A line is silent exactly when it consists of white space; any other
      line leads to exactly one write. */
  lemma BlankLineSilent(env: Env, req: Request)
    ensures Emitted(env, req) == [] <==> forall i :: 0 <= i < |req.line| ==> IsSpace(req.line[i])
    ensures |Emitted(env, req)| <= 1
  {
    TrimBlank(req.line);
  }

  /** The lines that are not blank after trimming. */
  function NonBlankLines(reqs: seq<Request>): nat {
    if reqs == [] then 0
    else NonBlankLines(reqs[..|reqs| - 1]) + if Trim(reqs[|reqs| - 1].line) == [] then 0 else 1
  }

  /** Over a sequence of lines, every non-blank line leads to one write,
      to stdout or to stderr, and nothing else is written. */
  lemma {:induction false} OneWritePerLine(env: Env, reqs: seq<Request>)
    ensures |StdoutTexts(Writes(env, reqs))| + |StderrTexts(Writes(env, reqs))| == NonBlankLines(reqs)
  {
    if reqs != [] {
      var init := reqs[..|reqs| - 1];
      OneWritePerLine(env, init);
      TextsAppend(Writes(env, init), Emitted(env, reqs[|reqs| - 1]));
    }
  }

  /** `s` is a serialised result followed by `'\n'`. */
  ghost predicate ResultLine(env: Env, s: string) {
    exists r :: env.serialize(r).Success? && s == env.serialize(r).value + "\n"
  }

  /** Every stdout write is one line: a serialised result and `'\n'`. */
  lemma {:induction false} StdoutIsLines(env: Env, reqs: seq<Request>)
    ensures forall k :: 0 <= k < |StdoutTexts(Writes(env, reqs))| ==> ResultLine(env, StdoutTexts(Writes(env, reqs))[k])
  {
    if reqs != [] {
      var init := reqs[..|reqs| - 1];
      var last := Emitted(env, reqs[|reqs| - 1]);
      StdoutIsLines(env, init);
      TextsAppend(Writes(env, init), last);
      var before := StdoutTexts(Writes(env, init));
      var out := StdoutTexts(last);
      assert StdoutTexts(Writes(env, reqs)) == before + out;
      if out != [] {
        var r := Response(env, reqs[|reqs| - 1]).value;
        assert last == [WriteOf(env, r)];
        assert out == [env.serialize(r).value + "\n"];
        assert ResultLine(env, out[0]);
      }
      assert forall k :: 0 <= k < |out| ==> ResultLine(env, out[k]);
    }
  }

  /** A line the parser rejects is answered with the fatal error, which
      quotes the trimmed line as received, backticks included. */
  lemma ParseFailure(env: Env, req: Request)
    requires Trim(req.line) != []
    requires env.parse(ReplaceBackticks(Trim(req.line))).Failure?
    ensures var detail := env.parse(ReplaceBackticks(Trim(req.line))).error;
            Response(env, req) == Some(Reservation.TextResult(FatalText(detail, Trim(req.line)), true))
  {
  }

  /** A parsed value that fails the schema is answered with an error whose
      text starts with the prefix and lists the text of every issue. */
  lemma SchemaFailure(env: Env, req: Request, k: nat) returns (at: nat)
    requires Trim(req.line) != []
    requires env.parse(ReplaceBackticks(Trim(req.line))).Success?
    requires var v := Validate(env.parse(ReplaceBackticks(Trim(req.line))).value);
             v.Failure? && k < |v.error|
    ensures var issues := Validate(env.parse(ReplaceBackticks(Trim(req.line))).value).error;
            var r := Response(env, req).value;
            var t := IssueText(issues[k]);
            && Response(env, req).Some? && r.isError && |r.content| == 1
            && r.content[0].text[..|InvalidPrefix|] == InvalidPrefix
            && |InvalidPrefix| <= at && at + |t| <= |r.content[0].text| && r.content[0].text[at..at + |t|] == t
  {
    var issues := Validate(env.parse(ReplaceBackticks(Trim(req.line))).value).error;
    at := MessageListsEveryIssue(issues, k);
  }

  /** A valid request is answered with what `handleReservationRequest`
      returns for it. */
  lemma ValidRequest(env: Env, req: Request)
    requires Trim(req.line) != []
    requires env.parse(ReplaceBackticks(Trim(req.line))).Success?
    requires Validate(env.parse(ReplaceBackticks(Trim(req.line))).value).Success?
    ensures var p := Validate(env.parse(ReplaceBackticks(Trim(req.line))).value).value;
            Response(env, req) == Some(Reservation.Result(Reservation.Source, p, env.host, req.script, req.hasPage))
  {
  }

  /** Every response holds exactly one text, and it reports an error
      unless the line parsed and passed the schema. */
  lemma ResponseShape(env: Env, req: Request)
    requires Response(env, req).Some?
    ensures |Response(env, req).value.content| == 1
    ensures !Response(env, req).value.isError ==>
              && env.parse(ReplaceBackticks(Trim(req.line))).Success?
              && Validate(env.parse(ReplaceBackticks(Trim(req.line))).value).Success?
  {
    var raw := Trim(req.line);
    var parsed := env.parse(ReplaceBackticks(raw));
    if parsed.Success? && Validate(parsed.value).Success? {
      Reservation.ResultTexts(Reservation.Source, Validate(parsed.value).value, env.host, req.script, req.hasPage);
    }
  }
}
