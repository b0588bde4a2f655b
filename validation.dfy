/** The input schema of the reservation request and its check, as zod 3
    applies `z.object({...}).safeParse` to a parsed JSON value: four string
    fields and `party_size`, an optional positive integer that defaults to
    2. Every failing field is reported, in the order of the schema, and the
    issues are joined into one message. */
module Validation {
  import opened Wrappers
  import opened OpenTable

  /** A value `JSON.parse` can produce. Numbers are taken as exact reals. */
  datatype Json =
    | JNull
    | JBool(b: bool)
    | JNumber(x: real)
    | JString(s: string)
    | JArray(items: seq<Json>)
    | JObject(fields: map<string, Json>)

  /** The type zod names in "Expected ..., received <type>". */
  function TypeName(j: Json): string {
    match j
    case JNull => "null"
    case JBool(_) => "boolean"
    case JNumber(_) => "number"
    case JString(_) => "string"
    case JArray(_) => "array"
    case JObject(_) => "object"
  }

  /** One failing check: where it failed and zod's message for it. */
  datatype Issue = Issue(path: seq<string>, message: string)

  const DateKey := "date"
  const RegionKey := "region"
  const TimeKey := "time_preference"
  const TermKey := "search_term"
  const PartySizeKey := "party_size"

  const DefaultPartySize := 2

  /** `Number.isInteger`. */
  predicate IsInteger(x: real) {
    x.Floor as real == x
  }

  /** `z.string()`: any string, the empty one included; a missing key is "Required". */
  function StringIssues(fields: map<string, Json>, key: string): seq<Issue> {
    if key !in fields then [Issue([key], "Required")]
    else if fields[key].JString? then []
    else [Issue([key], "Expected string, received " + TypeName(fields[key]))]
  }

  /** `z.number().int().positive().optional().default(2)`: a missing key is
      the default; a number is checked for being an integer and for being
      positive, and each check that fails is an issue of its own. */
  function PartySizeIssues(fields: map<string, Json>): seq<Issue> {
    if PartySizeKey !in fields then []
    else match fields[PartySizeKey]
      case JNumber(x) =>
        (if IsInteger(x) then [] else [Issue([PartySizeKey], "Expected integer, received float")])
          + (if x > 0.0 then [] else [Issue([PartySizeKey], "Number must be greater than 0")])
      case other => [Issue([PartySizeKey], "Expected number, received " + TypeName(other))]
  }

  /** The issues of an object, field by field in the order of the schema. */
  function Issues(fields: map<string, Json>): seq<Issue> {
    StringIssues(fields, DateKey) + StringIssues(fields, RegionKey) + StringIssues(fields, TimeKey)
      + StringIssues(fields, TermKey) + PartySizeIssues(fields)
  }

  /** `safeParse`: the request, or every issue found. Keys outside the
      schema are dropped. */
  function Validate(j: Json): (r: Result<Params, seq<Issue>>)
    ensures r.Failure? ==> |r.error| >= 1
  {
    match j
    case JObject(fields) =>
      var issues := Issues(fields);
      if issues != [] then Failure(issues)
      else
        assert StringIssues(fields, DateKey) == [] && StringIssues(fields, RegionKey) == []
            && StringIssues(fields, TimeKey) == [] && StringIssues(fields, TermKey) == []
            && PartySizeIssues(fields) == [];
        var partySize := if PartySizeKey in fields then fields[PartySizeKey].x.Floor else DefaultPartySize;
        assert partySize >= 1;
        Success(Params(fields[DateKey].s, fields[RegionKey].s, fields[TimeKey].s, fields[TermKey].s, partySize))
    case other => Failure([Issue([], "Expected object, received " + TypeName(other))])
  }

  // ---------------------------------------------------------------------
  // The message

  /** `parts.join(sep)`. */
  function Join(parts: seq<string>, sep: string): string {
    if parts == [] then ""
    else if |parts| == 1 then parts[0]
    else Join(parts[..|parts| - 1], sep) + sep + parts[|parts| - 1]
  }

  /** `${e.path.join('.')} (${e.message})`. */
  function IssueText(i: Issue): string {
    Join(i.path, ".") + " (" + i.message + ")"
  }

  function IssueTexts(issues: seq<Issue>): (r: seq<string>)
    ensures |r| == |issues| && forall k :: 0 <= k < |issues| ==> r[k] == IssueText(issues[k])
  {
    if issues == [] then [] else IssueTexts(issues[..|issues| - 1]) + [IssueText(issues[|issues| - 1])]
  }

  const InvalidPrefix := "Invalid input parameters: "

  function InvalidInputMessage(issues: seq<Issue>): string {
    InvalidPrefix + Join(IssueTexts(issues), ", ")
  }

  // ---------------------------------------------------------------------
  // Properties

  /** Field `key` of an object holds a string. */
  predicate StringField(fields: map<string, Json>, key: string) {
    key in fields && fields[key].JString?
  }

  /** `party_size` is absent, or a positive integer. */
  predicate PartySizeOk(fields: map<string, Json>) {
    PartySizeKey in fields ==>
      fields[PartySizeKey].JNumber? && IsInteger(fields[PartySizeKey].x) && fields[PartySizeKey].x > 0.0
  }

  /** A value passes exactly when it is an object whose four text fields are
      strings and whose party size is absent or a positive integer; the
      request then carries those strings and that number, or 2. */
  lemma ValidateExactly(j: Json)
    ensures Validate(j).Success? <==>
              && j.JObject?
              && StringField(j.fields, DateKey) && StringField(j.fields, RegionKey)
              && StringField(j.fields, TimeKey) && StringField(j.fields, TermKey)
              && PartySizeOk(j.fields)
    ensures Validate(j).Success? ==>
              var p := Validate(j).value;
              && p.date == j.fields[DateKey].s && p.region == j.fields[RegionKey].s
              && p.timePreference == j.fields[TimeKey].s && p.searchTerm == j.fields[TermKey].s
              && (PartySizeKey !in j.fields ==> p.partySize == DefaultPartySize)
              && (PartySizeKey in j.fields ==> p.partySize as real == j.fields[PartySizeKey].x)
  {
    if j.JObject? {
      var f := j.fields;
      assert Issues(f) == [] <==>
               && StringIssues(f, DateKey) == [] && StringIssues(f, RegionKey) == []
               && StringIssues(f, TimeKey) == [] && StringIssues(f, TermKey) == []
               && PartySizeIssues(f) == [];
    }
  }

  /** Some issue of `issues` is about field `key`. */
  predicate Reports(issues: seq<Issue>, key: string) {
    exists i :: i in issues && i.path == [key]
  }

  /** Each field is reported exactly when it fails its rule. */
  lemma IssuesNameFailingFields(fields: map<string, Json>)
    ensures Reports(Issues(fields), DateKey) <==> !StringField(fields, DateKey)
    ensures Reports(Issues(fields), RegionKey) <==> !StringField(fields, RegionKey)
    ensures Reports(Issues(fields), TimeKey) <==> !StringField(fields, TimeKey)
    ensures Reports(Issues(fields), TermKey) <==> !StringField(fields, TermKey)
    ensures Reports(Issues(fields), PartySizeKey) <==> !PartySizeOk(fields)
  {
    var d, r, t, s, q := StringIssues(fields, DateKey), StringIssues(fields, RegionKey),
                         StringIssues(fields, TimeKey), StringIssues(fields, TermKey), PartySizeIssues(fields);
    assert Issues(fields) == d + r + t + s + q;
    forall key: string
      ensures Reports(Issues(fields), key) <==> Reports(d, key) || Reports(r, key) || Reports(t, key) || Reports(s, key) || Reports(q, key)
    {
      ReportsAppend(d, r, key);
      ReportsAppend(d + r, t, key);
      ReportsAppend(d + r + t, s, key);
      ReportsAppend(d + r + t + s, q, key);
    }
    // the five names have five different lengths
    assert |DateKey| == 4 && |RegionKey| == 6 && |TimeKey| == 15 && |TermKey| == 11 && |PartySizeKey| == 10;
    StringIssuesReport(fields, DateKey);
    StringIssuesReport(fields, RegionKey);
    StringIssuesReport(fields, TimeKey);
    StringIssuesReport(fields, TermKey);
    PartySizeIssuesReport(fields);
  }

  lemma ReportsAppend(a: seq<Issue>, b: seq<Issue>, key: string)
    ensures Reports(a + b, key) <==> Reports(a, key) || Reports(b, key)
  {
    if Reports(a + b, key) {
      var i :| i in a + b && i.path == [key];
      assert i in a || i in b;
    }
    if Reports(a, key) {
      var i :| i in a && i.path == [key];
      assert i in a + b;
    }
    if Reports(b, key) {
      var i :| i in b && i.path == [key];
      assert i in a + b;
    }
  }

  /** A string field's issues are about that field alone, and there is one
      exactly when it does not hold a string. */
  lemma StringIssuesReport(fields: map<string, Json>, key: string)
    ensures forall other :: Reports(StringIssues(fields, key), other) <==> other == key && !StringField(fields, key)
  {
    var issues := StringIssues(fields, key);
    if !StringField(fields, key) {
      assert issues[0] in issues;
    }
  }

  /** The issues of `party_size` are about that field alone, and there is
      one exactly when it is present and not a positive integer. */
  lemma PartySizeIssuesReport(fields: map<string, Json>)
    ensures forall other :: Reports(PartySizeIssues(fields), other) <==> other == PartySizeKey && !PartySizeOk(fields)
  {
    var issues := PartySizeIssues(fields);
    assert forall i :: i in issues ==> i.path == [PartySizeKey];
    if !PartySizeOk(fields) {
      assert issues[0] in issues;
    }
  }

  /** The text of every issue appears in the message, after the prefix. */
  lemma MessageListsEveryIssue(issues: seq<Issue>, k: nat) returns (a: nat)
    requires k < |issues|
    ensures var m := InvalidInputMessage(issues);
            var t := IssueText(issues[k]);
            |InvalidPrefix| <= a && a + |t| <= |m| && m[a..a + |t|] == t
  {
    var parts := IssueTexts(issues);
    var b := JoinContains(parts, ", ", k);
    SliceAfterPrefix(InvalidPrefix, Join(parts, ", "), b, |parts[k]|);
    a := |InvalidPrefix| + b;
  }

  /** A slice of `j` is the same slice of `p + j`, shifted by `|p|`. */
  lemma SliceAfterPrefix(p: string, j: string, b: nat, n: nat)
    requires b + n <= |j|
    ensures (p + j)[|p| + b..|p| + b + n] == j[b..b + n]
  {
  }

  /** Where the `k`-th part sits in the joined text. */
  lemma {:induction false} JoinContains(parts: seq<string>, sep: string, k: nat) returns (a: nat)
    requires k < |parts|
    ensures a + |parts[k]| <= |Join(parts, sep)| && Join(parts, sep)[a..a + |parts[k]|] == parts[k]
  {
    if |parts| == 1 {
      a := 0;
    } else {
      var init := parts[..|parts| - 1];
      var j := Join(init, sep);
      if k == |parts| - 1 {
        a := |j| + |sep|;
      } else {
        a := JoinContains(init, sep, k);
        assert init[k] == parts[k];
        assert Join(parts, sep)[a..a + |parts[k]|] == j[a..a + |parts[k]|];
      }
    }
  }

  /** A value that is not an object is reported at the empty path. */
  lemma NotAnObject(j: Json)
    requires !j.JObject?
    ensures Validate(j) == Failure([Issue([], "Expected object, received " + TypeName(j))])
  {
  }

  /** A lone issue at the empty path is rendered as its message in
      parentheses after the prefix. */
  lemma LoneIssueMessage(i: Issue)
    requires i.path == []
    ensures InvalidInputMessage([i]) == InvalidPrefix + " (" + i.message + ")"
  {
    assert IssueTexts([i]) == [IssueText(i)];
  }
}
