/** `mapTimeToValue`: finds the first `(\d{1,2}):?(\d{2})?\s?(AM|PM)` match,
    case-insensitively, in a free-text time preference and turns it into the
    time dropdown value `2000-02-01THH:MM:00`.

    The matcher is written by hand with the leftmost-first, backtracking
    semantics of JavaScript regular expressions: start positions are tried
    from the left, and at one position the greedy quantifiers first take
    what they can and give it back one alternative at a time.  A declarative
    description of the pattern (`Fits`, `Rank`) is given beside it and the
    two are proved to agree. */
module TimeMapper {
  import opened Wrappers
  import opened JsText

  datatype Period = AM | PM

  /** What each part of the pattern consumed at one start position:
      one or two hour digits, the optional colon, the optional two minute
      digits and the optional white-space character. */
  datatype Choice = Choice(hourLen: nat, colon: bool, minutes: bool, space: bool)

  /** The result of a successful match: where it starts, how it was
      matched, and the three capture groups. */
  datatype TimeMatch = TimeMatch(start: nat, choice: Choice, hourText: string,
                                 minuteText: Option<string>, period: Period)

  // ---------------------------------------------------------------------
  // Declarative description of the pattern

  predicate ValidChoice(ch: Choice) {
    ch.hourLen == 1 || ch.hourLen == 2
  }

  function HourEnd(i: nat, ch: Choice): nat { i + ch.hourLen }
  function ColonEnd(i: nat, ch: Choice): nat { HourEnd(i, ch) + if ch.colon then 1 else 0 }
  function MinuteEnd(i: nat, ch: Choice): nat { ColonEnd(i, ch) + if ch.minutes then 2 else 0 }
  function SpaceEnd(i: nat, ch: Choice): nat { MinuteEnd(i, ch) + if ch.space then 1 else 0 }

  /** `(AM|PM)` at position `j`, case-insensitively. */
  function PeriodAt(s: string, j: nat): Option<Period> {
    if j + 2 <= |s| && Upper(s[j + 1]) == 'M' then
      if Upper(s[j]) == 'A' then Some(AM)
      else if Upper(s[j]) == 'P' then Some(PM)
      else None
    else None
  }

  /** The letters of `(AM|PM)` match in either case, and nothing else does. */
  lemma PeriodLetters(s: string, j: nat)
    ensures PeriodAt(s, j) == Some(AM) <==>
              j + 2 <= |s| && (s[j] == 'a' || s[j] == 'A') && (s[j + 1] == 'm' || s[j + 1] == 'M')
    ensures PeriodAt(s, j) == Some(PM) <==>
              j + 2 <= |s| && (s[j] == 'p' || s[j] == 'P') && (s[j + 1] == 'm' || s[j + 1] == 'M')
  {
    if j + 2 <= |s| {
      UpperIs(s[j], 'a', 'A');
      UpperIs(s[j], 'p', 'P');
      UpperIs(s[j + 1], 'm', 'M');
    }
  }

  /** Only a letter and its capital fold onto that capital. */
  lemma UpperIs(c: char, lower: char, upper: char)
    requires 'a' <= lower <= 'z' && upper as int == lower as int - 32
    ensures Upper(c) == upper <==> c == lower || c == upper
  {
  }

  /** The pattern matches at `i` with the parts consuming what `ch` says. */
  predicate Fits(s: string, i: nat, ch: Choice) {
    && ValidChoice(ch)
    && SpaceEnd(i, ch) + 2 <= |s|
    && AllDigits(s[i..HourEnd(i, ch)])
    && (ch.colon ==> s[HourEnd(i, ch)] == ':')
    && (ch.minutes ==> AllDigits(s[ColonEnd(i, ch)..MinuteEnd(i, ch)]))
    && (ch.space ==> IsSpace(s[MinuteEnd(i, ch)]))
    && PeriodAt(s, SpaceEnd(i, ch)).Some?
  }

  /** The order in which backtracking tries the ways of matching at one
      position: greedy parts try taking before giving back, and the hour
      is the outermost choice point. Lower ranks are tried first. */
  function Rank(ch: Choice): nat {
    (if ch.hourLen == 2 then 0 else 8) + (if ch.colon then 0 else 4)
      + (if ch.minutes then 0 else 2) + (if ch.space then 0 else 1)
  }

  /** `ch` is the way the engine matches `s`: it fits at `i`, nothing fits
      further left, and nothing tried before it fits at `i`. */
  ghost predicate IsFirstMatch(s: string, i: nat, ch: Choice) {
    && Fits(s, i, ch)
    && (forall i': nat, ch' :: i' < i ==> !Fits(s, i', ch'))
    && (forall ch' :: Fits(s, i, ch') ==> Rank(ch) <= Rank(ch'))
  }

  /** The capture groups of `m` are the text its choice consumed in `s`. */
  predicate Captures(s: string, m: TimeMatch) {
    && Fits(s, m.start, m.choice)
    && m.hourText == s[m.start..HourEnd(m.start, m.choice)]
    && m.minuteText == (if m.choice.minutes
                        then Some(s[ColonEnd(m.start, m.choice)..MinuteEnd(m.start, m.choice)])
                        else None)
    && PeriodAt(s, SpaceEnd(m.start, m.choice)) == Some(m.period)
  }

  // ---------------------------------------------------------------------
  // The backtracking matcher

  function MatchPeriod(s: string, i: nat, ch: Choice, j: nat): (r: Option<TimeMatch>)
    requires ValidChoice(ch) && SpaceEnd(i, ch) == j <= |s|
    requires AllDigits(s[i..HourEnd(i, ch)])
    requires ch.colon ==> s[HourEnd(i, ch)] == ':'
    requires ch.minutes ==> AllDigits(s[ColonEnd(i, ch)..MinuteEnd(i, ch)])
    requires ch.space ==> IsSpace(s[MinuteEnd(i, ch)])
    ensures r.Some? ==> r.value.start == i && r.value.choice == ch && Captures(s, r.value)
  {
    match PeriodAt(s, j)
    case None => None
    case Some(p) =>
      Some(TimeMatch(i, ch, s[i..HourEnd(i, ch)],
                     if ch.minutes then Some(s[ColonEnd(i, ch)..MinuteEnd(i, ch)]) else None, p))
  }

  /** `\s?`: one white-space character, else none. */
  function MatchSpace(s: string, i: nat, hourLen: nat, colon: bool, minutes: bool, j: nat): (r: Option<TimeMatch>)
    requires hourLen == 1 || hourLen == 2
    requires MinuteEnd(i, Choice(hourLen, colon, minutes, false)) == j <= |s|
    requires AllDigits(s[i..i + hourLen])
    requires colon ==> s[i + hourLen] == ':'
    requires minutes ==> AllDigits(s[j - 2..j])
    ensures r.Some? ==> r.value.start == i && Captures(s, r.value)
    ensures r.Some? ==> r.value.choice.hourLen == hourLen && r.value.choice.colon == colon && r.value.choice.minutes == minutes
  {
    var taken := if j < |s| && IsSpace(s[j])
                 then MatchPeriod(s, i, Choice(hourLen, colon, minutes, true), j + 1)
                 else None;
    if taken.Some? then taken else MatchPeriod(s, i, Choice(hourLen, colon, minutes, false), j)
  }

  /** `(\d{2})?`: two digits, else none. */
  function MatchMinutes(s: string, i: nat, hourLen: nat, colon: bool, j: nat): (r: Option<TimeMatch>)
    requires hourLen == 1 || hourLen == 2
    requires ColonEnd(i, Choice(hourLen, colon, false, false)) == j <= |s|
    requires AllDigits(s[i..i + hourLen])
    requires colon ==> s[i + hourLen] == ':'
    ensures r.Some? ==> r.value.start == i && Captures(s, r.value)
    ensures r.Some? ==> r.value.choice.hourLen == hourLen && r.value.choice.colon == colon
  {
    var taken := if j + 2 <= |s| && IsDigit(s[j]) && IsDigit(s[j + 1])
                 then MatchSpace(s, i, hourLen, colon, true, j + 2)
                 else None;
    if taken.Some? then taken else MatchSpace(s, i, hourLen, colon, false, j)
  }

  /** `:?`: a colon, else nothing. */
  function MatchColon(s: string, i: nat, hourLen: nat, j: nat): (r: Option<TimeMatch>)
    requires hourLen == 1 || hourLen == 2
    requires i + hourLen == j <= |s|
    requires AllDigits(s[i..j])
    ensures r.Some? ==> r.value.start == i && Captures(s, r.value)
    ensures r.Some? ==> r.value.choice.hourLen == hourLen
  {
    var taken := if j < |s| && s[j] == ':' then MatchMinutes(s, i, hourLen, true, j + 1) else None;
    if taken.Some? then taken else MatchMinutes(s, i, hourLen, false, j)
  }

  /** `(\d{1,2})`: two digits, else one. */
  function MatchAt(s: string, i: nat): (r: Option<TimeMatch>)
    requires i <= |s|
    ensures r.Some? ==> r.value.start == i && Captures(s, r.value)
  {
    var two := if i + 2 <= |s| && IsDigit(s[i]) && IsDigit(s[i + 1]) then MatchColon(s, i, 2, i + 2) else None;
    if two.Some? then two
    else if i + 1 <= |s| && IsDigit(s[i]) then MatchColon(s, i, 1, i + 1)
    else None
  }

  /** `String.prototype.match` without the `g` flag: the first start
      position, from `i` on, where the pattern matches. */
  function Search(s: string, i: nat): (r: Option<TimeMatch>)
    requires i <= |s|
    ensures r.Some? ==> i <= r.value.start && Captures(s, r.value)
    decreases |s| - i
  {
    var here := MatchAt(s, i);
    if here.Some? || i == |s| then here else Search(s, i + 1)
  }

  // ---------------------------------------------------------------------
  // The conversion

  /** 12-hour clock to 24-hour clock: PM adds twelve except at 12, and 12 AM is hour 0. */
  function To24(hour: nat, p: Period): nat {
    if p == PM && hour != 12 then hour + 12
    else if p == AM && hour == 12 then 0
    else hour
  }

  /** The reading of a 24-hour clock hour on the 12-hour clock. */
  function To12(hour: nat): (nat, Period)
    requires hour < 24
  {
    if hour == 0 then (12, AM)
    else if hour < 12 then (hour, AM)
    else if hour == 12 then (12, PM)
    else (hour - 12, PM)
  }

  const ValuePrefix := "2000-02-01T"

  /** The dropdown value for a (24-hour) hour and a minute. */
  function TimeValue(hour: nat, minute: nat): string {
    ValuePrefix + PadStart2(Render(hour)) + ":" + PadStart2(Render(minute)) + ":00"
  }

  function MapTimeToValue(timePref: string): Option<string> {
    match Search(timePref, 0)
    case None => None
    case Some(m) =>
      var hour := Value(m.hourText);
      var minute := match m.minuteText
                    case Some(t) => Value(t)
                    case None => 0;
      Some(TimeValue(To24(hour, m.period), minute))
  }

  /** The capture groups a fitting choice yields. */
  function HourOf(s: string, i: nat, ch: Choice): nat
    requires Fits(s, i, ch)
  {
    Value(s[i..HourEnd(i, ch)])
  }

  function MinuteOf(s: string, i: nat, ch: Choice): nat
    requires Fits(s, i, ch)
  {
    if ch.minutes then Value(s[ColonEnd(i, ch)..MinuteEnd(i, ch)]) else 0
  }

  function PeriodOf(s: string, i: nat, ch: Choice): Period
    requires Fits(s, i, ch)
  {
    PeriodAt(s, SpaceEnd(i, ch)).value
  }

  // ---------------------------------------------------------------------
  // Reading a value back

  function IndexOf(s: string, c: char): (r: Option<nat>)
    ensures r.Some? ==> r.value < |s| && s[r.value] == c && forall k :: 0 <= k < r.value ==> s[k] != c
    ensures r.None? ==> forall k :: 0 <= k < |s| ==> s[k] != c
  {
    if s == [] then None
    else if s[0] == c then Some(0)
    else match IndexOf(s[1..], c)
         case None => None
         case Some(k) => Some(k + 1)
  }

  /** The hour and the minute of a dropdown value `2000-02-01THH:MM:00`. */
  function ParseTimeValue(v: string): Option<(nat, nat)> {
    if |v| < |ValuePrefix| + 3 || v[..|ValuePrefix|] != ValuePrefix || v[|v| - 3..] != ":00" then None
    else
      var body := v[|ValuePrefix|..|v| - 3];
      match IndexOf(body, ':')
      case None => None
      case Some(k) =>
        var hh := body[..k];
        var mm := body[k + 1..];
        if hh != [] && mm != [] && AllDigits(hh) && AllDigits(mm) then Some((Value(hh), Value(mm)))
        else None
  }

  // ---------------------------------------------------------------------
  // The matcher agrees with the declarative description

  lemma RankInjective(a: Choice, b: Choice)
    requires ValidChoice(a) && ValidChoice(b) && Rank(a) == Rank(b)
    ensures a == b
  {
  }

  /** At one position the matcher fails exactly when no choice fits, and
      otherwise returns the fitting choice that backtracking tries first. */
  lemma MatchAtSpec(s: string, i: nat)
    requires i <= |s|
    ensures MatchAt(s, i).None? <==> forall ch :: !Fits(s, i, ch)
    ensures MatchAt(s, i).Some? ==> forall ch :: Fits(s, i, ch) ==> Rank(MatchAt(s, i).value.choice) <= Rank(ch)
  {
    forall ch | Fits(s, i, ch)
      ensures MatchAt(s, i).Some? && Rank(MatchAt(s, i).value.choice) <= Rank(ch)
    {
      HourFits(s, i, ch);
    }
  }

  // Each part of the matcher succeeds whenever a choice that agrees with
  // what the earlier parts took fits, and then settles on a choice ranked
  // no lower than it.

  lemma HourFits(s: string, i: nat, ch: Choice)
    requires i <= |s| && Fits(s, i, ch)
    ensures MatchAt(s, i).Some? && Rank(MatchAt(s, i).value.choice) <= Rank(ch)
  {
    if ch.hourLen == 2 {
      assert IsDigit(s[i]) && IsDigit(s[i + 1]) by { assert s[i..i + 2][0] == s[i] && s[i..i + 2][1] == s[i + 1]; }
      ColonFits(s, i, 2, ch);
    } else {
      assert IsDigit(s[i]) by { assert s[i..i + 1][0] == s[i]; }
      if !(i + 2 <= |s| && IsDigit(s[i + 1]) && MatchColon(s, i, 2, i + 2).Some?) {
        ColonFits(s, i, 1, ch);
      }
    }
  }

  lemma ColonFits(s: string, i: nat, hourLen: nat, ch: Choice)
    requires Fits(s, i, ch) && ch.hourLen == hourLen
    ensures var r := MatchColon(s, i, hourLen, i + hourLen);
            r.Some? && Rank(r.value.choice) <= Rank(ch)
  {
    var j := i + hourLen;
    if ch.colon {
      MinutesFits(s, i, hourLen, true, ch);
    } else {
      // what follows the hour is a minute digit, white space or the period
      assert s[j] != ':';
      MinutesFits(s, i, hourLen, false, ch);
    }
  }

  lemma MinutesFits(s: string, i: nat, hourLen: nat, colon: bool, ch: Choice)
    requires Fits(s, i, ch) && ch.hourLen == hourLen && ch.colon == colon
    ensures var r := MatchMinutes(s, i, hourLen, colon, ColonEnd(i, ch));
            r.Some? && Rank(r.value.choice) <= Rank(ch)
  {
    if ch.minutes {
      MinuteDigits(s, i, ch);
      SpaceFits(s, i, hourLen, colon, true, ch);
    } else {
      NoMinutesNoDigit(s, i, ch);
      SpaceFits(s, i, hourLen, colon, false, ch);
    }
  }

  /** With minutes, two digits follow the colon. */
  lemma MinuteDigits(s: string, i: nat, ch: Choice)
    requires Fits(s, i, ch) && ch.minutes
    ensures var j := ColonEnd(i, ch); j + 2 <= |s| && IsDigit(s[j]) && IsDigit(s[j + 1])
  {
    var j := ColonEnd(i, ch);
    assert s[j..j + 2][0] == s[j] && s[j..j + 2][1] == s[j + 1];
  }

  /** Without minutes, white space or the period follows the colon. */
  lemma NoMinutesNoDigit(s: string, i: nat, ch: Choice)
    requires Fits(s, i, ch) && !ch.minutes
    ensures !IsDigit(s[ColonEnd(i, ch)])
  {
    var j := ColonEnd(i, ch);
    if !ch.space {
      assert Upper(s[j]) == 'A' || Upper(s[j]) == 'P';
    }
  }

  lemma SpaceFits(s: string, i: nat, hourLen: nat, colon: bool, minutes: bool, ch: Choice)
    requires Fits(s, i, ch) && ch.hourLen == hourLen && ch.colon == colon && ch.minutes == minutes
    ensures var r := MatchSpace(s, i, hourLen, colon, minutes, MinuteEnd(i, ch));
            r.Some? && Rank(r.value.choice) <= Rank(ch)
  {
  }

  /** The search returns the leftmost position where the pattern fits. */
  lemma {:induction false} SearchSpec(s: string, from: nat)
    requires from <= |s|
    ensures Search(s, from).None? <==> forall i: nat, ch :: from <= i ==> !Fits(s, i, ch)
    ensures Search(s, from).Some? ==>
              var m := Search(s, from).value;
              && (forall i: nat, ch :: from <= i < m.start ==> !Fits(s, i, ch))
              && (forall ch :: Fits(s, m.start, ch) ==> Rank(m.choice) <= Rank(ch))
    decreases |s| - from
  {
    MatchAtSpec(s, from);
    if MatchAt(s, from).None? {
      if from == |s| {
        forall i: nat, ch | from <= i ensures !Fits(s, i, ch) {
        }
      } else {
        SearchSpec(s, from + 1);
        forall i: nat, ch | from <= i && Fits(s, i, ch) ensures from + 1 <= i {
        }
      }
    }
  }

  // ---------------------------------------------------------------------
  // What mapTimeToValue returns

  /** The result is absent exactly when the pattern fits nowhere. */
  lemma MapTimeToValueAbsent(timePref: string)
    ensures MapTimeToValue(timePref).None? <==> forall i: nat, ch :: !Fits(timePref, i, ch)
  {
    SearchSpec(timePref, 0);
  }

  /** Where the pattern first fits, the value holds that match's hour on the
      24-hour clock and its minutes (zero when the minutes group is absent). */
  lemma MapTimeToValueOfFirstMatch(timePref: string, i: nat, ch: Choice)
    requires IsFirstMatch(timePref, i, ch)
    ensures MapTimeToValue(timePref) ==
              Some(TimeValue(To24(HourOf(timePref, i, ch), PeriodOf(timePref, i, ch)), MinuteOf(timePref, i, ch)))
  {
    SearchSpec(timePref, 0);
    var m := Search(timePref, 0).value;
    assert m.start == i;
    RankInjective(m.choice, ch);
  }

  /** The two clocks correspond one to one: hours 1-12 with a period and
      hours 0-23. */
  lemma ClockRoundTrip(hour: nat, p: Period, h24: nat)
    ensures 1 <= hour <= 12 ==> To24(hour, p) < 24 && To12(To24(hour, p)) == (hour, p)
    ensures h24 < 24 ==> To24(To12(h24).0, To12(h24).1) == h24
  {
  }

  lemma {:induction false} IndexOfAfter(a: string, c: char, b: string)
    requires forall k :: 0 <= k < |a| ==> a[k] != c
    ensures IndexOf(a + [c] + b, c) == Some(|a|)
  {
    if a != [] {
      assert (a + [c] + b)[1..] == a[1..] + [c] + b;
      IndexOfAfter(a[1..], c, b);
    }
  }

  /** A value of the dropdown's shape reads back as its two numbers. */
  lemma {:induction false} ParseShape(hh: string, mm: string)
    requires hh != [] && mm != [] && AllDigits(hh) && AllDigits(mm)
    ensures ParseTimeValue(ValuePrefix + hh + ":" + mm + ":00") == Some((Value(hh), Value(mm)))
  {
    var v := ValuePrefix + hh + ":" + mm + ":00";
    var body := hh + ":" + mm;
    assert v == ValuePrefix + body + ":00";
    assert v[..|ValuePrefix|] == ValuePrefix;
    assert v[|v| - 3..] == ":00";
    assert v[|ValuePrefix|..|v| - 3] == body;
    IndexOfAfter(hh, ':', mm);
    assert body[..|hh|] == hh;
    assert body[|hh| + 1..] == mm;
  }

  /** The dropdown value reads back as the hour and minute it was built from. */
  lemma TimeValueRoundTrip(hour: nat, minute: nat)
    ensures ParseTimeValue(TimeValue(hour, minute)) == Some((hour, minute))
  {
    PaddedRoundTrip(hour);
    PaddedRoundTrip(minute);
    ParseShape(PadStart2(Render(hour)), PadStart2(Render(minute)));
  }

  /** Whatever text is matched, the value has the fixed date prefix and the
      `:00` seconds, and reads back as the converted hour and the minute. */
  lemma MappedValueReadsBack(timePref: string, i: nat, ch: Choice)
    requires IsFirstMatch(timePref, i, ch)
    ensures MapTimeToValue(timePref).Some?
    ensures var v := MapTimeToValue(timePref).value;
            && v[..|ValuePrefix|] == ValuePrefix
            && ParseTimeValue(v) == Some((To24(HourOf(timePref, i, ch), PeriodOf(timePref, i, ch)), MinuteOf(timePref, i, ch)))
  {
    MapTimeToValueOfFirstMatch(timePref, i, ch);
    TimeValueRoundTrip(To24(HourOf(timePref, i, ch), PeriodOf(timePref, i, ch)), MinuteOf(timePref, i, ch));
  }

  /** "7 PM", as in the schema's example preference "around 7 PM". */
  lemma ExampleSevenPm()
    ensures MapTimeToValue("7 PM") == Some("2000-02-01T19:00:00")
  {
    SearchSevenPm();
    assert Value("7") == 7;
    SevenPmValue();
  }

  lemma SevenPmValue()
    ensures TimeValue(19, 0) == "2000-02-01T19:00:00"
  {
    assert Render(19) == "19" && Render(0) == "0";
    var h, m := PadStart2(Render(19)), PadStart2(Render(0));
    assert h == "19" && m == "00";
    assert TimeValue(19, 0) == ValuePrefix + h + ":" + m + ":00";
  }

  /** The AM rule at hour 12, with minutes. */
  lemma ExampleHalfPastMidnight()
    ensures MapTimeToValue("12:30 AM") == Some("2000-02-01T00:30:00")
  {
    SearchHalfPastMidnight();
    assert Value("12") == 12 && Value("30") == 30;
    assert TimeValue(0, 30) == "2000-02-01T00:30:00" by { assert Render(30) == "30"; }
  }

  /** The schema's example preference "lunchtime" has no time in it. */
  lemma ExampleLunchtime()
    ensures MapTimeToValue("lunchtime") == None
  {
    var s := "lunchtime";
    forall i | 0 <= i <= |s| ensures MatchAt(s, i) == None {
    }
    assert Search(s, 0) == None by {
      var k := |s|;
      while k > 0
        invariant 0 <= k <= |s| && Search(s, k) == None
      {
        k := k - 1;
      }
    }
  }

  /** The greedy hour gives a digit back so that the minutes group matches. */
  lemma ExampleGivesBackDigit()
    ensures MapTimeToValue("730 PM") == Some("2000-02-01T19:30:00")
  {
    SearchGivesBackDigit();
    assert Value("7") == 7 && Value("30") == 30;
    HalfPastSevenValue();
  }

  lemma HalfPastSevenValue()
    ensures TimeValue(19, 30) == "2000-02-01T19:30:00"
  {
    assert Render(19) == "19" && Render(30) == "30";
    var h, m := PadStart2(Render(19)), PadStart2(Render(30));
    assert h == "19" && m == "30";
    assert TimeValue(19, 30) == ValuePrefix + h + ":" + m + ":00";
  }

  lemma SearchSevenPm()
    ensures Search("7 PM", 0) == Some(TimeMatch(0, Choice(1, false, false, true), "7", None, PM))
  {
    var s := "7 PM";
    assert s[0..1] == "7";
    assert MatchAt(s, 0) == Some(TimeMatch(0, Choice(1, false, false, true), "7", None, PM));
  }

  lemma SearchHalfPastMidnight()
    ensures Search("12:30 AM", 0) == Some(TimeMatch(0, Choice(2, true, true, true), "12", Some("30"), AM))
  {
    var s := "12:30 AM";
    assert s[0..2] == "12" && s[3..5] == "30";
    assert MatchAt(s, 0) == Some(TimeMatch(0, Choice(2, true, true, true), "12", Some("30"), AM));
  }

  lemma SearchGivesBackDigit()
    ensures Search("730 PM", 0) == Some(TimeMatch(0, Choice(1, false, true, true), "7", Some("30"), PM))
  {
    var s := "730 PM";
    NoTwoDigitHourIn730();
    assert s[0..1] == "7" && s[1..3] == "30";
    assert MatchAt(s, 0) == Some(TimeMatch(0, Choice(1, false, true, true), "7", Some("30"), PM));
  }

  /** With "73" as the hour, neither the minutes nor the period can follow. */
  lemma NoTwoDigitHourIn730()
    ensures MatchColon("730 PM", 0, 2, 2) == None
  {
    var s := "730 PM";
    assert s[0..2] == "73";
  }
}
