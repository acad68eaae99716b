/**
 When a schedule fires, in its own terms: what each kind of field matches, and the minutes at which
 each preset fires.
 */
module CronFields {
  import opened Wrappers
  import opened Numerals
  import opened CronText
  import opened CronPresets
  import opened CronRoundTrips
  import opened Cron

  // ----- fields ------------------------------------------------------------------------------------------

  lemma StarMatches(value: nat, number: Reading)
    ensures MatchField("*", value, number)
  {
  }

  lemma PlainDigits(s: string)
    requires IsDecimal(s)
    ensures s != "*" && !StartsWithStep(s) && '-' !in s && ',' !in s
  {
    DecimalIsWord(s);
  }

  lemma NumberMatchesIff(n: nat, value: nat, number: Reading)
    requires ReadsDecimals(number)
    ensures MatchField(Digits(n, 10), value, number) <==> value == n
  {
    ValueOfDigits(n);
    PlainDigits(Digits(n, 10));
  }

  lemma StepMatchesIff(n: nat, value: nat, number: Reading)
    requires ReadsDecimals(number)
    ensures MatchField("*/" + Digits(n, 10), value, number) <==> n > 0 && value % n == 0
  {
    ValueOfDigits(n);
    var expr := "*/" + Digits(n, 10);
    assert expr[2..] == Digits(n, 10) && expr[..2] == "*/" && |expr| > 2;
  }

  lemma RangeText(a: string, b: string)
    requires IsDecimal(a) && IsDecimal(b)
    ensures var expr := a + ("-" + b);
      expr != "*" && !StartsWithStep(expr) && '-' in expr && SplitOn(expr, '-', "") == [a, b]
  {
    var expr := a + ("-" + b);
    PlainDigits(a);
    PlainDigits(b);
    SplitInTwo(a, b, '-');
    assert a + (['-'] + b) == expr;
    assert expr[0] == a[0] != '*' && expr[|a|] == '-';
  }

  lemma RangeMatchesIff(a: nat, b: nat, value: nat, number: Reading)
    requires ReadsDecimals(number)
    ensures MatchField(Digits(a, 10) + ("-" + Digits(b, 10)), value, number) <==> a <= value <= b
  {
    ValueOfDigits(a);
    ValueOfDigits(b);
    RangeText(Digits(a, 10), Digits(b, 10));
  }

  // The parts of a list, joined by commas.
  function Commas(parts: seq<string>): string {
    if parts == [] then "" else if |parts| == 1 then parts[0] else parts[0] + ("," + Commas(parts[1..]))
  }

  lemma NoDash(a: string, b: string)
    requires '-' !in a && '-' !in b
    ensures '-' !in a + ("," + b)
  {
  }

  lemma {:induction false} SplitOfCommas(parts: seq<string>)
    requires parts != [] && forall i :: 0 <= i < |parts| ==> IsDecimal(parts[i])
    ensures SplitOn(Commas(parts), ',', "") == parts && '-' !in Commas(parts)
    ensures Commas(parts) != "" && Commas(parts)[0] != '*' && (|parts| > 1 ==> ',' in Commas(parts))
  {
    PlainDigits(parts[0]);
    assert "" + parts[0] == parts[0];
    assert parts[0][0] != '*' && parts[0] != "";
    if |parts| == 1 {
      assert parts[0] + "" == parts[0];
      SplitReads(parts[0], "", ',', "");
    } else {
      var rest := Commas(parts[1..]);
      SplitOfCommas(parts[1..]);
      SplitReads(parts[0], "," + rest, ',', "");
      assert ("," + rest)[1..] == rest && ("," + rest)[0] == ',';
      NoDash(parts[0], rest);
      assert (parts[0] + ("," + rest))[|parts[0]|] == ',';
      assert (parts[0] + ("," + rest))[0] == parts[0][0];
    }
  }

  lemma ReadOne(s: string, number: Reading)
    requires ReadsDecimals(number) && IsDecimal(s)
    ensures number(s) == Some(Value(s))
  {
  }

  lemma {:induction false} ReadAllHasIff(parts: seq<string>, value: nat, number: Reading)
    requires ReadsDecimals(number) && forall i :: 0 <= i < |parts| ==> IsDecimal(parts[i])
    ensures Some(value) in ReadAll(parts, number) <==> exists i :: 0 <= i < |parts| && Value(parts[i]) == value
  {
    var values := ReadAll(parts, number);
    forall i | 0 <= i < |parts|
      ensures values[i] == Some(Value(parts[i]))
    {
      ReadOne(parts[i], number);
    }
    if Some(value) in values {
      var i :| 0 <= i < |values| && values[i] == Some(value);
      assert Value(parts[i]) == value;
    }
    if i :| 0 <= i < |parts| && Value(parts[i]) == value {
      assert values[i] == Some(value);
    }
  }

  lemma ListIsRead(expr: string, parts: seq<string>, value: nat, number: Reading)
    requires expr != "" && expr[0] != '*' && '-' !in expr && ',' in expr && SplitOn(expr, ',', "") == parts
    ensures MatchField(expr, value, number) <==> Some(value) in ReadAll(parts, number)
  {
    assert expr != "*" && !StartsWithStep(expr);
  }

  lemma ListMatchesIff(parts: seq<string>, value: nat, number: Reading)
    requires ReadsDecimals(number) && |parts| > 1
    requires forall i :: 0 <= i < |parts| ==> IsDecimal(parts[i])
    ensures MatchField(Commas(parts), value, number) <==> exists i :: 0 <= i < |parts| && Value(parts[i]) == value
  {
    SplitOfCommas(parts);
    ListIsRead(Commas(parts), parts, value, number);
    ReadAllHasIff(parts, value, number);
  }

  // ----- presets -----------------------------------------------------------------------------------------

  // The minutes of the day at which a preset fires. The source does not look at days: a weekly preset
  // fires every day at its time, and one for every so many days at every midnight.
  ghost predicate FiresAt(p: Preset, hour: nat, minute: nat, h: nat, m: nat) {
    match p.freq
    case EveryHour => m == 0
    case Interval =>
      var n: nat := if p.n > 0 then p.n else 5;
      (match p.unit
       case Minutes => m % n == 0
       case Hours => m == 0 && h % n == 0
       case Days => m == 0 && h == 0)
    case Advanced => false
    case _ => h == hour && m == minute
  }

  lemma ZeroMatchesIff(value: nat, number: Reading)
    requires ReadsDecimals(number)
    ensures MatchField("0", value, number) <==> value == 0
  {
    assert Digits(0, 10) == "0";
    NumberMatchesIff(0, value, number);
  }

  lemma ClockMatchesIff(p: Preset, hour: nat, minute: nat, at: nat, number: Reading)
    requires ReadsDecimals(number) && IsClockFreq(p.freq) && hour < 24 && minute < 60
    requires p.time == FormatClock(hour, minute)
    ensures var words := Words(CronFromPreset(p, number));
      |words| == 5 && (MatchesMinute(words, at, number) <==> at / 60 % 24 == hour && at % 60 == minute)
  {
    ClockCron(p.freq, hour, minute, p, number);
    ShownMinuteIs(minute);
    ShownHourIs(hour);
    ValueOfDigits(minute);
    ValueOfDigits(hour);
    PresetOfClockWords(p.freq, Digits(minute, 10), Digits(hour, 10));
    NumberMatchesIff(minute, at % 60, number);
    NumberMatchesIff(hour, at / 60 % 24, number);
  }

  lemma IntervalMatchesIff(p: Preset, at: nat, number: Reading)
    requires ReadsDecimals(number) && p.freq == Interval
    ensures var words := Words(CronFromPreset(p, number));
      |words| == 5 && (MatchesMinute(words, at, number) <==> FiresAt(p, 0, 0, at / 60 % 24, at % 60))
  {
    var n: nat := if p.n > 0 then p.n else 5;
    StepIs(n);
    PresetOfIntervalWords(p.unit, "*/" + Digits(n, 10));
    StepMatchesIff(n, at % 60, number);
    StepMatchesIff(n, at / 60 % 24, number);
    ZeroMatchesIff(at % 60, number);
    ZeroMatchesIff(at / 60 % 24, number);
    StarMatches(at % 60, number);
    StarMatches(at / 60 % 24, number);
  }

  lemma PresetMatchesIff(p: Preset, hour: nat, minute: nat, at: nat, number: Reading)
    requires ReadsDecimals(number) && p.freq != Advanced && hour < 24 && minute < 60
    requires IsClockFreq(p.freq) ==> p.time == FormatClock(hour, minute)
    ensures var words := Words(CronFromPreset(p, number));
      |words| == 5 && (MatchesMinute(words, at, number) <==> FiresAt(p, hour, minute, at / 60 % 24, at % 60))
  {
    StarMatches(at % 60, number);
    StarMatches(at / 60 % 24, number);
    if IsClockFreq(p.freq) {
      ClockMatchesIff(p, hour, minute, at, number);
    } else if p.freq == Interval {
      IntervalMatchesIff(p, at, number);
    } else {
      MarksAreWords();
      WordsOfJoin(["0", "*", "*", "*", "*"]);
      ZeroMatchesIff(at % 60, number);
    }
  }

  // Every preset fires at some minute of the day, so the search never gives up.
  lemma FiresSomewhere(p: Preset, hour: nat, minute: nat) returns (at: nat)
    requires p.freq != Advanced && hour < 24 && minute < 60
    ensures at < 24 * 60 && FiresAt(p, hour, minute, at / 60 % 24, at % 60)
  {
    at := if IsClockFreq(p.freq) then 60 * hour + minute else 0;
    assert at / 60 == (if IsClockFreq(p.freq) then hour else 0);
  }

  // End to end: a preset's next date is the first whole minute after the start at which its clock shows
  // what the preset says.
  lemma PresetFiresNext(p: Preset, hour: nat, minute: nat, from: nat, next: nat, number: Reading)
    requires ReadsDecimals(number) && p.freq != Advanced && hour < 24 && minute < 60
    requires IsClockFreq(p.freq) ==> p.time == FormatClock(hour, minute)
    requires IsNextCronDate(CronFromPreset(p, number), from, next, number)
    ensures next % MINUTE_MS == 0 && next > from
    ensures var at := next / MINUTE_MS; FiresAt(p, hour, minute, at / 60 % 24, at % 60)
    ensures forall at: nat :: at * MINUTE_MS > from && at < next / MINUTE_MS ==>
      !FiresAt(p, hour, minute, at / 60 % 24, at % 60)
  {
    var words := Words(CronFromPreset(p, number));
    var some := FiresSomewhere(p, hour, minute);
    PresetMatchesIff(p, hour, minute, some, number);
    assert MatchesMinute(words, some, number);
    forall at: nat
      ensures MatchesMinute(words, at, number) <==> FiresAt(p, hour, minute, at / 60 % 24, at % 60)
    {
      PresetMatchesIff(p, hour, minute, at, number);
    }
  }
}
