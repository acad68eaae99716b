/**
 Exactly which presets and which cron expressions come back unchanged.
 */
module CronRoundTrips {
  import opened Wrappers
  import opened Numerals
  import opened CronText
  import opened CronPresets

  // ----- the twelve-hour clock ---------------------------------------------------------------------------

  // The minutes that are read back: two digits of whatever is shown.
  ghost function ShownMinute(minute: nat): nat {
    var s := PadTwo(minute);
    if |s| > 2 && IsDecimal(s[..2]) then Value(s[..2]) else minute
  }

  ghost function ShownHour(hour: nat): nat {
    hour % 12 + if hour >= 12 then 12 else 0
  }

  lemma PadTwoIs(minute: nat)
    ensures IsDecimal(PadTwo(minute)) && |PadTwo(minute)| >= 2
    ensures minute < 100 <==> |PadTwo(minute)| == 2
    ensures minute < 100 ==> Value(PadTwo(minute)) == minute
  {
    ValueOfDigits(minute);
    LongerFromBase(minute, 10);
    var s := Digits(minute, 10);
    if minute < 10 {
      assert |s| == 1 && "0" + s == ['0', s[0]];
      assert PadTwo(minute)[..1] == "0" && Value("0") == 0 by {
        assert "0"[..0] == "";
      }
    } else {
      LastDigit(minute, 10);
      LongerFromBase(minute / 10, 10);
      assert |s| == |Digits(minute / 10, 10)| + 1;
    }
  }

  lemma TwoDigits(s: string)
    requires IsDecimal(s) && |s| == 2
    ensures Value(s) < 100
  {
    assert s[..1][..0] == "";
    assert Value(s[..1]) == (s[0] - '0') as nat;
  }

  lemma ShownMinuteIs(minute: nat)
    ensures minute < 100 ==> ShownMinute(minute) == minute
    ensures ShownMinute(minute) < 100
    ensures var s := PadTwo(minute); IsDecimal(s[..2]) && Value(s[..2]) == ShownMinute(minute)
  {
    PadTwoIs(minute);
    var s := PadTwo(minute);
    assert |s| == 2 ==> s[..2] == s;
    TwoDigits(s[..2]);
  }

  lemma {:induction false} SplitReads(w: string, rest: string, separator: char, part: string)
    requires separator !in w
    ensures SplitOn(w + rest, separator, part) == SplitOn(rest, separator, part + w)
  {
    if w == "" {
      assert w + rest == rest && part + w == part;
    } else {
      assert w[0] in w;
      assert (w + rest)[1..] == w[1..] + rest;
      SplitReads(w[1..], rest, separator, part + [w[0]]);
      assert part + [w[0]] + w[1..] == part + w;
    }
  }

  lemma SplitInTwo(a: string, b: string, separator: char)
    requires separator !in a && separator !in b
    ensures SplitOn(a + ([separator] + b), separator, "") == [a, b]
  {
    SplitReads(a, [separator] + b, separator, "");
    assert "" + a == a && ([separator] + b)[1..] == b;
    SplitReads(b, "", separator, "");
    assert b + "" == b && "" + b == b;
  }

  lemma TextOfClock(hour: nat, minute: nat)
    ensures
      var h, rest := Digits(TwelveHour(hour), 10), PadTwo(minute) + (" " + Period(hour));
      IsDecimal(h) && Value(h) == TwelveHour(hour) && SplitOn(FormatClock(hour, minute), ':', "") == [h, rest]
  {
    ValueOfDigits(TwelveHour(hour));
    PadTwoIs(minute);
    var h, rest := Digits(TwelveHour(hour), 10), PadTwo(minute) + (" " + Period(hour));
    assert FormatClock(hour, minute) == h + ([':'] + rest);
    SplitInTwo(h, rest, ':');
  }

  // The two last letters decide.
  lemma PairAtEnd(front: string, period: string)
    requires forall i :: 0 <= i < |front| ==> Lower(front[i]) != 'p' && Lower(front[i]) != 'a'
    requires period == "PM" || period == "AM"
    ensures HasPair(front + period, 'p', 'm') <==> period == "PM"
    ensures HasPair(front + period, 'a', 'm') <==> period == "AM"
  {
    var time, n := front + period, |front|;
    assert time[n] == period[0] && time[n + 1] == 'M' && |time| == n + 2;
    assert Lower(time[n + 1]) == 'm';
    assert forall i :: 0 <= i < n ==> time[i] == front[i];
  }

  lemma PairsOfClock(h: string, mm: string, period: string)
    requires IsDecimal(h) && IsDecimal(mm) && (period == "PM" || period == "AM")
    ensures
      var time := h + (":" + (mm + (" " + period)));
      && (HasPair(time, 'p', 'm') <==> period == "PM")
      && (HasPair(time, 'a', 'm') <==> period == "AM")
  {
    var front := h + (":" + (mm + " "));
    assert h + (":" + (mm + (" " + period))) == front + period;
    forall i | 0 <= i < |front|
      ensures Lower(front[i]) != 'p' && Lower(front[i]) != 'a'
    {
      assert front[i] == ' ' || front[i] == ':' || '0' <= front[i] <= '9';
    }
    PairAtEnd(front, period);
  }

  lemma ParseOfParts(time: string, h: string, rest: string, late: bool, hour: nat, minute: nat, number: Reading)
    requires SplitOn(time, ':', "") == [h, rest] && |rest| > 2
    requires HasPair(time, 'p', 'm') == late && HasPair(time, 'a', 'm') == !late
    requires number(h) == Some(hour) && 1 <= hour <= 12 && number(rest[..2]) == Some(minute)
    ensures ParseClock(time, number) == Clock(Some(hour % 12 + if late then 12 else 0), Some(minute))
  {}

  lemma LettersOfClock(hour: nat, minute: nat)
    ensures HasPair(FormatClock(hour, minute), 'p', 'm') == (hour >= 12)
    ensures HasPair(FormatClock(hour, minute), 'a', 'm') == (hour < 12)
  {
    ValueOfDigits(TwelveHour(hour));
    PadTwoIs(minute);
    PairsOfClock(Digits(TwelveHour(hour), 10), PadTwo(minute), Period(hour));
  }

  lemma FirstTwo(s: string, more: string)
    requires |s| >= 2 && more != ""
    ensures |s + more| > 2 && (s + more)[..2] == s[..2]
  {}

  lemma MinutesAreRead(minute: nat, more: string, number: Reading)
    requires ReadsDecimals(number) && more != ""
    ensures |PadTwo(minute) + more| > 2 && number((PadTwo(minute) + more)[..2]) == Some(ShownMinute(minute))
  {
    ShownMinuteIs(minute);
    PadTwoIs(minute);
    FirstTwo(PadTwo(minute), more);
  }

  // What is shown is read back: the hour of the day, and the first two digits of the minutes.
  lemma ParseOfFormat(hour: nat, minute: nat, number: Reading)
    requires ReadsDecimals(number)
    ensures ParseClock(FormatClock(hour, minute), number) == Clock(Some(ShownHour(hour)), Some(ShownMinute(minute)))
  {
    TextOfClock(hour, minute);
    LettersOfClock(hour, minute);
    MinutesAreRead(minute, " " + Period(hour), number);
    ParseOfParts(FormatClock(hour, minute), Digits(TwelveHour(hour), 10), PadTwo(minute) + (" " + Period(hour)),
                 hour >= 12, TwelveHour(hour), ShownMinute(minute), number);
  }

  lemma FormatAgain(hour: nat, minute: nat)
    ensures minute < 100 ==> FormatClock(ShownHour(hour), minute) == FormatClock(hour, minute)
    ensures ShownHour(hour) < 24 && (hour < 24 ==> ShownHour(hour) == hour)
  {}

  // ----- presets -------------------------------------------------------------------------------------------

  predicate IsClockFreq(freq: Freq) {
    freq == EveryDay || freq == Weekdays || freq == EveryWeek || freq == EveryMonth
  }

  predicate IsClockWords(w: seq<string>)
    requires |w| >= 5
  {
    && IsDecimal(w[0]) && IsDecimal(w[1]) && w[3] == "*"
    && ((w[2] == "*" && w[4] in {"1-5", "1", "*"}) || (w[2] == "1" && w[4] == "*"))
  }

  // An expression that is read as one of the everyday schedules.
  predicate IsRecognised(w: seq<string>) {
    && |w| >= 5 && w[3] == "*"
    && (|| (w[0] == "0" && w[1] == "*" && w[2] == "*" && w[4] == "*")
        || (StepValue(w[0]).Some? && w[1] == "*" && w[2] == "*" && w[4] == "*")
        || (w[0] == "0" && StepValue(w[1]).Some? && w[2] == "*" && w[4] == "*")
        || (w[0] == "0" && w[1] == "0" && StepValue(w[2]).Some? && w[4] == "*")
        || IsClockWords(w))
  }

  // Default values in every field that the schedule does not use, and a value in the others that can
  // be shown: a whole step, a clock time, an expression that is not an everyday schedule.
  ghost predicate IsCanonical(p: Preset) {
    match p.freq
    case EveryHour => p == DEFAULT.(freq := EveryHour)
    case Interval => p == DEFAULT.(freq := Interval, n := p.n, unit := p.unit) && p.n > 0
    case Advanced =>
      p == DEFAULT.(freq := Advanced, cron := p.cron) && p.cron == Trim(p.cron) != "" && !IsRecognised(Words(p.cron))
    case _ =>
      p == DEFAULT.(freq := p.freq, time := p.time) &&
      exists hour: nat, minute: nat :: hour < 24 && minute < 100 && p.time == FormatClock(hour, minute)
  }

  function ClockWords(freq: Freq, minute: string, hour: string): seq<string>
    requires IsClockFreq(freq)
  {
    match freq
    case Weekdays => [minute, hour, "*", "*", "1-5"]
    case EveryWeek => [minute, hour, "*", "*", "1"]
    case EveryMonth => [minute, hour, "1", "*", "*"]
    case EveryDay => [minute, hour, "*", "*", "*"]
  }

  lemma DecimalIsWord(s: string)
    requires IsDecimal(s)
    ensures IsWord(s) && IsWord("*/" + s) && s != "*" && !StartsWithStep(s)
  {
    assert forall i :: 0 <= i < |s| ==> !IsSpace(s[i]);
    assert s[0] != '*';
  }

  lemma StepIs(n: nat)
    requires n > 0
    ensures var step := "*/" + Digits(n, 10); StepValue(step) == Some(n) && IsWord(step) && IsUnpadded(step[2..])
  {
    ValueOfDigits(n);
    DecimalIsWord(Digits(n, 10));
    var step := "*/" + Digits(n, 10);
    assert step[2..] == Digits(n, 10) && step[..2] == "*/";
  }

  lemma MarksAreWords()
    ensures IsWord("*") && IsWord("0") && IsWord("1") && IsWord("1-5")
  {}

  lemma PresetOfClock(freq: Freq, minute: string, hour: string, trimmed: string)
    requires IsClockFreq(freq) && IsDecimal(minute) && IsDecimal(hour)
    requires minute != "*" && hour != "*" && !StartsWithStep(minute) && !StartsWithStep(hour)
    ensures PresetFromWords(ClockWords(freq, minute, hour), trimmed)
         == DEFAULT.(freq := freq, time := FormatClock(Value(hour), Value(minute)))
  {
  }

  // Reading a clock schedule back.
  lemma PresetOfClockWords(freq: Freq, minute: string, hour: string)
    requires IsClockFreq(freq) && IsDecimal(minute) && IsDecimal(hour)
    ensures var cron := Join(ClockWords(freq, minute, hour));
      Words(cron) == ClockWords(freq, minute, hour)
      && PresetFromCron(cron) == DEFAULT.(freq := freq, time := FormatClock(Value(hour), Value(minute)))
  {
    DecimalIsWord(minute);
    DecimalIsWord(hour);
    MarksAreWords();
    WordsOfJoin(ClockWords(freq, minute, hour));
    PresetOfClock(freq, minute, hour, Trim(Join(ClockWords(freq, minute, hour))));
  }

  lemma ReadsInterval(unit: CronUnit, step: string, trimmed: string)
    requires StepValue(step).Some?
    ensures PresetFromWords(IntervalWords(unit, step), trimmed)
         == DEFAULT.(freq := Interval, n := StepValue(step).value, unit := unit)
  {
    assert step != "*" && step != "0" && !IsDecimal(step) by {
      assert step[0] == step[..2][0] == '*' && |step| >= 2;
    }
  }

  lemma PresetOfIntervalWords(unit: CronUnit, step: string)
    requires StepValue(step).Some? && IsWord(step)
    ensures var cron := Join(IntervalWords(unit, step));
      Words(cron) == IntervalWords(unit, step)
      && PresetFromCron(cron) == DEFAULT.(freq := Interval, n := StepValue(step).value, unit := unit)
  {
    var words := IntervalWords(unit, step);
    MarksAreWords();
    WordsOfJoin(words);
    ReadsInterval(unit, step, Trim(Join(words)));
  }

  lemma ClockCron(freq: Freq, hour: nat, minute: nat, p: Preset, number: Reading)
    requires ReadsDecimals(number) && IsClockFreq(freq)
    requires p.freq == freq && p.time == FormatClock(hour, minute)
    ensures CronFromPreset(p, number)
      == Join(ClockWords(freq, Digits(ShownMinute(minute), 10), Digits(ShownHour(hour), 10)))
  {
    ParseOfFormat(hour, minute, number);
    FormatAgain(hour, minute);
  }

  lemma IntervalRoundTrip(p: Preset, number: Reading)
    requires p.freq == Interval
    ensures PresetFromCron(CronFromPreset(p, number))
         == DEFAULT.(freq := Interval, n := if p.n > 0 then p.n else 5, unit := p.unit)
  {
    var n: nat := if p.n > 0 then p.n else 5;
    StepIs(n);
    PresetOfIntervalWords(p.unit, "*/" + Digits(n, 10));
  }

  lemma {:induction false} TrimLeftIs(s: string)
    ensures TrimLeft(s) != "" ==> !IsSpace(TrimLeft(s)[0])
    ensures s != "" && !IsSpace(s[0]) ==> TrimLeft(s) == s
  {
    if s != "" && IsSpace(s[0]) {
      TrimLeftIs(s[1..]);
    }
  }

  lemma {:induction false} TrimRightIs(s: string)
    ensures TrimRight(s) != "" ==> TrimRight(s)[0] == s[0] && !IsSpace(TrimRight(s)[|TrimRight(s)| - 1])
    decreases |s|
  {
    if s != "" && IsSpace(s[|s| - 1]) {
      TrimRightIs(s[..|s| - 1]);
    }
  }

  lemma TrimTwice(s: string)
    ensures Trim(Trim(s)) == Trim(s)
  {
    TrimLeftIs(s);
    TrimRightIs(TrimLeft(s));
    TrimLeftIs(Trim(s));
  }

  lemma RecognisedIff(cron: string)
    ensures IsRecognised(Words(cron)) <==> PresetFromCron(cron).freq != Advanced
    ensures !IsRecognised(Words(cron)) ==> PresetFromCron(cron) == DEFAULT.(freq := Advanced, cron := Trim(cron))
  {}

  // A preset that came from an expression: what is left to ask for is only the two digits of the minutes.
  lemma ComesFromCron(cron: string, p: Preset)
    requires p == PresetFromCron(cron)
    ensures p.freq == Interval ==> p == DEFAULT.(freq := Interval, n := p.n, unit := p.unit) && p.n > 0
    ensures p.freq == EveryHour ==> p == DEFAULT.(freq := EveryHour)
    ensures p.freq == Advanced ==> p == DEFAULT.(freq := Advanced, cron := Trim(cron)) && !IsRecognised(Words(cron))
    ensures IsClockFreq(p.freq) ==>
      && IsClockWords(Words(cron))
      && p == DEFAULT.(freq := p.freq, time := FormatClock(Value(Words(cron)[1]), Value(Words(cron)[0])))
  {
  }

  lemma ReadsEveryHour(trimmed: string)
    ensures PresetFromWords(["0", "*", "*", "*", "*"], trimmed) == DEFAULT.(freq := EveryHour)
  {
  }

  lemma EveryHourRoundTrip(p: Preset, number: Reading)
    requires p.freq == EveryHour
    ensures PresetFromCron(CronFromPreset(p, number)) == DEFAULT.(freq := EveryHour)
  {
    var words := ["0", "*", "*", "*", "*"];
    MarksAreWords();
    WordsOfJoin(words);
    ReadsEveryHour(Trim(Join(words)));
  }

  lemma DefaultText()
    ensures Join(IntervalWords(Minutes, "*/" + Digits(3, 10))) == "*/3 * * * *"
  {
    assert Digits(3, 10) == "3" && "*/" + "3" == "*/3";
    assert Join(["*", "*", "*", "*"]) == "* * * *";
  }

  lemma EmptyAdvancedIsInterval()
    ensures PresetFromCron("*/3 * * * *").freq == Interval
  {
    StepIs(3);
    DefaultText();
    PresetOfIntervalWords(Minutes, "*/" + Digits(3, 10));
  }

  lemma AdvancedComesBackIff(p: Preset, cron: string)
    requires p.freq == Advanced && cron == Trim(p.cron) && cron != "" && Trim(cron) == cron
    requires IsRecognised(Words(cron)) ==> PresetFromCron(cron).freq != Advanced
    requires !IsRecognised(Words(cron)) ==> PresetFromCron(cron) == DEFAULT.(freq := Advanced, cron := cron)
    ensures PresetFromCron(cron) == p <==> IsCanonical(p)
  {
    if p.cron != cron {
      assert !IsRecognised(Words(cron)) ==> PresetFromCron(cron).cron == cron;
    }
  }

  lemma AdvancedRoundTripIff(p: Preset, number: Reading)
    requires p.freq == Advanced
    ensures PresetFromCron(CronFromPreset(p, number)) == p <==> IsCanonical(p)
  {
    if Trim(p.cron) == "" {
      EmptyAdvancedIsInterval();
    } else {
      TrimTwice(p.cron);
      RecognisedIff(Trim(p.cron));
      AdvancedComesBackIff(p, Trim(p.cron));
    }
  }

  // A clock schedule comes back with the time that was read off its own.
  lemma ClockComesBack(p: Preset, hour: nat, minute: nat, number: Reading)
    requires ReadsDecimals(number) && IsClockFreq(p.freq) && p.time == FormatClock(hour, minute)
    ensures PresetFromCron(CronFromPreset(p, number))
         == DEFAULT.(freq := p.freq, time := FormatClock(ShownHour(hour), ShownMinute(minute)))
  {
    ClockCron(p.freq, hour, minute, p, number);
    ValueOfDigits(ShownMinute(minute));
    ValueOfDigits(ShownHour(hour));
    PresetOfClockWords(p.freq, Digits(ShownMinute(minute), 10), Digits(ShownHour(hour), 10));
  }

  lemma CanonicalClock(p: Preset, hour: nat, minute: nat)
    requires IsClockFreq(p.freq) && hour < 24 && minute < 100
    requires p == DEFAULT.(freq := p.freq, time := FormatClock(hour, minute))
    ensures IsCanonical(p)
  {
  }

  lemma ClockRoundTripIff(p: Preset, number: Reading)
    requires ReadsDecimals(number) && IsClockFreq(p.freq)
    ensures PresetFromCron(CronFromPreset(p, number)) == p <==> IsCanonical(p)
  {
    var cron := CronFromPreset(p, number);
    if PresetFromCron(cron) == p {
      ComesFromCron(cron, p);
      var hour, minute := Value(Words(cron)[1]), Value(Words(cron)[0]);
      ClockComesBack(p, hour, minute, number);
      ShownMinuteIs(minute);
      FormatAgain(hour, minute);
      CanonicalClock(p, ShownHour(hour), ShownMinute(minute));
    }
    if IsCanonical(p) {
      var hour: nat, minute: nat :| hour < 24 && minute < 100 && p.time == FormatClock(hour, minute);
      ClockComesBack(p, hour, minute, number);
      ShownMinuteIs(minute);
      FormatAgain(hour, minute);
    }
  }

  // A preset survives the way through a cron expression exactly when it is canonical.
  lemma PresetRoundTripIff(p: Preset, number: Reading)
    requires ReadsDecimals(number)
    ensures PresetFromCron(CronFromPreset(p, number)) == p <==> IsCanonical(p)
  {
    match p.freq
    case EveryHour => EveryHourRoundTrip(p, number);
    case Interval => IntervalRoundTrip(p, number);
    case Advanced => AdvancedRoundTripIff(p, number);
    case _ => ClockRoundTripIff(p, number);
  }

  // ----- expressions -----------------------------------------------------------------------------------------

  // Single spaces, five fields, no leading zeros, and a time of day where one is named.
  ghost predicate IsPlain(cron: string) {
    var w := Words(cron);
    && |w| == 5 && cron == Join(w)
    && (forall i :: 0 <= i < 3 && StepValue(w[i]).Some? ==> IsUnpadded(w[i][2..]))
    && (IsClockWords(w) ==> IsUnpadded(w[0]) && IsUnpadded(w[1]) && Value(w[0]) < 100 && Value(w[1]) < 24)
  }

  lemma StepText(expr: string)
    requires StepValue(expr).Some? && IsUnpadded(expr[2..])
    ensures "*/" + Digits(StepValue(expr).value, 10) == expr
  {
    DigitsOfValue(expr[2..]);
    assert expr == expr[..2] + expr[2..];
  }

  lemma ClockText(cron: string, p: Preset, number: Reading)
    requires ReadsDecimals(number) && p == PresetFromCron(cron) && IsClockFreq(p.freq)
    ensures
      var w := Words(cron);
      && IsClockWords(w)
      && CronFromPreset(p, number)
         == Join(ClockWords(p.freq, Digits(ShownMinute(Value(w[0])), 10), Digits(ShownHour(Value(w[1])), 10)))
  {
    ComesFromCron(cron, p);
    var w := Words(cron);
    ClockCron(p.freq, Value(w[1]), Value(w[0]), p, number);
  }

  lemma IntervalWordsAre(w: seq<string>, trimmed: string) returns (k: nat)
    requires |w| == 5 && PresetFromWords(w, trimmed).freq == Interval
    ensures var p := PresetFromWords(w, trimmed);
      k < 3 && w == IntervalWords(p.unit, w[k]) && StepValue(w[k]) == Some(p.n)
  {
    var p := PresetFromWords(w, trimmed);
    k := if p.unit == Minutes then 0 else if p.unit == Hours then 1 else 2;
    assert w == [w[0], w[1], w[2], w[3], w[4]];
  }

  // What an interval schedule is written as.
  lemma IntervalIsWritten(p: Preset, number: Reading, step: string)
    requires p.freq == Interval && p.n > 0 && step == "*/" + Digits(p.n, 10)
    ensures CronFromPreset(p, number) == Join(IntervalWords(p.unit, step))
  {
  }

  lemma PlainIntervalComesBack(cron: string, number: Reading)
    requires IsRecognised(Words(cron)) && IsPlain(cron) && PresetFromCron(cron).freq == Interval
    ensures CronFromPreset(PresetFromCron(cron), number) == cron
  {
    var w, p := Words(cron), PresetFromCron(cron);
    var k := IntervalWordsAre(w, Trim(cron));
    StepText(w[k]);
    IntervalIsWritten(p, number, w[k]);
  }

  lemma ShownHourIs(hour: nat)
    requires hour < 24
    ensures ShownHour(hour) == hour
  {}

  lemma PlainNumbers(minute: string, hour: string)
    requires IsUnpadded(minute) && IsUnpadded(hour) && Value(minute) < 100 && Value(hour) < 24
    ensures Digits(ShownMinute(Value(minute)), 10) == minute && Digits(ShownHour(Value(hour)), 10) == hour
  {
    ShownMinuteIs(Value(minute));
    ShownHourIs(Value(hour));
    DigitsOfValue(minute);
    DigitsOfValue(hour);
  }

  lemma ClockWordsAre(w: seq<string>, trimmed: string)
    requires |w| == 5 && IsClockWords(w) && IsClockFreq(PresetFromWords(w, trimmed).freq)
    ensures w == ClockWords(PresetFromWords(w, trimmed).freq, w[0], w[1])
  {
  }

  lemma PlainClockComesBack(cron: string, number: Reading)
    requires ReadsDecimals(number) && IsRecognised(Words(cron)) && IsPlain(cron)
      && IsClockFreq(PresetFromCron(cron).freq)
    ensures CronFromPreset(PresetFromCron(cron), number) == cron
  {
    var w := Words(cron);
    ClockText(cron, PresetFromCron(cron), number);
    PlainNumbers(w[0], w[1]);
    ClockWordsAre(w, Trim(cron));
  }

  lemma PlainComesBack(cron: string, number: Reading)
    requires ReadsDecimals(number) && IsRecognised(Words(cron)) && IsPlain(cron)
    ensures CronFromPreset(PresetFromCron(cron), number) == cron
  {
    var w, p := Words(cron), PresetFromCron(cron);
    RecognisedIff(cron);
    if IsClockFreq(p.freq) {
      PlainClockComesBack(cron, number);
    } else if p.freq == Interval {
      PlainIntervalComesBack(cron, number);
    } else {
      assert w == ["0", "*", "*", "*", "*"];
    }
  }

  lemma StepsArePlain(unit: CronUnit, step: string)
    requires StepValue(step).Some? && IsWord(step) && IsUnpadded(step[2..])
    ensures IsPlain(Join(IntervalWords(unit, step)))
  {
    PresetOfIntervalWords(unit, step);
    assert "*"[0] == '*';
    assert StepValue("*").None? && StepValue("0").None?;
    assert step[0] == step[..2][0] == '*';
  }

  // What a preset is turned into is plain.
  lemma IntervalIsPlain(p: Preset, number: Reading)
    requires p.freq == Interval
    ensures IsPlain(CronFromPreset(p, number))
  {
    var n: nat := if p.n > 0 then p.n else 5;
    StepIs(n);
    StepsArePlain(p.unit, "*/" + Digits(n, 10));
  }

  lemma ClockIsPlain(freq: Freq, minute: string, hour: string)
    requires IsClockFreq(freq) && IsUnpadded(minute) && IsUnpadded(hour) && Value(minute) < 100 && Value(hour) < 24
    ensures IsPlain(Join(ClockWords(freq, minute, hour)))
  {
    PresetOfClockWords(freq, minute, hour);
    DecimalIsWord(minute);
    DecimalIsWord(hour);
    assert StepValue("*").None? && StepValue("1").None?;
  }

  lemma EveryHourIsPlain()
    ensures IsPlain(Join(["0", "*", "*", "*", "*"]))
  {
    MarksAreWords();
    WordsOfJoin(["0", "*", "*", "*", "*"]);
  }

  lemma ClockComesOutPlain(cron: string, p: Preset, number: Reading)
    requires ReadsDecimals(number) && p == PresetFromCron(cron) && IsClockFreq(p.freq)
    ensures IsPlain(CronFromPreset(p, number))
  {
    var w := Words(cron);
    ClockText(cron, p, number);
    ShownMinuteIs(Value(w[0]));
    FormatAgain(Value(w[1]), 0);
    ValueOfDigits(ShownMinute(Value(w[0])));
    ValueOfDigits(ShownHour(Value(w[1])));
    ClockIsPlain(p.freq, Digits(ShownMinute(Value(w[0])), 10), Digits(ShownHour(Value(w[1])), 10));
  }

  lemma RecognisedIsPlain(cron: string, number: Reading)
    requires ReadsDecimals(number) && IsRecognised(Words(cron))
    ensures IsPlain(CronFromPreset(PresetFromCron(cron), number))
  {
    var p := PresetFromCron(cron);
    RecognisedIff(cron);
    if IsClockFreq(p.freq) {
      ClockComesOutPlain(cron, p, number);
    } else if p.freq == Interval {
      IntervalIsPlain(p, number);
    } else {
      EveryHourIsPlain();
    }
  }

  lemma RecognisedAreWords(w: seq<string>)
    requires |w| == 5 && IsRecognised(w)
    ensures forall i :: 0 <= i < 5 ==> IsWord(w[i])
  {
  }

  lemma PlainIsTrimmed(cron: string)
    requires IsPlain(cron) && IsRecognised(Words(cron))
    ensures cron == Trim(cron) != ""
  {
    RecognisedAreWords(Words(cron));
    JoinStartsAndEnds(Words(cron));
    WordsOfJoin(Words(cron));
  }

  // An expression survives the way through a preset exactly when it is trimmed and not empty and, if it
  // names an everyday schedule, is written plainly.
  lemma CronRoundTripIff(cron: string, number: Reading)
    requires ReadsDecimals(number)
    ensures CronFromPreset(PresetFromCron(cron), number) == cron
       <==> cron == Trim(cron) != "" && (IsRecognised(Words(cron)) ==> IsPlain(cron))
  {
    RecognisedIff(cron);
    if IsRecognised(Words(cron)) {
      RecognisedIsPlain(cron, number);
      if IsPlain(cron) {
        PlainComesBack(cron, number);
      }
      if CronFromPreset(PresetFromCron(cron), number) == cron {
        PlainIsTrimmed(cron);
      }
    } else {
      TrimTwice(cron);
    }
  }
}
