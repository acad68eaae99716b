/**
 Schedules in everyday terms and as cron expressions (packages/core/src/cron.ts): when the two
 translations undo each other. Numbers are whole; `number` stands for JavaScript's Number on text, of
 which only the reading of decimal digits is used.
 */
module CronPresets {
  import opened Wrappers
  import opened Numerals
  import opened CronText

  datatype Freq = EveryHour | EveryDay | Weekdays | EveryWeek | EveryMonth | Interval | Advanced

  datatype CronUnit = Minutes | Hours | Days

  datatype Preset = Preset(freq: Freq, n: int, unit: CronUnit, time: string, cron: string)

  const DEFAULT: Preset := Preset(EveryDay, 3, Minutes, "9:00 AM", "")

  ghost predicate ReadsDecimals(number: Reading) {
    forall s: string :: IsDecimal(s) ==> number(s) == Some(Value(s))
  }

  function Join(words: seq<string>): string {
    if words == [] then "" else if |words| == 1 then words[0] else words[0] + (" " + Join(words[1..]))
  }

  function Show(n: Option<int>): string {
    if n.None? then "NaN" else if n.value < 0 then "-" + Digits(-n.value, 10) else Digits(n.value, 10)
  }

  // ----- the clock -------------------------------------------------------------------------------------

  function Lower(c: char): char {
    if 'A' <= c <= 'Z' then 'a' + (c - 'A') else c
  }

  // The regular expressions /am/i and /pm/i.
  predicate HasPair(s: string, a: char, b: char) {
    exists i :: 0 <= i < |s| - 1 && Lower(s[i]) == a && Lower(s[i + 1]) == b
  }

  datatype Clock = Clock(hour: Option<int>, minute: Option<int>)

  function ParseClock(time: string, number: Reading): Clock {
    var parts := SplitOn(time, ':', "");
    var rest := if |parts| > 1 then parts[1] else "00";
    var minute := number(if |rest| > 2 then rest[..2] else rest);
    var raw := number(parts[0]);
    var hour := if HasPair(time, 'p', 'm') && raw.Some? && raw.value < 12 then Some(raw.value + 12) else raw;
    Clock(if HasPair(time, 'a', 'm') && hour == Some(12) then Some(0) else hour, minute)
  }

  function PadTwo(n: nat): string {
    var s := Digits(n, 10);
    if |s| < 2 then "0" + s else s
  }

  function TwelveHour(hour: nat): nat {
    if hour % 12 == 0 then 12 else hour % 12
  }

  function Period(hour: nat): string {
    if hour >= 12 then "PM" else "AM"
  }

  function FormatClock(hour: nat, minute: nat): string {
    Digits(TwelveHour(hour), 10) + (":" + (PadTwo(minute) + (" " + Period(hour))))
  }

  // ----- the two translations --------------------------------------------------------------------------

  function IntervalWords(unit: CronUnit, step: string): seq<string> {
    match unit
    case Days => ["0", "0", step, "*", "*"]
    case Hours => ["0", step, "*", "*", "*"]
    case Minutes => [step, "*", "*", "*", "*"]
  }

  function CronFromPreset(p: Preset, number: Reading): string {
    var clock := ParseClock(p.time, number);
    match p.freq
    case Advanced => if Trim(p.cron) == "" then "*/3 * * * *" else Trim(p.cron)
    case EveryHour => Join(["0", "*", "*", "*", "*"])
    case Interval => Join(IntervalWords(p.unit, "*/" + Digits(if p.n > 0 then p.n else 5, 10)))
    case Weekdays => Join([Show(clock.minute), Show(clock.hour), "*", "*", "1-5"])
    case EveryWeek => Join([Show(clock.minute), Show(clock.hour), "*", "*", "1"])
    case EveryMonth => Join([Show(clock.minute), Show(clock.hour), "1", "*", "*"])
    case EveryDay => Join([Show(clock.minute), Show(clock.hour), "*", "*", "*"])
  }

  // The number behind "*/", if there is one and it is not zero.
  function StepValue(expr: string): Option<nat> {
    if StartsWithStep(expr) && IsDecimal(expr[2..]) && Value(expr[2..]) > 0 then Some(Value(expr[2..])) else None
  }

  function PresetFromWords(w: seq<string>, trimmed: string): Preset {
    var advanced := DEFAULT.(freq := Advanced, cron := trimmed);
    if |w| < 5 || w[3] != "*" then advanced
    else if w[0] == "0" && w[1] == "*" && w[2] == "*" && w[4] == "*" then DEFAULT.(freq := EveryHour)
    else if StepValue(w[0]).Some? && w[1] == "*" && w[2] == "*" && w[4] == "*" then
      DEFAULT.(freq := Interval, n := StepValue(w[0]).value, unit := Minutes)
    else if w[0] == "0" && StepValue(w[1]).Some? && w[2] == "*" && w[4] == "*" then
      DEFAULT.(freq := Interval, n := StepValue(w[1]).value, unit := Hours)
    else if w[0] == "0" && w[1] == "0" && StepValue(w[2]).Some? && w[4] == "*" then
      DEFAULT.(freq := Interval, n := StepValue(w[2]).value, unit := Days)
    else if !IsDecimal(w[0]) || !IsDecimal(w[1]) then advanced
    else
      var time := FormatClock(Value(w[1]), Value(w[0]));
      if w[2] == "*" && w[4] == "1-5" then DEFAULT.(freq := Weekdays, time := time)
      else if w[2] == "*" && w[4] == "1" then DEFAULT.(freq := EveryWeek, time := time)
      else if w[2] == "1" && w[4] == "*" then DEFAULT.(freq := EveryMonth, time := time)
      else if w[2] == "*" && w[4] == "*" then DEFAULT.(freq := EveryDay, time := time)
      else advanced
  }

  function PresetFromCron(cron: string): Preset {
    PresetFromWords(Words(cron), Trim(cron))
  }

  // ----- splitting what was joined ----------------------------------------------------------------------

  predicate IsWord(s: string) {
    s != "" && forall i :: 0 <= i < |s| ==> !IsSpace(s[i])
  }

  lemma {:induction false} SplitReadsWord(w: string, rest: string, word: string)
    requires forall i :: 0 <= i < |w| ==> !IsSpace(w[i])
    ensures SplitSpaces(w + rest, word) == SplitSpaces(rest, word + w)
  {
    if w == "" {
      assert w + rest == rest && word + w == word;
    } else {
      assert (w + rest)[1..] == w[1..] + rest;
      SplitReadsWord(w[1..], rest, word + [w[0]]);
      assert word + [w[0]] + w[1..] == word + w;
    }
  }

  lemma {:induction false} JoinStartsAndEnds(words: seq<string>)
    requires words != [] && forall i :: 0 <= i < |words| ==> IsWord(words[i])
    ensures var s := Join(words); s != "" && !IsSpace(s[0]) && !IsSpace(s[|s| - 1])
  {
    if |words| > 1 {
      JoinStartsAndEnds(words[1..]);
    }
  }

  lemma {:induction false} SplitOfJoin(words: seq<string>)
    requires words != [] && forall i :: 0 <= i < |words| ==> IsWord(words[i])
    ensures SplitSpaces(Join(words), "") == words
  {
    assert "" + words[0] == words[0];
    if |words| == 1 {
      assert words[0] + "" == words[0];
      SplitReadsWord(words[0], "", "");
    } else {
      var rest := Join(words[1..]);
      SplitReadsWord(words[0], " " + rest, "");
      assert (" " + rest)[1..] == rest;
      JoinStartsAndEnds(words[1..]);
      SplitOfJoin(words[1..]);
    }
  }

  lemma WordsOfJoin(words: seq<string>)
    requires words != [] && forall i :: 0 <= i < |words| ==> IsWord(words[i])
    ensures Words(Join(words)) == words && Trim(Join(words)) == Join(words)
  {
    JoinStartsAndEnds(words);
    SplitOfJoin(words);
  }
}
