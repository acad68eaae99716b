/**
 Cron expressions as text (packages/core/src/cron.ts): trimming, splitting on white space, and
 matching one field. `Reading` stands for JavaScript's Number on text: nothing for NaN.
 */
module CronText {
  import opened Wrappers

  type Reading = string -> Option<int>

  // What the regular expression \s and trim take for white space.
  predicate IsSpace(c: char) {
    || c == ' ' || '\t' <= c <= '\r' || c == '\U{00A0}' || c == '\U{1680}' || '\U{2000}' <= c <= '\U{200A}'
    || c == '\U{2028}' || c == '\U{2029}' || c == '\U{202F}' || c == '\U{205F}' || c == '\U{3000}' || c == '\U{FEFF}'
  }

  function TrimLeft(s: string): string {
    if s != "" && IsSpace(s[0]) then TrimLeft(s[1..]) else s
  }

  function TrimRight(s: string): string {
    if s != "" && IsSpace(s[|s| - 1]) then TrimRight(s[..|s| - 1]) else s
  }

  function Trim(s: string): string {
    TrimRight(TrimLeft(s))
  }

  lemma {:induction false} LeftIsShorter(s: string)
    ensures |TrimLeft(s)| <= |s|
  {
    if s != "" && IsSpace(s[0]) {
      LeftIsShorter(s[1..]);
    }
  }

  // text.split(/\s+/), with the word read so far.
  function SplitSpaces(s: string, word: string): seq<string>
    decreases |s|
  {
    if s == "" then [word]
    else if !IsSpace(s[0]) then SplitSpaces(s[1..], word + [s[0]])
    else
      LeftIsShorter(s[1..]);
      [word] + SplitSpaces(TrimLeft(s[1..]), "")
  }

  function Words(cron: string): seq<string> {
    SplitSpaces(Trim(cron), "")
  }

  // text.split(separator), with the part read so far.
  function SplitOn(s: string, separator: char, part: string): (parts: seq<string>)
    ensures |parts| >= 1
    ensures separator in s ==> |parts| >= 2
  {
    if s == "" then [part]
    else if s[0] == separator then [part] + SplitOn(s[1..], separator, "")
    else SplitOn(s[1..], separator, part + [s[0]])
  }

  function StartsWithStep(expr: string): bool {
    |expr| >= 2 && expr[..2] == "*/"
  }

  function ReadAll(parts: seq<string>, number: Reading): (values: seq<Option<int>>)
    ensures |values| == |parts| && forall i :: 0 <= i < |parts| ==> values[i] == number(parts[i])
  {
    if parts == [] then [] else [number(parts[0])] + ReadAll(parts[1..], number)
  }

  function MatchField(expr: string, value: nat, number: Reading): bool {
    if expr == "*" then true
    else if StartsWithStep(expr) then
      var step := number(expr[2..]);
      step.Some? && step.value > 0 && value % step.value == 0
    else if '-' in expr then
      var bounds := SplitOn(expr, '-', "");
      var a, b := number(bounds[0]), number(bounds[1]);
      a.Some? && b.Some? && a.value <= value <= b.value
    else if ',' in expr then
      Some(value) in ReadAll(SplitOn(expr, ',', ""), number)
    else
      number(expr) == Some(value)
  }
}
