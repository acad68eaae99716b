/**
 Secret redaction of packages/core/src/events.ts: `redactSecrets` on a whole text, and the
 streaming redactor, which must decide about a secret before all of it has arrived.
 */
module Redactor {
  // The text a secret is replaced with. Most of what follows holds for any `mark` in its place.
  const REDACTED := "[redacted]"

  // ----- one leftmost, longest-first scan of a whole text ------------------------------------

  predicate StartsWith(text: string, offset: nat, value: string) {
    offset + |value| <= |text| && forall i | 0 <= i < |value| :: text[offset + i] == value[i]
  }

  // The first value that the text has at the offset, or the empty string.
  function FirstMatch(values: seq<string>, text: string, offset: nat): (found: string)
    ensures found != "" ==> offset + |found| <= |text|
  {
    if values == [] then ""
    else if values[0] != "" && StartsWith(text, offset, values[0]) then values[0]
    else FirstMatch(values[1..], text, offset)
  }

  lemma {:induction false} FirstMatchFinds(values: seq<string>, text: string, offset: nat)
    ensures var found := FirstMatch(values, text, offset);
            && (found != "" ==> found in values && StartsWith(text, offset, found))
            && (found == "" ==> forall v | v in values && v != "" :: !StartsWith(text, offset, v))
  {
    if values == [] {
    } else {
      FirstMatchFinds(values[1..], text, offset);
      assert values == [values[0]] + values[1..];
    }
  }

  // What one step of the scan writes, and how much of the text it covers.
  function Token(mark: string, values: seq<string>, text: string): string
    requires text != ""
  {
    if FirstMatch(values, text, 0) != "" then mark else [text[0]]
  }

  function Width(values: seq<string>, text: string): (n: nat)
    requires text != ""
    ensures 1 <= n <= |text|
  {
    var secret := FirstMatch(values, text, 0);
    if secret != "" then |secret| else 1
  }

  function Scan(mark: string, values: seq<string>, text: string): string
    decreases |text|
  {
    if text == "" then "" else Token(mark, values, text) + Scan(mark, values, text[Width(values, text)..])
  }

  // ----- the candidate list ---------------------------------------------------------------------

  // The nonempty secrets, first occurrences only, as a Set keeps them.
  function Distinct(secrets: seq<string>): seq<string> {
    if secrets == [] then []
    else
      var before, last := Distinct(secrets[..|secrets| - 1]), secrets[|secrets| - 1];
      if last == "" || last in before then before else before + [last]
  }

  // A value goes behind everything at least as long: a stable sort by falling length.
  function InsertByLength(sorted: seq<string>, value: string): seq<string> {
    if sorted == [] || |sorted[0]| < |value| then [value] + sorted
    else [sorted[0]] + InsertByLength(sorted[1..], value)
  }

  function SortByLength(values: seq<string>): seq<string> {
    if values == [] then []
    else InsertByLength(SortByLength(values[..|values| - 1]), values[|values| - 1])
  }

  function Candidates(secrets: seq<string>): seq<string> {
    SortByLength(Distinct(secrets))
  }

  ghost predicate LongestFirst(values: seq<string>) {
    "" !in values && forall i, j | 0 <= i < j < |values| :: |values[i]| >= |values[j]|
  }

  lemma {:induction false} DistinctKeeps(secrets: seq<string>)
    ensures forall v :: v in Distinct(secrets) <==> v in secrets && v != ""
  {
    if secrets == [] {
    } else {
      var front, last := secrets[..|secrets| - 1], secrets[|secrets| - 1];
      DistinctKeeps(front);
      assert secrets == front + [last];
    }
  }

  lemma {:induction false} InsertKeepsOrder(sorted: seq<string>, value: string)
    requires LongestFirst(sorted) && value != ""
    ensures LongestFirst(InsertByLength(sorted, value))
    ensures forall v :: v in InsertByLength(sorted, value) <==> v == value || v in sorted
    ensures |InsertByLength(sorted, value)| == |sorted| + 1
  {
    if sorted == [] || |sorted[0]| < |value| {
    } else {
      var rest := sorted[1..];
      assert forall i | 0 <= i < |rest| :: rest[i] == sorted[i + 1];
      InsertKeepsOrder(rest, value);
      assert sorted == [sorted[0]] + rest;
      var r := InsertByLength(rest, value);
      forall i | 0 <= i < |r| ensures |sorted[0]| >= |r[i]| {
        assert r[i] in r;
        if r[i] != value {
          var j :| 0 <= j < |rest| && rest[j] == r[i];
        }
      }
    }
  }

  lemma {:induction false} SortKeeps(values: seq<string>)
    requires "" !in values
    ensures LongestFirst(SortByLength(values))
    ensures forall v :: v in SortByLength(values) <==> v in values
    ensures |SortByLength(values)| == |values|
  {
    if values == [] {
    } else {
      var front, last := values[..|values| - 1], values[|values| - 1];
      assert values == front + [last];
      SortKeeps(front);
      InsertKeepsOrder(SortByLength(front), last);
    }
  }

  /** The candidates are the nonempty secrets, longest first. */
  lemma CandidatesAre(secrets: seq<string>)
    ensures LongestFirst(Candidates(secrets))
    ensures forall v :: v in Candidates(secrets) <==> v in secrets && v != ""
  {
    DistinctKeeps(secrets);
    SortKeeps(Distinct(secrets));
  }

  lemma HeadIsLongest(values: seq<string>)
    requires LongestFirst(values) && values != []
    ensures forall v | v in values :: |v| <= |values[0]|
  {
    forall v | v in values
      ensures |v| <= |values[0]|
    {
      var i :| 0 <= i < |values| && values[i] == v;
    }
  }

  lemma TailIsLongestFirst(values: seq<string>)
    requires LongestFirst(values) && values != []
    ensures LongestFirst(values[1..])
  {
    assert forall i | 0 <= i < |values| - 1 :: values[1..][i] == values[i + 1];
  }

  /** Where several secrets match, the scan replaces a longest one. */
  lemma {:induction false} FirstMatchIsLongest(values: seq<string>, text: string, offset: nat)
    requires LongestFirst(values)
    ensures forall v | v in values && StartsWith(text, offset, v) :: |v| <= |FirstMatch(values, text, offset)|
  {
    if values == [] {
    } else if StartsWith(text, offset, values[0]) {
      HeadIsLongest(values);
    } else {
      TailIsLongestFirst(values);
      FirstMatchIsLongest(values[1..], text, offset);
      assert values == [values[0]] + values[1..];
    }
  }

  // ----- draining the buffer ----------------------------------------------------------------------

  function MaxLength(values: seq<string>): nat {
    if values == [] then 0 else |values[0]|
  }

  // The offsets below this are scanned: all of them at the end, otherwise those at which the
  // longest secret would still fit in the buffer.
  function SafeStartLimit(values: seq<string>, length: nat, last: bool): nat {
    if last then length
    else if length + 1 < MaxLength(values) then 0
    else length + 1 - MaxLength(values)
  }

  function DrainOutput(mark: string, values: seq<string>, text: string, limit: int): string
    decreases |text|
  {
    if limit <= 0 || text == "" then ""
    else
      var n := Width(values, text);
      Token(mark, values, text) + DrainOutput(mark, values, text[n..], limit - n)
  }

  function DrainRest(values: seq<string>, text: string, limit: int): string
    decreases |text|
  {
    if limit <= 0 || text == "" then text
    else
      var n := Width(values, text);
      DrainRest(values, text[n..], limit - n)
  }

  // Text behind a position where the longest secret still fits cannot change the match there.
  lemma {:induction false} MatchIsSettled(values: seq<string>, text: string, more: string)
    requires forall v | v in values :: |v| <= |text|
    ensures FirstMatch(values, text + more, 0) == FirstMatch(values, text, 0)
  {
    if values == [] {
    } else {
      assert values[0] in values;
      assert (text + more)[..|values[0]|] == text[..|values[0]|];
      MatchIsSettled(values[1..], text, more);
    }
  }

  predicate Within(values: seq<string>, longest: nat) {
    forall v | v in values :: |v| <= longest
  }

  lemma LongestFirstIsWithin(values: seq<string>)
    requires LongestFirst(values)
    ensures Within(values, MaxLength(values))
  {
  }

  lemma StepIsSettled(mark: string, values: seq<string>, longest: nat, text: string, more: string)
    requires Within(values, longest) && text != "" && (longest <= |text| || more == "")
    ensures Token(mark, values, text + more) == Token(mark, values, text)
      && Width(values, text + more) == Width(values, text)
  {
    if more == "" {
      assert text + more == text;
    } else {
      MatchIsSettled(values, text, more);
    }
  }

  // What is left to drain behind the first token.
  lemma BehindToken(values: seq<string>, longest: nat, text: string, limit: int, more: string)
      returns (rest: string, left: int)
    requires limit > 0 && text != "" && (limit + longest <= |text| + 1 || more == "")
    ensures rest == text[Width(values, text)..] && left == limit - Width(values, text)
    ensures |rest| < |text| && (left + longest <= |rest| + 1 || more == "")
  {
    var n := Width(values, text);
    rest, left := text[n..], limit - n;
  }

  lemma Unit(a: string)
    ensures "" + a == a && a + "" == a
  {
  }

  lemma NothingDrained(mark: string, values: seq<string>, text: string, limit: int, more: string)
    requires limit <= 0 || text == ""
    ensures Scan(mark, values, text + more)
         == DrainOutput(mark, values, text, limit) + Scan(mark, values, DrainRest(values, text, limit) + more)
  {
    Unit(Scan(mark, values, text + more));
  }

  lemma Regroup(token: string, output: string, tail: string, whole: string)
    requires whole == output + tail
    ensures token + whole == (token + output) + tail
  {
  }

  lemma ScanStep(mark: string, values: seq<string>, longest: nat, text: string, more: string)
    requires Within(values, longest) && text != "" && (longest <= |text| || more == "")
    ensures Scan(mark, values, text + more)
      == Token(mark, values, text) + Scan(mark, values, text[Width(values, text)..] + more)
  {
    StepIsSettled(mark, values, longest, text, more);
    var n := Width(values, text);
    assert (text + more)[n..] == text[n..] + more;
  }

  lemma DrainUnfolds(mark: string, values: seq<string>, text: string, limit: nat)
    requires text != "" && limit > 0
    ensures var n := Width(values, text);
            && DrainOutput(mark, values, text, limit)
              == Token(mark, values, text) + DrainOutput(mark, values, text[n..], limit - n)
            && DrainRest(values, text, limit) == DrainRest(values, text[n..], limit - n)
  {
  }

  lemma TurnSplitsScan(mark: string, values: seq<string>, longest: nat, text: string, limit: nat, more: string,
                       rest: string, left: int)
    requires Within(values, longest) && text != "" && limit > 0 && (longest <= |text| || more == "")
    requires rest == text[Width(values, text)..] && left == limit - Width(values, text)
    requires Scan(mark, values, rest + more)
      == DrainOutput(mark, values, rest, left) + Scan(mark, values, DrainRest(values, rest, left) + more)
    ensures Scan(mark, values, text + more)
         == DrainOutput(mark, values, text, limit) + Scan(mark, values, DrainRest(values, text, limit) + more)
  {
    assert Scan(mark, values, text + more) == Token(mark, values, text) + Scan(mark, values, rest + more) by {
      ScanStep(mark, values, longest, text, more);
    }
    DrainUnfolds(mark, values, text, limit);
    Regroup(Token(mark, values, text), DrainOutput(mark, values, rest, left),
        Scan(mark, values, DrainRest(values, rest, left) + more),
            Scan(mark, values, rest + more));
  }

  lemma {:induction false} DrainSplitsScan(mark: string, values: seq<string>, longest: nat, text: string, limit: int,
                                           more: string)
    requires Within(values, longest)
    requires limit + longest <= |text| + 1 || more == ""
    ensures Scan(mark, values, text + more)
         == DrainOutput(mark, values, text, limit) + Scan(mark, values, DrainRest(values, text, limit) + more)
    decreases |text|
  {
    if limit <= 0 || text == "" {
      NothingDrained(mark, values, text, limit, more);
    } else {
      var rest, left := BehindToken(values, longest, text, limit, more);
      DrainSplitsScan(mark, values, longest, rest, left, more);
      TurnSplitsScan(mark, values, longest, text, limit, more, rest, left);
    }
  }

  lemma Assoc(a: string, b: string, c: string)
    ensures (a + b) + c == a + (b + c)
  {
  }

  lemma {:induction false} RestIsShort(values: seq<string>, text: string, limit: int)
    ensures |DrainRest(values, text, limit)| <= if limit < 0 then |text| else if limit > |text| then 0
      else |text| - limit
    decreases |text|
  {
    if limit <= 0 || text == "" {
    } else {
      var n := Width(values, text);
      RestIsShort(values, text[n..], limit - n);
      if limit - n < 0 {
        assert |DrainRest(values, text[n..], limit - n)| <= |text| - n;
      }
    }
  }

  lemma {:induction false} MatchShifts(values: seq<string>, text: string, offset: nat)
    requires offset <= |text|
    ensures FirstMatch(values, text, offset) == FirstMatch(values, text[offset..], 0)
  {
    if values == [] {
    } else {
      MatchShifts(values[1..], text, offset);
      if offset + |values[0]| <= |text| {
        assert text[offset..][..|values[0]|] == text[offset..offset + |values[0]|];
      }
    }
  }

  // What the drain loop has written and what it still has to do make up the whole drain.
  predicate Drained(mark: string, values: seq<string>, whole: string, end: string, output: string, rest: string,
                    left: int) {
    output + DrainOutput(mark, values, rest, left) == whole && DrainRest(values, rest, left) == end
  }

  lemma DrainTurn(mark: string, values: seq<string>, whole: string, end: string, output: string, rest: string,
                  left: nat, token: string, next: string, left': int)
    requires Drained(mark, values, whole, end, output, rest, left) && rest != "" && left > 0
    requires token == Token(mark, values, rest) && next == rest[Width(values, rest)..]
      && left' == left - Width(values, rest)
    ensures Drained(mark, values, whole, end, output + token, next, left')
  {
    DrainUnfolds(mark, values, rest, left);
    Assoc(output, token, DrainOutput(mark, values, next, left'));
  }

  lemma TokenAt(mark: string, values: seq<string>, text: string, offset: nat)
    requires offset < |text|
    ensures var secret, rest := FirstMatch(values, text, offset), text[offset..];
            if secret != "" then Token(mark, values, rest) == mark && Width(values, rest) == |secret|
            else Token(mark, values, rest) == [text[offset]] && Width(values, rest) == 1
  {
  }

  // `emitted` then a scan of `buffer` is what a scan of `seen` gives, whatever comes next.
  ghost predicate Continues(mark: string, values: seq<string>, seen: string, emitted: string, buffer: string) {
    forall more :: Scan(mark, values, seen + more) == emitted + Scan(mark, values, buffer + more)
  }

  lemma DrainContinuesWith(mark: string, values: seq<string>, seen: string, emitted: string, buffer: string,
                           chunk: string, more: string)
    requires LongestFirst(values)
      && Scan(mark, values, seen + (chunk + more)) == emitted + Scan(mark, values, buffer + (chunk + more))
    ensures var limit := SafeStartLimit(values, |buffer + chunk|, false);
            Scan(mark, values, (seen + chunk) + more) ==
              (emitted + DrainOutput(mark, values, buffer + chunk, limit)) +
                  Scan(mark, values, DrainRest(values, buffer + chunk, limit) + more)
  {
    var text := buffer + chunk;
    var limit := SafeStartLimit(values, |text|, false);
    Assoc(seen, chunk, more);
    Assoc(buffer, chunk, more);
    if limit > 0 {
      LongestFirstIsWithin(values);
      DrainSplitsScan(mark, values, MaxLength(values), text, limit, more);
    } else {
      Unit(Scan(mark, values, text + more));
    }
    Assoc(emitted, DrainOutput(mark, values, text, limit), Scan(mark, values, DrainRest(values, text, limit) + more));
  }

  lemma DrainContinues(mark: string, values: seq<string>, seen: string, emitted: string, buffer: string, chunk: string)
    requires LongestFirst(values) && Continues(mark, values, seen, emitted, buffer)
    ensures var limit := SafeStartLimit(values, |buffer + chunk|, false);
            Continues(mark, values, seen + chunk, emitted + DrainOutput(mark, values, buffer + chunk, limit),
                      DrainRest(values, buffer + chunk, limit))
  {
    var text := buffer + chunk;
    var limit := SafeStartLimit(values, |text|, false);
    var output, rest := DrainOutput(mark, values, text, limit), DrainRest(values, text, limit);
    forall more ensures Scan(mark, values, (seen + chunk) + more)
        == (emitted + output) + Scan(mark, values, rest + more) {
      DrainContinuesWith(mark, values, seen, emitted, buffer, chunk, more);
    }
  }

  // The drain loop at an offset.
  predicate DrainedTo(mark: string, values: seq<string>, whole: string, end: string, output: string, text: string,
                      offset: nat, limit: nat) {
    offset <= |text| && Drained(mark, values, whole, end, output, text[offset..], limit - offset)
  }

  // One turn of the drain loop: what it writes, and how far it moves.
  method DrainOne(mark: string, values: seq<string>, text: string, offset: nat, limit: nat, output: string,
                  ghost whole: string, ghost end: string)
      returns (token: string, n: nat)
    requires DrainedTo(mark, values, whole, end, output, text, offset, limit) && offset < limit <= |text|
    ensures n > 0 && DrainedTo(mark, values, whole, end, output + token, text, offset + n, limit)
  {
    ghost var rest := text[offset..];
    TokenAt(mark, values, text, offset);
    var secret := FirstMatch(values, text, offset);
    if secret != "" {
      token, n := mark, |secret|;
    } else {
      token, n := [text[offset]], 1;
    }
    assert text[offset + n..] == rest[n..];
    DrainTurn(mark, values, whole, end, output, rest, limit - offset, token, rest[n..], limit - offset - n);
  }

  lemma StartDrained(mark: string, values: seq<string>, text: string, limit: nat)
    ensures DrainedTo(mark, values, DrainOutput(mark, values, text, limit), DrainRest(values, text, limit), "", text, 0,
                      limit)
  {
    assert text[0..] == text;
  }

  lemma EndDrained(mark: string, values: seq<string>, whole: string, end: string, output: string, text: string,
                   offset: nat, limit: nat)
    requires DrainedTo(mark, values, whole, end, output, text, offset, limit) && offset >= limit
    ensures offset <= |text| && output == whole && text[offset..] == end
  {
  }

  method DrainText(mark: string, values: seq<string>, text: string, limit: nat) returns (output: string, rest: string)
    requires limit <= |text|
    ensures output == DrainOutput(mark, values, text, limit) && rest == DrainRest(values, text, limit)
  {
    ghost var whole, end := DrainOutput(mark, values, text, limit), DrainRest(values, text, limit);
    var offset := 0;
    output := "";
    StartDrained(mark, values, text, limit);
    while offset < limit
      invariant DrainedTo(mark, values, whole, end, output, text, offset, limit)
      decreases limit - offset
    {
      var token, n := DrainOne(mark, values, text, offset, limit, output, whole, end);
      output, offset := output + token, offset + n;
    }
    EndDrained(mark, values, whole, end, output, text, offset, limit);
    rest := text[offset..];
  }

  lemma TokenOfNothing(mark: string, text: string)
    requires text != ""
    ensures Token(mark, [], text) == [text[0]] && Width([], text) == 1
  {
  }

  lemma {:induction false} DrainOfNothing(mark: string, text: string, limit: nat)
    requires limit >= |text|
    ensures DrainOutput(mark, [], text, limit) == text && DrainRest([], text, limit) == ""
    decreases |text|
  {
    if text == "" {
    } else {
      TokenOfNothing(mark, text);
      DrainUnfolds(mark, [], text, limit);
      DrainOfNothing(mark, text[1..], limit - 1);
      assert text == [text[0]] + text[1..];
    }
  }

  /** The redactor's own state is `values` and `buffer`; `seen` and `emitted` are everything that
      was pushed and returned so far. */
  class StreamingRedactor {
    const values: seq<string>
    var buffer: string
    ghost var seen: string
    ghost var emitted: string

    ghost predicate Valid()
      reads this
    {
      && LongestFirst(values)
      && (if values == [] then buffer == "" else |buffer| < MaxLength(values))
      && Continues(REDACTED, values, seen, emitted, buffer)
    }

    constructor (secrets: seq<string>)
      ensures Valid() && values == Candidates(secrets) && seen == "" && emitted == "" && buffer == ""
    {
      values := Candidates(secrets);
      buffer, seen, emitted := "", "", "";
      new;
      CandidatesAre(secrets);
      forall more ensures Scan(REDACTED, values, "" + more) == "" + Scan(REDACTED, values, "" + more) {
      }
      if values != [] {
        assert values[0] in values;
      }
    }

    method Drain(last: bool) returns (output: string)
      requires LongestFirst(values)
      modifies this`buffer
      ensures var limit := if values == [] then |old(buffer)| else SafeStartLimit(values, |old(buffer)|, last);
              output == DrainOutput(REDACTED, values, old(buffer), limit)
                  && buffer == DrainRest(values, old(buffer), limit)
    {
      if values == [] {
        DrainOfNothing(REDACTED, buffer, |buffer|);
        output := buffer;
        buffer := "";
        return;
      }
      assert values[0] in values;
      output, buffer := DrainText(REDACTED, values, buffer, SafeStartLimit(values, |buffer|, last));
    }

    method Push(chunk: string) returns (output: string)
      requires Valid()
      modifies this
      ensures Valid() && seen == old(seen) + chunk && emitted == old(emitted) + output
      ensures emitted <= Scan(REDACTED, values, seen)
    {
      DrainContinues(REDACTED, values, seen, emitted, buffer, chunk);
      buffer := buffer + chunk;
      ghost var text := buffer;
      output := Drain(false);
      seen, emitted := seen + chunk, emitted + output;
      if values == [] {
        DrainOfNothing(REDACTED, text, |text|);
        DrainOfNothing(REDACTED, text, SafeStartLimit(values, |text|, false));
      } else {
        RestIsShort(values, text, SafeStartLimit(values, |text|, false));
        assert values[0] in values;
      }
      assert Scan(REDACTED, values, seen + "") == emitted + Scan(REDACTED, values, buffer + "");
      assert seen + "" == seen;
    }

    method Finish() returns (output: string)
      requires Valid()
      modifies this
      ensures seen == old(seen) && emitted == old(emitted) + output
      ensures emitted == Scan(REDACTED, values, seen) && buffer == ""
    {
      ghost var text := buffer;
      assert Scan(REDACTED, values, seen + "") == emitted + Scan(REDACTED, values, buffer + "");
      assert seen + "" == seen && text + "" == text;
      output := Drain(true);
      LongestFirstIsWithin(values);
      DrainSplitsScan(REDACTED, values, MaxLength(values), text, |text|, "");
      RestIsShort(values, text, |text|);
      emitted := emitted + output;
    }
  }

  function Joined(chunks: seq<string>): string {
    if chunks == [] then "" else Joined(chunks[..|chunks| - 1]) + chunks[|chunks| - 1]
  }

  /** Chunking does not matter: pushing a text in any pieces and finishing gives one leftmost,
      longest-first scan of the whole text. */
  method RedactStream(secrets: seq<string>, chunks: seq<string>) returns (output: string)
    ensures output == Scan(REDACTED, Candidates(secrets), Joined(chunks))
  {
    var redactor := new StreamingRedactor(secrets);
    output := "";
    for i := 0 to |chunks|
      invariant redactor.Valid() && redactor.values == Candidates(secrets)
      invariant redactor.seen == Joined(chunks[..i]) && redactor.emitted == output
    {
      assert chunks[..i + 1][..i] == chunks[..i];
      var piece := redactor.Push(chunks[i]);
      output := output + piece;
    }
    assert chunks[..|chunks|] == chunks;
    var piece := redactor.Finish();
    output := output + piece;
  }
}
