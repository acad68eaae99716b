/** What redacted text can still contain, for the streaming redactor and for redactSecrets. */
module RedactorSafety {
  import opened Redactor

  predicate Occurs(text: string, value: string) {
    exists k :: 0 <= k <= |text| && StartsWith(text, k, value)
  }

  // Secrets that the replacement text cannot bring back.
  predicate Hideable(secret: string) {
    secret != "" && '[' !in secret && ']' !in secret && !Occurs("redacted", secret)
  }

  // ----- redactSecrets: split and join, one secret after the other ------------------------------

  // The first position at which the text has the value, or the length of the text.
  function FirstIndex(text: string, value: string): (k: nat)
    ensures k < |text| ==> StartsWith(text, k, value) && k + |value| <= |text|
    ensures k <= |text|
  {
    if text == "" then 0
    else if StartsWith(text, 0, value) then 0
    else 1 + FirstIndex(text[1..], value)
  }

  function Split(text: string, separator: string): (parts: seq<string>)
    requires separator != ""
    ensures parts != []
    decreases |text|
  {
    var k := FirstIndex(text, separator);
    if k == |text| then [text] else [text[..k]] + Split(text[k + |separator|..], separator)
  }

  function Join(parts: seq<string>, glue: string): string
    requires parts != []
  {
    if |parts| == 1 then parts[0] else parts[0] + glue + Join(parts[1..], glue)
  }

  function RedactSecrets(value: string, secrets: seq<string>): string {
    if secrets == [] then value
    else
      var acc := RedactSecrets(value, secrets[..|secrets| - 1]);
      var secret := secrets[|secrets| - 1];
      if secret == "" then acc else Join(Split(acc, secret), REDACTED)
  }

  lemma FrontGrows(text: string, k: nat)
    requires k + 1 <= |text|
    ensures text[..k + 1] == [text[0]] + text[1..][..k]
  {
  }

  lemma SplitUnfolds(text: string, secret: string, k: nat, behind: string)
    requires secret != "" && k == FirstIndex(text, secret) && k < |text| && behind == text[k + |secret|..]
    ensures Split(text, secret) == [text[..k]] + Split(behind, secret)
  {
  }

  lemma FirstPartGrows(c: char, head: string, longer: string, rest: seq<string>)
    requires rest != [] && longer == [c] + head
    ensures Join([longer] + rest, REDACTED) == [c] + Join([head] + rest, REDACTED)
  {
  }

  lemma SplitSkipsTo(text: string, secret: string, k: nat, behind: string)
    requires secret != "" && text != "" && k + 1 < |text|
    requires FirstIndex(text, secret) == k + 1 && FirstIndex(text[1..], secret) == k
    requires behind == text[1..][k + |secret|..]
    ensures Join(Split(text, secret), REDACTED) == [text[0]] + Join(Split(text[1..], secret), REDACTED)
  {
    assert text[k + 1 + |secret|..] == behind;
    var parts := Split(behind, secret);
    SplitUnfolds(text, secret, k + 1, behind);
    SplitUnfolds(text[1..], secret, k, behind);
    FrontGrows(text, k);
    FirstPartGrows(text[0], text[1..][..k], text[..k + 1], parts);
  }

  // A character at which the separator does not start stays with the first part.
  lemma SplitSkips(text: string, secret: string)
    requires secret != "" && text != "" && !StartsWith(text, 0, secret)
    ensures Join(Split(text, secret), REDACTED) == [text[0]] + Join(Split(text[1..], secret), REDACTED)
  {
    var tail := text[1..];
    var k := FirstIndex(tail, secret);
    assert FirstIndex(text, secret) == k + 1;
    if k == |tail| {
      assert text == [text[0]] + tail;
    } else {
      SplitSkipsTo(text, secret, k, tail[k + |secret|..]);
    }
  }

  lemma JoinCons(head: string, rest: seq<string>)
    requires rest != []
    ensures Join([head] + rest, REDACTED) == head + (REDACTED + Join(rest, REDACTED))
  {
  }

  lemma {:induction false} SplitJoinIsScan(text: string, secret: string)
    requires secret != ""
    ensures Join(Split(text, secret), REDACTED) == Scan(REDACTED, [secret], text)
    decreases |text|
  {
    if text == "" {
    } else if StartsWith(text, 0, secret) {
      var rest := text[|secret|..];
      SplitJoinIsScan(rest, secret);
      assert Split(text, secret) == [""] + Split(rest, secret);
      JoinCons("", Split(rest, secret));
      assert FirstMatch([secret], text, 0) == secret;
    } else {
      var tail := text[1..];
      SplitJoinIsScan(tail, secret);
      SplitSkips(text, secret);
      assert FirstMatch([secret], text, 0) == "";
    }
  }

  // ----- what a scan can contain ------------------------------------------------------------------

  lemma StartsWithTail(text: string, k: nat, value: string)
    requires value != "" && StartsWith(text, k, value)
    ensures StartsWith(text, k + 1, value[1..])
  {
  }

  lemma StartsWithShift(text: string, n: nat, k: nat, value: string)
    requires n <= |text|
    ensures StartsWith(text[n..], k, value) <==> StartsWith(text, n + k, value)
  {
  }

  lemma StartsWithBehind(head: string, tail: string, k: nat, value: string)
    requires k >= |head|
    ensures StartsWith(head + tail, k, value) <==> StartsWith(tail, k - |head|, value)
  {
  }

  // Bracket-free text at the front of a scan was at the front of the scanned text.
  lemma {:induction false} FrontIsReflected(values: seq<string>, text: string, value: string)
    requires '[' !in value && StartsWith(Scan(REDACTED, values, text), 0, value)
    ensures StartsWith(text, 0, value)
    decreases |value|
  {
    if value == "" {
    } else {
      var out := Scan(REDACTED, values, text);
      assert out[0] == value[0] && value[0] in value;
      assert text != "";
      var n := Width(values, text);
      var rest := Scan(REDACTED, values, text[n..]);
      assert out == Token(REDACTED, values, text) + rest;
      assert out[0] == Token(REDACTED, values, text)[0];
      assert FirstMatch(values, text, 0) == "";
      StartsWithTail(out, 0, value);
      StartsWithBehind(Token(REDACTED, values, text), rest, 1, value[1..]);
      FrontIsReflected(values, text[1..], value[1..]);
      StartsWithShift(text, 1, 0, value[1..]);
      forall i | 0 <= i < |value| ensures text[i] == value[i] {
        if i > 0 {
          assert value[1..][i - 1] == value[i];
          assert text[1 + (i - 1)] == value[1..][i - 1];
        }
      }
    }
  }

  // No hideable secret starts inside the replacement text.
  lemma NotInsideToken(tail: string, k: nat, secret: string)
    requires Hideable(secret) && k < |REDACTED|
    ensures !StartsWith(REDACTED + tail, k, secret)
  {
    var out := REDACTED + tail;
    if k == 0 {
      assert out[0] == '[' && secret[0] in secret;
    } else if k + |secret| > 9 {
      assert out[9] == ']' && secret[9 - k] in secret;
    } else if StartsWith(out, k, secret) {
      forall i | 0 <= i < |secret| ensures "redacted"[k - 1 + i] == secret[i] {
        assert out[k + i] == secret[i] && REDACTED[k + i] == "redacted"[k + i - 1];
      }
      assert StartsWith("redacted", k - 1, secret);
    }
  }

  lemma OccursInTail(text: string, n: nat, value: string)
    requires n <= |text| && !Occurs(text, value)
    ensures !Occurs(text[n..], value)
  {
    if Occurs(text[n..], value) {
      var k :| 0 <= k <= |text[n..]| && StartsWith(text[n..], k, value);
      StartsWithShift(text, n, k, value);
    }
  }

  /** A scan contains no hideable secret that it looks for, and none that the text did not have. */
  lemma {:induction false} ScanHides(values: seq<string>, text: string, secret: string, k: nat)
    requires Hideable(secret) && (secret in values || !Occurs(text, secret))
    ensures !StartsWith(Scan(REDACTED, values, text), k, secret)
    decreases |text|
  {
    if text == "" {
    } else {
      var n := Width(values, text);
      var token, rest := Token(REDACTED, values, text), Scan(REDACTED, values, text[n..]);
      if secret !in values {
        OccursInTail(text, n, secret);
      }
      if FirstMatch(values, text, 0) != "" {
        if k < |REDACTED| {
          NotInsideToken(rest, k, secret);
        } else {
          ScanHides(values, text[n..], secret, k - |REDACTED|);
          StartsWithBehind(token, rest, k, secret);
        }
      } else if k >= 1 {
        ScanHides(values, text[n..], secret, k - 1);
        StartsWithBehind(token, rest, k, secret);
      } else if StartsWith(Scan(REDACTED, values, text), 0, secret) {
        FrontIsReflected(values, text, secret);
        FirstMatchFinds(values, text, 0);
        assert false;
      }
    }
  }

  lemma ScanNeverContains(values: seq<string>, text: string, secret: string)
    requires Hideable(secret) && (secret in values || !Occurs(text, secret))
    ensures !Occurs(Scan(REDACTED, values, text), secret)
  {
    forall k | 0 <= k <= |Scan(REDACTED, values, text)| ensures !StartsWith(Scan(REDACTED, values, text), k, secret) {
      ScanHides(values, text, secret, k);
    }
  }

  /** Streaming: whatever the chunks, what comes out contains none of the secrets. */
  method RedactStreamHides(secrets: seq<string>, chunks: seq<string>) returns (output: string)
    requires forall s | s in secrets && s != "" :: Hideable(s)
    ensures forall s | s in secrets && s != "" :: !Occurs(output, s)
  {
    output := RedactStream(secrets, chunks);
    CandidatesAre(secrets);
    forall s | s in secrets && s != "" ensures !Occurs(output, s) {
      ScanNeverContains(Candidates(secrets), Joined(chunks), s);
    }
  }

  /** One after the other: no pass brings back what an earlier one removed, and in the end
      nothing is left. */
  lemma {:induction false} RedactSecretsHides(value: string, secrets: seq<string>, n: nat)
    requires n <= |secrets| && forall s | s in secrets && s != "" :: Hideable(s)
    ensures forall s | s in secrets[..n] && s != "" :: !Occurs(RedactSecrets(value, secrets[..n]), s)
  {
    if n == 0 {
    } else {
      RedactSecretsHides(value, secrets, n - 1);
      var front, last := secrets[..n - 1], secrets[n - 1];
      assert secrets[..n] == front + [last] && secrets[..n][..n - 1] == front;
      var acc := RedactSecrets(value, front);
      if last != "" {
        SplitJoinIsScan(acc, last);
        forall s | s in secrets[..n] && s != "" ensures !Occurs(RedactSecrets(value, secrets[..n]), s) {
          ScanNeverContains([last], acc, s);
        }
      }
    }
  }

  lemma {:induction false} ScanOfNothing(text: string)
    ensures Scan(REDACTED, [], text) == text
    decreases |text|
  {
    if text == "" {
    } else {
      ScanOfNothing(text[1..]);
      assert text == [text[0]] + text[1..];
    }
  }

  lemma OneCandidate(secret: string)
    requires secret != ""
    ensures Candidates([secret]) == [secret]
  {
    assert Distinct([secret]) == [secret];
    assert SortByLength([secret]) == InsertByLength(SortByLength([]), secret) == [secret] by {
      assert [secret][..0] == [];
    }
  }

  /** With one secret, both redactors give the same text. */
  lemma OneSecretAgrees(secret: string, text: string)
    ensures RedactSecrets(text, [secret]) == Scan(REDACTED, Candidates([secret]), text)
  {
    assert [secret][..0] == [] && RedactSecrets(text, []) == text;
    if secret == "" {
      assert Distinct([secret]) == [] && Candidates([secret]) == [];
      ScanOfNothing(text);
    } else {
      OneCandidate(secret);
      SplitJoinIsScan(text, secret);
    }
  }

  // ----- exactly which secrets are hidden ---------------------------------------------------------------

  // Where a secret of the list is the whole text, it is replaced whole.
  lemma SecretAloneIsReplaced(secrets: seq<string>, secret: string)
    requires secret in secrets && secret != ""
    ensures Scan(REDACTED, Candidates(secrets), secret) == REDACTED
  {
    var values := Candidates(secrets);
    CandidatesAre(secrets);
    FirstMatchIsLongest(values, secret, 0);
    assert secret in values && StartsWith(secret, 0, secret);
    var found := FirstMatch(values, secret, 0);
    FirstMatchFinds(values, secret, 0);
    assert |found| == |secret| && secret[|found|..] == "";
    assert Scan(REDACTED, values, "") == "";
    assert REDACTED + "" == REDACTED;
  }

  // The word is part of the replacement text.
  lemma PartOccurs(secret: string)
    requires Occurs("redacted", secret)
    ensures Occurs(REDACTED, secret)
  {
    var k :| 0 <= k <= 8 && StartsWith("redacted", k, secret);
    forall i | 0 <= i < |secret|
      ensures REDACTED[k + 1 + i] == secret[i]
    {
      assert "redacted"[k + i] == secret[i] && REDACTED[k + i + 1] == "redacted"[k + i];
    }
    assert StartsWith(REDACTED, k + 1, secret);
  }

  /** Whatever else is in the list, a secret inside the replacement text is written by its own
      replacement. */
  lemma PartOfTheTokenLeaks(secrets: seq<string>, secret: string)
    requires secret in secrets && secret != "" && Occurs(REDACTED, secret)
    ensures Occurs(Scan(REDACTED, Candidates(secrets), secret), secret)
  {
    SecretAloneIsReplaced(secrets, secret);
  }

  // No text whatever brings out a secret of the list.
  ghost predicate AlwaysHides(secrets: seq<string>) {
    forall text: string, s | s in secrets && s != "" :: !Occurs(Scan(REDACTED, Candidates(secrets), text), s)
  }

  /** For lists without brackets: the redactor hides all secrets in every text if and only if none of
      them is part of the word "redacted". */
  lemma AlwaysHidesIff(secrets: seq<string>)
    requires forall s | s in secrets :: '[' !in s && ']' !in s
    ensures AlwaysHides(secrets) <==> forall s | s in secrets && s != "" :: !Occurs("redacted", s)
  {
    CandidatesAre(secrets);
    if AlwaysHides(secrets) {
      forall s | s in secrets && s != ""
        ensures !Occurs("redacted", s)
      {
        if Occurs("redacted", s) {
          PartOccurs(s);
          PartOfTheTokenLeaks(secrets, s);
        }
      }
    }
    if forall s | s in secrets && s != "" :: !Occurs("redacted", s) {
      forall text: string, s | s in secrets && s != ""
        ensures !Occurs(Scan(REDACTED, Candidates(secrets), text), s)
      {
        ScanNeverContains(Candidates(secrets), text, s);
      }
    }
  }

  // ----- the same of redactSecrets ----------------------------------------------------------------------

  lemma OccursInMiddle(front: string, middle: string, rest: string, part: string)
    requires Occurs(middle, part)
    ensures Occurs(front + (middle + rest), part)
  {
    var whole := front + (middle + rest);
    var k :| 0 <= k <= |middle| && StartsWith(middle, k, part);
    forall i | 0 <= i < |part|
      ensures whole[|front| + k + i] == part[i]
    {
      assert middle[k + i] == part[i] && whole[|front| + k + i] == middle[k + i];
    }
    assert StartsWith(whole, |front| + k, part);
  }

  lemma ScanOfSplit(text: string, secret: string, m: nat, behind: string)
    requires secret != "" && m == FirstIndex(text, secret) && m < |text| && behind == text[m + |secret|..]
    ensures Join(Split(text, secret), REDACTED) == text[..m] + (REDACTED + Scan(REDACTED, [secret], behind))
  {
    SplitUnfolds(text, secret, m, behind);
    SplitJoinIsScan(behind, secret);
    JoinCons(text[..m], Split(behind, secret));
  }

  // Where a pass replaces anything, it writes the whole replacement text.
  lemma PartSurvivesPass(text: string, secret: string, part: string)
    requires secret != "" && Occurs(REDACTED, part) && Occurs(text, part)
    ensures Occurs(Join(Split(text, secret), REDACTED), part)
  {
    var m := FirstIndex(text, secret);
    if m < |text| {
      var behind := text[m + |secret|..];
      ScanOfSplit(text, secret, m, behind);
      OccursInMiddle(text[..m], REDACTED, Scan(REDACTED, [secret], behind), part);
    }
  }

  // So a part of the replacement text never goes away.
  lemma {:induction false} PartSurvives(value: string, secrets: seq<string>, part: string)
    requires Occurs(REDACTED, part) && Occurs(value, part)
    ensures Occurs(RedactSecrets(value, secrets), part)
  {
    if secrets == [] {
    } else {
      var front, last := secrets[..|secrets| - 1], secrets[|secrets| - 1];
      PartSurvives(value, front, part);
      if last != "" {
        PartSurvivesPass(RedactSecrets(value, front), last, part);
      }
    }
  }

  ghost predicate AlwaysHidesInPasses(secrets: seq<string>) {
    forall text: string, s | s in secrets && s != "" :: !Occurs(RedactSecrets(text, secrets), s)
  }

  /** One secret after the other, for lists without brackets: all secrets are hidden in every text if and
      only if none of them is part of the word "redacted". */
  lemma AlwaysHidesInPassesIff(secrets: seq<string>)
    requires forall s | s in secrets :: '[' !in s && ']' !in s
    ensures AlwaysHidesInPasses(secrets) <==> forall s | s in secrets && s != "" :: !Occurs("redacted", s)
  {
    if AlwaysHidesInPasses(secrets) {
      forall s | s in secrets && s != ""
        ensures !Occurs("redacted", s)
      {
        if Occurs("redacted", s) {
          PartOccurs(s);
          assert Occurs(s, s) by {
            assert StartsWith(s, 0, s);
          }
          PartSurvives(s, secrets, s);
        }
      }
    }
    if forall s | s in secrets && s != "" :: !Occurs("redacted", s) {
      assert secrets[..|secrets|] == secrets;
      forall text: string, s | s in secrets && s != ""
        ensures !Occurs(RedactSecrets(text, secrets), s)
      {
        RedactSecretsHides(text, secrets, |secrets|);
      }
    }
  }

  // ----- one secret of any characters --------------------------------------------------------------------

  lemma ScanOfMatch(secret: string, rest: string)
    requires secret != ""
    ensures Scan(REDACTED, [secret], secret + rest) == REDACTED + Scan(REDACTED, [secret], rest)
  {
    var text := secret + rest;
    assert FirstMatch([secret], text, 0) == secret && text[|secret|..] == rest;
  }

  lemma ScanOfOther(secret: string, c: char, rest: string)
    requires !StartsWith([c] + rest, 0, secret)
    ensures Scan(REDACTED, [secret], [c] + rest) == [c] + Scan(REDACTED, [secret], rest)
  {
    var text := [c] + rest;
    assert FirstMatch([secret], text, 0) == "" && text[1..] == rest;
  }

  // Text that is too short to be the secret.
  lemma {:induction false} ShortTextStays(secret: string, text: string)
    requires |text| < |secret|
    ensures Scan(REDACTED, [secret], text) == text
    decreases |text|
  {
    if text == "" {
    } else {
      ShortTextStays(secret, text[1..]);
      assert [text[0]] + text[1..] == text;
      ScanOfOther(secret, text[0], text[1..]);
    }
  }

  lemma OccursAt(text: string, k: nat, value: string)
    requires k + |value| <= |text| && text[k..k + |value|] == value
    ensures Occurs(text, value)
  {
    forall i | 0 <= i < |value|
      ensures text[k + i] == value[i]
    {
      assert text[k..k + |value|][i] == value[i];
    }
    assert StartsWith(text, k, value);
  }

  lemma EndOfBoth(a: string, k: nat, b: string)
    requires k <= |a|
    ensures |a[k..] + b| == |a| + |b| - k && (a + b)[k..|a| + |b|] == a[k..] + b
  {
  }

  /** A secret that starts as the replacement text ends: the secret followed by its own rest brings it
      back. */
  lemma TokenThenTextLeaks(k: nat, rest: string)
    requires k < |REDACTED| && rest != ""
    ensures var secret := REDACTED[k..] + rest; Occurs(Scan(REDACTED, [secret], secret + rest), secret)
  {
    var secret := REDACTED[k..] + rest;
    ScanOfMatch(secret, rest);
    ShortTextStays(secret, rest);
    EndOfBoth(REDACTED, k, rest);
    OccursAt(REDACTED + rest, k, secret);
  }

  lemma {:induction false} FirstIndexIsFirst(text: string, value: string)
    ensures forall j | 0 <= j < FirstIndex(text, value) :: !StartsWith(text, j, value)
  {
    if text == "" || StartsWith(text, 0, value) {
    } else {
      FirstIndexIsFirst(text[1..], value);
      forall j | 0 <= j < FirstIndex(text, value)
        ensures !StartsWith(text, j, value)
      {
        if j > 0 {
          StartsWithShift(text, 1, j - 1, value);
        }
      }
    }
  }

  // With one secret, the scan copies what is in front of the first occurrence and goes on behind it.
  lemma ScanFromFirst(text: string, secret: string, m: nat, behind: string)
    requires secret != "" && m == FirstIndex(text, secret) && m < |text| && behind == text[m + |secret|..]
    ensures Scan(REDACTED, [secret], text) == text[..m] + (REDACTED + Scan(REDACTED, [secret], behind))
  {
    ScanOfSplit(text, secret, m, behind);
    SplitJoinIsScan(text, secret);
  }

  lemma ScanWithout(text: string, secret: string)
    requires secret != "" && FirstIndex(text, secret) == |text|
    ensures Scan(REDACTED, [secret], text) == text
  {
    SplitJoinIsScan(text, secret);
  }

  // The secret starts with the end of the replacement text from k on, and is longer.
  predicate StartsWithEnd(secret: string, k: nat) {
    k < |REDACTED| && |REDACTED| - k < |secret| && StartsWith(secret, 0, REDACTED[k..])
  }

  ghost predicate StartsAsTokenEnds(secret: string) {
    exists k: nat :: StartsWithEnd(secret, k)
  }

  // From its position m on, the secret and the replacement text agree as far as both go.
  predicate AgreesWithToken(secret: string, m: nat) {
    forall i | m <= i < |secret| && i < m + |REDACTED| :: secret[i] == REDACTED[i - m]
  }

  // What is in front of that position can stand in front of the secret without being taken for it.
  predicate FrontIsFree(secret: string, m: nat)
    requires m <= |secret|
  {
    forall j | 0 <= j < m :: !StartsWith(secret[..m] + secret, j, secret)
  }

  ghost predicate EndsAsTokenStarts(secret: string) {
    exists m: nat :: 0 < m < |secret| && AgreesWithToken(secret, m) && FrontIsFree(secret, m)
  }

  ghost predicate SelfLeaking(secret: string) {
    Occurs(REDACTED, secret) || StartsAsTokenEnds(secret) || EndsAsTokenStarts(secret)
  }

  lemma EarlyMatchShows(secret: string, m: nat, text: string, j: nat)
    requires j < m < |secret| && StartsWith(text, 0, secret[..m]) && StartsWith(text, m, secret)
    ensures StartsWith(secret[..m] + secret, j, secret) <==> StartsWith(text, j, secret)
  {
    var whole := secret[..m] + secret;
    forall i | j <= i < j + |secret|
      ensures whole[i] == text[i]
    {
      if i < m {
        assert text[0 + i] == secret[..m][i];
      } else {
        assert text[m + (i - m)] == secret[i - m];
      }
    }
  }

  lemma CopiedStart(text: string, output: string, m: nat, secret: string)
    requires m <= |text| && m <= |output| && text[..m] == output[..m]
    requires StartsWith(output, 0, secret) && !StartsWith(text, 0, secret)
    ensures m < |secret| && StartsWith(text, 0, secret[..m])
  {
    forall i | 0 <= i < |secret| && i < m
      ensures text[0 + i] == secret[i]
    {
      assert text[..m][i] == output[..m][i] && output[0 + i] == secret[i];
    }
  }

  lemma StartOfBoth(front: string, rest: string, secret: string)
    requires |front| < |secret| && StartsWith(front + (REDACTED + rest), 0, secret)
    ensures AgreesWithToken(secret, |front|)
  {
    var output, m := front + (REDACTED + rest), |front|;
    forall i | m <= i < |secret| && i < m + |REDACTED|
      ensures secret[i] == REDACTED[i - m]
    {
      assert output[0 + i] == secret[i] && output[i] == (REDACTED + rest)[i - m];
    }
  }

  lemma FreeFront(secret: string, text: string, m: nat, more: string)
    requires 0 < m <= |text| && StartsWith(text, m, secret) && forall j | 0 <= j < m :: !StartsWith(text, j, secret)
    requires StartsWith(text[..m] + (REDACTED + more), 0, secret)
    ensures EndsAsTokenStarts(secret)
  {
    CopiedStart(text, text[..m] + (REDACTED + more), m, secret);
    StartOfBoth(text[..m], more, secret);
    forall j | 0 <= j < m
      ensures !StartsWith(secret[..m] + secret, j, secret)
    {
      EarlyMatchShows(secret, m, text, j);
    }
    assert FrontIsFree(secret, m);
  }

  // A scan can only start with the secret if raw text and a replacement make it up.
  lemma FrontShape(secret: string, text: string)
    requires secret != "" && !StartsWith(text, 0, secret)
    requires StartsWith(Scan(REDACTED, [secret], text), 0, secret)
    ensures EndsAsTokenStarts(secret)
  {
    var m := FirstIndex(text, secret);
    if m == |text| {
      ScanWithout(text, secret);
    } else {
      var behind := text[m + |secret|..];
      FirstIndexIsFirst(text, secret);
      ScanFromFirst(text, secret, m, behind);
      FreeFront(secret, text, m, Scan(REDACTED, [secret], behind));
    }
  }

  lemma TokenShape(secret: string, rest: string, k: nat)
    requires k < |REDACTED| && secret != "" && StartsWith(REDACTED + rest, k, secret)
    ensures Occurs(REDACTED, secret) || StartsAsTokenEnds(secret)
  {
    var output := REDACTED + rest;
    assert forall i | 0 <= i < |secret| :: output[k + i] == secret[i];
    if k + |secret| <= |REDACTED| {
      assert StartsWith(REDACTED, k, secret);
    } else {
      assert forall i | 0 <= i < |REDACTED| - k :: secret[0 + i] == REDACTED[k..][i];
      assert StartsWithEnd(secret, k);
    }
  }

  // An occurrence in the output starts in the first token or lies behind it.
  lemma FirstTokenShape(secret: string, text: string, k: nat)
    requires secret != "" && text != "" && StartsWith(Scan(REDACTED, [secret], text), k, secret)
    ensures
      var token := Token(REDACTED, [secret], text);
      var rest := text[Width([secret], text)..];
      SelfLeaking(secret) || (k >= |token| && StartsWith(Scan(REDACTED, [secret], rest), k - |token|, secret))
  {
    var token, rest := Token(REDACTED, [secret], text), text[Width([secret], text)..];
    var output := Scan(REDACTED, [secret], rest);
    assert Scan(REDACTED, [secret], text) == token + output;
    if k >= |token| {
      StartsWithBehind(token, output, k, secret);
    } else if StartsWith(text, 0, secret) {
      assert FirstMatch([secret], text, 0) == secret;
      TokenShape(secret, output, k);
    } else {
      assert FirstMatch([secret], text, 0) == "";
      FrontShape(secret, text);
    }
  }

  lemma {:induction false} LeakShape(secret: string, text: string, k: nat)
    requires secret != "" && StartsWith(Scan(REDACTED, [secret], text), k, secret)
    ensures SelfLeaking(secret)
    decreases |text|
  {
    if text == "" {
      assert false;
    } else {
      FirstTokenShape(secret, text, k);
      if !SelfLeaking(secret) {
        LeakShape(secret, text[Width([secret], text)..], k - |Token(REDACTED, [secret], text)|);
      }
    }
  }

  // What of the secret lies behind the replacement.
  function Behind(secret: string, m: nat): string {
    if m + |REDACTED| <= |secret| then secret[m + |REDACTED|..] else ""
  }

  lemma ThreeParts(front: string, middle: string, rest: string)
    ensures
      var text := front + (middle + rest);
      text[..|front|] == front && text[|front| + |middle|..] == rest && |text| == |front| + |middle| + |rest|
  {
  }

  lemma FirstIs(secret: string, m: nat, rest: string)
    requires 0 < m < |secret| && FrontIsFree(secret, m)
    ensures FirstIndex(secret[..m] + (secret + rest), secret) == m
  {
    var text := secret[..m] + (secret + rest);
    FirstIndexIsFirst(text, secret);
    assert StartsWith(text, m, secret) && StartsWith(text, 0, secret[..m]);
    forall j | 0 <= j < m
      ensures !StartsWith(text, j, secret)
    {
      EarlyMatchShows(secret, m, text, j);
    }
  }

  lemma FrontTokenRest(secret: string, m: nat)
    requires 0 < m < |secret| && AgreesWithToken(secret, m)
    ensures Occurs(secret[..m] + (REDACTED + Behind(secret, m)), secret)
  {
    var output := secret[..m] + (REDACTED + Behind(secret, m));
    forall i | 0 <= i < |secret|
      ensures output[0 + i] == secret[i]
    {
      if i >= m {
        assert output[i] == (REDACTED + Behind(secret, m))[i - m];
      }
    }
    assert StartsWith(output, 0, secret);
  }

  /** A secret that goes on as the replacement text starts: its own front, it and what of it lies behind
      the replacement bring it back. */
  lemma TextThenTokenLeaks(secret: string, m: nat)
    requires 0 < m < |secret| && AgreesWithToken(secret, m) && FrontIsFree(secret, m)
    ensures Occurs(Scan(REDACTED, [secret], secret[..m] + (secret + Behind(secret, m))), secret)
  {
    var rest := Behind(secret, m);
    var text := secret[..m] + (secret + rest);
    FirstIs(secret, m, rest);
    ThreeParts(secret[..m], secret, rest);
    ShortTextStays(secret, rest);
    ScanFromFirst(text, secret, m, rest);
    FrontTokenRest(secret, m);
  }

  lemma OneTextSuffices(secret: string, text: string)
    requires secret != "" && Occurs(Scan(REDACTED, [secret], text), secret)
    ensures !AlwaysHides([secret])
  {
    OneCandidate(secret);
    assert secret in [secret];
  }

  lemma SelfLeakingLeaks(secret: string)
    requires secret != "" && SelfLeaking(secret)
    ensures !AlwaysHides([secret])
  {
    OneCandidate(secret);
    if Occurs(REDACTED, secret) {
      PartOfTheTokenLeaks([secret], secret);
      OneTextSuffices(secret, secret);
    } else if StartsAsTokenEnds(secret) {
      var k: nat :| StartsWithEnd(secret, k);
      var rest := secret[|REDACTED| - k..];
      assert forall i | 0 <= i < |REDACTED| - k :: secret[0 + i] == REDACTED[k..][i];
      assert secret == REDACTED[k..] + rest;
      TokenThenTextLeaks(k, rest);
      OneTextSuffices(secret, secret + rest);
    } else {
      var m: nat :| 0 < m < |secret| && AgreesWithToken(secret, m) && FrontIsFree(secret, m);
      TextThenTokenLeaks(secret, m);
      OneTextSuffices(secret, secret[..m] + (secret + Behind(secret, m)));
    }
  }

  /** For one secret, whatever its characters: it is hidden in every text if and only if it is not part of
      the replacement text, does not start as that ends, and does not go on as that starts behind a
      front that can stand before it. */
  lemma OneSecretHidesIff(secret: string)
    requires secret != ""
    ensures AlwaysHides([secret]) <==> !SelfLeaking(secret)
  {
    OneCandidate(secret);
    if SelfLeaking(secret) {
      SelfLeakingLeaks(secret);
    } else {
      forall text: string, s | s in [secret] && s != ""
        ensures !Occurs(Scan(REDACTED, Candidates([secret]), text), s)
      {
        if Occurs(Scan(REDACTED, [secret], text), secret) {
          var k :| 0 <= k <= |Scan(REDACTED, [secret], text)| && StartsWith(Scan(REDACTED, [secret], text), k, secret);
          LeakShape(secret, text, k);
        }
      }
    }
  }
}
