/**
 The names under which connector tools are shown to a model (packages/adapters/src/pi-runtime.ts):
 every tool gets a name of at most 64 letters, digits, "_" and "-" that no other tool has.
 `Decompose` stands for Unicode compatibility decomposition followed by the removal of combining marks.
 */
module ToolNames {
  import opened Numerals

  const MAX_LENGTH: nat := 64
  const FALLBACK: string := "connector_tool"
  const OFFSET: nat := 2166136261
  const PRIME: nat := 16777619

  type Decomposition = string -> string

  predicate IsAllowed(c: char) {
    'a' <= c <= 'z' || 'A' <= c <= 'Z' || '0' <= c <= '9' || c == '_' || c == '-'
  }

  predicate AllAllowed(s: string) {
    forall i :: 0 <= i < |s| ==> IsAllowed(s[i])
  }

  // isProviderSafeAgentToolName
  predicate IsSafe(name: string) {
    name != "" && AllAllowed(name) && |name| <= MAX_LENGTH
  }

  // ----- one name -------------------------------------------------------------------------------------

  function DropOthers(s: string): string {
    if s != "" && !IsAllowed(s[0]) then DropOthers(s[1..]) else s
  }

  lemma {:induction false} DropIsShorter(s: string)
    ensures |DropOthers(s)| <= |s|
  {
    if s != "" && !IsAllowed(s[0]) {
      DropIsShorter(s[1..]);
    }
  }

  // Every run of other characters becomes one underscore.
  function ReplaceOthers(s: string): string
    decreases |s|
  {
    if s == "" then ""
    else if IsAllowed(s[0]) then [s[0]] + ReplaceOthers(s[1..])
    else
      DropIsShorter(s[1..]);
      "_" + ReplaceOthers(DropOthers(s[1..]))
  }

  function TrimStart(s: string): string {
    if s != "" && s[0] == '_' then TrimStart(s[1..]) else s
  }

  function TrimEnd(s: string): string {
    if s != "" && s[|s| - 1] == '_' then TrimEnd(s[..|s| - 1]) else s
  }

  function Front(s: string, n: nat): string {
    if |s| <= n then s else s[..n]
  }

  function Normalize(name: string, decompose: Decomposition): string {
    if IsSafe(name) then name
    else
      var normalized := TrimEnd(TrimStart(ReplaceOthers(decompose(name))));
      Front(if normalized == "" then FALLBACK else normalized, MAX_LENGTH)
  }

  lemma {:induction false} ReplacedIsAllowed(s: string)
    ensures AllAllowed(ReplaceOthers(s))
    decreases |s|
  {
    if s == "" {
    } else if IsAllowed(s[0]) {
      ReplacedIsAllowed(s[1..]);
    } else {
      DropIsShorter(s[1..]);
      ReplacedIsAllowed(DropOthers(s[1..]));
    }
  }

  lemma {:induction false} TrimmedIsAllowed(s: string)
    requires AllAllowed(s)
    ensures AllAllowed(TrimStart(s)) && AllAllowed(TrimEnd(s))
    decreases |s|
  {
    if s != "" && s[0] == '_' {
      TrimmedIsAllowed(s[1..]);
    }
    if s != "" && s[|s| - 1] == '_' {
      TrimmedIsAllowed(s[..|s| - 1]);
    }
  }

  // What a reader recognises of a name: its allowed characters other than underscores.
  ghost function Solid(s: string): string {
    if s == "" then ""
    else if IsAllowed(s[0]) && s[0] != '_' then [s[0]] + Solid(s[1..])
    else Solid(s[1..])
  }

  lemma {:induction false} SolidOfDropped(s: string)
    ensures Solid(DropOthers(s)) == Solid(s)
  {
    if s != "" && !IsAllowed(s[0]) {
      SolidOfDropped(s[1..]);
    }
  }

  lemma {:induction false} SolidOfReplaced(s: string)
    ensures Solid(ReplaceOthers(s)) == Solid(s)
    decreases |s|
  {
    if s == "" {
    } else if IsAllowed(s[0]) {
      SolidOfReplaced(s[1..]);
      assert ([s[0]] + ReplaceOthers(s[1..]))[1..] == ReplaceOthers(s[1..]);
    } else {
      DropIsShorter(s[1..]);
      var rest := DropOthers(s[1..]);
      SolidOfReplaced(rest);
      SolidOfDropped(s[1..]);
      assert ("_" + ReplaceOthers(rest))[1..] == ReplaceOthers(rest);
    }
  }

  lemma {:induction false} SolidOfUnderscoreBehind(s: string)
    ensures Solid(s + "_") == Solid(s)
  {
    if s == "" {
      assert (s + "_")[1..] == "";
    } else {
      assert (s + "_")[1..] == s[1..] + "_";
      SolidOfUnderscoreBehind(s[1..]);
    }
  }

  lemma {:induction false} SolidOfTrimmed(s: string)
    ensures Solid(TrimStart(s)) == Solid(s) && Solid(TrimEnd(s)) == Solid(s)
    ensures TrimStart(s) != "" ==> TrimStart(s)[0] != '_'
    ensures TrimEnd(s) != "" ==> TrimEnd(s)[|TrimEnd(s)| - 1] != '_' && TrimEnd(s)[0] == s[0]
    decreases |s|
  {
    if s != "" && s[0] == '_' {
      SolidOfTrimmed(s[1..]);
    }
    if s != "" && s[|s| - 1] == '_' {
      var front := s[..|s| - 1];
      SolidOfTrimmed(front);
      assert s == front + "_";
      SolidOfUnderscoreBehind(front);
    }
  }

  // Runs of other characters shrink to underscores and the rest stays, in order: the name before it
  // is cut reads like the decomposed one, and neither starts nor ends with an underscore.
  lemma NormalizedReadsAlike(name: string, decompose: Decomposition) returns (whole: string)
    requires !IsSafe(name)
    ensures Normalize(name, decompose) == Front(if whole == "" then FALLBACK else whole, MAX_LENGTH)
    ensures Solid(whole) == Solid(decompose(name))
    ensures whole != "" ==> whole[0] != '_' && whole[|whole| - 1] != '_'
  {
    var replaced := ReplaceOthers(decompose(name));
    whole := TrimEnd(TrimStart(replaced));
    SolidOfReplaced(decompose(name));
    SolidOfTrimmed(replaced);
    SolidOfTrimmed(TrimStart(replaced));
  }

  lemma {:induction false} DropKeepsRest(s: string)
    requires forall k :: 0 <= k < |s| ==> s[k] != '_'
    ensures forall k :: 0 <= k < |DropOthers(s)| ==> DropOthers(s)[k] != '_'
    ensures DropOthers(s) != "" ==> IsAllowed(DropOthers(s)[0])
  {
    if s != "" && !IsAllowed(s[0]) {
      DropKeepsRest(s[1..]);
    }
  }

  // No run is shown by more than one underscore.
  lemma {:induction false} RunsBecomeOne(s: string, i: nat)
    requires forall k :: 0 <= k < |s| ==> s[k] != '_'
    requires i + 1 < |ReplaceOthers(s)| && ReplaceOthers(s)[i] == '_'
    ensures ReplaceOthers(s)[i + 1] != '_'
    decreases |s|
  {
    if IsAllowed(s[0]) {
      RunsBecomeOne(s[1..], i - 1);
    } else {
      DropIsShorter(s[1..]);
      var rest := DropOthers(s[1..]);
      DropKeepsRest(s[1..]);
      if i > 0 {
        RunsBecomeOne(rest, i - 1);
      }
    }
  }

  // Whatever the tool is called, and whatever decomposition does to it, the result can be sent; a
  // name that could be sent already is left alone.
  lemma NormalizedIsSafe(name: string, decompose: Decomposition)
    ensures IsSafe(Normalize(name, decompose))
    ensures IsSafe(name) <==> Normalize(name, decompose) == name
    ensures Normalize(Normalize(name, decompose), decompose) == Normalize(name, decompose)
  {
    ReplacedIsAllowed(decompose(name));
    TrimmedIsAllowed(ReplaceOthers(decompose(name)));
    TrimmedIsAllowed(TrimStart(ReplaceOthers(decompose(name))));
  }

  lemma DigitsAreAllowed(n: nat, base: nat)
    requires IsBase(base)
    ensures Digits(n, base) != "" && AllAllowed(Digits(n, base)) && '_' !in Digits(n, base)
  {
  }

  // ----- the hash --------------------------------------------------------------------------------------

  // Exclusive or, bit by bit.
  function Xor(a: nat, b: nat): nat {
    if a == 0 && b == 0 then 0
    else (if a % 2 == b % 2 then 0 else 1) + 2 * Xor(a / 2, b / 2)
  }

  // FNV-1a over the code points; every product is cut to 32 bits.
  function HashFrom(hash: nat, name: string): nat
    decreases name
  {
    if name == "" then hash else HashFrom((Xor(hash, name[0] as nat) * PRIME) % 0x1_0000_0000, name[1..])
  }

  function HashText(name: string): string {
    Digits(HashFrom(OFFSET, name), 36)
  }

  method StableToolNameHash(name: string) returns (text: string)
    ensures text == HashText(name)
  {
    var hash: nat := OFFSET;
    var i := 0;
    while i < |name|
      invariant 0 <= i <= |name|
      invariant HashFrom(OFFSET, name) == HashFrom(hash, name[i..])
    {
      assert name[i..][1..] == name[i + 1..];
      hash := Xor(hash, name[i] as nat);
      hash := (hash * PRIME) % 0x1_0000_0000;
      i := i + 1;
    }
    text := Digits(hash, 36);
  }

  lemma {:induction false} HashFits(hash: nat, name: string)
    requires hash < 0x1_0000_0000
    ensures HashFrom(hash, name) < 0x1_0000_0000
    decreases name
  {
    if name != "" {
      HashFits((Xor(hash, name[0] as nat) * PRIME) % 0x1_0000_0000, name[1..]);
    }
  }

  lemma HashIsShort(name: string)
    ensures 1 <= |HashText(name)| <= 7 && AllAllowed(HashText(name))
  {
    var h := HashFrom(OFFSET, name);
    HashFits(OFFSET, name);
    assert Power(36, 7) == 78364164096 by {
      assert Power(36, 1) == 36;
      assert Power(36, 2) == 1296;
      assert Power(36, 3) == 46656;
      assert Power(36, 4) == 1679616;
      assert Power(36, 5) == 60466176;
      assert Power(36, 6) == 2176782336;
    }
    DigitsLength(h, 36, 7);
    DigitsAreAllowed(h, 36);
  }

  // ----- all names -------------------------------------------------------------------------------------

  // withToolNameSuffix: the base is cut so that the suffix still fits.
  function WithSuffix(baseName: string, suffix: string): string {
    var room := MAX_LENGTH - |"_" + suffix|;
    Front(baseName, if room > 1 then room else 1) + ("_" + suffix)
  }

  function Numbered(baseName: string, hash: string, n: nat): string {
    WithSuffix(baseName, hash + "_" + Digits(n, 10))
  }

  // Two strings that end in an underscore and then something without underscores.
  lemma SameTail(p: string, q: string, d: string, e: string)
    requires p + ("_" + d) == q + ("_" + e) && '_' !in d && '_' !in e
    ensures d == e
  {
    var s := p + ("_" + d);
    assert s[|p|] == '_' && s[|q|] == '_';
    forall k | |p| < k < |s|
      ensures s[k] != '_'
    {
      assert s[k] == d[k - |p| - 1] && d[k - |p| - 1] in d;
    }
    forall k | |q| < k < |s|
      ensures s[k] != '_'
    {
      assert s[k] == e[k - |q| - 1] && e[k - |q| - 1] in e;
    }
    assert |p| == |q|;
    assert s[|p| + 1..] == d && s[|q| + 1..] == e;
  }

  lemma NumberedEnds(baseName: string, hash: string, n: nat)
    ensures exists p: string :: Numbered(baseName, hash, n) == p + ("_" + Digits(n, 10))
  {
    var suffix := hash + "_" + Digits(n, 10);
    var room := MAX_LENGTH - |"_" + suffix|;
    var cut := Front(baseName, if room > 1 then room else 1);
    assert cut + ("_" + suffix) == (cut + "_" + hash) + ("_" + Digits(n, 10));
  }

  lemma NumberedDiffer(baseName: string, hash: string, m: nat, n: nat)
    requires Numbered(baseName, hash, m) == Numbered(baseName, hash, n)
    ensures m == n
  {
    var d, e := Digits(m, 10), Digits(n, 10);
    DigitsAreAllowed(m, 10);
    DigitsAreAllowed(n, 10);
    NumberedEnds(baseName, hash, m);
    NumberedEnds(baseName, hash, n);
    var p: string :| Numbered(baseName, hash, m) == p + ("_" + d);
    var q: string :| Numbered(baseName, hash, n) == q + ("_" + e);
    SameTail(p, q, d, e);
    DigitsDiffer(m, n, 10);
  }

  // The taken names that the search, having reached number n, may still run into.
  ghost predicate IsAhead(baseName: string, hash: string, n: nat, name: string) {
    exists m: nat :: n <= m && name == Numbered(baseName, hash, m)
  }

  ghost function Ahead(taken: set<string>, baseName: string, hash: string, n: nat): set<string> {
    set name | name in taken && IsAhead(baseName, hash, n, name)
  }

  lemma {:induction false} SubsetSize(small: set<string>, large: set<string>)
    requires small <= large
    ensures |small| <= |large|
    decreases small
  {
    if small == {} {
    } else {
      var x :| x in small;
      SubsetSize(small - {x}, large - {x});
    }
  }

  lemma Smaller(small: set<string>, large: set<string>, x: string)
    requires small <= large && x in large && x !in small
    ensures |small| < |large|
  {
    assert small <= large - {x};
    SubsetSize(small, large - {x});
  }

  lemma AheadShrinks(taken: set<string>, baseName: string, hash: string, n: nat)
    ensures Ahead(taken, baseName, hash, n + 1) <= Ahead(taken, baseName, hash, n)
    ensures Numbered(baseName, hash, n) in taken ==>
      Ahead(taken, baseName, hash, n + 1) < Ahead(taken, baseName, hash, n)
      && |Ahead(taken, baseName, hash, n + 1)| < |Ahead(taken, baseName, hash, n)|
  {
    var later, now := Ahead(taken, baseName, hash, n + 1), Ahead(taken, baseName, hash, n);
    var here := Numbered(baseName, hash, n);
    assert IsAhead(baseName, hash, n, here);
    if IsAhead(baseName, hash, n + 1, here) {
      var m: nat :| n + 1 <= m && here == Numbered(baseName, hash, m);
      NumberedDiffer(baseName, hash, m, n);
    }
    if here in taken {
      assert here in now - later;
      Smaller(later, now, here);
    }
  }

  // The first free numbered name. The search ends because every number gives another name and only
  // finitely many names are taken.
  function FirstFree(baseName: string, hash: string, n: nat, taken: set<string>): (name: string)
    ensures name !in taken
    decreases |Ahead(taken, baseName, hash, n)|
  {
    var candidate := Numbered(baseName, hash, n);
    AheadShrinks(taken, baseName, hash, n);
    if candidate in taken then FirstFree(baseName, hash, n + 1, taken) else candidate
  }

  function Pick(baseName: string, hash: string, taken: set<string>): (name: string)
    ensures name !in taken
  {
    if baseName !in taken then baseName
    else if WithSuffix(baseName, hash) !in taken then WithSuffix(baseName, hash)
    else FirstFree(baseName, hash, 2, taken)
  }

  // A tool whose own name is not valid must also avoid every valid tool name of the list.
  function Blocked(tool: string, used: set<string>, reserved: set<string>): set<string> {
    if IsSafe(tool) then used else used + reserved
  }

  function Choose(tool: string, used: set<string>, reserved: set<string>, decompose: Decomposition): (name: string)
    ensures name !in used
  {
    Pick(Normalize(tool, decompose), HashText(tool), Blocked(tool, used, reserved))
  }

  function SetOf(s: seq<string>): set<string> {
    set x | x in s
  }

  function ReservedNames(tools: seq<string>): set<string> {
    set x | x in tools && IsSafe(x)
  }

  ghost function NamesOf(tools: seq<string>, reserved: set<string>, decompose: Decomposition): (names: seq<string>)
    ensures |names| == |tools|
  {
    if tools == [] then []
    else
      var front := NamesOf(tools[..|tools| - 1], reserved, decompose);
      front + [Choose(tools[|tools| - 1], SetOf(front), reserved, decompose)]
  }

  // The choice for one tool, as the search makes it.
  method ChooseName(tool: string, used: set<string>, reserved: set<string>, decompose: Decomposition)
    returns (candidate: string)
    ensures candidate == Choose(tool, used, reserved, decompose)
  {
    var baseName := Normalize(tool, decompose);
    var originalIsValid := IsSafe(tool);
    var hash := HashText(tool);
    candidate := baseName;
    if candidate in used || (!originalIsValid && candidate in reserved) {
      candidate := WithSuffix(baseName, hash);
    }
    var suffix: nat := 2;
    ghost var taken := Blocked(tool, used, reserved);
    while candidate in used || (!originalIsValid && candidate in reserved)
      invariant Choose(tool, used, reserved, decompose)
             == if candidate in taken then FirstFree(baseName, hash, suffix, taken) else candidate
      decreases |Ahead(taken, baseName, hash, suffix)| + if candidate in taken then 1 else 0
    {
      AheadShrinks(taken, baseName, hash, suffix);
      SubsetSize(Ahead(taken, baseName, hash, suffix + 1), Ahead(taken, baseName, hash, suffix));
      candidate := WithSuffix(baseName, hash + "_" + Digits(suffix, 10));
      suffix := suffix + 1;
    }
  }

  method NormalizeAgentToolNames(tools: seq<string>, decompose: Decomposition) returns (names: seq<string>)
    ensures names == NamesOf(tools, ReservedNames(tools), decompose)
  {
    var reservedValidNames := ReservedNames(tools);
    var usedNames: set<string> := {};
    names := [];
    for i := 0 to |tools|
      invariant names == NamesOf(tools[..i], reservedValidNames, decompose)
      invariant usedNames == SetOf(names)
    {
      assert tools[..i + 1][..i] == tools[..i];
      var candidate := ChooseName(tools[i], usedNames, reservedValidNames, decompose);
      usedNames := usedNames + {candidate};
      names := names + [candidate];
    }
    assert tools[..|tools|] == tools;
  }
}
