/**
 What the names of a tool list promise: pairwise distinct, fit to be sent, and valid names kept.
 */
module ToolNameTheorems {
  import opened Numerals
  import opened ToolNames

  ghost predicate Distinct(s: seq<string>) {
    forall i, j :: 0 <= i < j < |s| ==> s[i] != s[j]
  }

  lemma OneMoreName(tools: seq<string>, reserved: set<string>, decompose: Decomposition)
    requires tools != []
    ensures NamesOf(tools[..|tools| - 1], reserved, decompose) == NamesOf(tools, reserved, decompose)[..|tools| - 1]
  {
  }

  lemma {:induction false} NamesOfFront(tools: seq<string>, reserved: set<string>, decompose: Decomposition, n: nat)
    requires n <= |tools|
    ensures NamesOf(tools[..n], reserved, decompose) == NamesOf(tools, reserved, decompose)[..n]
    decreases |tools|
  {
    if n == |tools| {
      assert tools[..n] == tools;
    } else {
      var front := tools[..|tools| - 1];
      NamesOfFront(front, reserved, decompose, n);
      assert front[..n] == tools[..n];
      OneMoreName(tools, reserved, decompose);
    }
  }

  // The name of one tool depends on the tools before it and on the reserved names alone.
  lemma NameAt(tools: seq<string>, reserved: set<string>, decompose: Decomposition, i: nat)
    requires i < |tools|
    ensures
      var names := NamesOf(tools, reserved, decompose);
      names[i] == Choose(tools[i], SetOf(names[..i]), reserved, decompose)
  {
    NamesOfFront(tools, reserved, decompose, i + 1);
    NamesOfFront(tools, reserved, decompose, i);
    assert tools[..i + 1][..i] == tools[..i];
  }

  lemma NamesAreDistinct(tools: seq<string>, decompose: Decomposition)
    ensures Distinct(NamesOf(tools, ReservedNames(tools), decompose))
  {
    var names := NamesOf(tools, ReservedNames(tools), decompose);
    forall i, j | 0 <= i < j < |names|
      ensures names[i] != names[j]
    {
      NameAt(tools, ReservedNames(tools), decompose, j);
      assert names[i] == names[..j][i] && names[..j][i] in names[..j];
    }
  }

  // A tool with an invalid name never takes a valid name of the list.
  lemma InvalidNeverTakesValid(tools: seq<string>, decompose: Decomposition, i: nat, j: nat)
    requires i < |tools| && j < |tools| && !IsSafe(tools[i]) && IsSafe(tools[j])
    ensures NamesOf(tools, ReservedNames(tools), decompose)[i] != tools[j]
  {
    NameAt(tools, ReservedNames(tools), decompose, i);
    assert tools[j] in ReservedNames(tools);
  }

  // A valid name is kept exactly when no earlier tool was given it,
  lemma ValidIsKeptIff(tools: seq<string>, decompose: Decomposition, i: nat)
    requires i < |tools| && IsSafe(tools[i])
    ensures
      var names := NamesOf(tools, ReservedNames(tools), decompose);
      names[i] == tools[i] <==> tools[i] !in names[..i]
  {
    NameAt(tools, ReservedNames(tools), decompose, i);
    NormalizedIsSafe(tools[i], decompose);
  }

  // which is the case whenever no valid name occurs twice up to there.
  lemma DistinctValidAreKept(tools: seq<string>, decompose: Decomposition, i: nat)
    requires i < |tools| && IsSafe(tools[i])
    requires forall j, k :: 0 <= j < k <= i && IsSafe(tools[j]) ==> tools[j] != tools[k]
    ensures NamesOf(tools, ReservedNames(tools), decompose)[i] == tools[i]
    decreases i
  {
    var names := NamesOf(tools, ReservedNames(tools), decompose);
    forall j | 0 <= j < i
      ensures names[j] != tools[i]
    {
      if IsSafe(tools[j]) {
        DistinctValidAreKept(tools, decompose, j);
      } else {
        InvalidNeverTakesValid(tools, decompose, j, i);
      }
    }
    ValidIsKeptIff(tools, decompose, i);
  }

  // Over the whole list: the valid names are all kept if and only if no valid name occurs twice.
  lemma AllValidAreKeptIff(tools: seq<string>, decompose: Decomposition)
    ensures
      var names := NamesOf(tools, ReservedNames(tools), decompose);
      (forall i :: 0 <= i < |tools| && IsSafe(tools[i]) ==> names[i] == tools[i])
      <==> (forall j, k :: 0 <= j < k < |tools| && IsSafe(tools[j]) ==> tools[j] != tools[k])
  {
    var names := NamesOf(tools, ReservedNames(tools), decompose);
    if forall i :: 0 <= i < |tools| && IsSafe(tools[i]) ==> names[i] == tools[i] {
      NamesAreDistinct(tools, decompose);
      forall j, k | 0 <= j < k < |tools| && IsSafe(tools[j])
        ensures tools[j] != tools[k]
      {
        assert names[j] != names[k];
      }
    }
    if forall j, k :: 0 <= j < k < |tools| && IsSafe(tools[j]) ==> tools[j] != tools[k] {
      forall i | 0 <= i < |tools| && IsSafe(tools[i])
        ensures names[i] == tools[i]
      {
        DistinctValidAreKept(tools, decompose, i);
      }
    }
  }

  lemma SuffixedIsSafe(baseName: string, suffix: string)
    requires IsSafe(baseName) && AllAllowed(suffix) && |suffix| <= MAX_LENGTH - 2
    ensures IsSafe(WithSuffix(baseName, suffix)) && |WithSuffix(baseName, suffix)| > 1
  {}

  // A valid name that occurs twice can push out another valid one: its second tool is given the name
  // with the hash behind it without a look at what is reserved.
  lemma RepeatedNameTakesLaterOne(decompose: Decomposition)
    ensures
      var tools := ["a", "a", WithSuffix("a", HashText("a"))];
      var names := NamesOf(tools, ReservedNames(tools), decompose);
      IsSafe(tools[2]) && names[1] == tools[2] && names[2] != tools[2]
  {
    var hashed := WithSuffix("a", HashText("a"));
    var tools := ["a", "a", hashed];
    var reserved := ReservedNames(tools);
    var names := NamesOf(tools, reserved, decompose);
    HashIsShort("a");
    SuffixedIsSafe("a", HashText("a"));
    NormalizedIsSafe("a", decompose);
    NameAt(tools, reserved, decompose, 0);
    assert names[0] == "a";
    NameAt(tools, reserved, decompose, 1);
    assert names[..1] == ["a"];
    assert hashed != "a" by {
      assert |hashed| > 1;
    }
    assert names[1] == hashed;
    NamesAreDistinct(tools, decompose);
  }

  // ----- the length ------------------------------------------------------------------------------------

  // The search stops at a number no further away than there are taken names ahead.
  lemma {:induction false} FirstFreeIsNear(baseName: string, hash: string, n: nat, taken: set<string>) returns (m: nat)
    ensures FirstFree(baseName, hash, n, taken) == Numbered(baseName, hash, m)
    ensures n <= m <= n + |Ahead(taken, baseName, hash, n)|
    decreases |Ahead(taken, baseName, hash, n)|
  {
    m := n;
    if Numbered(baseName, hash, n) in taken {
      AheadShrinks(taken, baseName, hash, n);
      m := FirstFreeIsNear(baseName, hash, n + 1, taken);
    }
  }

  lemma TwentyDigits()
    ensures Power(10, 20) == 100_000_000_000_000_000_000
  {
    assert Power(10, 4) == 10_000;
    assert Power(10, 8) == 100_000_000;
    assert Power(10, 12) == 1_000_000_000_000;
    assert Power(10, 16) == 10_000_000_000_000_000;
  }

  lemma NumberedIsSafe(baseName: string, tool: string, m: nat)
    requires IsSafe(baseName) && m < 0x1000_0000_0000_0000
    ensures IsSafe(Numbered(baseName, HashText(tool), m))
  {
    HashIsShort(tool);
    DigitsAreAllowed(m, 10);
    TwentyDigits();
    DigitsLength(m, 10, 20);
    SuffixedIsSafe(baseName, HashText(tool) + "_" + Digits(m, 10));
  }

  lemma ChosenIsSafe(tool: string, used: set<string>, reserved: set<string>, decompose: Decomposition)
    requires |used + reserved| < 0x100_0000_0000_0000
    ensures IsSafe(Choose(tool, used, reserved, decompose))
  {
    var baseName, hash, taken := Normalize(tool, decompose), HashText(tool), Blocked(tool, used, reserved);
    NormalizedIsSafe(tool, decompose);
    HashIsShort(tool);
    SuffixedIsSafe(baseName, hash);
    SubsetSize(taken, used + reserved);
    SubsetSize(Ahead(taken, baseName, hash, 2), taken);
    var m := FirstFreeIsNear(baseName, hash, 2, taken);
    NumberedIsSafe(baseName, tool, m);
  }

  lemma {:induction false} SetOfSize(s: seq<string>)
    ensures |SetOf(s)| <= |s|
  {
    if s == [] {
    } else {
      SetOfSize(s[1..]);
      assert s == [s[0]] + s[1..];
      assert SetOf(s) == {s[0]} + SetOf(s[1..]);
    }
  }

  // Every name can be sent. A JavaScript array holds fewer than 2^32 tools.
  lemma NamesAreSafe(tools: seq<string>, decompose: Decomposition, i: nat)
    requires i < |tools| < 0x1_0000_0000
    ensures IsSafe(NamesOf(tools, ReservedNames(tools), decompose)[i])
  {
    var names, reserved := NamesOf(tools, ReservedNames(tools), decompose), ReservedNames(tools);
    NameAt(tools, reserved, decompose, i);
    SetOfSize(names[..i]);
    SetOfSize(tools);
    SubsetSize(reserved, SetOf(tools));
    var used := SetOf(names[..i]);
    assert |used + reserved| <= |used| + |reserved|;
    ChosenIsSafe(tools[i], used, reserved, decompose);
  }
}
