/**
 Paged thread history: the server's pages (apps/api/src/thread-message-pages.ts) and the client's
 merging of pages into one history (packages/core/src/message-pages.ts). The rows of one thread are
 its durable messages in ascending sequence order, the order in which they are numbered.
 */
module MessagePages {
  import opened Wrappers
  import opened ThreadView

  // ThreadHistory; a page and a snapshot have the same three fields.
  datatype History = History(threadId: string, messages: seq<Message>, olderCursor: Option<nat>)

  ghost predicate DistinctIds(s: seq<Message>) {
    forall i, j :: 0 <= i < j < |s| ==> s[i].id != s[j].id
  }

  ghost predicate IsLog(log: seq<Message>) {
    && (forall i :: 0 <= i < |log| ==> IsDurable(log[i]))
    && (forall i, j :: 0 <= i < j < |log| ==> log[i].seqNo < log[j].seqNo)
    && DistinctIds(log)
  }

  // The progress and subagent messages that a snapshot shows behind the stored ones.
  ghost predicate IsLive(live: seq<Message>) {
    (forall i :: 0 <= i < |live| ==> !IsDurable(live[i])) && DistinctIds(live)
  }

  ghost function Ids(s: seq<Message>): set<MessageId> {
    set m | m in s :: m.id
  }

  // ----- pages ---------------------------------------------------------------------------------------

  function Reverse<T>(s: seq<T>): (r: seq<T>)
    ensures |r| == |s| && forall i :: 0 <= i < |s| ==> r[i] == s[|s| - 1 - i]
  {
    if s == [] then [] else Reverse(s[1..]) + [s[0]]
  }

  function Take<T>(s: seq<T>, n: nat): seq<T> {
    if |s| <= n then s else s[..n]
  }

  function Where(s: seq<Message>, keep: Message -> bool): seq<Message> {
    if s == [] then []
    else if keep(s[0]) then [s[0]] + Where(s[1..], keep)
    else Where(s[1..], keep)
  }

  function LoadMessagePage(threadId: string, log: seq<Message>, before: Option<nat>, pageSize: nat): History {
    var rows := Take(Reverse(Where(log, (m: Message) => before.None? || m.seqNo < before.value)), pageSize + 1);
    var hasOlder := |rows| > pageSize;
    var messages := Reverse(Take(rows, pageSize));
    History(threadId, messages, if hasOlder && messages != [] then Some(messages[0].seqNo) else None)
  }

  // How many messages of the log lie before the cursor.
  ghost function CountBefore(log: seq<Message>, before: Option<nat>): (n: nat)
    ensures n <= |log|
  {
    if log == [] || before.None? || log[|log| - 1].seqNo < before.value then |log|
    else CountBefore(log[..|log| - 1], before)
  }

  // Where the page that ends at position `end` starts.
  ghost function PageStart(end: nat, pageSize: nat): nat {
    if end > pageSize then end - pageSize else 0
  }

  // The cursor of a history that starts at position `lo`.
  ghost function CursorAt(log: seq<Message>, lo: nat): Option<nat>
    requires lo < |log| || lo == 0
  {
    if lo == 0 then None else Some(log[lo].seqNo)
  }

  lemma {:induction false} CountBeforeSplits(log: seq<Message>, before: Option<nat>)
    requires IsLog(log)
    ensures forall i :: 0 <= i < |log| ==>
      (i < CountBefore(log, before) <==> before.None? || log[i].seqNo < before.value)
  {
    if log != [] && before.Some? && log[|log| - 1].seqNo >= before.value {
      var front := log[..|log| - 1];
      CountBeforeSplits(front, before);
      assert forall i :: 0 <= i < |front| ==> front[i] == log[i];
    } else {
      assert CountBefore(log, before) == |log|;
      assert forall i :: 0 <= i < |log| ==> log[i].seqNo <= log[|log| - 1].seqNo;
    }
  }

  lemma {:induction false} WhereSplits(s: seq<Message>, keep: Message -> bool, n: nat)
    requires n <= |s|
    requires forall i :: 0 <= i < |s| ==> (i < n <==> keep(s[i]))
    ensures Where(s, keep) == s[..n]
  {
    if s == [] {
    } else if n == 0 {
      WhereSplits(s[1..], keep, 0);
    } else {
      WhereSplits(s[1..], keep, n - 1);
      assert s[..n] == [s[0]] + s[1..][..n - 1];
    }
  }

  // The last rows before a position, newest first, and the page made of them.
  lemma LastRows(log: seq<Message>, end: nat, pageSize: nat)
    requires end <= |log| && pageSize >= 1
    ensures
      var rows := Take(Reverse(log[..end]), pageSize + 1);
      && (|rows| > pageSize <==> PageStart(end, pageSize) > 0)
      && Reverse(Take(rows, pageSize)) == log[PageStart(end, pageSize)..end]
  {
  }

  // A page holds the last messages before the cursor, oldest first, and its own cursor is the oldest
  // of them when the log goes further back, nothing when it does not.
  lemma PageIs(threadId: string, log: seq<Message>, before: Option<nat>, pageSize: nat)
    requires IsLog(log) && pageSize >= 1
    ensures
      var end := CountBefore(log, before);
      var start := PageStart(end, pageSize);
      && (start < |log| || start == 0)
      && LoadMessagePage(threadId, log, before, pageSize) == History(threadId, log[start..end], CursorAt(log, start))
  {
    var end := CountBefore(log, before);
    var keep := (m: Message) => before.None? || m.seqNo < before.value;
    CountBeforeSplits(log, before);
    WhereSplits(log, keep, end);
    LastRows(log, end, pageSize);
  }

  lemma CountIsStable(log: seq<Message>, more: seq<Message>, before: nat)
    requires IsLog(log + more) && IsLog(log)
    requires log != [] && before <= log[|log| - 1].seqNo
    ensures CountBefore(log + more, Some(before)) == CountBefore(log, Some(before)) < |log|
  {
    var whole, n, k := log + more, CountBefore(log, Some(before)), CountBefore(log + more, Some(before));
    CountBeforeSplits(log, Some(before));
    CountBeforeSplits(whole, Some(before));
    assert !(whole[|log| - 1].seqNo < before);
    assert k <= |log| - 1 && n <= |log| - 1;
    assert whole[k] == log[k] && whole[n] == log[n];
    assert !(k < n) && !(n < k);
  }

  // Nothing that is appended later changes the page behind a cursor.
  lemma SliceOfFront(whole: seq<Message>, n: nat, a: nat, b: nat)
    requires a <= b <= n <= |whole|
    ensures whole[..n][a..b] == whole[a..b]
  {
  }

  lemma FrontIsLog(whole: seq<Message>, n: nat)
    requires IsLog(whole) && n <= |whole|
    ensures IsLog(whole[..n])
  {
    assert forall i :: 0 <= i < n ==> whole[..n][i] == whole[i];
  }

  lemma PageIsStable(threadId: string, log: seq<Message>, more: seq<Message>, before: nat, pageSize: nat)
    requires IsLog(log + more) && pageSize >= 1
    requires log != [] && before <= log[|log| - 1].seqNo
    ensures LoadMessagePage(threadId, log + more, Some(before), pageSize)
      == LoadMessagePage(threadId, log, Some(before), pageSize)
  {
    var whole := log + more;
    assert whole[..|log|] == log;
    FrontIsLog(whole, |log|);
    CountIsStable(log, more, before);
    PageIs(threadId, log, Some(before), pageSize);
    PageIs(threadId, whole, Some(before), pageSize);
    var end := CountBefore(log, Some(before));
    SliceOfFront(whole, |log|, PageStart(end, pageSize), end);
  }

  lemma CountAtPosition(log: seq<Message>, lo: nat)
    requires IsLog(log) && lo < |log|
    ensures CountBefore(log, Some(log[lo].seqNo)) == lo
  {
  }

  function Flat(pages: seq<seq<Message>>): seq<Message> {
    if pages == [] then [] else pages[0] + Flat(pages[1..])
  }

  lemma PagesReachBack(log: seq<Message>, pages: seq<seq<Message>>, page: seq<Message>, start: nat, lo: nat)
    requires start <= lo <= |log|
    requires Flat(Reverse(pages)) == log[lo..] && page == log[start..lo]
    ensures Flat(Reverse(pages + [page])) == log[start..]
  {
    assert Reverse(pages + [page]) == [page] + Reverse(pages);
    assert log[start..] == log[start..lo] + log[lo..];
  }

  ghost predicate OnlyGrows(tableAt: nat -> seq<Message>) {
    forall k: nat :: IsLog(tableAt(k)) && tableAt(0) <= tableAt(k)
  }

  // Where the export stands before a query: everything from position `lo` on has been read.
  ghost predicate ReadDownTo(log: seq<Message>, lo: nat, before: Option<nat>, query: nat) {
    && lo <= |log|
    && (query == 0 ==> before.None? && lo == |log|)
    && (query > 0 && before.Some? ==> 0 < lo < |log| && before == Some(log[lo].seqNo))
    && (query > 0 && before.None? ==> lo == 0)
  }

  lemma LaterQueryIs(threadId: string, log: seq<Message>, table: seq<Message>, lo: nat, pageSize: nat)
    requires IsLog(log) && IsLog(table) && log <= table && pageSize >= 1 && 0 < lo < |log|
    ensures LoadMessagePage(threadId, table, Some(log[lo].seqNo), pageSize)
         == History(threadId, log[PageStart(lo, pageSize)..lo], CursorAt(log, PageStart(lo, pageSize)))
  {
    assert table == log + table[|log|..];
    CountAtPosition(log, lo);
    PageIs(threadId, log, Some(log[lo].seqNo), pageSize);
    PageIsStable(threadId, log, table[|log|..], log[lo].seqNo, pageSize);
  }

  lemma QueryIs(threadId: string, log: seq<Message>, table: seq<Message>, before: Option<nat>, lo: nat, query: nat,
                pageSize: nat)
    requires IsLog(log) && IsLog(table) && log <= table && pageSize >= 1
    requires ReadDownTo(log, lo, before, query) && (query == 0 || before.Some?) && (query == 0 ==> table == log)
    ensures
      var start := PageStart(lo, pageSize);
      && (start < |log| || start == 0)
      && LoadMessagePage(threadId, table, before, pageSize) == History(threadId, log[start..lo], CursorAt(log, start))
  {
    if query == 0 {
      assert CountBefore(log, before) == lo;
      PageIs(threadId, log, before, pageSize);
    } else {
      LaterQueryIs(threadId, log, table, lo, pageSize);
    }
  }

  // The export reads the thread page by page while it may still grow: `tableAt(k)` is what the k-th
  // query finds. It returns the whole log as the first query found it, whatever the page size.
  method LoadAllMessages(threadId: string, tableAt: nat -> seq<Message>, pageSize: nat) returns (all: seq<Message>)
    requires pageSize >= 1
    requires OnlyGrows(tableAt)
    ensures all == tableAt(0)
  {
    var pages: seq<seq<Message>> := [];
    var before: Option<nat> := None;
    var query: nat := 0;
    var again := true;
    ghost var log := tableAt(0);
    ghost var lo: nat := |log|;
    while again
      invariant ReadDownTo(log, lo, before, query)
      invariant Flat(Reverse(pages)) == log[lo..]
      invariant again <==> query == 0 || before.Some?
      decreases again, lo, if query == 0 then 1 else 0
    {
      var page := LoadMessagePage(threadId, tableAt(query), before, pageSize);
      QueryIs(threadId, log, tableAt(query), before, lo, query, pageSize);
      PagesReachBack(log, pages, page.messages, PageStart(lo, pageSize), lo);
      pages := pages + [page.messages];
      before := page.olderCursor;
      again := before.Some?;
      lo := PageStart(lo, pageSize);
      query := query + 1;
    }
    all := Flat(Reverse(pages));
  }

  // ----- merging --------------------------------------------------------------------------------------

  // Of the messages with one id, the first; ids already in `seen` are skipped.
  function FirstOfEach(s: seq<Message>, seen: set<MessageId>): seq<Message> {
    if s == [] then []
    else if s[0].id in seen then FirstOfEach(s[1..], seen)
    else [s[0]] + FirstOfEach(s[1..], seen + {s[0].id})
  }

  method MergeMessagesById(first: seq<Message>, second: seq<Message>) returns (merged: seq<Message>)
    ensures merged == FirstOfEach(first + second, {})
  {
    var seen: set<MessageId> := {};
    merged := [];
    var all := first + second;
    var i := 0;
    while i < |all|
      invariant 0 <= i <= |all|
      invariant FirstOfEach(all, {}) == merged + FirstOfEach(all[i..], seen)
    {
      assert all[i..][1..] == all[i + 1..];
      if all[i].id !in seen {
        ghost var rest := FirstOfEach(all[i + 1..], seen + {all[i].id});
        assert merged + ([all[i]] + rest) == (merged + [all[i]]) + rest;
        seen := seen + {all[i].id};
        merged := merged + [all[i]];
      }
      i := i + 1;
    }
  }

  lemma IdsOfCons(m: Message, rest: seq<Message>)
    ensures Ids([m] + rest) == {m.id} + Ids(rest)
    ensures forall s: seq<Message> :: s != [] && s[0] == m && s[1..] == rest ==> Ids(s) == {m.id} + Ids(rest)
  {
  }

  lemma DistinctCons(m: Message, rest: seq<Message>)
    requires DistinctIds(rest) && m.id !in Ids(rest)
    ensures DistinctIds([m] + rest)
  {
  }

  // What the merge promises, without saying how it is done: one message per id, and every id that
  // came in stays.
  lemma {:induction false} MergeKeepsOneOfEach(s: seq<Message>, seen: set<MessageId>)
    ensures DistinctIds(FirstOfEach(s, seen))
    ensures Ids(FirstOfEach(s, seen)) == Ids(s) - seen
  {
    if s == [] {
    } else {
      IdsOfCons(s[0], s[1..]);
      if s[0].id in seen {
        MergeKeepsOneOfEach(s[1..], seen);
      } else {
        MergeKeepsOneOfEach(s[1..], seen + {s[0].id});
        var rest := FirstOfEach(s[1..], seen + {s[0].id});
        IdsOfCons(s[0], rest);
        DistinctCons(s[0], rest);
      }
    }
  }

  lemma HeadIsNew(a: seq<Message>)
    requires a != [] && DistinctIds(a)
    ensures DistinctIds(a[1..]) && a[0].id !in Ids(a[1..])
  {
  }

  lemma HeadFirst(a: seq<Message>, rest: seq<Message>, more: seq<Message>)
    requires a != [] && rest == a[1..]
    ensures [a[0]] + (rest + more) == a + more
  {
  }

  lemma {:induction false} FreshOnesStay(a: seq<Message>, b: seq<Message>, seen: set<MessageId>)
    requires DistinctIds(a) && Ids(a) !! seen
    ensures FirstOfEach(a + b, seen) == a + FirstOfEach(b, seen + Ids(a))
  {
    if a == [] {
      assert a + b == b && seen + Ids(a) == seen;
    } else {
      var rest := a[1..];
      IdsOfCons(a[0], rest);
      HeadIsNew(a);
      assert (a + b)[1..] == rest + b;
      FreshOnesStay(rest, b, seen + {a[0].id});
      assert seen + {a[0].id} + Ids(rest) == seen + Ids(a);
      HeadFirst(a, rest, FirstOfEach(b, seen + Ids(a)));
    }
  }

  lemma {:induction false} SeenOnesGo(a: seq<Message>, b: seq<Message>, seen: set<MessageId>)
    requires Ids(a) <= seen
    ensures FirstOfEach(a + b, seen) == FirstOfEach(b, seen)
  {
    if a == [] {
      assert a + b == b;
    } else {
      assert a[0] in a && a[0].id in Ids(a);
      assert (a + b)[1..] == a[1..] + b;
      assert forall m :: m in a[1..] ==> m in a;
      SeenOnesGo(a[1..], b, seen);
    }
  }

  function Lowest(first: Option<nat>, s: seq<Message>): Option<nat>
    decreases s
  {
    if s == [] then first
    else if !IsDurable(s[0]) then Lowest(first, s[1..])
    else Lowest(Some(if first.None? || s[0].seqNo < first.value then s[0].seqNo else first.value), s[1..])
  }

  function MergeMessagePages(previous: seq<Message>, recent: seq<Message>): seq<Message> {
    var first := Lowest(None, recent);
    var retained := if first.None? then [] else Where(previous, (m: Message) => IsDurable(m) && m.seqNo < first.value);
    FirstOfEach(retained + recent, {})
  }

  function MergeThreadHistory(previous: Option<History>, recent: History, preserveLoadedHistory: bool): History {
    if previous.None? || previous.value.threadId != recent.threadId || !preserveLoadedHistory then recent
    else recent.(messages := MergeMessagePages(previous.value.messages, recent.messages),
                 olderCursor := previous.value.olderCursor)
  }

  function PrependThreadHistoryPage(previous: Option<History>, page: History): Option<History> {
    if previous.None? || previous.value.threadId != page.threadId then previous
    else Some(previous.value.(messages := FirstOfEach(page.messages + previous.value.messages, {}),
                              olderCursor := page.olderCursor))
  }
}
