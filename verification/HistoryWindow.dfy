/**
 The history a client shows is a window on the thread's log: consecutive messages, in order, none
 twice, with a cursor that points at everything older. What keeps it one, and what breaks it.
 */
module HistoryWindow {
  import opened Wrappers
  import opened ThreadView
  import opened MessagePages

  // The stored messages lo..hi of the log, then the live ones of the latest snapshot.
  ghost predicate WindowAt(log: seq<Message>, h: History, lo: nat, hi: nat, live: seq<Message>) {
    && (lo < hi <= |log| || lo == hi == 0)
    && IsLive(live)
    && h.messages == log[lo..hi] + live
    && h.olderCursor == CursorAt(log, lo)
  }

  ghost predicate IsWindow(log: seq<Message>, h: History) {
    exists lo: nat, hi: nat, live: seq<Message> :: WindowAt(log, h, lo, hi, live)
  }

  lemma WindowRead(log: seq<Message>, h: History, lo: nat, hi: nat, live: seq<Message>)
    requires IsLog(log) && WindowAt(log, h, lo, hi, live)
    ensures |h.messages| == hi - lo + |live|
    ensures forall i :: 0 <= i < hi - lo ==> h.messages[i] == log[lo + i]
    ensures forall i :: hi - lo <= i < |h.messages| ==> h.messages[i] == live[i - (hi - lo)]
    ensures forall i :: 0 <= i < |h.messages| ==> (IsDurable(h.messages[i]) <==> i < hi - lo)
  {}

  // What a window means to a reader, without positions. No id comes twice,
  lemma WindowIdsAreDistinct(log: seq<Message>, h: History)
    requires IsLog(log) && IsWindow(log, h)
    ensures DistinctIds(h.messages)
  {
  }

  // no message of the log is missing between two neighbours, which ascend,
  lemma WindowHasNoGap(log: seq<Message>, h: History, i: nat)
    requires IsLog(log) && IsWindow(log, h)
    requires 0 < i < |h.messages| && IsDurable(h.messages[i])
    ensures IsDurable(h.messages[i - 1]) && h.messages[i - 1].seqNo < h.messages[i].seqNo
    ensures forall m | m in log :: !(h.messages[i - 1].seqNo < m.seqNo < h.messages[i].seqNo)
  {
  }

  // and the cursor is absent exactly when nothing older exists.
  lemma WindowCursorIsRight(log: seq<Message>, h: History)
    requires IsLog(log) && IsWindow(log, h) && h.messages != [] && IsDurable(h.messages[0])
    ensures h.olderCursor == None <==> forall m | m in log :: m.seqNo >= h.messages[0].seqNo
    ensures h.olderCursor == None || h.olderCursor == Some(h.messages[0].seqNo)
  {
    var lo: nat, hi: nat, live: seq<Message> :| WindowAt(log, h, lo, hi, live);
    WindowRead(log, h, lo, hi, live);
    assert h.messages[0] == log[lo];
    if lo > 0 {
      assert log[0] in log && log[0].seqNo < log[lo].seqNo;
    } else {
      forall m | m in log
        ensures m.seqNo >= log[0].seqNo
      {
        var k :| 0 <= k < |log| && log[k] == m;
      }
    }
  }

  // ----- one merge -----------------------------------------------------------------------------------

  lemma {:induction false} LowestOfLive(first: Option<nat>, live: seq<Message>)
    requires forall i :: 0 <= i < |live| ==> !IsDurable(live[i])
    ensures Lowest(first, live) == first
  {
    if live == [] {
    } else {
      LowestOfLive(first, live[1..]);
    }
  }

  lemma {:induction false} LowestOfRest(s: seq<Message>, live: seq<Message>, least: nat)
    requires forall i :: 0 <= i < |s| ==> IsDurable(s[i]) && least <= s[i].seqNo
    requires forall i :: 0 <= i < |live| ==> !IsDurable(live[i])
    ensures Lowest(Some(least), s + live) == Some(least)
  {
    if s == [] {
      assert s + live == live;
      LowestOfLive(Some(least), live);
    } else {
      assert (s + live)[1..] == s[1..] + live;
      LowestOfRest(s[1..], live, least);
    }
  }

  // The lowest number in a snapshot is that of its first stored message.
  lemma LowestIsFirst(log: seq<Message>, lo: nat, hi: nat, live: seq<Message>)
    requires IsLog(log) && lo <= hi <= |log| && IsLive(live)
    ensures Lowest(None, log[lo..hi] + live) == if lo == hi then None else Some(log[lo].seqNo)
  {
    if lo == hi {
      assert log[lo..hi] + live == live;
      LowestOfLive(None, live);
    } else {
      assert (log[lo..hi] + live)[1..] == log[lo + 1..hi] + live;
      LowestOfRest(log[lo + 1..hi], live, log[lo].seqNo);
    }
  }

  function Least(a: nat, b: nat): nat {
    if a < b then a else b
  }

  function Most(a: nat, b: nat): nat {
    if a < b then b else a
  }

  // Of a window, merging keeps what lies before the fresh page.
  lemma RetainedIs(log: seq<Message>, lo: nat, hi: nat, live: seq<Message>, start: nat)
    requires IsLog(log) && lo <= hi <= |log| && IsLive(live) && start < |log|
    ensures Where(log[lo..hi] + live, (m: Message) => IsDurable(m) && m.seqNo < log[start].seqNo)
         == log[lo..Most(lo, Least(hi, start))]
  {
    var s, n := log[lo..hi] + live, Most(lo, Least(hi, start)) - lo;
    var keep := (m: Message) => IsDurable(m) && m.seqNo < log[start].seqNo;
    forall i | 0 <= i < |s|
      ensures i < n <==> keep(s[i])
    {
      if i < hi - lo {
        assert s[i] == log[lo + i];
        assert lo + i < start <==> log[lo + i].seqNo < log[start].seqNo;
      } else {
        assert s[i] == live[i - (hi - lo)];
      }
    }
    WhereSplits(s, keep, n);
    assert s[..n] == log[lo..lo + n];
  }

  lemma SliceOfLog(log: seq<Message>, lo: nat, hi: nat)
    requires IsLog(log) && lo <= hi <= |log|
    ensures DistinctIds(log[lo..hi])
    ensures forall k | 0 <= k < |log| :: log[k].id in Ids(log[lo..hi]) <==> lo <= k < hi
  {
  }

  // Stored and live ids never meet, so live messages pass a merge untouched.
  lemma LivePasses(live: seq<Message>, seen: set<MessageId>)
    requires IsLive(live)
    requires forall id | id in seen :: id.DurableId?
    ensures FirstOfEach(live, seen) == live
  {
    assert live + [] == live;
    assert Ids(live) !! seen by {
      forall m | m in live
        ensures m.id !in seen
      {
        assert !IsDurable(m);
      }
    }
    FreshOnesStay(live, [], seen);
  }

  lemma IdsAreDurable(log: seq<Message>, lo: nat, hi: nat)
    requires IsLog(log) && lo <= hi <= |log|
    ensures forall id | id in Ids(log[lo..hi]) :: id.DurableId?
  {
  }

  lemma SlicesMeet(log: seq<Message>, a: nat, b: nat, c: nat, d: nat)
    requires IsLog(log) && a <= b <= |log| && c <= d <= |log|
    ensures a <= c && d <= b ==> Ids(log[c..d]) <= Ids(log[a..b])
    ensures b <= c || d <= a ==> Ids(log[c..d]) !! Ids(log[a..b])
  {
  }

  lemma SecondSlice(log: seq<Message>, a: nat, b: nat, c: nat, d: nat, live: seq<Message>)
    requires IsLog(log) && a <= b <= |log| && c <= d <= |log| && IsLive(live)
    requires a <= c
    ensures FirstOfEach(log[c..d] + live, Ids(log[a..b])) == log[Most(c, Least(b, d))..d] + live
  {
    var seen, m := Ids(log[a..b]), Most(c, Least(b, d));
    assert log[c..d] + live == log[c..m] + (log[m..d] + live);
    if c < m {
      SlicesMeet(log, a, b, c, m);
    } else {
      assert log[c..m] == [];
    }
    SeenOnesGo(log[c..m], log[m..d] + live, seen);
    if m < d {
      SlicesMeet(log, a, b, m, d);
    } else {
      assert log[m..d] == [];
    }
    SliceOfLog(log, m, d);
    FreshOnesStay(log[m..d], live, seen);
    IdsAreDurable(log, a, b);
    IdsAreDurable(log, m, d);
    LivePasses(live, seen + Ids(log[m..d]));
  }

  // Merging two slices: the second loses what the first already has.
  lemma MergeSlices(log: seq<Message>, a: nat, b: nat, c: nat, d: nat, live: seq<Message>)
    requires IsLog(log) && a <= b <= |log| && c <= d <= |log| && IsLive(live)
    requires a <= c
    ensures FirstOfEach(log[a..b] + (log[c..d] + live), {})
         == log[a..b] + (log[Most(c, Least(b, d))..d] + live)
  {
    SliceOfLog(log, a, b);
    IdsAreDurable(log, a, b);
    FreshOnesStay(log[a..b], log[c..d] + live, {});
    assert {} + Ids(log[a..b]) == Ids(log[a..b]);
    SecondSlice(log, a, b, c, d, live);
  }

  // In a window, equal steps in the list are equal steps in the log.
  lemma NoJump(log: seq<Message>, h: History, i: nat, j: nat, k: nat)
    requires IsLog(log) && IsWindow(log, h)
    requires i < |log| && j < |log| && 0 < k < |h.messages|
    requires h.messages[0] == log[i] && h.messages[k] == log[j]
    ensures j == i + k
  {
  }

  lemma CursorTellsStart(log: seq<Message>, h: History, i: nat)
    requires IsLog(log) && IsWindow(log, h)
    requires i < |log| && h.messages != [] && h.messages[0] == log[i]
    ensures h.olderCursor == CursorAt(log, i)
  {
  }

  // A refresh that is merged into the loaded history: it brings the messages from `start` on.
  ghost predicate MergeFits(lo: nat, hi: nat, start: nat) {
    lo <= start <= hi
  }

  lemma MergedIs(log: seq<Message>, previous: History, lo: nat, hi: nat, live: seq<Message>,
                 recent: History, start: nat, end: nat, shown: seq<Message>)
    requires IsLog(log) && WindowAt(log, previous, lo, hi, live) && WindowAt(log, recent, start, end, shown)
    requires previous.threadId == recent.threadId
    ensures MergeThreadHistory(Some(previous), recent, true)
         == History(recent.threadId,
                    (if start == end then [] else log[lo..Most(lo, Least(hi, start))]) + (log[start..end] + shown),
                    previous.olderCursor)
  {
    LowestIsFirst(log, start, end, shown);
    if start == end {
      assert log[start..end] + shown == shown;
      LivePasses(shown, {});
      assert [] + recent.messages == recent.messages == shown;
      assert MergeMessagePages(previous.messages, recent.messages) == shown;
      assert [] + (log[start..end] + shown) == shown;
    } else {
      RetainedIs(log, lo, hi, live, start);
      var m := Most(lo, Least(hi, start));
      if m == lo {
        assert log[lo..m] == [] && log[lo..m] == log[start..start];
        MergeSlices(log, start, start, start, end, shown);
      } else {
        MergeSlices(log, lo, m, start, end, shown);
      }
    }
  }

  lemma PiecesMeet(log: seq<Message>, merged: History, lo: nat, hi: nat, start: nat, end: nat, shown: seq<Message>)
    requires IsLog(log) && IsWindow(log, merged) && lo < hi <= start < end <= |log|
    requires merged.messages == log[lo..hi] + (log[start..end] + shown)
    ensures hi == start
  {
    assert merged.messages[0] == log[lo];
    assert merged.messages[hi - lo] == log[start];
    NoJump(log, merged, lo, start, hi - lo);
  }

  lemma EmptyWindowHasNoCursor(log: seq<Message>, h: History, live: seq<Message>)
    requires IsLog(log) && IsWindow(log, h) && IsLive(live) && h.messages == live
    ensures h.olderCursor.None?
  {
    var lo: nat, hi: nat, l: seq<Message> :| WindowAt(log, h, lo, hi, l);
    WindowRead(log, h, lo, hi, l);
    assert |live| > 0 ==> h.messages[0] == live[0] && !IsDurable(live[0]);
  }

  lemma MisfitIsSeen(log: seq<Message>, merged: History, lo: nat, hi: nat, start: nat, end: nat, shown: seq<Message>)
    requires IsLog(log) && IsWindow(log, merged)
    requires lo < hi <= |log| || lo == hi == 0
    requires start < end <= |log| || start == end == 0
    requires merged.messages
      == (if start == end then [] else log[lo..Most(lo, Least(hi, start))]) + (log[start..end] + shown)
    requires merged.olderCursor == CursorAt(log, lo)
    requires IsLive(shown)
    ensures MergeFits(lo, hi, start)
  {
    if start == end {
      assert merged.messages == shown;
      EmptyWindowHasNoCursor(log, merged, shown);
    } else if start < lo || hi == 0 {
      assert merged.messages[0] == log[start];
      CursorTellsStart(log, merged, start);
    } else if hi <= start {
      assert log[lo..Most(lo, Least(hi, start))] == log[lo..hi];
      PiecesMeet(log, merged, lo, hi, start, end, shown);
    }
  }

  // The refreshed history is a window again exactly when the fresh page starts inside the loaded one
  // or right behind it.
  lemma RefreshKeepsWindowIff(log: seq<Message>, previous: History, lo: nat, hi: nat, live: seq<Message>,
                              recent: History, start: nat, end: nat, shown: seq<Message>)
    requires IsLog(log) && WindowAt(log, previous, lo, hi, live) && WindowAt(log, recent, start, end, shown)
    requires previous.threadId == recent.threadId
    ensures IsWindow(log, MergeThreadHistory(Some(previous), recent, true)) <==> MergeFits(lo, hi, start)
    ensures MergeFits(lo, hi, start) ==> WindowAt(log, MergeThreadHistory(Some(previous), recent, true), lo, end, shown)
  {
    MergedIs(log, previous, lo, hi, live, recent, start, end, shown);
    var merged := MergeThreadHistory(Some(previous), recent, true);
    if MergeFits(lo, hi, start) {
      assert (if start == end then [] else log[lo..start]) + (log[start..end] + shown) == log[lo..end] + shown;
      assert WindowAt(log, merged, lo, end, shown);
    } else if IsWindow(log, merged) {
      MisfitIsSeen(log, merged, lo, hi, start, end, shown);
    }
  }

  // An older page that ends at position `end` and starts at `start` fits a window that starts
  // between the two, and an empty one.
  ghost predicate PageFits(lo: nat, hi: nat, start: nat, end: nat) {
    lo == hi || start <= lo <= end
  }

  lemma PrependToNothing(log: seq<Message>, live: seq<Message>, start: nat, end: nat)
    requires IsLog(log) && IsLive(live) && start <= end <= |log|
    ensures FirstOfEach(log[start..end] + live, {}) == log[start..end] + live
  {
    assert log[start..start] + live == live;
    MergeSlices(log, start, end, start, start, live);
    assert log[start..end] + (log[start..start] + live) == log[start..end] + live;
  }

  lemma PrependToWindow(log: seq<Message>, live: seq<Message>, start: nat, end: nat, lo: nat, hi: nat)
    requires IsLog(log) && IsLive(live) && start <= lo <= end <= |log| && lo < hi <= |log|
    ensures FirstOfEach(log[start..end] + (log[lo..hi] + live), {}) == log[start..Most(end, hi)] + live
  {
    MergeSlices(log, start, end, lo, hi, live);
    var m := Most(lo, Least(end, hi));
    assert log[start..end] + (log[m..hi] + live) == log[start..Most(end, hi)] + live;
  }

  lemma PrependFitting(log: seq<Message>, previous: History, lo: nat, hi: nat, live: seq<Message>,
                       page: History, start: nat, end: nat)
    requires IsLog(log) && WindowAt(log, previous, lo, hi, live) && WindowAt(log, page, start, end, [])
    requires previous.threadId == page.threadId && PageFits(lo, hi, start, end)
    ensures WindowAt(log, PrependThreadHistoryPage(Some(previous), page).value, start, Most(end, hi), live)
  {
    assert page.messages == log[start..end];
    if lo == hi {
      assert previous.messages == live;
      PrependToNothing(log, live, start, end);
    } else {
      PrependToWindow(log, live, start, end, lo, hi);
    }
  }

  // A page that does not fit leaves the page in front and the old first message right behind it.
  lemma PrependedMisfit(log: seq<Message>, previous: History, lo: nat, hi: nat, live: seq<Message>,
                        page: History, start: nat, end: nat)
    requires IsLog(log) && WindowAt(log, previous, lo, hi, live) && WindowAt(log, page, start, end, [])
    requires !PageFits(lo, hi, start, end)
    ensures
      var merged := FirstOfEach(page.messages + previous.messages, {});
      |merged| > end - start && merged[..end - start] == log[start..end] && merged[end - start] == log[lo]
  {
    assert page.messages == log[start..end];
    SliceOfLog(log, start, end);
    FreshOnesStay(log[start..end], previous.messages, {});
    assert {} + Ids(log[start..end]) == Ids(log[start..end]);
    assert previous.messages[0] == log[lo];
    assert log[lo].id !in Ids(log[start..end]);
  }

  lemma GapIsSeen(log: seq<Message>, merged: History, start: nat, end: nat, lo: nat)
    requires IsLog(log) && IsWindow(log, merged) && start <= end <= |log| && lo < |log|
    requires |merged.messages| > end - start
    requires merged.messages[..end - start] == log[start..end] && merged.messages[end - start] == log[lo]
    requires start == end ==> start == 0
    requires merged.olderCursor == CursorAt(log, start)
    ensures start < end ==> lo == end
    ensures start == end ==> lo == 0
  {
  }

  lemma PrependKeepsWindowIff(log: seq<Message>, previous: History, lo: nat, hi: nat, live: seq<Message>,
                              page: History, start: nat, end: nat)
    requires IsLog(log) && WindowAt(log, previous, lo, hi, live) && WindowAt(log, page, start, end, [])
    requires previous.threadId == page.threadId
    ensures IsWindow(log, PrependThreadHistoryPage(Some(previous), page).value) <==> PageFits(lo, hi, start, end)
    ensures PageFits(lo, hi, start, end) ==>
      WindowAt(log, PrependThreadHistoryPage(Some(previous), page).value, start, Most(end, hi), live)
  {
    if PageFits(lo, hi, start, end) {
      PrependFitting(log, previous, lo, hi, live, page, start, end);
    } else if IsWindow(log, PrependThreadHistoryPage(Some(previous), page).value) {
      PrependedMisfit(log, previous, lo, hi, live, page, start, end);
      GapIsSeen(log, PrependThreadHistoryPage(Some(previous), page).value, start, end, lo);
    }
  }

  lemma {:induction false} FirstOfEachIsIn(messages: seq<Message>, seen: set<MessageId>)
    ensures forall m | m in FirstOfEach(messages, seen) :: m in messages
  {
    if messages == [] {
    } else {
      FirstOfEachIsIn(messages[1..], seen);
      FirstOfEachIsIn(messages[1..], seen + {messages[0].id});
    }
  }

  lemma {:induction false} WhereIsIn(messages: seq<Message>, keep: Message -> bool)
    ensures forall m | m in Where(messages, keep) :: m in messages
  {
    if messages == [] {
    } else {
      WhereIsIn(messages[1..], keep);
    }
  }

  // Histories of two threads never mix: a message of one thread only ever joins messages of the same.
  lemma ThreadsNeverMix(previous: History, page: History, preserve: bool)
    ensures var merged := MergeThreadHistory(Some(previous), page, preserve);
      && merged.threadId == page.threadId
      && forall m | m in merged.messages ::
           m in page.messages || (m in previous.messages && previous.threadId == page.threadId)
    ensures PrependThreadHistoryPage(Some(previous), page).Some?
    ensures var longer := PrependThreadHistoryPage(Some(previous), page).value;
      && longer.threadId == previous.threadId
      && forall m | m in longer.messages ::
           m in previous.messages || (m in page.messages && previous.threadId == page.threadId)
  {
    FirstOfEachIsIn(page.messages + previous.messages, {});
    var first := Lowest(None, page.messages);
    if first.Some? {
      var keep := (m: Message) => IsDurable(m) && m.seqNo < first.value;
      WhereIsIn(previous.messages, keep);
      FirstOfEachIsIn(Where(previous.messages, keep) + page.messages, {});
    } else {
      FirstOfEachIsIn([] + page.messages, {});
    }
  }

  // Pages of another thread: a refresh replaces the history, an older page leaves it alone.
  lemma OtherThreadKeepsWindow(log: seq<Message>, previous: History, page: History, preserve: bool)
    requires previous.threadId != page.threadId
    ensures IsWindow(log, page) <==> IsWindow(log, MergeThreadHistory(Some(previous), page, preserve))
    ensures PrependThreadHistoryPage(Some(previous), page).Some?
    ensures IsWindow(log, previous) <==> IsWindow(log, PrependThreadHistoryPage(Some(previous), page).value)
  {
  }

  // A snapshot and a page are windows themselves.
  lemma SnapshotIsWindow(threadId: string, log: seq<Message>, at: nat, before: Option<nat>, pageSize: nat,
                         live: seq<Message>)
    requires IsLog(log) && at <= |log| && pageSize >= 1 && IsLive(live)
    ensures
      var end := CountBefore(log[..at], before);
      var page := LoadMessagePage(threadId, log[..at], before, pageSize);
      WindowAt(log, page.(messages := page.messages + live), PageStart(end, pageSize), end, live)
  {
    var seen := log[..at];
    var end := CountBefore(seen, before);
    FrontIsLog(log, at);
    PageIs(threadId, seen, before, pageSize);
    SliceOfFront(log, at, PageStart(end, pageSize), end);
  }
}
