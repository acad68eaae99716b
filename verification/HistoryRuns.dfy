/**
 A client over time: refreshes and page loads arrive in any order, from any moment of the log, while
 the log grows (apps/web/src/pages/Shell.tsx, apps/mobile/app/thread.tsx). `expanded` is the flag that makes a
 refresh keep the loaded history; `asked` is the cursor of the page load under way.
 */
module HistoryRuns {
  import opened Wrappers
  import opened ThreadView
  import opened MessagePages
  import opened HistoryWindow

  datatype Client = Client(threadId: string, log: seq<Message>, view: Option<History>, expanded: bool,
                           asked: Option<nat>)

  datatype Action = Grow(message: Message) | RefreshArrives(at: nat, live: seq<Message>) | AskOlder | OlderArrives

  // A snapshot that was read when the log had `at` messages.
  function Snapshot(c: Client, at: nat, live: seq<Message>, pageSize: nat): History
    requires at <= |c.log|
  {
    var page := LoadMessagePage(c.threadId, c.log[..at], None, pageSize);
    page.(messages := page.messages + live)
  }

  // The cursor is only asked for while no load is under way and something older exists.
  ghost predicate Enabled(c: Client, a: Action) {
    match a
    case Grow(message) => IsLog(c.log + [message])
    case RefreshArrives(at, live) => at <= |c.log| && IsLive(live)
    case AskOlder => c.asked.None? && c.view.Some? && c.view.value.olderCursor.Some?
    case OlderArrives => c.asked.Some?
  }

  function Step(c: Client, a: Action, pageSize: nat): Client
    requires a.RefreshArrives? ==> a.at <= |c.log|
    requires a.AskOlder? ==> c.view.Some?
  {
    match a
    case Grow(message) => c.(log := c.log + [message])
    case RefreshArrives(at, live) =>
      c.(view := Some(MergeThreadHistory(c.view, Snapshot(c, at, live, pageSize), c.expanded)))
    case AskOlder => c.(asked := c.view.value.olderCursor)
    case OlderArrives =>
      var page := LoadMessagePage(c.threadId, c.log, c.asked, pageSize);
      c.(view := PrependThreadHistoryPage(c.view, page), expanded := true, asked := None)
  }

  ghost predicate Shown(c: Client, lo: nat, hi: nat, live: seq<Message>) {
    c.view.Some? && WindowAt(c.log, c.view.value, lo, hi, live)
  }

  ghost predicate Good(c: Client) {
    && IsLog(c.log)
    && (c.view.Some? ==> c.view.value.threadId == c.threadId && IsWindow(c.log, c.view.value))
  }

  // The arriving page reaches the loaded history.
  ghost predicate Fits(c: Client, a: Action, pageSize: nat) {
    match a
    case RefreshArrives(at, _) =>
      c.view.None? || !c.expanded ||
      exists lo: nat, hi: nat, live: seq<Message> :: Shown(c, lo, hi, live)
          && MergeFits(lo, hi, PageStart(at, pageSize))
    case OlderArrives =>
      c.view.None? ||
      var end := CountBefore(c.log, c.asked);
      exists lo: nat, hi: nat, live: seq<Message> :: Shown(c, lo, hi, live)
          && PageFits(lo, hi, PageStart(end, pageSize), end)
    case _ => true
  }

  lemma ShownSome(c: Client) returns (lo: nat, hi: nat, live: seq<Message>)
    requires Good(c) && c.view.Some?
    ensures Shown(c, lo, hi, live)
  {
    lo, hi, live :| WindowAt(c.log, c.view.value, lo, hi, live);
  }

  lemma SnapshotShows(c: Client, at: nat, live: seq<Message>, pageSize: nat)
    requires IsLog(c.log) && at <= |c.log| && IsLive(live) && pageSize >= 1
    ensures WindowAt(c.log, Snapshot(c, at, live, pageSize), PageStart(at, pageSize), at, live)
  {
    SnapshotIsWindow(c.threadId, c.log, at, None, pageSize, live);
    assert CountBefore(c.log[..at], None) == at;
  }

  lemma OlderPageShows(c: Client, pageSize: nat)
    requires IsLog(c.log) && pageSize >= 1
    ensures
      var end := CountBefore(c.log, c.asked);
      WindowAt(c.log, LoadMessagePage(c.threadId, c.log, c.asked, pageSize), PageStart(end, pageSize), end, [])
  {
    SnapshotIsWindow(c.threadId, c.log, |c.log|, c.asked, pageSize, []);
    assert c.log[..|c.log|] == c.log;
    var page := LoadMessagePage(c.threadId, c.log, c.asked, pageSize);
    assert page.messages + [] == page.messages;
  }

  lemma GrowKeepsShown(c: Client, message: Message, pageSize: nat, lo: nat, hi: nat, live: seq<Message>)
    requires Shown(c, lo, hi, live)
    ensures Shown(Step(c, Grow(message), pageSize), lo, hi, live)
  {
  }

  lemma RefreshShows(c: Client, at: nat, live: seq<Message>, pageSize: nat, lo: nat, hi: nat, earlier: seq<Message>)
    requires Good(c) && at <= |c.log| && IsLive(live) && pageSize >= 1 && c.expanded && Shown(c, lo, hi, earlier)
    ensures
      var next := Step(c, RefreshArrives(at, live), pageSize);
      && (Good(next) <==> MergeFits(lo, hi, PageStart(at, pageSize)))
      && (MergeFits(lo, hi, PageStart(at, pageSize)) ==> Shown(next, lo, at, live))
  {
    SnapshotShows(c, at, live, pageSize);
    RefreshKeepsWindowIff(c.log, c.view.value, lo, hi, earlier,
                          Snapshot(c, at, live, pageSize), PageStart(at, pageSize), at, live);
  }

  // `next` is the client after the page came in.
  predicate TookPage(c: Client, page: History, next: Client) {
    && page.threadId == c.threadId && next.log == c.log && next.threadId == c.threadId
    && next.view == PrependThreadHistoryPage(c.view, page)
  }

  lemma TakesOlder(c: Client, pageSize: nat)
    ensures TookPage(c, LoadMessagePage(c.threadId, c.log, c.asked, pageSize), Step(c, OlderArrives, pageSize))
  {
  }

  lemma TookShows(c: Client, page: History, next: Client, lo: nat, hi: nat, live: seq<Message>, start: nat, end: nat)
    requires Good(c) && Shown(c, lo, hi, live) && WindowAt(c.log, page, start, end, []) && TookPage(c, page, next)
    ensures Good(next) <==> PageFits(lo, hi, start, end)
    ensures PageFits(lo, hi, start, end) ==> Shown(next, start, Most(end, hi), live)
  {
    PrependKeepsWindowIff(c.log, c.view.value, lo, hi, live, page, start, end);
  }

  lemma OlderShows(c: Client, pageSize: nat, lo: nat, hi: nat, live: seq<Message>)
    requires Good(c) && pageSize >= 1 && Shown(c, lo, hi, live)
    ensures
      var next := Step(c, OlderArrives, pageSize);
      var end := CountBefore(c.log, c.asked);
      && (Good(next) <==> PageFits(lo, hi, PageStart(end, pageSize), end))
      && (PageFits(lo, hi, PageStart(end, pageSize), end) ==>
        Shown(next, PageStart(end, pageSize), Most(end, hi), live))
  {
    var end := CountBefore(c.log, c.asked);
    var page := LoadMessagePage(c.threadId, c.log, c.asked, pageSize);
    OlderPageShows(c, pageSize);
    TakesOlder(c, pageSize);
    TookShows(c, page, Step(c, OlderArrives, pageSize), lo, hi, live, PageStart(end, pageSize), end);
  }

  // One step keeps the shown history a window exactly when what arrives reaches it.
  lemma StepKeepsWindowIff(c: Client, a: Action, pageSize: nat)
    requires Good(c) && Enabled(c, a) && pageSize >= 1
    ensures Good(Step(c, a, pageSize)) <==> Fits(c, a, pageSize)
  {
    match a
    case Grow(message) =>
      if c.view.Some? {
        var lo, hi, live := ShownSome(c);
        GrowKeepsShown(c, message, pageSize, lo, hi, live);
      }
    case RefreshArrives(at, live) =>
      SnapshotShows(c, at, live, pageSize);
      if c.view.Some? && c.expanded {
        forall lo: nat, hi: nat, earlier: seq<Message> | Shown(c, lo, hi, earlier)
          ensures Good(Step(c, a, pageSize)) <==> MergeFits(lo, hi, PageStart(at, pageSize))
        {
          RefreshShows(c, at, live, pageSize, lo, hi, earlier);
        }
        var lo, hi, earlier := ShownSome(c);
      }
    case AskOlder =>
    case OlderArrives =>
      if c.view.Some? {
        var end := CountBefore(c.log, c.asked);
        forall lo: nat, hi: nat, live: seq<Message> | Shown(c, lo, hi, live)
          ensures Good(Step(c, a, pageSize)) <==> PageFits(lo, hi, PageStart(end, pageSize), end)
        {
          OlderShows(c, pageSize, lo, hi, live);
        }
        var lo, hi, live := ShownSome(c);
      }
  }

  // A run: every step enabled.
  ghost predicate Run(states: seq<Client>, actions: seq<Action>, pageSize: nat) {
    && |states| == |actions| + 1
    && states[0].view.None? && states[0].asked.None? && !states[0].expanded && IsLog(states[0].log)
    && forall i :: 0 <= i < |actions| ==>
      Enabled(states[i], actions[i]) && states[i + 1] == Step(states[i], actions[i], pageSize)
  }

  lemma {:induction false} AlwaysWindow(states: seq<Client>, actions: seq<Action>, pageSize: nat, n: nat)
    requires Run(states, actions, pageSize) && pageSize >= 1 && n < |states|
    requires forall i :: 0 <= i < n ==> Fits(states[i], actions[i], pageSize)
    ensures Good(states[n])
  {
    if n == 0 {
    } else {
      AlwaysWindow(states, actions, pageSize, n - 1);
      StepKeepsWindowIff(states[n - 1], actions[n - 1], pageSize);
    }
  }

  // ----- when everything fits ------------------------------------------------------------------------

  // A refresh that replaces the history does not arrive during a page load; one that is merged was
  // read no earlier than what is shown and brings at most a page of new messages.
  ghost predicate Careful(c: Client, a: Action, pageSize: nat) {
    a.RefreshArrives? && c.view.Some? ==>
      if !c.expanded then c.asked.None?
      else exists lo: nat, hi: nat, live: seq<Message> :: Shown(c, lo, hi, live) && hi <= a.at <= hi + pageSize
  }

  // The history reaches at least a page back, and a load under way was asked with its own cursor.
  ghost predicate Steady(c: Client, pageSize: nat) {
    && Good(c)
    && (c.asked.Some? ==> c.view.Some? && c.asked == c.view.value.olderCursor)
    && (c.view.Some? ==> forall lo: nat, hi: nat, live: seq<Message> :: Shown(c, lo, hi, live) ==>
      lo <= PageStart(hi, pageSize))
  }

  lemma ShownOnce(c: Client, lo: nat, hi: nat, live: seq<Message>, lo': nat, hi': nat, live': seq<Message>)
    requires IsLog(c.log) && Shown(c, lo, hi, live) && Shown(c, lo', hi', live')
    ensures lo == lo' && hi == hi'
  {
    WindowRead(c.log, c.view.value, lo, hi, live);
    WindowRead(c.log, c.view.value, lo', hi', live');
    var s := c.view.value.messages;
    assert hi - lo == hi' - lo' by {
      assert hi - lo < |s| ==> !IsDurable(s[hi - lo]);
      assert hi' - lo' < |s| ==> !IsDurable(s[hi' - lo']);
    }
    if lo < hi {
      assert s[0] == c.log[lo] == c.log[lo'];
    }
  }

  lemma SteadyFrom(c: Client, lo: nat, hi: nat, live: seq<Message>, pageSize: nat)
    requires Good(c) && Shown(c, lo, hi, live) && lo <= PageStart(hi, pageSize)
    requires c.asked.Some? ==> c.asked == c.view.value.olderCursor
    ensures Steady(c, pageSize)
  {
    forall lo': nat, hi': nat, live': seq<Message> | Shown(c, lo', hi', live')
      ensures lo' <= PageStart(hi', pageSize)
    {
      ShownOnce(c, lo, hi, live, lo', hi', live');
    }
  }

  // A load asked with the current cursor brings exactly the page before the window.
  lemma LoadReachesBack(c: Client, lo: nat, hi: nat, live: seq<Message>, pageSize: nat)
    requires Good(c) && pageSize >= 1 && Shown(c, lo, hi, live)
    requires c.asked.Some? && c.asked == c.view.value.olderCursor
    ensures 0 < lo && Shown(Step(c, OlderArrives, pageSize), PageStart(lo, pageSize), hi, live)
    ensures Good(Step(c, OlderArrives, pageSize))
  {
    CountAtPosition(c.log, lo);
    OlderShows(c, pageSize, lo, hi, live);
  }

  lemma CarefulRefresh(c: Client, at: nat, live: seq<Message>, pageSize: nat)
    requires Steady(c, pageSize) && pageSize >= 1 && at <= |c.log| && IsLive(live)
    requires Careful(c, RefreshArrives(at, live), pageSize)
    ensures Steady(Step(c, RefreshArrives(at, live), pageSize), pageSize)
  {
    var next := Step(c, RefreshArrives(at, live), pageSize);
    SnapshotShows(c, at, live, pageSize);
    if c.view.Some? && c.expanded {
      var lo: nat, hi: nat, earlier: seq<Message> :| Shown(c, lo, hi, earlier) && hi <= at <= hi + pageSize;
      assert MergeFits(lo, hi, PageStart(at, pageSize));
      RefreshShows(c, at, live, pageSize, lo, hi, earlier);
      SteadyFrom(next, lo, at, live, pageSize);
    } else {
      SteadyFrom(next, PageStart(at, pageSize), at, live, pageSize);
    }
  }

  lemma CarefulStep(c: Client, a: Action, pageSize: nat)
    requires Steady(c, pageSize) && pageSize >= 1 && Enabled(c, a) && Careful(c, a, pageSize)
    ensures Steady(Step(c, a, pageSize), pageSize)
  {
    match a
    case Grow(message) =>
      if c.view.Some? {
        var lo, hi, live := ShownSome(c);
        GrowKeepsShown(c, message, pageSize, lo, hi, live);
        SteadyFrom(Step(c, a, pageSize), lo, hi, live, pageSize);
      }
    case RefreshArrives(at, live) =>
      CarefulRefresh(c, at, live, pageSize);
    case AskOlder =>
      var lo, hi, live := ShownSome(c);
      SteadyFrom(Step(c, a, pageSize), lo, hi, live, pageSize);
    case OlderArrives =>
      var lo, hi, live := ShownSome(c);
      LoadReachesBack(c, lo, hi, live, pageSize);
      SteadyFrom(Step(c, a, pageSize), PageStart(lo, pageSize), hi, live, pageSize);
  }

  // Whole runs of careful steps: the shown history is a window throughout.
  lemma {:induction false} CarefulRunsKeepTheWindow(states: seq<Client>, actions: seq<Action>, pageSize: nat, n: nat)
    requires Run(states, actions, pageSize) && pageSize >= 1 && n < |states|
    requires forall i :: 0 <= i < n ==> Careful(states[i], actions[i], pageSize)
    ensures Steady(states[n], pageSize)
  {
    if n == 0 {
    } else {
      CarefulRunsKeepTheWindow(states, actions, pageSize, n - 1);
      CarefulStep(states[n - 1], actions[n - 1], pageSize);
    }
  }

  // The code does not enforce the first condition: a refresh that replaces the history while a page
  // load is under way leaves a hole that no later page load can fill.
  function Sample(n: nat): Message {
    Message(DurableId(if n == 0 then "a" else if n == 1 then "b" else "c"), n, "bot", [], None, "")
  }

  // The client of that run after `n` steps, with pages of one message.
  function Held(n: nat): Client
    requires n <= 4
  {
    var log := if n < 3 then [Sample(0), Sample(1)] else [Sample(0), Sample(1), Sample(2)];
    var view := if n == 0 then None
                else if n < 4 then Some(History("t", [Sample(1)], Some(1)))
                else Some(History("t", [Sample(2)], Some(2)));
    Client("t", log, view, false, if n < 2 then None else Some(1))
  }

  lemma LogsHeld(n: nat)
    requires n <= 4
    ensures IsLog(Held(n).log)
  {}

  // With pages of one message a snapshot shows the last one.
  lemma LastOnly(c: Client, last: Message, seqNo: nat)
    requires IsLog(c.log) && |c.log| > 1 && c.log[|c.log| - 1] == last && last.seqNo == seqNo
    ensures Snapshot(c, |c.log|, [], 1) == History(c.threadId, [last], Some(seqNo))
  {
    assert c.log[..|c.log|] == c.log;
    PageIs(c.threadId, c.log, None, 1);
    assert c.log[|c.log| - 1..|c.log|] == [last];
    assert [last] + [] == [last];
  }

  function Taken(n: nat): Action
    requires n <= 4
  {
    if n == 0 then RefreshArrives(2, []) else if n == 1 then AskOlder else if n == 2 then Grow(Sample(2))
    else if n == 3 then RefreshArrives(3, []) else OlderArrives
  }

  lemma HeldStep(n: nat)
    requires n <= 3
    ensures Enabled(Held(n), Taken(n)) && Held(n + 1) == Step(Held(n), Taken(n), 1)
  {
    LogsHeld(3);
    if n == 0 {
      LogsHeld(0);
      LastOnly(Held(0), Sample(1), 1);
    } else if n == 2 {
      assert Held(2).log + [Sample(2)] == Held(3).log;
    } else if n == 3 {
      LastOnly(Held(3), Sample(2), 2);
    }
  }

  lemma LatePageIs(c: Client)
    requires c == Held(4)
    ensures IsLog(c.log) && CountBefore(c.log, c.asked) == 1
    ensures LoadMessagePage(c.threadId, c.log, c.asked, 1) == History("t", [Sample(0)], None)
  {
    LogsHeld(4);
    assert c.log[1].seqNo == 1;
    CountAtPosition(c.log, 1);
    PageIs("t", c.log, Some(1), 1);
    assert c.log[0..1] == [Sample(0)];
  }

  lemma BothStay()
    ensures FirstOfEach([Sample(0)] + [Sample(2)], {}) == [Sample(0), Sample(2)]
  {
    var both := [Sample(0), Sample(2)];
    assert [Sample(0)] + [Sample(2)] == both == both + [];
    FreshOnesStay(both, [], {});
  }

  lemma HeldAtLastIsWindow(c: Client)
    requires c == Held(4)
    ensures Shown(c, 2, 3, []) && Good(c)
  {
    LogsHeld(4);
    assert c.log[2..3] + [] == [Sample(2)];
  }

  lemma LatePage(c: Client)
    requires c == Held(4)
    ensures Enabled(c, OlderArrives)
    ensures Step(c, OlderArrives, 1).view == Some(History("t", [Sample(0), Sample(2)], None))
    ensures !Good(Step(c, OlderArrives, 1))
  {
    LatePageIs(c);
    BothStay();
    HeldAtLastIsWindow(c);
    OlderShows(c, 1, 2, 3, []);
  }

  lemma HoleIsReached(states: seq<Client>, actions: seq<Action>)
    requires |states| == 6 && |actions| == 5
    requires forall i :: 0 <= i < 5 ==> states[i] == Held(i) && actions[i] == Taken(i)
    requires states[5] == Step(states[4], OlderArrives, 1)
    ensures Run(states, actions, 1)
  {
    assert states[0] == Held(0) && Held(0).view.None? && Held(0).asked.None? && !Held(0).expanded;
    LogsHeld(0);
    assert Taken(4) == OlderArrives && actions[4] == Taken(4) && states[4] == Held(4);
    LatePage(states[4]);
    forall i | 0 <= i < 5
      ensures Enabled(states[i], actions[i]) && states[i + 1] == Step(states[i], actions[i], 1)
    {
      if i < 4 {
        HeldStep(i);
      }
    }
  }

  lemma ReplacedDuringLoadLeavesHole() returns (states: seq<Client>, actions: seq<Action>)
    ensures Run(states, actions, 1) && |actions| == 5
    ensures states[5].view == Some(History("t", [Sample(0), Sample(2)], None))
    ensures states[5].log == states[4].log && |states[4].log| == 3 && states[4].log[1] == Sample(1)
    ensures !Good(states[5])
  {
    LatePage(Held(4));
    states := seq(5, i requires 0 <= i < 5 => Held(i)) + [Step(Held(4), OlderArrives, 1)];
    actions := seq(5, i requires 0 <= i < 5 => Taken(i));
    HoleIsReached(states, actions);
  }
}
