/**
 The thread log of packages/db/src/events.ts and the follower that streams it: events get their
 sequence number from a counter incremented in the same transaction, progress events may be deleted
 later, notifications arrive late or never, and a generation latch decides whether to sleep.
 Appends, deletions, notifications and the follower's own turns interleave in any order.
 */
module LogFollower {
  const EVENT_BATCH_SIZE: nat := 200

  // ----- the query ------------------------------------------------------------------------------

  // The events after the cursor in ascending order, at most `limit` of them. `next` bounds the log.
  function EventsFrom(log: set<nat>, from: nat, next: nat, limit: nat): (page: seq<nat>)
    decreases next - from
  {
    if limit == 0 || from >= next then []
    else if from in log then [from] + EventsFrom(log, from + 1, next, limit - 1)
    else EventsFrom(log, from + 1, next, limit)
  }

  function After(cursor: int): nat {
    if cursor < 0 then 0 else cursor + 1
  }

  function EventsAfter(log: set<nat>, cursor: int, next: nat, limit: nat): seq<nat> {
    EventsFrom(log, After(cursor), next, limit)
  }

  ghost predicate Ascending(s: seq<nat>) {
    forall i, j | 0 <= i < j < |s| :: s[i] < s[j]
  }

  // Everything the log holds before this is on the page.
  function Horizon(page: seq<nat>, next: nat, limit: nat): nat {
    if |page| == limit && page != [] then page[|page| - 1] + 1 else next
  }

  // A page is on its way as promised.
  ghost predicate PageOk(log: set<nat>, from: nat, next: nat, limit: nat, page: seq<nat>) {
    && Ascending(page) && |page| <= limit
    && (forall e | e in page :: from <= e < next && e in log)
    && (limit > 0 ==> forall e | e in log && from <= e < Horizon(page, next, limit) :: e in page)
  }

  lemma PageWithFirst(log: set<nat>, from: nat, next: nat, limit: nat, rest: seq<nat>)
    requires limit > 0 && from < next && from in log && PageOk(log, from + 1, next, limit - 1, rest)
    ensures PageOk(log, from, next, limit, [from] + rest)
  {
    var page := [from] + rest;
    forall i, j | 0 <= i < j < |page|
      ensures page[i] < page[j]
    {
      assert page[j] == rest[j - 1] && rest[j - 1] in rest;
    }
    if limit > 1 && rest != [] {
      assert Horizon(page, next, limit) == Horizon(rest, next, limit - 1);
    }
  }

  lemma {:induction false} PageIs(log: set<nat>, from: nat, next: nat, limit: nat)
    ensures PageOk(log, from, next, limit, EventsFrom(log, from, next, limit))
    decreases next - from
  {
    if limit == 0 || from >= next {
    } else if from in log {
      PageIs(log, from + 1, next, limit - 1);
      PageWithFirst(log, from, next, limit, EventsFrom(log, from + 1, next, limit - 1));
    } else {
      PageIs(log, from + 1, next, limit);
    }
  }

  // ----- the follower's turns ----------------------------------------------------------------------

  // `heard` is history: what had been notified when the generation was read.
  datatype Phase =
    | Top
    | Scanning(observed: nat, heard: set<nat>)
    | Yielding(observed: nat, heard: set<nat>, batch: seq<nat>, full: bool, horizon: nat)
    | BeforeWait(observed: nat, heard: set<nat>)
    | Asleep(observed: nat, heard: set<nat>)
    | Ended

  // `log` holds the sequence numbers of the surviving events. `yielded` and `notified` are history.
  datatype Sys = Sys(log: set<nat>, next: nat, generation: nat, aborted: bool, cursor: int, phase: Phase,
                     yielded: seq<nat>, notified: set<nat>)

  datatype Action =
    | Append
    | Delete(gone: set<nat>)
    | Notify(events: set<nat>)    // one event's signal, or a reconnected client's call to catch up
    | Abort
    | Observe
    | Query
    | Yield
    | BatchDone
    | Wait
    | Timeout

  predicate Enabled(s: Sys, a: Action) {
    match a
    case Notify(events) => forall e | e in events :: e < s.next
    case Observe => s.phase.Top?
    case Query => s.phase.Scanning?
    case Yield => s.phase.Yielding? && s.phase.batch != []
    case BatchDone => s.phase.Yielding? && s.phase.batch == []
    case Wait => s.phase.BeforeWait?
    case Timeout => s.phase.Asleep?
    case _ => true
  }

  // ChangeLatch.notify: the generation moves, and a sleeper is woken.
  function Signalled(s: Sys, events: set<nat>): Sys {
    s.(generation := s.generation + 1, notified := s.notified + events,
       phase := if s.phase.Asleep? then Top else s.phase)
  }

  function Step(s: Sys, a: Action): Sys
    requires Enabled(s, a)
  {
    match a
    case Append => s.(log := s.log + {s.next}, next := s.next + 1)
    case Delete(gone) => s.(log := s.log - gone)
    case Notify(events) => Signalled(s, events)
    case Abort => s.(aborted := true, phase := if s.phase.Asleep? then Top else s.phase)
    case Observe => s.(phase := if s.aborted then Ended else Scanning(s.generation, s.notified))
    case Query =>
      var batch := EventsAfter(s.log, s.cursor, s.next, EVENT_BATCH_SIZE);
      s.(phase := Yielding(s.phase.observed, s.phase.heard, batch, |batch| == EVENT_BATCH_SIZE,
                           Horizon(batch, s.next, EVENT_BATCH_SIZE)))
    case Yield =>
      s.(cursor := s.phase.batch[0], yielded := s.yielded + [s.phase.batch[0]],
         phase := s.phase.(batch := s.phase.batch[1..]))
    case BatchDone =>
      s.(phase := if s.aborted then Ended
                  else if s.phase.full then Scanning(s.phase.observed, s.phase.heard)
                  else BeforeWait(s.phase.observed, s.phase.heard))
    case Wait =>
      s.(phase := if s.generation != s.phase.observed || s.aborted then Top
                  else Asleep(s.phase.observed, s.phase.heard))
    case Timeout => s.(phase := Top)
  }

  ghost predicate Init(s: Sys, cursor: int) {
    && s.cursor == cursor && s.phase == Top && s.yielded == [] && s.notified == {} && !s.aborted
    && (forall e | e in s.log :: e < s.next)
  }

  ghost predicate Behaviour(cursor: int, ss: seq<Sys>, acts: seq<Action>) {
    && |ss| == |acts| + 1
    && Init(ss[0], cursor)
    && (forall k | 0 <= k < |acts| :: Enabled(ss[k], acts[k]) && ss[k + 1] == Step(ss[k], acts[k]))
  }

  // ----- invariant -------------------------------------------------------------------------------------

  ghost predicate LogOk(s: Sys) {
    && (forall e | e in s.log :: e < s.next)
    && (forall e | e in s.notified :: e < s.next)
  }

  ghost predicate YieldedOk(start: int, s: Sys) {
    && Ascending(s.yielded)
    && (forall i | 0 <= i < |s.yielded| :: start < s.yielded[i] < s.next)
    && s.cursor == (if s.yielded == [] then start else s.yielded[|s.yielded| - 1])
    && (forall e | e in s.log && start < e <= s.cursor :: e in s.yielded)
  }

  ghost predicate BatchOk(s: Sys) {
    s.phase.Yielding? ==>
      && Ascending(s.phase.batch) && s.phase.horizon <= s.next
      && (forall i | 0 <= i < |s.phase.batch| :: s.cursor < s.phase.batch[i] < s.phase.horizon)
      && (forall e | e in s.log && s.cursor < e < s.phase.horizon :: e in s.phase.batch)
      && (!s.phase.full ==> forall e | e in s.phase.heard :: e < s.phase.horizon)
  }

  predicate Listening(phase: Phase) {
    phase.Scanning? || phase.Yielding? || phase.BeforeWait? || phase.Asleep?
  }

  ghost predicate LatchOk(s: Sys) {
    && (Listening(s.phase) ==>
          && s.phase.observed <= s.generation && s.phase.heard <= s.notified
          && (s.phase.observed == s.generation ==> s.phase.heard == s.notified))
    && (s.phase.BeforeWait? || s.phase.Asleep? ==> forall e | e in s.phase.heard && e in s.log :: e <= s.cursor)
    && (s.phase.Asleep? ==> s.phase.observed == s.generation)
  }

  ghost predicate Inv(start: int, s: Sys) {
    LogOk(s) && YieldedOk(start, s) && BatchOk(s) && LatchOk(s)
  }

  lemma StepKeepsLog(s: Sys, a: Action)
    requires LogOk(s) && Enabled(s, a)
    ensures LogOk(Step(s, a))
  {
  }

  lemma StepKeepsYielded(start: int, s: Sys, a: Action)
    requires Inv(start, s) && Enabled(s, a)
    ensures YieldedOk(start, Step(s, a))
  {
  }

  lemma StepKeepsBatch(start: int, s: Sys, a: Action)
    requires Inv(start, s) && Enabled(s, a)
    ensures BatchOk(Step(s, a))
  {
    var t := Step(s, a);
    if a.Query? {
      PageIs(s.log, After(s.cursor), s.next, EVENT_BATCH_SIZE);
      var batch := t.phase.batch;
      assert forall i | 0 <= i < |batch| :: batch[i] in batch;
    } else if a.Yield? {
      var batch := s.phase.batch;
      assert forall i | 0 <= i < |batch| - 1 :: batch[1..][i] == batch[i + 1];
      forall e | e in t.log && t.cursor < e < t.phase.horizon ensures e in t.phase.batch {
        var i :| 0 <= i < |batch| && batch[i] == e;
        assert i > 0 && batch[1..][i - 1] == e;
      }
    }
  }

  lemma StepKeepsLatch(start: int, s: Sys, a: Action)
    requires Inv(start, s) && Enabled(s, a)
    ensures LatchOk(Step(s, a))
  {
  }

  lemma {:induction false} AlwaysInv(start: int, ss: seq<Sys>, acts: seq<Action>, k: nat)
    requires Behaviour(start, ss, acts) && k < |ss|
    ensures Inv(start, ss[k])
  {
    if k == 0 {
    } else {
      AlwaysInv(start, ss, acts, k - 1);
      StepKeepsLog(ss[k - 1], acts[k - 1]);
      StepKeepsYielded(start, ss[k - 1], acts[k - 1]);
      StepKeepsBatch(start, ss[k - 1], acts[k - 1]);
      StepKeepsLatch(start, ss[k - 1], acts[k - 1]);
    }
  }

  // ----- main results --------------------------------------------------------------------------------------

  /** Events come out once each, in rising sequence order, and none that survives is skipped: up to
      the cursor, everything still in the log has been yielded. */
  lemma YieldsEachOnceInOrder(start: int, ss: seq<Sys>, acts: seq<Action>, k: nat)
    requires Behaviour(start, ss, acts) && k < |ss|
    ensures var s := ss[k];
            && (forall i, j | 0 <= i < j < |s.yielded| :: s.yielded[i] < s.yielded[j])
            && (forall e | e in s.log && start < e <= s.cursor :: e in s.yielded)
            && (forall i | 0 <= i < |s.yielded| :: start < s.yielded[i] <= s.cursor)
  {
    AlwaysInv(start, ss, acts, k);
    var s := ss[k];
    forall i | 0 <= i < |s.yielded| ensures s.yielded[i] <= s.cursor {
      if i < |s.yielded| - 1 {
        assert s.yielded[i] < s.yielded[|s.yielded| - 1];
      }
    }
  }

  /** No wake-up is lost: while the follower sleeps, every event whose notification was delivered and
      that is still there has been yielded. */
  lemma AsleepMissesNothing(start: int, ss: seq<Sys>, acts: seq<Action>, k: nat, e: nat)
    requires Behaviour(start, ss, acts) && k < |ss| && ss[k].phase.Asleep?
    requires e in ss[k].notified && e in ss[k].log && e > start
    ensures e in ss[k].yielded
  {
    AlwaysInv(start, ss, acts, k);
  }

  predicate Grown(s: Sys, t: Sys) {
    s.yielded <= t.yielded && s.cursor <= t.cursor
  }

  lemma GrownStill(s: Sys, t: Sys, u: Sys)
    requires Grown(s, t) && Grown(t, u)
    ensures Grown(s, u)
  {
  }

  lemma StepGrows(start: int, s: Sys, a: Action)
    requires Inv(start, s) && Enabled(s, a)
    ensures Grown(s, Step(s, a))
  {
  }

  lemma OneMoreGrows(start: int, ss: seq<Sys>, acts: seq<Action>, k: nat)
    requires Behaviour(start, ss, acts) && k < |acts|
    ensures Grown(ss[k], ss[k + 1])
  {
    AlwaysInv(start, ss, acts, k);
    assert Enabled(ss[k], acts[k]) && ss[k + 1] == Step(ss[k], acts[k]);
    StepGrows(start, ss[k], acts[k]);
  }

  lemma {:induction false} GrownAlong(ss: seq<Sys>, j: nat, k: nat)
    requires j <= k < |ss| && forall i | j <= i < k :: Grown(ss[i], ss[i + 1])
    ensures Grown(ss[j], ss[k])
    decreases k
  {
    if j == k {
    } else {
      GrownAlong(ss, j, k - 1);
      GrownStill(ss[j], ss[k - 1], ss[k]);
    }
  }

  /** Yielding never goes back. */
  lemma YieldedGrows(start: int, ss: seq<Sys>, acts: seq<Action>, j: nat, k: nat)
    requires Behaviour(start, ss, acts) && j <= k < |ss|
    ensures Grown(ss[j], ss[k])
  {
    forall i | j <= i < k
      ensures Grown(ss[i], ss[i + 1])
    {
      OneMoreGrows(start, ss, acts, i);
    }
    GrownAlong(ss, j, k);
  }

  // ----- the latch and one undisturbed turn, in place ---------------------------------------------------------

  // The latch of a follower: its generation, and whether somebody sleeps on it.
  datatype Latch = Latch(generation: nat, sleeping: bool)

  function LatchOf(s: Sys): Latch {
    Latch(s.generation, s.phase.Asleep?)
  }

  /** The latch changed in place. Whatever follower it belongs to, its two methods do to it what the
      follower's steps do. */
  class ChangeLatch {
    var generation: nat
    var sleeping: bool

    function Contents(): Latch
      reads this
    {
      Latch(generation, sleeping)
    }

    constructor ()
      ensures Contents() == Latch(0, false)
    {
      generation, sleeping := 0, false;
    }

    method Notify()
      modifies this
      ensures forall s: Sys, events: set<nat> :: LatchOf(s) == old(Contents()) ==>
        LatchOf(Signalled(s, events)) == Contents()
    {
      generation := generation + 1;
      sleeping := false;
    }

    /** Goes to sleep only if nothing was signalled since `expected` was read. */
    method WaitForChange(expected: nat, aborted: bool)
      requires !sleeping
      modifies this`sleeping
      ensures forall s: Sys ::
        LatchOf(s) == old(Contents()) && s.phase.BeforeWait? && s.phase.observed == expected && s.aborted == aborted ==>
          LatchOf(Step(s, Wait)) == Contents()
    {
      if generation != expected || aborted {
        return;
      }
      sleeping := true;
    }

    // A timeout or an abort: `finish` without a signal.
    method Finish()
      modifies this`sleeping
      ensures forall s: Sys :: LatchOf(s) == old(Contents()) ==>
        LatchOf(Step(s, Abort)) == Contents() && (s.phase.Asleep? ==> LatchOf(Step(s, Timeout)) == Contents())
    {
      sleeping := false;
    }
  }

  /** No wake-up is lost between reading the generation and going to sleep: a signal that falls between
      the two keeps the follower awake, one that comes later wakes it, and it sleeps only without one. */
  method SignalAroundWait(latch: ChangeLatch, before: bool, behind: bool)
    requires !latch.sleeping
    modifies latch
    ensures latch.sleeping <==> !before && !behind
  {
    ghost var s := Sys({}, 0, latch.generation, false, -1, BeforeWait(latch.generation, {}), [], {});
    var observed := latch.generation;
    if before {
      latch.Notify();
      assert LatchOf(Signalled(s, {})) == latch.Contents();
      s := Signalled(s, {});
    }
    latch.WaitForChange(observed, false);
    assert LatchOf(Step(s, Wait)) == latch.Contents();
    s := Step(s, Wait);
    if behind {
      latch.Notify();
      assert LatchOf(Signalled(s, {})) == latch.Contents();
    }
  }

  function AllFrom(log: set<nat>, from: nat, next: nat): seq<nat>
    decreases next - from
  {
    if from >= next then []
    else if from in log then [from] + AllFrom(log, from + 1, next)
    else AllFrom(log, from + 1, next)
  }

  lemma {:induction false} PageThenRest(log: set<nat>, from: nat, next: nat, limit: nat)
    requires limit > 0
    ensures var page := EventsFrom(log, from, next, limit);
            && Horizon(page, next, limit) <= next
            && AllFrom(log, from, next) == page + AllFrom(log, Horizon(page, next, limit), next)
    decreases next - from
  {
    if from >= next {
    } else if from in log {
      var page := EventsFrom(log, from, next, limit);
      var rest := EventsFrom(log, from + 1, next, limit - 1);
      assert page == [from] + rest;
      if limit > 1 {
        PageThenRest(log, from + 1, next, limit - 1);
        assert Horizon(page, next, limit) == Horizon(rest, next, limit - 1);
        assert page + AllFrom(log, Horizon(page, next, limit), next)
            == [from] + (rest + AllFrom(log, Horizon(page, next, limit), next));
      }
    } else {
      PageThenRest(log, from + 1, next, limit);
    }
  }

  method YieldBatch(events: seq<nat>, before: seq<nat>, cursor: int) returns (yielded: seq<nat>, seqNo: int)
    ensures yielded == before + events
    ensures seqNo == if events == [] then cursor else events[|events| - 1]
  {
    yielded, seqNo := before, cursor;
    for i := 0 to |events|
      invariant yielded == before + events[..i]
      invariant seqNo == if i == 0 then cursor else events[i - 1]
    {
      seqNo := events[i];
      yielded := yielded + [events[i]];
    }
    assert events[..|events|] == events;
  }

  // What one batch leaves to be read.
  function LeftBehind(log: set<nat>, events: seq<nat>, next: nat): seq<nat> {
    if |events| == EVENT_BATCH_SIZE && events != [] then AllFrom(log, After(events[|events| - 1]), next) else []
  }

  lemma BatchThenRest(log: set<nat>, seqNo: int, next: nat, events: seq<nat>)
    requires events == EventsAfter(log, seqNo, next, EVENT_BATCH_SIZE)
    ensures |events| <= EVENT_BATCH_SIZE && AllFrom(log, After(seqNo), next) == events + LeftBehind(log, events, next)
    ensures events != [] ==> seqNo < events[|events| - 1] < next
  {
    PageIs(log, After(seqNo), next, EVENT_BATCH_SIZE);
    PageThenRest(log, After(seqNo), next, EVENT_BATCH_SIZE);
    if events != [] {
      assert events[|events| - 1] in events;
    }
    assert AllFrom(log, next, next) == [];
  }

  lemma JoinBatch(before: seq<nat>, events: seq<nat>, rest: seq<nat>)
    ensures before + (events + rest) == (before + events) + rest
    ensures rest == [] ==> before + (events + rest) == before + events
  {
  }

  /** One turn of the loop with nothing in between: batch after batch, it yields exactly the events
      after the cursor, in order. */
  method ScanToEnd(log: set<nat>, next: nat, cursor: int) returns (yielded: seq<nat>, seqNo: int)
    requires forall e | e in log :: e < next
    ensures yielded == AllFrom(log, After(cursor), next)
    ensures seqNo == if yielded == [] then cursor else yielded[|yielded| - 1]
  {
    yielded, seqNo := [], cursor;
    ghost var all := AllFrom(log, After(cursor), next);
    var batchSize := EVENT_BATCH_SIZE;
    assert [] + all == all;
    while batchSize == EVENT_BATCH_SIZE
      invariant cursor <= seqNo && (yielded != [] ==> seqNo < next) && batchSize <= EVENT_BATCH_SIZE
      invariant seqNo == if yielded == [] then cursor else yielded[|yielded| - 1]
      invariant batchSize == EVENT_BATCH_SIZE ==> all == yielded + AllFrom(log, After(seqNo), next)
      invariant batchSize != EVENT_BATCH_SIZE ==> all == yielded
      decreases if batchSize == EVENT_BATCH_SIZE then 1 else 0, if seqNo < next then next - seqNo else 0
    {
      var events := EventsAfter(log, seqNo, next, EVENT_BATCH_SIZE);
      BatchThenRest(log, seqNo, next, events);
      JoinBatch(yielded, events, LeftBehind(log, events, next));
      batchSize := |events|;
      yielded, seqNo := YieldBatch(events, yielded, seqNo);
    }
  }
}
