/**
 The job reconciler of packages/adapters/src/job-reconciler.ts: each pass reads one page of due
 runs and one page of due routines after two keyset cursors, enqueues a job for each row, and
 moves the cursors on. Row ids are compared as numbers here; the database compares them as text,
 and only the order being total matters.
 */
module Reconciler {
  import opened Wrappers
  import opened RunRows

  const ROUTINE_LOOKAHEAD_MS: nat := 60_000

  datatype Key = Key(at: nat, id: nat)

  predicate Before(a: Key, b: Key) {
    a.at < b.at || (a.at == b.at && a.id < b.id)
  }

  datatype RunSummary = RunSummary(id: nat, updatedAt: nat, run: RunRow)
  datatype Routine = Routine(id: nat, active: bool, nextRunAt: Option<nat>)

  datatype Job = RunContinue(runId: nat) | RoutineWakeup(routineId: nat, scheduledFor: nat)

  // ----- queries ------------------------------------------------------------------------------

  function DueRuns(table: seq<RunSummary>, now: nat): (keys: seq<Key>) {
    if table == [] then []
    else
      var rest := DueRuns(table[1..], now);
      if ReconcilerFilter(table[0].run, now) then [Key(table[0].updatedAt, table[0].id)] + rest else rest
  }

  function DueRoutines(table: seq<Routine>, now: nat): (keys: seq<Key>) {
    if table == [] then []
    else
      var rest := DueRoutines(table[1..], now);
      var row := table[0];
      if row.active && row.nextRunAt.Some? && row.nextRunAt.value <= now + ROUTINE_LOOKAHEAD_MS
      then [Key(row.nextRunAt.value, row.id)] + rest else rest
  }

  // ORDER BY (at, id).
  function Insert(key: Key, sorted: seq<Key>): seq<Key> {
    if sorted == [] || Before(key, sorted[0]) then [key] + sorted
    else [sorted[0]] + Insert(key, sorted[1..])
  }

  function Ordered(keys: seq<Key>): seq<Key> {
    if keys == [] then [] else Insert(keys[0], Ordered(keys[1..]))
  }

  // The keyset filter: strictly after the cursor.
  function After(keys: seq<Key>, cursor: Option<Key>): seq<Key> {
    if keys == [] then []
    else
      var rest := After(keys[1..], cursor);
      if cursor.None? || Before(cursor.value, keys[0]) then [keys[0]] + rest else rest
  }

  function Take(keys: seq<Key>, limit: nat): seq<Key> {
    if |keys| <= limit then keys else keys[..limit]
  }

  function FindPage(keys: seq<Key>, cursor: Option<Key>, batch: nat): seq<Key> {
    Take(Ordered(After(keys, cursor)), batch)
  }

  function NextCursor(page: seq<Key>, batch: nat): Option<Key> {
    if |page| == batch && page != [] then Some(page[|page| - 1]) else None
  }

  function RunJobs(page: seq<Key>): seq<Job> {
    seq(|page|, i requires 0 <= i < |page| => RunContinue(page[i].id))
  }

  function RoutineJobs(page: seq<Key>): seq<Job> {
    seq(|page|, i requires 0 <= i < |page| => RoutineWakeup(page[i].id, page[i].at))
  }

  // The jobs that land when all are sent at once and those numbered in `lost` fail.
  function Landed(jobs: seq<Job>, lost: set<nat>): seq<Job> {
    if jobs == [] then []
    else
      var n := |jobs| - 1;
      Landed(jobs[..n], lost) + (if n in lost then [] else [jobs[n]])
  }

  predicate AnyLost(jobs: seq<Job>, lost: set<nat>) {
    exists k :: k in lost && k < |jobs|
  }

  lemma LandedGoesOn(jobs: seq<Job>, i: nat, lost: set<nat>)
    requires i < |jobs|
    ensures Landed(jobs[..i + 1], lost) == Landed(jobs[..i], lost) + (if i in lost then [] else [jobs[i]])
    ensures AnyLost(jobs[..i + 1], lost) <==> AnyLost(jobs[..i], lost) || i in lost
    ensures jobs[..i + 1] == jobs[..i] + [jobs[i]]
  {
    assert jobs[..i + 1][..i] == jobs[..i];
  }

  /** The closure variables of one reconciler, and the jobs it has enqueued. */
  class JobReconciler {
    const batch: nat
    var runCursor: Option<Key>
    var routineCursor: Option<Key>
    var enqueued: seq<Job>

    constructor (batch: nat)
      ensures this.batch == batch && runCursor == None && routineCursor == None && enqueued == []
    {
      this.batch := batch;
      runCursor, routineCursor, enqueued := None, None, [];
    }

    // Every job is sent, whatever becomes of the others; the whole fails if any of them does.
    method EnqueueAll(jobs: seq<Job>, lost: set<nat>) returns (failed: bool)
      modifies this`enqueued
      ensures failed <==> AnyLost(jobs, lost)
      ensures enqueued == old(enqueued) + Landed(jobs, lost) && (!failed ==> Landed(jobs, lost) == jobs)
    {
      failed := false;
      for i := 0 to |jobs|
        invariant failed <==> AnyLost(jobs[..i], lost)
        invariant enqueued == old(enqueued) + Landed(jobs[..i], lost)
        invariant !failed ==> Landed(jobs[..i], lost) == jobs[..i]
      {
        LandedGoesOn(jobs, i, lost);
        if i in lost {
          failed := true;
        } else {
          enqueued := enqueued + [jobs[i]];
        }
      }
      assert jobs[..|jobs|] == jobs;
    }

    /** One pass. A follower does nothing; all jobs are sent at once, and when any of them fails the
        others land all the same, with both cursors where they were. */
    method ReconcileOnce(leader: bool, runs: seq<RunSummary>, routines: seq<Routine>, now: nat, lost: set<nat>)
      modifies this
      ensures var runPage := FindPage(DueRuns(runs, now), old(runCursor), batch);
              var routinePage := FindPage(DueRoutines(routines, now), old(routineCursor), batch);
              var jobs := RunJobs(runPage) + RoutineJobs(routinePage);
              if !leader then
                runCursor == old(runCursor) && routineCursor == old(routineCursor) && enqueued == old(enqueued)
              else if AnyLost(jobs, lost) then
                runCursor == old(runCursor) && routineCursor == old(routineCursor)
                && enqueued == old(enqueued) + Landed(jobs, lost)
              else
                runCursor == NextCursor(runPage, batch) && routineCursor == NextCursor(routinePage, batch)
                && enqueued == old(enqueued) + jobs
    {
      if !leader {
        return;
      }
      var runPage := FindPage(DueRuns(runs, now), runCursor, batch);
      var routinePage := FindPage(DueRoutines(routines, now), routineCursor, batch);
      var jobs := RunJobs(runPage) + RoutineJobs(routinePage);
      var failed := EnqueueAll(jobs, lost);
      if failed {
        return;
      }
      runCursor, routineCursor := None, None;
      if |runPage| == batch && runPage != [] {
        runCursor := Some(runPage[|runPage| - 1]);
      }
      if |routinePage| == batch && routinePage != [] {
        routineCursor := Some(routinePage[|routinePage| - 1]);
      }
    }
  }

  // ----- ordering ------------------------------------------------------------------------------

  ghost predicate Increasing(keys: seq<Key>) {
    forall i, j | 0 <= i < j < |keys| :: Before(keys[i], keys[j])
  }

  ghost predicate Distinct(keys: seq<Key>) {
    forall i, j | 0 <= i < j < |keys| :: keys[i] != keys[j]
  }

  lemma {:induction false} InsertContains(key: Key, sorted: seq<Key>)
    ensures |Insert(key, sorted)| == |sorted| + 1
    ensures forall k :: k in Insert(key, sorted) <==> k == key || k in sorted
  {
    if sorted == [] || Before(key, sorted[0]) {
    } else {
      InsertContains(key, sorted[1..]);
      assert sorted == [sorted[0]] + sorted[1..];
    }
  }

  lemma {:induction false} InsertSorts(key: Key, sorted: seq<Key>)
    requires Increasing(sorted) && key !in sorted
    ensures Increasing(Insert(key, sorted))
  {
    if sorted == [] || Before(key, sorted[0]) {
    } else {
      var rest := sorted[1..];
      assert forall i | 0 <= i < |rest| :: rest[i] == sorted[i + 1];
      InsertSorts(key, rest);
      InsertContains(key, rest);
      var r := Insert(key, rest);
      forall i | 0 <= i < |r| ensures Before(sorted[0], r[i]) {
        assert r[i] in r;
        if r[i] != key {
          var j :| 0 <= j < |rest| && rest[j] == r[i];
        }
      }
    }
  }

  lemma {:induction false} OrderedSorts(keys: seq<Key>)
    requires Distinct(keys)
    ensures Increasing(Ordered(keys)) && |Ordered(keys)| == |keys|
    ensures forall k :: k in Ordered(keys) <==> k in keys
  {
    if keys == [] {
    } else {
      OrderedSorts(keys[1..]);
      assert keys[0] !in keys[1..];
      InsertContains(keys[0], Ordered(keys[1..]));
      InsertSorts(keys[0], Ordered(keys[1..]));
      assert keys == [keys[0]] + keys[1..];
    }
  }

  // Two increasing sequences of the same keys are equal.
  lemma {:induction false} IncreasingUnique(a: seq<Key>, b: seq<Key>)
    requires Increasing(a) && Increasing(b)
    requires forall k :: k in a <==> k in b
    ensures a == b
  {
    if b != [] {
      assert b[0] in a;
    }
    if a != [] {
      assert a[0] in a;
      assert b != [];
      assert b[0] in b;
      var i :| 0 <= i < |b| && b[i] == a[0];
      var j :| 0 <= j < |a| && a[j] == b[0];
      assert a[0] == b[0];
      forall k ensures k in a[1..] <==> k in b[1..] {
        assert k in a <==> k == a[0] || k in a[1..];
        assert k in b <==> k == b[0] || k in b[1..];
      }
      IncreasingUnique(a[1..], b[1..]);
      assert a == [a[0]] + a[1..] && b == [b[0]] + b[1..];
    }
  }

  lemma {:induction false} AfterFilters(keys: seq<Key>, cursor: Option<Key>)
    requires Distinct(keys)
    ensures Distinct(After(keys, cursor))
    ensures forall k :: k in After(keys, cursor) <==> k in keys && (cursor.None? || Before(cursor.value, k))
  {
    if keys == [] {
    } else {
      AfterFilters(keys[1..], cursor);
      assert keys[0] !in keys[1..];
      assert keys[0] !in After(keys[1..], cursor);
      assert forall k :: k in keys <==> k == keys[0] || k in keys[1..];
    }
  }

  // The cursor that a page ending just before position n leaves.
  function CursorAt(all: seq<Key>, n: nat): Option<Key>
    requires n <= |all|
  {
    if n == 0 then None else Some(all[n - 1])
  }

  lemma RestIsAfter(all: seq<Key>, n: nat, k: Key)
    requires Increasing(all) && n <= |all|
    ensures k in all[n..] <==> k in all && (n == 0 || Before(all[n - 1], k))
  {
    if k in all[n..] {
      var i :| n <= i < |all| && all[i] == k;
    }
    if k in all && (n == 0 || Before(all[n - 1], k)) {
      var i :| 0 <= i < |all| && all[i] == k;
      assert i < n - 1 ==> Before(all[i], all[n - 1]);
      assert all[n..][i - n] == k;
    }
  }

  // Filtering after the last key of a prefix of the ordered listing leaves the rest of it.
  lemma PageStartsAfterPrefix(keys: seq<Key>, n: nat)
    requires Distinct(keys) && n <= |Ordered(keys)|
    ensures var all := Ordered(keys);
            Ordered(After(keys, CursorAt(all, n))) == all[n..]
  {
    var all := Ordered(keys);
    var rest := After(keys, CursorAt(all, n));
    OrderedSorts(keys);
    AfterFilters(keys, CursorAt(all, n));
    OrderedSorts(rest);
    forall k
      ensures k in Ordered(rest) <==> k in all[n..]
    {
      RestIsAfter(all, n, k);
    }
    IncreasingUnique(Ordered(rest), all[n..]);
  }

  // ----- a sweep over a frozen table ---------------------------------------------------------------

  // The pages of `passes` consecutive passes, and the cursor they leave.
  function Sweep(keys: seq<Key>, cursor: Option<Key>, batch: nat, passes: nat): (seq<Key>, Option<Key>)
    decreases passes
  {
    if passes == 0 then ([], cursor)
    else
      var page := FindPage(keys, cursor, batch);
      var rest := Sweep(keys, NextCursor(page, batch), batch, passes - 1);
      (page + rest.0, rest.1)
  }

  function Passes(rows: nat, batch: nat): nat
    requires batch >= 1
  {
    if rows < batch then 1 else 1 + Passes(rows - batch, batch)
  }

  lemma SliceJoins(all: seq<Key>, n: nat, batch: nat)
    requires n + batch <= |all|
    ensures all[n..] == all[n..n + batch] + all[n + batch..]
  {
  }

  lemma OnePass(keys: seq<Key>, cursor: Option<Key>, batch: nat, passes: nat, page: seq<Key>, rest: seq<Key>,
                whole: seq<Key>)
    requires page == FindPage(keys, cursor, batch) && whole == page + rest
    requires Sweep(keys, NextCursor(page, batch), batch, passes) == (rest, None)
    ensures Sweep(keys, cursor, batch, passes + 1) == (whole, None)
  {
  }

  lemma PageOfRest(all: seq<Key>, rest: seq<Key>, n: nat, batch: nat)
    requires n <= |all| && batch >= 1 && rest == all[n..]
    ensures var page := Take(rest, batch);
            if |all| - n < batch then page == all[n..] && NextCursor(page, batch) == None
            else page == all[n..n + batch] && NextCursor(page, batch) == CursorAt(all, n + batch)
  {
  }

  lemma PageAt(keys: seq<Key>, n: nat, batch: nat)
    requires Distinct(keys) && n <= |Ordered(keys)| && batch >= 1
    ensures var all := Ordered(keys);
            var page := FindPage(keys, CursorAt(all, n), batch);
            if |all| - n < batch then page == all[n..] && NextCursor(page, batch) == None
            else page == all[n..n + batch] && NextCursor(page, batch) == CursorAt(all, n + batch)
  {
    var all := Ordered(keys);
    PageStartsAfterPrefix(keys, n);
    PageOfRest(all, Ordered(After(keys, CursorAt(all, n))), n, batch);
  }

  lemma PageBeforeRest(keys: seq<Key>, all: seq<Key>, n: nat, batch: nat)
    requires Distinct(keys) && all == Ordered(keys) && batch >= 1 && n + batch <= |all|
    requires Sweep(keys, CursorAt(all, n + batch), batch, Passes(|all| - n - batch, batch)) == (all[n + batch..], None)
    ensures Sweep(keys, CursorAt(all, n), batch, Passes(|all| - n, batch)) == (all[n..], None)
  {
    PageAt(keys, n, batch);
    SliceJoins(all, n, batch);
    OnePass(keys, CursorAt(all, n), batch, Passes(|all| - n - batch, batch), all[n..n + batch], all[n + batch..],
        all[n..]);
  }

  lemma LastPass(keys: seq<Key>, cursor: Option<Key>, batch: nat, page: seq<Key>)
    requires page == FindPage(keys, cursor, batch) && NextCursor(page, batch) == None
    ensures Sweep(keys, cursor, batch, 1) == (page, None)
  {
    assert Sweep(keys, None, batch, 0) == ([], None);
    assert page + [] == page;
  }

  lemma LastOfSweep(keys: seq<Key>, all: seq<Key>, n: nat, batch: nat)
    requires Distinct(keys) && all == Ordered(keys) && n <= |all| && batch >= 1 && |all| - n < batch
    ensures Sweep(keys, CursorAt(all, n), batch, 1) == (all[n..], None)
  {
    PageAt(keys, n, batch);
    LastPass(keys, CursorAt(all, n), batch, all[n..]);
  }

  lemma {:induction false} SweepFrom(keys: seq<Key>, all: seq<Key>, n: nat, batch: nat)
    requires Distinct(keys) && all == Ordered(keys) && n <= |all| && batch >= 1
    ensures Sweep(keys, CursorAt(all, n), batch, Passes(|all| - n, batch)) == (all[n..], None)
    decreases |all| - n
  {
    if |all| - n < batch {
      LastOfSweep(keys, all, n, batch);
    } else {
      SweepFrom(keys, all, n + batch, batch);
      PageBeforeRest(keys, all, n, batch);
    }
  }

  lemma MulSpreads(q: int, p: int, b: int)
    ensures (q - p) * b == q * b - p * b
    ensures b >= 1 && q > p ==> (q - p) * b >= b
  {
    if b >= 1 && q > p {
      assert (q - p - 1) * b >= 0;
      assert (q - p) * b == (q - p - 1) * b + b;
    }
  }

  lemma QuotientIs(n: nat, b: nat, q: nat, r: nat)
    requires b >= 1 && r < b && n == q * b + r
    ensures n / b == q
  {
    var p := n / b;
    assert n == p * b + n % b;
    MulSpreads(q, p, b);
    MulSpreads(p, q, b);
  }

  lemma {:induction false} PassesIs(rows: nat, batch: nat)
    requires batch >= 1
    ensures Passes(rows, batch) == rows / batch + 1
  {
    if rows < batch {
      QuotientIs(rows, batch, 0, rows);
    } else {
      PassesIs(rows - batch, batch);
      var q := (rows - batch) / batch;
      assert (q + 1) * batch == q * batch + batch;
      QuotientIs(rows, batch, q + 1, (rows - batch) % batch);
    }
  }

  lemma {:induction false} DueRunsAre(table: seq<RunSummary>, now: nat)
    requires forall i, j | 0 <= i < j < |table| :: table[i].id != table[j].id
    ensures Distinct(DueRuns(table, now))
    ensures forall k :: k in DueRuns(table, now) <==>
              exists i :: 0 <= i < |table| && table[i].id == k.id && table[i].updatedAt == k.at
                  && ReconcilerFilter(table[i].run, now)
  {
    if table == [] {
    } else {
      var rest := table[1..];
      assert forall i | 0 <= i < |rest| :: rest[i] == table[i + 1];
      DueRunsAre(rest, now);
      var here := Key(table[0].updatedAt, table[0].id);
      assert here !in DueRuns(rest, now);
      forall k
        ensures k in DueRuns(table, now) <==>
              exists i :: 0 <= i < |table| && table[i].id == k.id && table[i].updatedAt == k.at
                  && ReconcilerFilter(table[i].run, now)
      {
        if k in DueRuns(rest, now) {
          var i :| 0 <= i < |rest| && rest[i].id == k.id && rest[i].updatedAt == k.at
              && ReconcilerFilter(rest[i].run, now);
          assert table[i + 1].id == k.id && table[i + 1].updatedAt == k.at && ReconcilerFilter(table[i + 1].run, now);
        }
        if i :|
          0 <= i < |table| && table[i].id == k.id && table[i].updatedAt == k.at && ReconcilerFilter(table[i].run, now)
        {
          if i > 0 {
            assert rest[i - 1].id == k.id && rest[i - 1].updatedAt == k.at && ReconcilerFilter(rest[i - 1].run, now);
          }
        }
      }
    }
  }

  lemma DueIff(table: seq<RunSummary>, now: nat, i: nat)
    requires forall i, j | 0 <= i < j < |table| :: table[i].id != table[j].id
    requires i < |table|
    ensures Key(table[i].updatedAt, table[i].id) in DueRuns(table, now) <==> ReconcilerFilter(table[i].run, now)
  {
    DueRunsAre(table, now);
    var k := Key(table[i].updatedAt, table[i].id);
    if k in DueRuns(table, now) {
      var j :| 0 <= j < |table| && table[j].id == k.id && table[j].updatedAt == k.at
          && ReconcilerFilter(table[j].run, now);
      assert j == i;
    }
  }

  lemma EachDueIff(table: seq<RunSummary>, now: nat, due: seq<Key>)
    requires forall i, j | 0 <= i < j < |table| :: table[i].id != table[j].id
    requires due == DueRuns(table, now)
    ensures forall i | 0 <= i < |table| ::
      Key(table[i].updatedAt, table[i].id) in due <==> ReconcilerFilter(table[i].run, now)
  {
    forall i | 0 <= i < |table|
      ensures Key(table[i].updatedAt, table[i].id) in due <==> ReconcilerFilter(table[i].run, now)
    {
      DueIff(table, now, i);
    }
  }

  lemma SweepReadsAll(due: seq<Key>, batch: nat)
    requires Distinct(due) && batch >= 1
    ensures var swept := Sweep(due, None, batch, |due| / batch + 1);
            && swept.1 == None && Increasing(swept.0) && |swept.0| == |due|
            && forall k :: k in swept.0 <==> k in due
  {
    OrderedSorts(due);
    PassesIs(|due|, batch);
    SweepFrom(due, Ordered(due), 0, batch);
    assert Ordered(due)[0..] == Ordered(due);
  }

  /** On a frozen table of n due rows, n / batch + 1 passes that start without a cursor read each due
      row exactly once, in (updatedAt, id) order, and end without a cursor. */
  lemma SweepEnqueuesEachRunOnce(table: seq<RunSummary>, now: nat, batch: nat)
    requires forall i, j | 0 <= i < j < |table| :: table[i].id != table[j].id
    requires batch >= 1
    ensures var due := DueRuns(table, now);
            var swept := Sweep(due, None, batch, |due| / batch + 1);
            && swept.1 == None && Increasing(swept.0) && |swept.0| == |due|
            && (forall i | 0 <= i < |table| ::
                  Key(table[i].updatedAt, table[i].id) in swept.0 <==> ReconcilerFilter(table[i].run, now))
  {
    var due := DueRuns(table, now);
    DueRunsAre(table, now);
    SweepReadsAll(due, batch);
    EachDueIff(table, now, due);
  }

  // ----- what the passes enqueue -------------------------------------------------------------------

  // The runs that are to be continued, in the order of their jobs.
  function Continued(jobs: seq<Job>): seq<nat> {
    if jobs == [] then []
    else if jobs[0].RunContinue? then [jobs[0].runId] + Continued(jobs[1..])
    else Continued(jobs[1..])
  }

  function Ids(page: seq<Key>): seq<nat> {
    seq(|page|, i requires 0 <= i < |page| => page[i].id)
  }

  lemma {:induction false} ContinuedAppends(a: seq<Job>, b: seq<Job>)
    ensures Continued(a + b) == Continued(a) + Continued(b)
  {
    if a == [] {
      assert a + b == b;
    } else {
      assert (a + b)[0] == a[0] && (a + b)[1..] == a[1..] + b;
      ContinuedAppends(a[1..], b);
    }
  }

  lemma {:induction false} ContinuedRuns(page: seq<Key>)
    ensures Continued(RunJobs(page)) == Ids(page)
  {
    if page == [] {
    } else {
      assert RunJobs(page)[1..] == RunJobs(page[1..]);
      assert Ids(page) == [page[0].id] + Ids(page[1..]);
      ContinuedRuns(page[1..]);
    }
  }

  lemma {:induction false} ContinuedRoutines(page: seq<Key>)
    ensures Continued(RoutineJobs(page)) == []
  {
    if page == [] {
    } else {
      assert RoutineJobs(page)[1..] == RoutineJobs(page[1..]);
      ContinuedRoutines(page[1..]);
    }
  }

  lemma PassContinues(before: seq<Job>, runPage: seq<Key>, routinePage: seq<Key>)
    ensures Continued(before + (RunJobs(runPage) + RoutineJobs(routinePage))) == Continued(before) + Ids(runPage)
  {
    ContinuedAppends(before, RunJobs(runPage) + RoutineJobs(routinePage));
    ContinuedAppends(RunJobs(runPage), RoutineJobs(routinePage));
    ContinuedRuns(runPage);
    ContinuedRoutines(routinePage);
  }

  lemma IdsAppend(a: seq<Key>, b: seq<Key>)
    ensures Ids(a + b) == Ids(a) + Ids(b)
  {
  }

  // One more pass takes one page off what a sweep still reads.
  lemma SweepGoesOn(before: seq<nat>, keys: seq<Key>, cursor: Option<Key>, batch: nat, passes: nat)
    requires passes > 0
    ensures var page := FindPage(keys, cursor, batch);
            var next := Sweep(keys, NextCursor(page, batch), batch, passes - 1);
            && before + Ids(Sweep(keys, cursor, batch, passes).0) == (before + Ids(page)) + Ids(next.0)
            && Sweep(keys, cursor, batch, passes).1 == next.1
  {
    var page := FindPage(keys, cursor, batch);
    IdsAppend(page, Sweep(keys, NextCursor(page, batch), batch, passes - 1).0);
  }

  lemma WholeSweep(due: seq<Key>, batch: nat)
    requires Distinct(due) && batch >= 1
    ensures Sweep(due, None, batch, |due| / batch + 1) == (Ordered(due), None)
  {
    var all := Ordered(due);
    PassesIs(|due|, batch);
    OrderedSorts(due);
    SweepFrom(due, all, 0, batch);
    assert all[0..] == all;
  }

  lemma SweepIsOrdered(table: seq<RunSummary>, now: nat, batch: nat)
    requires batch >= 1 && forall i, j | 0 <= i < j < |table| :: table[i].id != table[j].id
    ensures var due := DueRuns(table, now);
            Sweep(due, None, batch, |due| / batch + 1) == (Ordered(due), None)
  {
    DueRunsAre(table, now);
    WholeSweep(DueRuns(table, now), batch);
  }

  // With `passes` passes to go, what is enqueued and what they will read make up the total.
  predicate InSweep(jobs: seq<Job>, due: seq<Key>, cursor: Option<Key>, batch: nat, passes: nat, total: seq<nat>) {
    var left := Sweep(due, cursor, batch, passes);
    Continued(jobs) + Ids(left.0) == total && left.1 == None
  }

  lemma PassKeepsTotal(jobs: seq<Job>, due: seq<Key>, cursor: Option<Key>, routinePage: seq<Key>, batch: nat,
                       passes: nat, total: seq<nat>)
    requires passes > 0 && InSweep(jobs, due, cursor, batch, passes, total)
    ensures var page := FindPage(due, cursor, batch);
            InSweep(jobs + (RunJobs(page) + RoutineJobs(routinePage)), due, NextCursor(page, batch), batch,
                    passes - 1, total)
  {
    PassContinues(jobs, FindPage(due, cursor, batch), routinePage);
    SweepGoesOn(Continued(jobs), due, cursor, batch, passes);
  }

  /** The passes themselves: with the table frozen, as many passes as a sweep takes enqueue a job for
      each due run, once, in (updatedAt, id) order, and leave the reconciler at the start again. */
  method RunSweep(reconciler: JobReconciler, runs: seq<RunSummary>, routines: seq<Routine>, now: nat)
    requires reconciler.batch >= 1 && reconciler.runCursor == None
    requires forall i, j | 0 <= i < j < |runs| :: runs[i].id != runs[j].id
    modifies reconciler
    ensures reconciler.runCursor == None
    ensures Continued(reconciler.enqueued) == Continued(old(reconciler.enqueued)) + Ids(Ordered(DueRuns(runs, now)))
  {
    var due := DueRuns(runs, now);
    var passes: nat := |due| / reconciler.batch + 1;
    ghost var total := Continued(reconciler.enqueued) + Ids(Ordered(due));
    SweepIsOrdered(runs, now, reconciler.batch);
    while passes > 0
      invariant InSweep(reconciler.enqueued, due, reconciler.runCursor, reconciler.batch, passes, total)
    {
      ghost var jobs, cursor := reconciler.enqueued, reconciler.runCursor;
      ghost var routinePage := FindPage(DueRoutines(routines, now), reconciler.routineCursor, reconciler.batch);
      reconciler.ReconcileOnce(true, runs, routines, now, {});
      PassKeepsTotal(jobs, due, cursor, routinePage, reconciler.batch, passes, total);
      passes := passes - 1;
    }
    assert Ids([]) == [];
    assert Continued(reconciler.enqueued) + [] == Continued(reconciler.enqueued);
  }
}
