/** What a stale read costs: behaviours in which one claim overtakes another session of the
    same worker between its read and its claim, so two sessions share a fence. */
module RunStale {
  import opened Wrappers
  import opened RunState
  import opened RunRows
  import opened RunProtocol

  // The state is reached by some behaviour whose answers are guarded.
  ghost predicate Reachable(s: Sys) {
    exists ss, acts :: Behaviour(ss, acts) && AnswersGuarded(ss, acts) && ss[|acts|] == s
  }

  lemma BehaviourGoesOn(ss: seq<Sys>, acts: seq<Action>, a: Action)
    requires Behaviour(ss, acts) && AnswersGuarded(ss, acts) && Enabled(ss[|acts|], a) && !a.AnswerRun?
    ensures Behaviour(ss + [Step(ss[|acts|], a)], acts + [a])
    ensures AnswersGuarded(ss + [Step(ss[|acts|], a)], acts + [a])
  {
    var tt, more := ss + [Step(ss[|acts|], a)], acts + [a];
    forall k | 0 <= k < |more|
      ensures Enabled(tt[k], more[k]) && tt[k + 1] == Step(tt[k], more[k]) && GuardedAnswer(tt[k], more[k])
    {
      if k < |acts| {
        assert tt[k] == ss[k] && tt[k + 1] == ss[k + 1] && more[k] == acts[k];
        assert GuardedAnswer(ss[k], acts[k]);
      }
    }
    assert tt[0] == ss[0];
  }

  lemma ReachableStep(s: Sys, a: Action, t: Sys)
    requires Reachable(s) && Enabled(s, a) && !a.AnswerRun? && t == Step(s, a)
    ensures Reachable(t)
  {
    var ss, acts :| Behaviour(ss, acts) && AnswersGuarded(ss, acts) && ss[|acts|] == s;
    BehaviourGoesOn(ss, acts, a);
    var tt, more := ss + [t], acts + [a];
    assert Behaviour(tt, more) && AnswersGuarded(tt, more) && tt[|more|] == t;
  }

  function Table(run: RunRow, attempts: seq<Attempt>): Rows {
    Rows(run, attempts, TaskQueued, map[], 0, map[], 0)
  }

  function Two(run: RunRow, attempts: seq<Attempt>, first: Session, second: Session, now: nat,
               grants: seq<Grant>): Sys {
    Sys(Table(run, attempts), [first, second], now, grants, None)
  }

  const NEW_RUN := RunRow(Queued, None, 0, None, None, None)

  lemma Started()
    ensures Reachable(Sys(Table(NEW_RUN, []), [], 0, [], None))
  {
    var s := Sys(Table(NEW_RUN, []), [], 0, [], None);
    var acts: seq<Action> := [];
    assert Behaviour([s], acts) && AnswersGuarded([s], acts) && [s][|acts|] == s;
  }

  // Two sessions of one worker both read the row before either claims it.
  lemma BothRead(worker: string)
    ensures Reachable(Two(NEW_RUN, [], Session(worker, HasRead, 1, 0), Session(worker, HasRead, 1, 0), 0, []))
  {
    Started();
    var s0 := Sys(Table(NEW_RUN, []), [], 0, [], None);
    var idle := Session(worker, Fresh, 0, 0);
    var read := Session(worker, HasRead, 1, 0);
    ReachableStep(s0, Spawn(worker), s0.(sessions := [idle]));
    ReachableStep(s0.(sessions := [idle]), Spawn(worker), s0.(sessions := [idle, idle]));
    ReachableStep(s0.(sessions := [idle, idle]), ReadRun(0), s0.(sessions := [read, idle]));
    ReachableStep(s0.(sessions := [read, idle]), ReadRun(1), s0.(sessions := [read, read]));
  }

  function Working0(worker: string): Sys {
    Two(RunRow(Running, Some(worker), 1, Some(LEASE_MS), None, None), [Attempt(1, AttemptRunning)],
        Session(worker, Working, 1, 0), Session(worker, HasRead, 1, 0), 0, [Grant(0, 1)])
  }

  function LeasedRun(worker: string): RunRow {
    RunRow(Leased, Some(worker), 1, Some(LEASE_MS), None, None)
  }

  lemma OneClaims(worker: string)
    ensures Reachable(Two(LeasedRun(worker), [], Session(worker, Claimed, 1, 0), Session(worker, HasRead, 1, 0), 0,
                          [Grant(0, 1)]))
  {
    BothRead(worker);
    var read := Session(worker, HasRead, 1, 0);
    ReachableStep(Two(NEW_RUN, [], read, read, 0, []), ClaimRun(0, true),
                  Two(LeasedRun(worker), [], read.(phase := Claimed), read, 0, [Grant(0, 1)]));
  }

  // The first of them claims, starts and adds its attempt.
  lemma OneWorks(worker: string)
    ensures Reachable(Working0(worker))
  {
    OneClaims(worker);
    var read, leased := Session(worker, HasRead, 1, 0), LeasedRun(worker);
    var s1 := Two(leased, [], read.(phase := Claimed), read, 0, [Grant(0, 1)]);
    var s2 := Two(leased.(status := Running), [], read.(phase := RunProtocol.Started), read, 0, [Grant(0, 1)]);
    ReachableStep(s1, StartRun(0, true), s2);
    ReachableStep(s2, AddAttempt(0, true), Working0(worker));
  }

  function Before(worker: string, run: RunRow, attempts: seq<Attempt>, phase: Phase, now: nat): Sys {
    Two(run, attempts, Session(worker, phase, 1, 0), Session(worker, HasRead, 1, 0), now, [Grant(0, 1)])
  }

  // The second session claims with its stale fence and starts: it now runs the run.
  function After(worker: string, attempts: seq<Attempt>, phase: Phase, now: nat): Sys {
    Two(RunRow(Running, Some(worker), 1, Some(now + LEASE_MS), None, None), attempts,
        Session(worker, phase, 1, 0), Session(worker, RunProtocol.Started, 1, 0), now, [Grant(0, 1), Grant(1, 1)])
  }

  lemma StaleClaim(worker: string, run: RunRow, attempts: seq<Attempt>, phase: Phase, now: nat)
    requires run.leaseFence == 1 && run.completedAt == None && ClaimGuard(run, now)
    requires Reachable(Before(worker, run, attempts, phase, now))
    ensures var s := Before(worker, run, attempts, phase, now);
            Enabled(s, ClaimRun(1, true)) && ClaimLands(s, 1) && !FreshClaim(s, ClaimRun(1, true))
            && Enabled(Step(s, ClaimRun(1, true)), StartRun(1, true))
            && Step(Step(s, ClaimRun(1, true)), StartRun(1, true)) == After(worker, attempts, phase, now)
    ensures Reachable(After(worker, attempts, phase, now))
  {
    var s, u := Before(worker, run, attempts, phase, now), After(worker, attempts, phase, now);
    var t := u.(rows := u.rows.(run := u.rows.run.(status := Leased)),
                sessions := [s.sessions[0], Session(worker, Claimed, 1, 0)]);
    ReachableStep(s, ClaimRun(1, true), t);
    ReachableStep(t, StartRun(1, true), u);
  }

  lemma TakenOver(worker: string)
    ensures Reachable(After(worker, [Attempt(1, AttemptRunning)], Working, LEASE_MS))
  {
    OneWorks(worker);
    var run := RunRow(Running, Some(worker), 1, Some(LEASE_MS), None, None);
    ReachableStep(Working0(worker), Tick(LEASE_MS),
        Before(worker, run, [Attempt(1, AttemptRunning)], Working, LEASE_MS));
    StaleClaim(worker, run, [Attempt(1, AttemptRunning)], Working, LEASE_MS);
  }

  /** The first session finalizes the run although the second, by a stale claim, has taken it
      over and is running it. */
  lemma StaleReadLetsOldHolderFinalize(worker: string)
    ensures var s := After(worker, [Attempt(1, AttemptRunning)], Working, LEASE_MS);
            && Reachable(s) && At(s, 1, RunProtocol.Started) && Holds(s.rows.run, Running, worker, 1)
            && Enabled(s, FinalizeRun(0, OutcomeCompleted, true))
            && Step(s, FinalizeRun(0, OutcomeCompleted, true)).rows.run.status == Completed
  {
    TakenOver(worker);
  }

  // The first session has paused the run, recorded it and then failed.
  lemma PausedAndFailed(worker: string)
    ensures Reachable(Before(worker, RunRow(WaitingInput, None, 1, None, None, None),
                             [Attempt(1, AttemptWaitingInput)], Catching, 0))
  {
    OneWorks(worker);
    var waiting := RunRow(WaitingInput, None, 1, None, None, None);
    var s1 := Before(worker, waiting, [Attempt(1, AttemptRunning)], Paused(WaitingInput), 0);
    var s2 := Before(worker, waiting, [Attempt(1, AttemptWaitingInput)], PauseRecorded, 0);
    ReachableStep(Working0(worker), PauseRun(0, WaitingInput, true), s1);
    ReachableStep(s1, RecordPause(0), s2);
    ReachableStep(s2, Throw(0), Before(worker, waiting, [Attempt(1, AttemptWaitingInput)], Catching, 0));
  }

  lemma PausedAndTakenOver(worker: string)
    ensures Reachable(After(worker, [Attempt(1, AttemptWaitingInput)], Catching, 0))
  {
    PausedAndFailed(worker);
    StaleClaim(worker, RunRow(WaitingInput, None, 1, None, None, None), [Attempt(1, AttemptWaitingInput)], Catching, 0);
  }

  /** After a stale claim the "attempt was not available" throw is reachable, and then the first
      session puts the run that the second one is running back in the queue. */
  lemma StaleReadReachesTheThrow(worker: string, message: string)
    ensures var s := After(worker, [Attempt(1, AttemptWaitingInput)], Catching, 0);
            var fail := FinalizeRun(0, OutcomeFailed(message), true);
            && Reachable(s) && At(s, 1, RunProtocol.Started) && Enabled(s, fail)
            && FinalizeVerdict(s.rows, worker, 1, 0) == AttemptUnavailable
            && Enabled(Step(s, fail), ReleaseRun(0, true))
            && Step(Step(s, fail), ReleaseRun(0, true)).rows.run.status == Queued
  {
    PausedAndTakenOver(worker);
    var s := After(worker, [Attempt(1, AttemptWaitingInput)], Catching, 0);
    var fail := FinalizeRun(0, OutcomeFailed(message), true);
    assert Step(s, fail) == Moved(s, 0, OuterCatch);
  }
}
