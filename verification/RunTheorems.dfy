/** Safety of the run protocol over whole behaviours. */
module RunTheorems {
  import opened Wrappers
  import opened RunState
  import opened RunRows
  import opened RunProtocol
  import opened RunInvariants

  lemma {:induction false} AlwaysInv(ss: seq<Sys>, acts: seq<Action>, k: nat)
    requires Behaviour(ss, acts) && AnswersGuarded(ss, acts) && k < |ss|
    ensures Inv(ss[k])
  {
    if k == 0 {
      InitHolds(ss[0]);
    } else {
      AlwaysInv(ss, acts, k - 1);
      assert GuardedAnswer(ss[k - 1], acts[k - 1]);
      StepKeepsInv(ss[k - 1], acts[k - 1]);
    }
  }

  // ----- terminal statuses and finalization ---------------------------------------------

  /** From a terminal status the only step that touches the run row is an answer. */
  lemma TerminalStepIff(s: Sys, a: Action)
    requires Enabled(s, a) && IsTerminal(s.rows.run.status)
    ensures Step(s, a).rows.run == s.rows.run <==> !a.AnswerRun?
  {
  }

  lemma {:induction false} TerminalForever(ss: seq<Sys>, acts: seq<Action>, j: nat, k: nat)
    requires Behaviour(ss, acts) && AnswersGuarded(ss, acts) && j <= k < |ss|
    requires IsTerminal(ss[j].rows.run.status)
    ensures ss[k].rows.run == ss[j].rows.run
  {
    if j == k {
    } else {
      TerminalForever(ss, acts, j, k - 1);
      assert GuardedAnswer(ss[k - 1], acts[k - 1]);
      TerminalStepIff(ss[k - 1], acts[k - 1]);
    }
  }

  /** Over whole behaviours: a terminal run row never changes again if and only if no answer reaches one. */
  lemma TerminalForeverIff(ss: seq<Sys>, acts: seq<Action>)
    requires Behaviour(ss, acts)
    ensures (forall j, k | 0 <= j <= k < |ss| && IsTerminal(ss[j].rows.run.status) :: ss[k].rows.run == ss[j].rows.run)
       <==> AnswersGuarded(ss, acts)
  {
    if AnswersGuarded(ss, acts) {
      forall j, k | 0 <= j <= k < |ss| && IsTerminal(ss[j].rows.run.status)
        ensures ss[k].rows.run == ss[j].rows.run
      {
        TerminalForever(ss, acts, j, k);
      }
    }
    if forall j, k | 0 <= j <= k < |ss| && IsTerminal(ss[j].rows.run.status) :: ss[k].rows.run == ss[j].rows.run {
      forall k | 0 <= k < |acts|
        ensures GuardedAnswer(ss[k], acts[k])
      {
        if IsTerminal(ss[k].rows.run.status) {
          assert ss[k + 1].rows.run == ss[k].rows.run;
          TerminalStepIff(ss[k], acts[k]);
        }
      }
    }
  }

  predicate Commits(s: Sys, a: Action) {
    a.FinalizeRun? && HasSession(s, a.i)
    && FinalizeVerdict(s.rows, s.sessions[a.i].worker, s.sessions[a.i].fence, s.sessions[a.i].attempt) == Committed
  }

  /** No freshness of claims is needed: two finalizations never both commit. */
  lemma FinalizesAtMostOnce(ss: seq<Sys>, acts: seq<Action>, j: nat, k: nat)
    requires Behaviour(ss, acts) && AnswersGuarded(ss, acts) && j < k < |acts|
    requires Commits(ss[j], acts[j])
    ensures !Commits(ss[k], acts[k])
  {
    assert ss[j + 1] == Step(ss[j], acts[j]);
    assert IsTerminal(ss[j + 1].rows.run.status);
    TerminalForever(ss, acts, j + 1, k);
  }

  ghost predicate OutcomeAgrees(r: Rows, status: RunStatus, attempt: AttemptStatus, task: TaskStatus) {
    && (r.run.status == status <==> r.task == task)
    && (r.run.status == status <==> exists k: nat :: k < |r.attempts| && r.attempts[k].status == attempt)
  }

  /** Status, attempt, task, final message and end event always tell the same story, and each
      is written once. */
  lemma EverythingAgrees(ss: seq<Sys>, acts: seq<Action>, k: nat)
    requires Behaviour(ss, acts) && AnswersGuarded(ss, acts) && k < |ss|
    ensures var r := ss[k].rows;
            && OutcomeAgrees(r, Completed, AttemptCompleted, TaskCompleted)
            && OutcomeAgrees(r, Failed, AttemptFailed, TaskFailed)
            && (r.run.status == Completed <==> exists e :: e in r.events && r.events[e].RunCompleted?)
            && (r.run.status == Failed <==> exists e :: e in r.events && r.events[e].RunFailed?)
            && (r.run.status == Completed <==> exists m :: m in r.messages && r.messages[m].FinalAnswer?)
            && |Finished(r.attempts)| <= 1 && |EndEvents(r.events)| <= 1 && |FinalAnswers(r.messages)| <= 1
    ensures var r := ss[k].rows;
            forall m | m in r.messages && r.messages[m].FinalAnswer? ::
              r.messages[m].attempt < |r.attempts| && r.attempts[r.messages[m].attempt].status == AttemptCompleted
  {
    AlwaysInv(ss, acts, k);
    var r := ss[k].rows;
    forall a: nat ensures a in Finished(r.attempts) <==>
      a < |r.attempts| && r.attempts[a].status in {AttemptCompleted, AttemptFailed} {
    }
    forall e ensures e in EndEvents(r.events) <==>
      e in r.events && (r.events[e].RunCompleted? || r.events[e].RunFailed?) {
    }
    forall m ensures m in FinalAnswers(r.messages) <==> m in r.messages && r.messages[m].FinalAnswer? {
    }
    if ss[k].final.Some? {
      var f := ss[k].final.value;
      assert f.attempt in Finished(r.attempts) && f.endSeq in EndEvents(r.events);
      if f.outcome.OutcomeCompleted? {
        assert f.messageSeq in FinalAnswers(r.messages);
      }
    }
  }

  /** Status changes follow the table of run-state.ts, except that a failed setup or an answer puts a
      running run back in the queue, and an answer a run that is completed or cancelled. A reclaim of an
      expired lease writes Leased over Leased, which the table does not list either. */
  lemma EdgesOfProtocol(s: Sys, a: Action)
    requires Enabled(s, a)
    ensures var before, after := s.rows.run.status, Step(s, a).rows.run.status;
            || before == after || CanTransition(before, after) || (before == Running && after == Queued)
            || (a.AnswerRun? && before in {Completed, Cancelled} && after == Queued)
    ensures !CanTransition(Running, Queued) && !CanTransition(Leased, Leased)
    ensures !CanTransition(Completed, Queued) && !CanTransition(Cancelled, Queued)
  {
  }

  // ----- no run is stranded ------------------------------------------------------------------

  lemma {:induction false} LeaseEndsSoon(ss: seq<Sys>, acts: seq<Action>, k: nat)
    requires Behaviour(ss, acts) && k < |ss|
    ensures ss[k].rows.run.leaseExpiresAt.Some? ==> ss[k].rows.run.leaseExpiresAt.value <= ss[k].now + LEASE_MS
  {
    if k == 0 {
    } else {
      LeaseEndsSoon(ss, acts, k - 1);
      assert ss[k] == Step(ss[k - 1], acts[k - 1]);
    }
  }

  lemma {:induction false} AlwaysLeaseOk(ss: seq<Sys>, acts: seq<Action>, k: nat)
    requires Behaviour(ss, acts) && k < |ss|
    ensures LeaseOk(ss[k].rows.run)
  {
    if k == 0 {
    } else {
      AlwaysLeaseOk(ss, acts, k - 1);
      StepKeepsLeaseOk(ss[k - 1], acts[k - 1]);
      assert ss[k] == Step(ss[k - 1], acts[k - 1]);
    }
  }

  /** A run that is neither over nor waiting for the user is picked up by the reconciler, and
      accepted by a claim, one lease from now at the latest. */
  lemma NoRunIsStranded(ss: seq<Sys>, acts: seq<Action>, k: nat, later: nat)
    requires Behaviour(ss, acts) && k < |ss|
    requires later >= ss[k].now + LEASE_MS
    ensures var run := ss[k].rows.run;
            ReconcilerFilter(run, later) <==> !IsTerminal(run.status) && !IsWaiting(run.status)
    ensures var run := ss[k].rows.run; ClaimGuard(run, later) <==> !IsTerminal(run.status)
  {
    AlwaysLeaseOk(ss, acts, k);
    LeaseEndsSoon(ss, acts, k);
  }

  /** From every state of a live run that a behaviour can reach (its lease is in order and ends in time),
      one lease later a new session that is left alone gets the run running under its own name and the
      next fence. */
  lemma AnyWorkerRecovers(s: Sys, worker: string)
    requires LeaseOk(s.rows.run) && !IsTerminal(s.rows.run.status)
    requires s.rows.run.leaseExpiresAt.Some? ==> s.rows.run.leaseExpiresAt.value <= s.now + LEASE_MS
    ensures var i := |s.sessions|;
            var t := Step(Step(s, Tick(LEASE_MS)), Spawn(worker));
            && Enabled(t, ReadRun(i))
            && var u := Step(t, ReadRun(i));
            && Enabled(u, ClaimRun(i, true)) && FreshClaim(u, ClaimRun(i, true))
            && var v := Step(u, ClaimRun(i, true));
            && Enabled(v, StartRun(i, true))
            && var w := Step(v, StartRun(i, true));
            && At(w, i, Started)
            && Holds(w.rows.run, Running, worker, NextFence(s.rows.run.leaseFence))
  {
  }
}
