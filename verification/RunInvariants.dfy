/** What every step of the run protocol keeps, one invariant at a time. */
module RunInvariants {
  import opened Wrappers
  import opened RunState
  import opened RunRows
  import opened RunProtocol

  // ----- the rows agree about how the run ended ----------------------------------------

  function Finished(attempts: seq<Attempt>): set<nat> {
    set k: nat | k < |attempts| && attempts[k].status in {AttemptCompleted, AttemptFailed}
  }

  function EndEvents(events: map<nat, EventKind>): set<nat> {
    set e | e in events && (events[e].RunCompleted? || events[e].RunFailed?)
  }

  function FinalAnswers(messages: map<nat, Message>): set<nat> {
    set m | m in messages && messages[m].FinalAnswer?
  }

  ghost predicate NothingFinal(r: Rows) {
    Finished(r.attempts) == {} && EndEvents(r.events) == {} && FinalAnswers(r.messages) == {}
    && r.task == TaskQueued
  }

  ghost predicate AllFinal(r: Rows, f: Final) {
    && r.run.error == OutcomeError(f.outcome)
    && Finished(r.attempts) == {f.attempt} && r.attempts[f.attempt].status == OutcomeAttempt(f.outcome)
    && r.task == OutcomeTask(f.outcome)
    && EndEvents(r.events) == {f.endSeq} && r.events[f.endSeq] == OutcomeEvent(f.outcome)
    && FinalAnswers(r.messages) == (if f.outcome.OutcomeCompleted? then {f.messageSeq} else {})
    && (f.outcome.OutcomeCompleted? ==>
          && r.messages[f.messageSeq] == FinalAnswer(f.attempt)
          && f.endSeq >= 1 && f.endSeq - 1 in r.events && r.events[f.endSeq - 1] == MessageCreated(f.messageSeq))
  }

  ghost predicate Agreement(s: Sys) {
    match s.final
    case None => s.rows.run.status !in {Completed, Failed} && NothingFinal(s.rows)
    case Some(f) => s.rows.run.status == OutcomeStatus(f.outcome) && AllFinal(s.rows, f)
  }

  // ----- structure ------------------------------------------------------------------------

  predicate LeaseOk(run: RunRow) {
    run.status in {Leased, Running} ==> run.leaseExpiresAt.Some? && run.leaseOwner.Some?
  }

  predicate CompletionOk(run: RunRow) {
    run.completedAt.Some? <==> IsTerminal(run.status)
  }

  ghost predicate NumbersOk(r: Rows) {
    && (forall e | e in r.events :: e < r.nextEventSeq)
    && (forall m | m in r.messages :: m < r.nextMessageSeq)
  }

  ghost predicate RowsOk(r: Rows) {
    LeaseOk(r.run) && CompletionOk(r.run) && NumbersOk(r)
  }

  ghost predicate AttemptsOk(s: Sys) {
    && (forall i | 0 <= i < |s.sessions| && HasAttempt(s.sessions[i].phase) ::
          s.sessions[i].attempt < |s.rows.attempts|
          && s.rows.attempts[s.sessions[i].attempt].fence == s.sessions[i].fence)
    && (forall i, j | 0 <= i < j < |s.sessions| && HasAttempt(s.sessions[i].phase) && HasAttempt(s.sessions[j].phase) ::
          s.sessions[i].attempt != s.sessions[j].attempt)
    && (forall i | 0 <= i < |s.sessions| && (s.sessions[i].phase.Working? || s.sessions[i].phase.Paused?) ::
          s.rows.attempts[s.sessions[i].attempt].status == AttemptRunning)
    && (forall i | 0 <= i < |s.sessions| && (s.sessions[i].phase.Released? || s.sessions[i].phase.PauseRecorded?) ::
          s.rows.attempts[s.sessions[i].attempt].status !in {AttemptCompleted, AttemptFailed})
    && (forall i | 0 <= i < |s.sessions| && s.sessions[i].phase.Paused? :: IsWaiting(s.sessions[i].phase.waiting))
  }

  ghost predicate Inv(s: Sys) {
    RowsOk(s.rows) && AttemptsOk(s) && Agreement(s)
  }

  // The steps that change the run row alone.
  predicate OnRunRow(a: Action) {
    a.ClaimRun? || a.StartRun? || a.RenewLease? || a.PauseRun? || a.ReleaseRun? || a.StopRun? || a.CancelQueuedRun?
    || a.AnswerRun?
  }

  // The steps that change the log alone.
  predicate OnLog(a: Action) {
    a.ClearProgress? || a.AppendProgress? || a.AppendOther? || a.Publish? || a.DropAllProgress?
  }

  lemma StepKeepsLeaseOk(s: Sys, a: Action)
    requires LeaseOk(s.rows.run) && Enabled(s, a)
    ensures LeaseOk(Step(s, a).rows.run)
  {
    if OnRunRow(a) {
    } else if a.FinalizeRun? {
    } else {
      assert Step(s, a).rows.run == s.rows.run;
    }
  }

  lemma StepKeepsCompletionOk(s: Sys, a: Action)
    requires CompletionOk(s.rows.run) && Enabled(s, a) && GuardedAnswer(s, a)
    ensures CompletionOk(Step(s, a).rows.run)
  {
    if OnRunRow(a) {
    } else if a.FinalizeRun? {
    } else {
      assert Step(s, a).rows.run == s.rows.run;
    }
  }

  lemma LogStepKeepsNumbersOk(s: Sys, a: Action)
    requires NumbersOk(s.rows) && Enabled(s, a) && OnLog(a)
    ensures NumbersOk(Step(s, a).rows)
  {
  }

  lemma FinalizeKeepsNumbersOk(s: Sys, i: nat, outcome: Outcome, acked: bool)
    requires NumbersOk(s.rows) && Enabled(s, FinalizeRun(i, outcome, acked))
    ensures NumbersOk(StepFinalize(s, i, outcome, acked).rows)
  {
  }

  lemma StepKeepsNumbersOk(s: Sys, a: Action)
    requires NumbersOk(s.rows) && Enabled(s, a)
    ensures NumbersOk(Step(s, a).rows)
  {
    if OnLog(a) {
      LogStepKeepsNumbersOk(s, a);
    } else if a.FinalizeRun? {
      FinalizeKeepsNumbersOk(s, a.i, a.outcome, a.acked);
    } else {
      var r, t := s.rows, Step(s, a).rows;
      assert t.events == r.events && t.messages == r.messages;
      assert t.nextEventSeq == r.nextEventSeq && t.nextMessageSeq == r.nextMessageSeq;
    }
  }

  lemma StepKeepsRowsOk(s: Sys, a: Action)
    requires RowsOk(s.rows) && Enabled(s, a) && GuardedAnswer(s, a)
    ensures RowsOk(Step(s, a).rows)
  {
    StepKeepsLeaseOk(s, a);
    StepKeepsCompletionOk(s, a);
    StepKeepsNumbersOk(s, a);
  }

  // ----- attempts ---------------------------------------------------------------------------

  // Moving one session on, without giving it an attempt it did not have, keeps AttemptsOk as
  // long as the attempt rows still fit the phase it moves to.
  lemma MoveKeepsAttemptsOk(s: Sys, t: Sys, i: nat, phase: Phase)
    requires AttemptsOk(s) && HasSession(s, i) && t.sessions == Moved(s, i, phase).sessions
    requires HasAttempt(phase) ==> HasAttempt(s.sessions[i].phase)
    requires |t.rows.attempts| == |s.rows.attempts|
    requires forall k | 0 <= k < |s.rows.attempts| :: t.rows.attempts[k].fence == s.rows.attempts[k].fence
    requires forall k | 0 <= k < |s.rows.attempts| && k != s.sessions[i].attempt ::
      t.rows.attempts[k] == s.rows.attempts[k]
    requires HasAttempt(phase) && (phase.Working? || phase.Paused?) ==>
      t.rows.attempts[s.sessions[i].attempt].status == AttemptRunning
    requires HasAttempt(phase) && (phase.Released? || phase.PauseRecorded?) ==>
      t.rows.attempts[s.sessions[i].attempt].status !in {AttemptCompleted, AttemptFailed}
    requires phase.Paused? ==> IsWaiting(phase.waiting)
    requires HasAttempt(s.sessions[i].phase) || t.rows.attempts == s.rows.attempts
    ensures AttemptsOk(t)
  {
  }

  lemma QuietMoveKeepsAttemptsOk(s: Sys, a: Action)
    requires AttemptsOk(s) && Enabled(s, a)
    requires a.ClaimRun? || a.StartRun? || a.PauseRun? || a.ClearProgress? || a.Throw? || a.Leave? || a.Crash?
    ensures AttemptsOk(Step(s, a))
  {
    var t := Step(s, a);
    assert t.rows.attempts == s.rows.attempts;
    MoveKeepsAttemptsOk(s, t, a.i, t.sessions[a.i].phase);
  }

  lemma AttemptMoveKeepsAttemptsOk(s: Sys, a: Action)
    requires AttemptsOk(s) && Enabled(s, a)
    requires a.RecordPause? || a.RecordRelease? || a.Finish?
    ensures AttemptsOk(Step(s, a))
  {
    var t := Step(s, a);
    MoveKeepsAttemptsOk(s, t, a.i, t.sessions[a.i].phase);
  }

  lemma FinalizeKeepsAttemptsOk(s: Sys, i: nat, outcome: Outcome, acked: bool)
    requires AttemptsOk(s) && Enabled(s, FinalizeRun(i, outcome, acked))
    ensures AttemptsOk(StepFinalize(s, i, outcome, acked))
  {
    var t := StepFinalize(s, i, outcome, acked);
    MoveKeepsAttemptsOk(s, t, i, t.sessions[i].phase);
  }

  lemma ReleaseKeepsAttemptsOk(s: Sys, i: nat, acked: bool)
    requires AttemptsOk(s) && Agreement(s) && Enabled(s, ReleaseRun(i, acked))
    ensures AttemptsOk(Step(s, ReleaseRun(i, acked)))
  {
    var t := Step(s, ReleaseRun(i, acked));
    if t.sessions[i].phase == Released {
      assert s.sessions[i].attempt !in Finished(s.rows.attempts);
    }
    MoveKeepsAttemptsOk(s, t, i, t.sessions[i].phase);
  }

  lemma SameSessionsKeepAttemptsOk(s: Sys, t: Sys)
    requires AttemptsOk(s) && t.sessions == s.sessions && t.rows.attempts == s.rows.attempts
    ensures AttemptsOk(t)
  {
  }

  lemma SpawnKeepsAttemptsOk(s: Sys, worker: string)
    requires AttemptsOk(s)
    ensures AttemptsOk(Step(s, Spawn(worker)))
  {
  }

  lemma ReadKeepsAttemptsOk(s: Sys, i: nat)
    requires AttemptsOk(s) && Enabled(s, ReadRun(i))
    ensures AttemptsOk(Step(s, ReadRun(i)))
  {
    var t := Step(s, ReadRun(i));
    assert forall j | 0 <= j < |s.sessions| && j != i :: t.sessions[j] == s.sessions[j];
  }

  lemma QuietStepKeepsAttemptsOk(s: Sys, a: Action)
    requires AttemptsOk(s) && Enabled(s, a)
    requires a.Spawn? || a.ReadRun? || a.RenewLease? || a.AppendProgress? || a.AppendOther? || a.Publish?
             || a.DropAllProgress? || a.StopRun? || a.CancelQueuedRun? || a.AnswerRun? || a.Tick?
    ensures AttemptsOk(Step(s, a))
  {
    if a.Spawn? {
      SpawnKeepsAttemptsOk(s, a.worker);
    } else if a.ReadRun? {
      ReadKeepsAttemptsOk(s, a.i);
    } else {
      SameSessionsKeepAttemptsOk(s, Step(s, a));
    }
  }

  lemma AddAttemptKeepsAttemptsOk(s: Sys, i: nat, acked: bool)
    requires AttemptsOk(s) && Enabled(s, AddAttempt(i, acked))
    ensures AttemptsOk(StepAddAttempt(s, i, acked))
  {
  }

  lemma StepKeepsAttemptsOk(s: Sys, a: Action)
    requires Inv(s) && Enabled(s, a)
    ensures AttemptsOk(Step(s, a))
  {
    match a
    case FinalizeRun(i, outcome, acked) => FinalizeKeepsAttemptsOk(s, i, outcome, acked);
    case ReleaseRun(i, acked) => ReleaseKeepsAttemptsOk(s, i, acked);
    case AddAttempt(i, acked) => AddAttemptKeepsAttemptsOk(s, i, acked);
    case RecordPause(_) => AttemptMoveKeepsAttemptsOk(s, a);
    case RecordRelease(_) => AttemptMoveKeepsAttemptsOk(s, a);
    case Finish(_) => AttemptMoveKeepsAttemptsOk(s, a);
    case ClaimRun(_, _) => QuietMoveKeepsAttemptsOk(s, a);
    case StartRun(_, _) => QuietMoveKeepsAttemptsOk(s, a);
    case PauseRun(_, _, _) => QuietMoveKeepsAttemptsOk(s, a);
    case ClearProgress(_) => QuietMoveKeepsAttemptsOk(s, a);
    case Throw(_) => QuietMoveKeepsAttemptsOk(s, a);
    case Leave(_) => QuietMoveKeepsAttemptsOk(s, a);
    case Crash(_) => QuietMoveKeepsAttemptsOk(s, a);
    case _ => QuietStepKeepsAttemptsOk(s, a);
  }

  // ----- agreement ----------------------------------------------------------------------------

  // Steps on the run row alone, when they neither reach nor leave a finalized status.
  lemma RowStepKeepsAgreement(s: Sys, t: Sys)
    requires Agreement(s) && t.final == s.final
    requires t.rows == s.rows.(run := t.rows.run)
    requires t.rows.run.status !in {Completed, Failed}
    requires t.rows.run == s.rows.run || s.rows.run.status !in {Completed, Failed}
    ensures Agreement(t)
  {
  }

  lemma AttemptStepKeepsAgreement(s: Sys, t: Sys, attempt: nat, status: AttemptStatus)
    requires Agreement(s) && t.final == s.final
    requires t.rows == SetAttempt(s.rows, attempt, status)
    requires attempt < |s.rows.attempts|
    requires s.rows.attempts[attempt].status !in {AttemptCompleted, AttemptFailed}
    requires status !in {AttemptCompleted, AttemptFailed}
    ensures Agreement(t)
  {
  }

  lemma LogStepKeepsAgreement(s: Sys, t: Sys)
    requires Agreement(s) && RowsOk(s.rows) && t.final == s.final
    requires t.rows == DropProgress(s.rows) || t.rows == PublishMessage(s.rows, OtherMessage)
             || t.rows == AppendEvent(s.rows, Progress) || t.rows == AppendEvent(s.rows, OtherEvent)
    ensures Agreement(t)
  {
  }

  // The finalizing transaction writes exactly one of everything.
  lemma FinalizeWritesAll(r: Rows, worker: string, fence: nat, attempt: nat, outcome: Outcome, now: nat)
    requires RowsOk(r) && NothingFinal(r)
    requires FinalizeVerdict(r, worker, fence, attempt) == Committed
    ensures var t := Finalize(r, worker, fence, attempt, outcome, now);
            t.run.status == OutcomeStatus(outcome)
            && AllFinal(t, Final(outcome, attempt, t.nextEventSeq - 1, r.nextMessageSeq))
  {
  }

  lemma FinalizeKeepsAgreement(s: Sys, i: nat, outcome: Outcome, acked: bool)
    requires RowsOk(s.rows) && Agreement(s) && Enabled(s, FinalizeRun(i, outcome, acked))
    ensures Agreement(StepFinalize(s, i, outcome, acked))
  {
    var me := s.sessions[i];
    if FinalizeVerdict(s.rows, me.worker, me.fence, me.attempt) == Committed {
      FinalizeWritesAll(s.rows, me.worker, me.fence, me.attempt, outcome, s.now);
    }
  }

  lemma RecordKeepsAgreement(s: Sys, a: Action)
    requires AttemptsOk(s) && Agreement(s) && Enabled(s, a)
    requires a.RecordPause? || a.RecordRelease? || a.Finish?
    ensures Agreement(Step(s, a))
  {
    var t := Step(s, a);
    var me := s.sessions[a.i];
    if a.RecordPause? {
      var status := if me.phase.waiting == WaitingInput then AttemptWaitingInput else AttemptWaitingTakeover;
      AttemptStepKeepsAgreement(s, t, me.attempt, status);
    } else if a.RecordRelease? {
      AttemptStepKeepsAgreement(s, t, me.attempt, AttemptSetupFailed);
    } else if t.rows != s.rows {
      AttemptStepKeepsAgreement(s, t, me.attempt, AttemptInterrupted);
    }
  }

  lemma AddAttemptKeepsAgreement(s: Sys, i: nat, acked: bool)
    requires Agreement(s) && Enabled(s, AddAttempt(i, acked))
    ensures Agreement(StepAddAttempt(s, i, acked))
  {
  }

  lemma RunRowKeepsAgreement(s: Sys, a: Action)
    requires Agreement(s) && Enabled(s, a) && GuardedAnswer(s, a)
    requires OnRunRow(a)
    ensures Agreement(Step(s, a))
  {
    var t := Step(s, a);
    if t.rows.run != s.rows.run {
      RowStepKeepsAgreement(s, t);
    } else {
      assert t.rows == s.rows;
    }
  }

  lemma LogActionKeepsAgreement(s: Sys, a: Action)
    requires Inv(s) && Enabled(s, a) && OnLog(a)
    ensures Agreement(Step(s, a))
  {
    LogStepKeepsAgreement(s, Step(s, a));
  }

  lemma IdleActionKeepsAgreement(s: Sys, a: Action)
    requires Agreement(s) && Enabled(s, a)
    requires a.Spawn? || a.ReadRun? || a.Throw? || a.Leave? || a.Crash? || a.Tick?
    ensures Agreement(Step(s, a))
  {
    assert Step(s, a).rows == s.rows && Step(s, a).final == s.final;
  }

  lemma StepKeepsAgreement(s: Sys, a: Action)
    requires Inv(s) && Enabled(s, a) && GuardedAnswer(s, a)
    ensures Agreement(Step(s, a))
  {
    match a
    case FinalizeRun(i, outcome, acked) => FinalizeKeepsAgreement(s, i, outcome, acked);
    case AddAttempt(i, acked) => AddAttemptKeepsAgreement(s, i, acked);
    case RecordPause(_) => RecordKeepsAgreement(s, a);
    case RecordRelease(_) => RecordKeepsAgreement(s, a);
    case Finish(_) => RecordKeepsAgreement(s, a);
    case ClearProgress(_) => LogActionKeepsAgreement(s, a);
    case AppendProgress => LogActionKeepsAgreement(s, a);
    case AppendOther => LogActionKeepsAgreement(s, a);
    case Publish => LogActionKeepsAgreement(s, a);
    case DropAllProgress => LogActionKeepsAgreement(s, a);
    case Spawn(_) => IdleActionKeepsAgreement(s, a);
    case ReadRun(_) => IdleActionKeepsAgreement(s, a);
    case Throw(_) => IdleActionKeepsAgreement(s, a);
    case Leave(_) => IdleActionKeepsAgreement(s, a);
    case Crash(_) => IdleActionKeepsAgreement(s, a);
    case Tick(_) => IdleActionKeepsAgreement(s, a);
    case _ => RunRowKeepsAgreement(s, a);
  }

  lemma InitHolds(s: Sys)
    requires Init(s)
    ensures Inv(s)
  {
  }

  lemma StepKeepsInv(s: Sys, a: Action)
    requires Inv(s) && Enabled(s, a) && GuardedAnswer(s, a)
    ensures Inv(Step(s, a))
  {
    StepKeepsRowsOk(s, a);
    StepKeepsAttemptsOk(s, a);
    StepKeepsAgreement(s, a);
  }
}
