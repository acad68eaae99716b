/**
 The run lease protocol as a step machine: any number of `continueRun` calls (sessions) of
 any number of workers on one run, the user's stop, send and answer, ordinary unfenced
 appends, crashes, lost acknowledgements and a clock, interleaved in any order. A session
 stops between any two of its database calls; `acked == false` is a call that landed but
 was reported to the caller as failed.
 */
module RunProtocol {
  import opened Wrappers
  import opened RunState
  import opened RunRows

  datatype Phase =
    | Fresh                       // before the first read
    | HasRead                     // fence computed, claim not yet sent
    | Claimed                     // claim landed, run still leased
    | Started                     // run running, no attempt row yet
    | Working                     // attempt row exists, runtime events being consumed
    | Paused(waiting: RunStatus)  // row paused, attempt row not yet updated
    | PauseRecorded               // attempt updated, progress not yet cleared
    | Catching                    // inner catch: about to finalize as failed
    | OuterCatch                  // outer catch: about to release
    | Released                    // row released, attempt not yet updated
    | Finishing                   // finally: about to interrupt the attempt
    | Closed                      // over; a heartbeat may still be in flight
    | Ended                       // over without ever creating an attempt

  datatype Session = Session(worker: string, phase: Phase, fence: nat, attempt: nat)

  datatype Grant = Grant(session: nat, fence: nat)

  datatype Final = Final(outcome: Outcome, attempt: nat, endSeq: nat, messageSeq: nat)

  // `grants` and `final` are history: the claims that landed, and what finalization wrote.
  datatype Sys = Sys(rows: Rows, sessions: seq<Session>, now: nat, grants: seq<Grant>, final: Option<Final>)

  datatype Action =
    | Spawn(worker: string)
    | ReadRun(i: nat)
    | ClaimRun(i: nat, acked: bool)
    | StartRun(i: nat, acked: bool)
    | AddAttempt(i: nat, acked: bool)
    | RenewLease(i: nat)
    | PauseRun(i: nat, waiting: RunStatus, acked: bool)
    | RecordPause(i: nat)
    | ClearProgress(i: nat)
    | FinalizeRun(i: nat, outcome: Outcome, acked: bool)
    | Throw(i: nat)
    | ReleaseRun(i: nat, acked: bool)
    | RecordRelease(i: nat)
    | Leave(i: nat)
    | Finish(i: nat)
    | Crash(i: nat)
    | AppendProgress
    | AppendOther
    | Publish
    | DropAllProgress
    | StopRun
    | CancelQueuedRun
    | AnswerRun
    | Tick(ms: nat)

  // The step is taken by session `a.i`.
  predicate BySession(a: Action) {
    a.ReadRun? || a.ClaimRun? || a.StartRun? || a.AddAttempt? || a.RenewLease? || a.PauseRun? || a.RecordPause?
    || a.ClearProgress? || a.FinalizeRun? || a.Throw? || a.ReleaseRun? || a.RecordRelease? || a.Leave?
    || a.Finish? || a.Crash?
  }

  predicate HasAttempt(phase: Phase) {
    phase.Working? || phase.Paused? || phase.PauseRecorded? || phase.Catching? || phase.OuterCatch?
    || phase.Released? || phase.Finishing? || phase.Closed?
  }

  predicate HasLease(phase: Phase) {
    phase.Claimed? || phase.Started? || HasAttempt(phase)
  }

  // The session's thread of control may still run one of its own statements.
  predicate InTry(phase: Phase) {
    phase.Working? || phase.Paused? || phase.PauseRecorded? || phase.Catching? || phase.OuterCatch?
    || phase.Released?
  }

  predicate HasSession(s: Sys, i: nat) { i < |s.sessions| }

  predicate At(s: Sys, i: nat, phase: Phase) {
    HasSession(s, i) && s.sessions[i].phase == phase
  }

  predicate Enabled(s: Sys, a: Action) {
    match a
    case ReadRun(i) => At(s, i, Fresh)
    case ClaimRun(i, _) => At(s, i, HasRead)
    case StartRun(i, _) => At(s, i, Claimed)
    case AddAttempt(i, _) => At(s, i, Started)
    case RenewLease(i) => HasSession(s, i) && HasAttempt(s.sessions[i].phase)
    case PauseRun(i, waiting, _) => At(s, i, Working) && IsWaiting(waiting)
    case RecordPause(i) => HasSession(s, i) && s.sessions[i].phase.Paused?
    case ClearProgress(i) => At(s, i, PauseRecorded)
    case FinalizeRun(i, outcome, _) => At(s, i, if outcome.OutcomeCompleted? then Working else Catching)
    case Throw(i) => HasSession(s, i) && (InTry(s.sessions[i].phase))
    case ReleaseRun(i, _) => At(s, i, OuterCatch)
    case RecordRelease(i) => At(s, i, Released)
    case Leave(i) => At(s, i, Working)
    case Finish(i) => At(s, i, Finishing)
    case Crash(i) => HasSession(s, i)
    case _ => true
  }

  function Moved(s: Sys, i: nat, phase: Phase): Sys
    requires HasSession(s, i)
  {
    s.(sessions := s.sessions[i := s.sessions[i].(phase := phase)])
  }

  // Where control goes when the session's current statement throws. Before the inner `try`
  // an exception goes straight to the outer catch, so Working may also leave through Catching's
  // successor; both are covered by a Throw from Working followed by one from Catching.
  function AfterThrow(phase: Phase): Phase {
    match phase
    case Catching => OuterCatch
    case OuterCatch => Finishing
    case Released => Finishing
    case _ => Catching
  }

  predicate ClaimLands(s: Sys, i: nat)
    requires HasSession(s, i)
  {
    ClaimGuard(s.rows.run, s.now)
  }

  // A claim whose read has not been overtaken by another claim.
  predicate FreshClaim(s: Sys, a: Action) {
    a.ClaimRun? && HasSession(s, a.i) ==> s.sessions[a.i].fence == NextFence(s.rows.run.leaseFence)
  }

  // An answer that does not reach a run that is over.
  predicate GuardedAnswer(s: Sys, a: Action) {
    a.AnswerRun? ==> !IsTerminal(s.rows.run.status)
  }

  function StepClaim(s: Sys, i: nat, acked: bool): Sys
    requires Enabled(s, ClaimRun(i, acked))
  {
    var me := s.sessions[i];
    if !ClaimLands(s, i) then Moved(s, i, Ended)
    else Moved(s.(rows := Claim(s.rows, me.worker, me.fence, s.now),
                  grants := s.grants + [Grant(i, me.fence)]),
               i, if acked then Claimed else Ended)
  }

  function StepAddAttempt(s: Sys, i: nat, acked: bool): Sys
    requires Enabled(s, AddAttempt(i, acked))
  {
    var me := s.sessions[i];
    var rows := CreateAttempt(s.rows, me.fence);
    if !acked then Moved(s.(rows := rows), i, Ended)
    else s.(rows := rows,
            sessions := s.sessions[i := me.(phase := Working, attempt := |s.rows.attempts|)])
  }

  function StepFinalize(s: Sys, i: nat, outcome: Outcome, acked: bool): Sys
    requires Enabled(s, FinalizeRun(i, outcome, acked))
  {
    var me := s.sessions[i];
    var rows := Finalize(s.rows, me.worker, me.fence, me.attempt, outcome, s.now);
    match FinalizeVerdict(s.rows, me.worker, me.fence, me.attempt)
    case LeaseGone => Moved(s, i, if acked then Finishing else AfterThrow(me.phase))
    case AttemptUnavailable => Moved(s, i, AfterThrow(me.phase))
    case Committed =>
      Moved(s.(rows := rows,
               final := Some(Final(outcome, me.attempt, rows.nextEventSeq - 1, s.rows.nextMessageSeq))),
            i, if acked then Finishing else AfterThrow(me.phase))
  }

  function Step(s: Sys, a: Action): Sys
    requires Enabled(s, a)
  {
    match a
    case Spawn(worker) => s.(sessions := s.sessions + [Session(worker, Fresh, 0, 0)])
    case ReadRun(i) =>
      if IsTerminal(s.rows.run.status) then Moved(s, i, Ended)
      else s.(sessions := s.sessions[i := s.sessions[i].(phase := HasRead,
                                                         fence := NextFence(s.rows.run.leaseFence))])
    case ClaimRun(i, acked) => StepClaim(s, i, acked)
    case StartRun(i, acked) =>
      var me := s.sessions[i];
      Moved(s.(rows := Start(s.rows, me.worker, me.fence)), i,
            if acked && Holds(s.rows.run, Leased, me.worker, me.fence) then Started else Ended)
    case AddAttempt(i, acked) => StepAddAttempt(s, i, acked)
    case RenewLease(i) =>
      s.(rows := Renew(s.rows, s.sessions[i].worker, s.sessions[i].fence, s.now))
    case PauseRun(i, waiting, acked) =>
      var me := s.sessions[i];
      Moved(s.(rows := Pause(s.rows, me.worker, me.fence, waiting)), i,
            if !acked then Catching
            else if Holds(s.rows.run, Running, me.worker, me.fence) then Paused(waiting) else Finishing)
    case RecordPause(i) =>
      var me := s.sessions[i];
      var status := if me.phase.waiting == WaitingInput then AttemptWaitingInput else AttemptWaitingTakeover;
      Moved(s.(rows := SetAttempt(s.rows, me.attempt, status)), i, PauseRecorded)
    case ClearProgress(i) => Moved(s.(rows := DropProgress(s.rows)), i, Finishing)
    case FinalizeRun(i, outcome, acked) => StepFinalize(s, i, outcome, acked)
    case Throw(i) => Moved(s, i, AfterThrow(s.sessions[i].phase))
    case ReleaseRun(i, acked) =>
      var me := s.sessions[i];
      Moved(s.(rows := Release(s.rows, me.worker, me.fence)), i,
            if acked && Holds(s.rows.run, Running, me.worker, me.fence) then Released else Finishing)
    case RecordRelease(i) =>
      Moved(s.(rows := SetAttempt(s.rows, s.sessions[i].attempt, AttemptSetupFailed)), i, Finishing)
    case Leave(i) => Moved(s, i, Finishing)
    case Finish(i) => Moved(s.(rows := InterruptAttempt(s.rows, s.sessions[i].attempt)), i, Closed)
    case Crash(i) => Moved(s, i, if HasAttempt(s.sessions[i].phase) then Closed else Ended)
    case AppendProgress => s.(rows := AppendEvent(s.rows, Progress))
    case AppendOther => s.(rows := AppendEvent(s.rows, OtherEvent))
    case Publish => s.(rows := PublishMessage(s.rows, OtherMessage))
    case DropAllProgress => s.(rows := DropProgress(s.rows))
    case StopRun => s.(rows := Stop(s.rows, s.now))
    case CancelQueuedRun => s.(rows := CancelQueued(s.rows, s.now))
    case AnswerRun => s.(rows := Answer(s.rows))
    case Tick(ms) => s.(now := s.now + ms)
  }

  // A new run on a thread that may already hold other runs' events and messages.
  predicate Init(s: Sys) {
    && s.rows.run == RunRow(Queued, None, 0, None, None, None)
    && s.rows.attempts == [] && s.rows.task == TaskQueued
    && (forall seqNo | seqNo in s.rows.events :: seqNo < s.rows.nextEventSeq && s.rows.events[seqNo] == OtherEvent)
    && (forall seqNo | seqNo in s.rows.messages ::
      seqNo < s.rows.nextMessageSeq && s.rows.messages[seqNo] == OtherMessage)
    && s.sessions == [] && s.grants == [] && s.final == None
  }

  // `ss` is the run of the protocol that takes the steps `acts`.
  ghost predicate Behaviour(ss: seq<Sys>, acts: seq<Action>) {
    && |ss| == |acts| + 1
    && Init(ss[0])
    && (forall k | 0 <= k < |acts| :: Enabled(ss[k], acts[k]) && ss[k + 1] == Step(ss[k], acts[k]))
  }

  // No answer reaches a run that is over.
  ghost predicate AnswersGuarded(ss: seq<Sys>, acts: seq<Action>)
    requires |ss| == |acts| + 1
  {
    forall k | 0 <= k < |acts| :: GuardedAnswer(ss[k], acts[k])
  }

  // No claim lands between the read and the claim of another session.
  ghost predicate ClaimsFresh(ss: seq<Sys>, acts: seq<Action>)
    requires |ss| == |acts| + 1
  {
    forall k | 0 <= k < |acts| :: FreshClaim(ss[k], acts[k])
  }
}
