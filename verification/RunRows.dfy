/**
 The database rows behind one run, and the conditional updates that workers and users
 make to them. Every update is one atomic step, as a single `updateMany` or a transaction
 is. Each update exists twice: as a function on the rows, which the protocol proofs use,
 and as a method of `RunStore` that changes the rows in place and is proved to agree.
 */
module RunRows {
  import opened Wrappers
  import opened RunState

  const LEASE_MS: nat := 300_000
  const SETUP_FAILED := "Run setup failed; retrying"

  datatype RunRow = RunRow(
    status: RunStatus,
    leaseOwner: Option<string>,
    leaseFence: nat,
    leaseExpiresAt: Option<nat>,
    error: Option<string>,
    completedAt: Option<nat>)

  datatype AttemptStatus =
    | AttemptRunning | AttemptCompleted | AttemptFailed | AttemptWaitingInput
    | AttemptWaitingTakeover | AttemptSetupFailed | AttemptInterrupted

  datatype Attempt = Attempt(fence: nat, status: AttemptStatus)

  datatype TaskStatus = TaskQueued | TaskCompleted | TaskFailed

  // A bot message is the final answer of an attempt, or any other message of the thread.
  datatype Message = FinalAnswer(attempt: nat) | OtherMessage

  datatype EventKind =
    | MessageCreated(messageSeq: nat) | RunCompleted | RunFailed(error: string)
    | Progress | OtherEvent

  datatype Outcome = OutcomeCompleted | OutcomeFailed(error: string)

  // Events and messages are keyed by their unique (threadId, seq); an attempt's id is its index.
  datatype Rows = Rows(
    run: RunRow,
    attempts: seq<Attempt>,
    task: TaskStatus,
    messages: map<nat, Message>,
    nextMessageSeq: nat,
    events: map<nat, EventKind>,
    nextEventSeq: nat)

  datatype Finalized = Committed | LeaseGone | AttemptUnavailable

  // ----- guards ---------------------------------------------------------------------

  // The claim's `where`: free, waiting, or leased with an expired lease.
  predicate ClaimGuard(run: RunRow, now: nat) {
    || run.status == Queued || IsWaiting(run.status)
    || ((run.status == Leased || run.status == Running)
        && run.leaseExpiresAt.Some? && run.leaseExpiresAt.value <= now)
  }

  predicate Holds(run: RunRow, status: RunStatus, worker: string, fence: nat) {
    run.status == status && run.leaseOwner == Some(worker) && run.leaseFence == fence
  }

  // The reconciler's filter on runs.
  predicate ReconcilerFilter(run: RunRow, now: nat) {
    || run.status == Queued
    || ((run.status == Leased || run.status == Running)
        && run.leaseExpiresAt.Some? && run.leaseExpiresAt.value <= now)
  }

  // ----- row updates as functions ----------------------------------------------------

  function Claim(r: Rows, worker: string, fence: nat, now: nat): Rows {
    if !ClaimGuard(r.run, now) then r
    else r.(run := r.run.(status := Leased, leaseOwner := Some(worker), leaseFence := fence,
                          leaseExpiresAt := Some(now + LEASE_MS), error := None))
  }

  function Start(r: Rows, worker: string, fence: nat): Rows {
    if !Holds(r.run, Leased, worker, fence) then r
    else r.(run := r.run.(status := Running))
  }

  function CreateAttempt(r: Rows, fence: nat): Rows {
    r.(attempts := r.attempts + [Attempt(fence, AttemptRunning)])
  }

  function Renew(r: Rows, worker: string, fence: nat, now: nat): Rows {
    if !Holds(r.run, Running, worker, fence) then r
    else r.(run := r.run.(leaseExpiresAt := Some(now + LEASE_MS)))
  }

  function Pause(r: Rows, worker: string, fence: nat, waiting: RunStatus): Rows {
    if !Holds(r.run, Running, worker, fence) then r
    else r.(run := r.run.(status := waiting, leaseOwner := None, leaseExpiresAt := None))
  }

  function Release(r: Rows, worker: string, fence: nat): Rows {
    if !Holds(r.run, Running, worker, fence) then r
    else r.(run := r.run.(status := Queued, error := Some(SETUP_FAILED),
                          leaseOwner := None, leaseExpiresAt := None))
  }

  function SetAttempt(r: Rows, attempt: nat, status: AttemptStatus): Rows {
    if attempt >= |r.attempts| then r
    else r.(attempts := r.attempts[attempt := r.attempts[attempt].(status := status)])
  }

  function InterruptAttempt(r: Rows, attempt: nat): Rows {
    if attempt < |r.attempts| && r.attempts[attempt].status == AttemptRunning
    then SetAttempt(r, attempt, AttemptInterrupted) else r
  }

  function AppendEvent(r: Rows, kind: EventKind): Rows {
    r.(events := r.events[r.nextEventSeq := kind], nextEventSeq := r.nextEventSeq + 1)
  }

  function PublishMessage(r: Rows, message: Message): Rows {
    AppendEvent(
      r.(messages := r.messages[r.nextMessageSeq := message],
         nextMessageSeq := r.nextMessageSeq + 1),
      MessageCreated(r.nextMessageSeq))
  }

  function WithoutProgress(events: map<nat, EventKind>): map<nat, EventKind> {
    map seqNo | seqNo in events && events[seqNo] != Progress :: events[seqNo]
  }

  function DropProgress(r: Rows): Rows {
    r.(events := WithoutProgress(r.events))
  }

  function OutcomeStatus(outcome: Outcome): RunStatus {
    if outcome.OutcomeCompleted? then Completed else Failed
  }

  function OutcomeError(outcome: Outcome): Option<string> {
    if outcome.OutcomeCompleted? then None else Some(outcome.error)
  }

  function OutcomeAttempt(outcome: Outcome): AttemptStatus {
    if outcome.OutcomeCompleted? then AttemptCompleted else AttemptFailed
  }

  function OutcomeTask(outcome: Outcome): TaskStatus {
    if outcome.OutcomeCompleted? then TaskCompleted else TaskFailed
  }

  function OutcomeEvent(outcome: Outcome): EventKind {
    if outcome.OutcomeCompleted? then RunCompleted else RunFailed(outcome.error)
  }

  predicate AttemptMatches(r: Rows, attempt: nat, fence: nat) {
    attempt < |r.attempts| && r.attempts[attempt] == Attempt(fence, AttemptRunning)
  }

  function FinalizeVerdict(r: Rows, worker: string, fence: nat, attempt: nat): Finalized {
    if !Holds(r.run, Running, worker, fence) then LeaseGone
    else if !AttemptMatches(r, attempt, fence) then AttemptUnavailable
    else Committed
  }

  // A transaction: unless everything commits, nothing does.
  function Finalize(r: Rows, worker: string, fence: nat, attempt: nat, outcome: Outcome, now: nat): Rows {
    if FinalizeVerdict(r, worker, fence, attempt) != Committed then r
    else
      var closed := r.(
        run := r.run.(status := OutcomeStatus(outcome), error := OutcomeError(outcome),
                      completedAt := Some(now), leaseOwner := None, leaseExpiresAt := None),
        attempts := r.attempts[attempt := Attempt(fence, OutcomeAttempt(outcome))],
        task := OutcomeTask(outcome));
      var told := if outcome.OutcomeCompleted? then PublishMessage(closed, FinalAnswer(attempt)) else closed;
      DropProgress(AppendEvent(told, OutcomeEvent(outcome)))
  }

  // threads.stop: every active run of the bot; the lease columns stay as they are.
  function Stop(r: Rows, now: nat): Rows {
    if !IsActive(r.run.status) then r
    else r.(run := r.run.(status := Cancelled, completedAt := Some(now)))
  }

  // threads.send: the bot's other queued runs.
  function CancelQueued(r: Rows, now: nat): Rows {
    if r.run.status != Queued then r
    else r.(run := r.run.(status := Cancelled, completedAt := Some(now)))
  }

  // threads.answer: no guard on the status.
  function Answer(r: Rows): Rows {
    r.(run := r.run.(status := Queued))
  }

  // ----- the same updates in place -----------------------------------------------------

  class RunStore {
    var run: RunRow
    var attempts: seq<Attempt>
    var task: TaskStatus
    var messages: map<nat, Message>
    var nextMessageSeq: nat
    var events: map<nat, EventKind>
    var nextEventSeq: nat

    function Contents(): Rows
      reads this
    {
      Rows(run, attempts, task, messages, nextMessageSeq, events, nextEventSeq)
    }

    // threads.send and threads.followUp create the task and the run as queued.
    constructor (nextMessageSeq: nat, nextEventSeq: nat)
      ensures Contents() == Rows(RunRow(Queued, None, 0, None, None, None), [], TaskQueued,
                                 map[], nextMessageSeq, map[], nextEventSeq)
    {
      run := RunRow(Queued, None, 0, None, None, None);
      attempts := [];
      task := TaskQueued;
      messages, this.nextMessageSeq := map[], nextMessageSeq;
      events, this.nextEventSeq := map[], nextEventSeq;
    }

    method ClaimRun(worker: string, fence: nat, now: nat) returns (claimed: bool)
      modifies this
      ensures claimed <==> ClaimGuard(old(run), now)
      ensures Contents() == Claim(old(Contents()), worker, fence, now)
    {
      claimed := ClaimGuard(run, now);
      if claimed {
        run := RunRow(Leased, Some(worker), fence, Some(now + LEASE_MS), None, run.completedAt);
      }
    }

    method StartRun(worker: string, fence: nat) returns (started: bool)
      modifies this
      ensures started <==> Holds(old(run), Leased, worker, fence)
      ensures Contents() == Start(old(Contents()), worker, fence)
    {
      started := Holds(run, Leased, worker, fence);
      if started {
        run := run.(status := Running);
      }
    }

    method AddAttempt(fence: nat) returns (attempt: nat)
      modifies this
      ensures attempt == |old(attempts)|
      ensures Contents() == CreateAttempt(old(Contents()), fence)
    {
      attempt := |attempts|;
      attempts := attempts + [Attempt(fence, AttemptRunning)];
    }

    method RenewLease(worker: string, fence: nat, now: nat) returns (renewed: bool)
      modifies this
      ensures renewed <==> Holds(old(run), Running, worker, fence)
      ensures Contents() == Renew(old(Contents()), worker, fence, now)
    {
      renewed := Holds(run, Running, worker, fence);
      if renewed {
        run := run.(leaseExpiresAt := Some(now + LEASE_MS));
      }
    }

    method PauseRun(worker: string, fence: nat, waiting: RunStatus) returns (paused: bool)
      modifies this
      ensures paused <==> Holds(old(run), Running, worker, fence)
      ensures Contents() == Pause(old(Contents()), worker, fence, waiting)
    {
      paused := Holds(run, Running, worker, fence);
      if paused {
        run := run.(status := waiting, leaseOwner := None, leaseExpiresAt := None);
      }
    }

    method ReleaseRun(worker: string, fence: nat) returns (released: bool)
      modifies this
      ensures released <==> Holds(old(run), Running, worker, fence)
      ensures Contents() == Release(old(Contents()), worker, fence)
    {
      released := Holds(run, Running, worker, fence);
      if released {
        run := run.(status := Queued, error := Some(SETUP_FAILED), leaseOwner := None, leaseExpiresAt := None);
      }
    }

    method UpdateAttempt(attempt: nat, status: AttemptStatus)
      modifies this`attempts
      ensures Contents() == SetAttempt(old(Contents()), attempt, status)
    {
      if attempt < |attempts| {
        attempts := attempts[attempt := Attempt(attempts[attempt].fence, status)];
      }
    }

    method Append(kind: EventKind)
      modifies this`events, this`nextEventSeq
      ensures Contents() == AppendEvent(old(Contents()), kind)
    {
      nextEventSeq := nextEventSeq + 1;
      events := events[nextEventSeq - 1 := kind];
    }

    method CreateMessage(message: Message) returns (messageSeq: nat)
      modifies this`messages, this`nextMessageSeq
      ensures messageSeq == old(nextMessageSeq) && nextMessageSeq == messageSeq + 1
      ensures messages == old(messages)[messageSeq := message]
    {
      nextMessageSeq := nextMessageSeq + 1;
      messageSeq := nextMessageSeq - 1;
      messages := messages[messageSeq := message];
    }

    // publishMessage: the row, then the event that names it.
    method Publish(message: Message) returns (messageSeq: nat)
      modifies this`messages, this`nextMessageSeq, this`events, this`nextEventSeq
      ensures messageSeq == old(nextMessageSeq) && Contents() == PublishMessage(old(Contents()), message)
    {
      messageSeq := CreateMessage(message);
      Append(MessageCreated(messageSeq));
    }

    method ClearProgress()
      modifies this`events
      ensures Contents() == DropProgress(old(Contents()))
    {
      events := map seqNo | seqNo in events && events[seqNo] != Progress :: events[seqNo];
    }

    /** The finalizing transaction: the guarded row updates in the source's order, undone as
        a whole when the attempt's own update finds nothing to change. */
    method FinalizeRun(worker: string, fence: nat, attempt: nat, outcome: Outcome, now: nat)
      returns (verdict: Finalized)
      modifies this
      ensures verdict == FinalizeVerdict(old(Contents()), worker, fence, attempt)
      ensures Contents() == Finalize(old(Contents()), worker, fence, attempt, outcome, now)
    {
      var before := run;
      if !Holds(run, Running, worker, fence) {
        return LeaseGone;
      }
      run := RunRow(OutcomeStatus(outcome), None, run.leaseFence, None, OutcomeError(outcome), Some(now));
      if attempt >= |attempts| || attempts[attempt] != Attempt(fence, AttemptRunning) {
        run := before;
        return AttemptUnavailable;
      }
      attempts := attempts[attempt := Attempt(fence, OutcomeAttempt(outcome))];
      task := OutcomeTask(outcome);
      if outcome.OutcomeCompleted? {
        var messageSeq := Publish(FinalAnswer(attempt));
      }
      Append(OutcomeEvent(outcome));
      ClearProgress();
      verdict := Committed;
    }

    method StopRun(now: nat)
      modifies this
      ensures Contents() == Stop(old(Contents()), now)
    {
      if IsActive(run.status) {
        run := run.(status := Cancelled, completedAt := Some(now));
      }
    }

    // The whole of threads.stop, when nothing comes in between.
    method StopThread(now: nat)
      modifies this
      ensures Contents() == if IsActive(old(run).status) then DropProgress(Stop(old(Contents()), now))
        else old(Contents())
    {
      var active := IsActive(run.status);
      StopRun(now);
      if active {
        ClearProgress();
      }
    }

    method CancelQueuedRun(now: nat)
      modifies this
      ensures Contents() == CancelQueued(old(Contents()), now)
    {
      if run.status == Queued {
        run := run.(status := Cancelled, completedAt := Some(now));
      }
    }

    method AnswerRun()
      modifies this
      ensures Contents() == Answer(old(Contents()))
    {
      run := run.(status := Queued);
    }
  }
}
