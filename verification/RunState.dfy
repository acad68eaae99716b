/** The run status table of packages/core/src/run-state.ts. */
module RunState {
  datatype RunStatus =
    | Queued | Leased | Running | WaitingInput | WaitingTakeover
    | Completed | Failed | Cancelled

  const TERMINAL: set<RunStatus> := {Completed, Failed, Cancelled}

  function Allowed(from: RunStatus): set<RunStatus> {
    match from
    case Queued => {Leased, Cancelled}
    case Leased => {Running, Queued, Cancelled}
    case Running => {WaitingInput, WaitingTakeover, Completed, Failed, Cancelled, Leased}
    case WaitingInput => {Queued, Leased, Cancelled}
    case WaitingTakeover => {Queued, Leased, Cancelled}
    case Completed => {}
    case Failed => {Queued}
    case Cancelled => {}
  }

  predicate CanTransition(from: RunStatus, to: RunStatus) {
    to in Allowed(from)
  }

  predicate IsTerminal(status: RunStatus) {
    status in TERMINAL
  }

  predicate IsActive(status: RunStatus) {
    status in {Queued, Leased, Running, WaitingInput, WaitingTakeover}
  }

  predicate IsWaiting(status: RunStatus) {
    status == WaitingInput || status == WaitingTakeover
  }

  function NextFence(current: nat): nat {
    current + 1
  }
}
