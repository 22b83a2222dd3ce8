/** Runtime states and guarded transitions (src/leanharness/runtime/state.py). */
module RunStates {

  datatype RunState =
    | Created
    | Preparing
    | RequestingModel
    | Interpreting
    | WaitingInput
    | WaitingApproval
    | ExecutingTool
    | Completed
    | Exhausted
    | Failed
    | Cancelled

  const TERMINAL_STATES: set<RunState> := {Completed, Exhausted, Failed, Cancelled}

  function Allowed(current: RunState): set<RunState> {
    match current
    case Created => {Preparing, Cancelled}
    case Preparing => {RequestingModel, Exhausted, Failed, Cancelled}
    case RequestingModel => {Preparing, Interpreting, Failed, Cancelled}
    case Interpreting =>
      {Preparing, WaitingApproval, WaitingInput, ExecutingTool, Completed, Exhausted, Failed, Cancelled}
    case ExecutingTool => {ExecutingTool, WaitingApproval, Preparing, Failed, Cancelled}
    case WaitingApproval => {ExecutingTool, Preparing, Failed, Cancelled}
    case WaitingInput => {Preparing, Failed, Cancelled}
    case _ => {}
  }

  /** `transition(current, target)` returns instead of raising. */
  predicate CanMove(current: RunState, target: RunState) {
    target in Allowed(current)
  }

  /** Where each state may be entered from. A run is prepared before it asks, asks before
      it interprets, and interprets before anything waits or runs; only an answer or its
      evidence completes it, nothing follows an end, and a started run may fail or be
      cancelled at any moment. */
  lemma EnteredFrom(s: RunState, t: RunState)
    ensures CanMove(s, t) <==>
              match t
              case Created => false
              case Preparing => s in {Created, RequestingModel, Interpreting, WaitingInput, WaitingApproval,
                ExecutingTool}
              case RequestingModel => s == Preparing
              case Interpreting => s == RequestingModel
              case WaitingInput => s == Interpreting
              case WaitingApproval => s in {Interpreting, ExecutingTool}
              case ExecutingTool => s in {Interpreting, WaitingApproval, ExecutingTool}
              case Completed => s == Interpreting
              case Exhausted => s in {Preparing, Interpreting}
              case Failed => s !in TERMINAL_STATES && s != Created
              case Cancelled => s !in TERMINAL_STATES
  {
  }
}
