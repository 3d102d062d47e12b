/** The states of a run and of its steps (RunPhase, StepPhase). */
module Phases {

  datatype Phase = Pending | Running | Ready | Failed | RollingBack | RolledBack | RollbackFailed

  datatype StepPhase = StepPending | StepRunning | StepSucceeded | StepFailed | StepRolledBack

  predicate Undone(ph: Phase) {
    ph == RollingBack || ph == RolledBack || ph == RollbackFailed
  }
}
