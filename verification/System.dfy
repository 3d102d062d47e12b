/**
 The run controller on top of the ledger protocol: every run's persisted status, the status its
 reconciler works on in memory, and the ledger calls it makes.  A reconcile may stop after any
 of its calls; users create, delete, retry and redirect runs at any time.
 */
module System {
  import opened Types
  import opened LedgerRules
  import opened Protocol
  import opened Safety
  import opened Phases

  /** One step instance: resource is the ledger key behind a succeeded step. */
  datatype StepRecord = StepRecord(key: string, phase: StepPhase, resource: Option<Key>)

  /** A WizardRun object; born tells two runs of the same name apart. */
  datatype RunObject = RunObject(
    born: nat,
    plan: seq<string>,
    finalizer: bool,
    deleting: bool,
    undo: bool,
    retry: bool,
    phase: Phase,
    steps: seq<StepRecord>)

  /** What the reconciler of one run is doing, with the status it has in memory. */
  datatype Local =
    | Resting
    | Applying(steps: seq<StepRecord>, i: nat)
    | Ensuring(steps: seq<StepRecord>, i: nat)
    | Patching(steps: seq<StepRecord>, phase: Phase)
    | Undoing

  datatype Sys = Sys(p: State, runs: map<string, RunObject>, local: map<string, Local>, births: nat)

  datatype Event =
    | Ledger(a: Actor, act: Act)
    | AddFinalizer(r: string) | StartApply(r: string) | PassSucceeded(r: string) | StopFailed(r: string)
    | Refuse(r: string) | NoConfig(r: string)
    | CallEnsure(r: string, w: Want) | NoCall(r: string, fails: bool)
    | EnsureOk(r: string) | EnsureNotOk(r: string, fails: bool)
    | AllDone(r: string) | PatchStatus(r: string) | ClearRetry(r: string)
    | StartRollback(r: string) | RollbackOk(r: string) | RollbackNotOk(r: string)
    | RemoveFinalizer(r: string) | Crash(r: string)
    | CreateRun(r: string, plan: seq<string>) | SetUndo(r: string, undo: bool) | AskRetry(r: string)
        | DeleteRun(r: string)

  function LocalOf(s: Sys, r: string): Local {
    if r in s.local then s.local[r] else Resting
  }

  function RunPc(s: Sys, r: string): Pc {
    PcOf(s.p, Run(r))
  }

  // ---- status helpers of the controller ----

  function Find(steps: seq<StepRecord>, key: string): (st: Option<StepRecord>)
    ensures st.Some? ==> st.value.key == key && st.value in steps
  {
    if steps == [] then None else if steps[0].key == key then Some(steps[0]) else Find(steps[1..], key)
  }

  /** syncSteps: exactly the planned instances, in order, with the progress already recorded. */
  function Sync(steps: seq<StepRecord>, plan: seq<string>): (out: seq<StepRecord>)
    ensures |out| == |plan| && forall i :: 0 <= i < |plan| ==> out[i].key == plan[i]
  {
    seq(|plan|, i requires 0 <= i < |plan| =>
      match Find(steps, plan[i])
      case Some(st) => st
      case None => StepRecord(plan[i], StepPending, None))
  }

  /** resetFailed: failed steps go back to Pending. */
  function Reset(steps: seq<StepRecord>): (out: seq<StepRecord>)
    ensures |out| == |steps|
  {
    seq(|steps|, i requires 0 <= i < |steps| =>
      if steps[i].phase == StepFailed then steps[i].(phase := StepPending) else steps[i])
  }

  function AllRolledBack(steps: seq<StepRecord>): seq<StepRecord> {
    seq(|steps|, i requires 0 <= i < |steps| =>
      if steps[i].phase == StepPending then steps[i] else steps[i].(phase := StepRolledBack))
  }

  // ---- the events ----

  // Refuse: no definition, invalid parameters, or a plan that does not expand.
  // NoConfig: the instance config is missing or invalid; nothing but the run's phase changes.
  // NoCall: a step answers, or fails on its params, without having called the ledger.

  /** A ledger call of a run belongs to an Ensure or a Rollback its controller has started. */
  ghost predicate Driven(act: Act) {
    !(act.BeginEnsure? || act.BeginSweep? || act.BeginRollback? || act.Return?)
  }

  ghost predicate SysCan(s: Sys, e: Event) {
    match e
    case Ledger(a, act) =>
      Can(s.p, a, act) && Exclusive(s.p, a, act) && (if a.Run? then Driven(act) else true)
    case AddFinalizer(r) => r in s.runs && LocalOf(s, r).Resting? && !s.runs[r].deleting
    case StartApply(r) =>
      && r in s.runs && LocalOf(s, r).Resting?
      && s.runs[r].finalizer && !s.runs[r].deleting && !s.runs[r].undo && !Undone(s.runs[r].phase)
    case PassSucceeded(r) =>
      var l := LocalOf(s, r); l.Applying? && l.i < |l.steps| && l.steps[l.i].phase == StepSucceeded
    case StopFailed(r) =>
      var l := LocalOf(s, r); l.Applying? && l.i < |l.steps| && l.steps[l.i].phase == StepFailed
    case CallEnsure(r, w) =>
      var l := LocalOf(s, r);
      && l.Applying? && l.i < |l.steps| && l.steps[l.i].phase != StepSucceeded && l.steps[l.i].phase != StepFailed
      && w.ref == Ref(r, l.steps[l.i].key) && RunPc(s, r).Idle?
    case Refuse(r) =>
      && r in s.runs && LocalOf(s, r).Resting?
      && s.runs[r].finalizer && !s.runs[r].deleting && !s.runs[r].undo && !Undone(s.runs[r].phase)
    case NoConfig(r) =>
      var l := LocalOf(s, r);
      l.Applying? && l.i < |l.steps| && l.steps[l.i].phase != StepSucceeded && l.steps[l.i].phase != StepFailed
    case NoCall(r, _) =>
      var l := LocalOf(s, r);
      l.Applying? && l.i < |l.steps| && l.steps[l.i].phase != StepSucceeded && l.steps[l.i].phase != StepFailed
    case EnsureOk(r) => LocalOf(s, r).Ensuring? && LocalOf(s, r).i < |LocalOf(s, r).steps| && RunPc(s, r).EnsureDone?
    case EnsureNotOk(r, _) => LocalOf(s, r).Ensuring? && LocalOf(s, r).i < |LocalOf(s, r).steps| && RunPc(s, r).Idle?
    case AllDone(r) => LocalOf(s, r).Applying? && LocalOf(s, r).i == |LocalOf(s, r).steps|
    case PatchStatus(r) => LocalOf(s, r).Patching? && r in s.runs
    case ClearRetry(r) => r in s.runs && LocalOf(s, r).Resting?
    case StartRollback(r) =>
      && r in s.runs && LocalOf(s, r).Resting? && RunPc(s, r).Idle?
      && s.runs[r].finalizer && s.runs[r].phase != RolledBack && (s.runs[r].deleting || s.runs[r].undo)
    case RollbackOk(r) => r in s.runs && LocalOf(s, r).Undoing? && RunPc(s, r) == RollbackDone(true)
    case RollbackNotOk(r) =>
      r in s.runs && LocalOf(s, r).Undoing? && (RunPc(s, r) == RollbackDone(false) || RunPc(s, r).Idle?)
    case RemoveFinalizer(r) =>
      r in s.runs && LocalOf(s, r).Resting? && s.runs[r].deleting && s.runs[r].finalizer
          && s.runs[r].phase == RolledBack
    case Crash(r) => true
    case CreateRun(r, _) => r !in s.runs
    case SetUndo(r, _) => r in s.runs
    case AskRetry(r) => r in s.runs
    case DeleteRun(r) => r in s.runs
  }

  function At(s: Sys, r: string, l: Local): Sys {
    s.(local := s.local[r := l])
  }

  function Put(s: Sys, r: string, run: RunObject): Sys {
    s.(runs := s.runs[r := run])
  }

  function Call(s: Sys, r: string, act: Act): Sys
    requires Can(s.p, Run(r), act)
  {
    s.(p := Do(s.p, Run(r), act))
  }

  /** The status a step that did not complete leaves in memory, and the phase the run gets. */
  function Stopped(steps: seq<StepRecord>, i: nat, fails: bool): Local
    requires i < |steps|
  {
    Patching(steps[i := steps[i].(phase := if fails then StepFailed else StepRunning)], if fails then Failed
        else Running)
  }

  function SysDo(s: Sys, e: Event): Sys
    requires SysCan(s, e)
  {
    match e
    case Ledger(a, act) => s.(p := Do(s.p, a, act))
    case AddFinalizer(r) => Put(s, r, s.runs[r].(finalizer := true))
    case StartApply(r) =>
      var run := s.runs[r];
      var steps := Sync(run.steps, run.plan);
      At(s, r, Applying(if run.retry then Reset(steps) else steps, 0))
    case PassSucceeded(r) => At(s, r, Applying(LocalOf(s, r).steps, LocalOf(s, r).i + 1))
    case StopFailed(r) => At(s, r, Patching(LocalOf(s, r).steps, Failed))
    case CallEnsure(r, w) => At(Call(s, r, BeginEnsure(w)), r, Ensuring(LocalOf(s, r).steps, LocalOf(s, r).i))
    case Refuse(r) => Put(s, r, s.runs[r].(phase := Failed))
    case NoConfig(r) => At(s, r, Patching(LocalOf(s, r).steps, Running))
    case NoCall(r, fails) => At(s, r, Stopped(LocalOf(s, r).steps, LocalOf(s, r).i, fails))
    case EnsureOk(r) =>
      var l := LocalOf(s, r);
      var st := l.steps[l.i].(phase := StepSucceeded, resource := Some(RunPc(s, r).w.key));
      At(Call(s, r, Return), r, Applying(l.steps[l.i := st], l.i + 1))
    case EnsureNotOk(r, fails) => At(s, r, Stopped(LocalOf(s, r).steps, LocalOf(s, r).i, fails))
    case AllDone(r) => At(s, r, Patching(LocalOf(s, r).steps, Ready))
    case PatchStatus(r) =>
      var l := LocalOf(s, r);
      At(Put(s, r, s.runs[r].(steps := l.steps, phase := l.phase)), r, Resting)
    case ClearRetry(r) => Put(s, r, s.runs[r].(retry := false))
    case StartRollback(r) =>
      var run := s.runs[r];
      At(Call(Put(s, r, if Undone(run.phase) then run else run.(phase := RollingBack)), r, BeginRollback), r, Undoing)
    case RollbackOk(r) =>
      var run := s.runs[r].(phase := RolledBack, steps := AllRolledBack(s.runs[r].steps));
      At(Call(Put(s, r, run), r, Abort), r, Resting)
    case RollbackNotOk(r) =>
      At(Call(Put(s, r, s.runs[r].(phase := RollbackFailed)), r, Abort), r, Resting)
    case RemoveFinalizer(r) => s.(runs := s.runs - {r})
    case Crash(r) => At(Call(s, r, Abort), r, Resting)
    case CreateRun(r, plan) =>
      Put(s, r, RunObject(s.births, plan, false, false, false, false, Pending, [])).(births := s.births + 1)
    case SetUndo(r, undo) => Put(s, r, s.runs[r].(undo := undo))
    case AskRetry(r) => Put(s, r, s.runs[r].(retry := true))
    case DeleteRun(r) =>
      if s.runs[r].finalizer then Put(s, r, s.runs[r].(deleting := true)) else s.(runs := s.runs - {r})
  }

  /** A schedule of events. */
  ghost predicate Trace(s: Sys, events: seq<Event>, s2: Sys)
    decreases |events|
  {
    if events == [] then s == s2 else SysCan(s, events[0]) && Trace(SysDo(s, events[0]), events[1..], s2)
  }

  ghost predicate SysInitial(s: Sys) {
    Initial(s.p) && s.runs == map[] && s.local == map[]
  }
}
