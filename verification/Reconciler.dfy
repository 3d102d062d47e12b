/**
 The apply side of the run controller: how a run's status moves from one reconcile to the next.
 What a step's Ensure answers, the clock and the instance config come in as a Turn.
 */
module Reconciler {
  import opened Types
  import opened Phases
  import opened Plan

  /** A step survives fewer than this many consecutive transient failures. */
  const MAX_STEP_FAILURES: nat := 10

  type Fields = map<string, string>

  type Outputs = map<string, Fields>

  datatype StepStatus = StepStatus(
    key: string,
    phase: StepPhase,
    failures: nat,
    startedAt: Option<int>,
    completedAt: Option<int>,
    outputs: Fields)

  datatype Status = Status(steps: seq<StepStatus>, phase: Phase, startedAt: Option<int>, completedAt: Option<int>)

  /** What one call of a step's Ensure returns; a wait may hand outputs back for the next call. */
  datatype Reply = Finished(outputs: Fields) | Waiting(progress: Option<Fields>) | Transient | Permanent

  /** The instance asked, its resolved params, the outputs of earlier polls, and when it first ran. */
  datatype Question = Question(instance: Instance, params: Fields, prior: Fields, startedAt: int)

  /** One reconcile's surroundings. */
  datatype Turn = Turn(
    now: int,
    configured: bool,
    known: string -> bool,
    resolve: (Instance, Outputs) -> Option<Fields>,
    reply: Question -> Reply)

  // ---- one reconcile, as a function of the status ----

  function Find(steps: seq<StepStatus>, key: string): (st: Option<StepStatus>)
    ensures st.Some? ==> st.value.key == key && st.value in steps
    ensures st.None? ==> forall s :: s in steps ==> s.key != key
  {
    if steps == [] then None else if steps[0].key == key then Some(steps[0]) else Find(steps[1..], key)
  }

  function Fresh(in_: Instance): StepStatus {
    StepStatus(in_.key, StepPending, 0, None, None, map[])
  }

  /** Exactly the planned instances, in order, with the progress already recorded. */
  function Synced(steps: seq<StepStatus>, insts: seq<Instance>): (out: seq<StepStatus>)
    ensures |out| == |insts| && forall i :: 0 <= i < |insts| ==> out[i].key == insts[i].key
  {
    seq(|insts|, i requires 0 <= i < |insts| =>
      match Find(steps, insts[i].key)
      case Some(s) => s
      case None => Fresh(insts[i]))
  }

  function ResetOne(s: StepStatus): StepStatus {
    if s.phase == StepFailed then s.(phase := StepPending, failures := 0, startedAt := None, completedAt := None) else s
  }

  function ResetAll(steps: seq<StepStatus>): (out: seq<StepStatus>)
    ensures |out| == |steps|
  {
    seq(|steps|, i requires 0 <= i < |steps| => ResetOne(steps[i]))
  }

  datatype Outcome = Done | Wait | Stop

  function Stopped(s: StepStatus, now: int): (StepStatus, Outcome) {
    (s.(phase := StepFailed, failures := 0, completedAt := Some(now)), Stop)
  }

  function Begun(s: StepStatus, now: int): StepStatus {
    s.(phase := StepRunning, startedAt := if s.startedAt.None? then Some(now) else s.startedAt)
  }

  /** What a reply makes of a running step. */
  function Recorded(s: StepStatus, reply: Reply, now: int): (StepStatus, Outcome) {
    match reply
    case Permanent => Stopped(s, now)
    case Transient =>
      if s.failures + 1 >= MAX_STEP_FAILURES then Stopped(s, now) else (s.(failures := s.failures + 1), Wait)
    case Finished(outputs) => (s.(phase := StepSucceeded, failures := 0, outputs := outputs, completedAt := Some(now)),
        Done)
    case Waiting(progress) => (s.(failures := 0, outputs := if progress.Some? then progress.value else s.outputs), Wait)
  }

  /** Is the step's Ensure called at all? */
  predicate Called(in_: Instance, turn: Turn, outputs: Outputs) {
    turn.known(in_.step.typ) && turn.resolve(in_, outputs).Some?
  }

  function RunOne(s: StepStatus, in_: Instance, turn: Turn, outputs: Outputs): (StepStatus, Outcome) {
    if !Called(in_, turn, outputs) then Stopped(s, turn.now)
    else
      var b := Begun(s, turn.now);
      Recorded(b, turn.reply(Question(in_, turn.resolve(in_, outputs).value, s.outputs, b.startedAt.value)), turn.now)
  }

  /** The result of one walk over the steps; asked lists the instances whose Ensure was called. */
  datatype Pass = Pass(steps: seq<StepStatus>, phase: Phase, asked: seq<string>)

  function WithOutputs(outputs: Outputs, in_: Instance, s: StepStatus): Outputs {
    if in_.item.None? then outputs[in_.step.name := s.outputs] else outputs
  }

  function Walk(steps: seq<StepStatus>, insts: seq<Instance>, i: nat, outputs: Outputs, turn: Turn, asked: seq<string>)
    : (p: Pass)
    requires |steps| == |insts| && i <= |insts|
    ensures |p.steps| == |steps|
    decreases |insts| - i
  {
    if i == |insts| then Pass(steps, Ready, asked)
    else match steps[i].phase
      case StepSucceeded => Walk(steps, insts, i + 1, WithOutputs(outputs, insts[i], steps[i]), turn, asked)
      case StepFailed => Pass(steps, Failed, asked)
      case _ =>
        if !turn.configured then Pass(steps, Running, asked)
        else
          var (s, outcome) := RunOne(steps[i], insts[i], turn, outputs);
          var asked2 := if Called(insts[i], turn, outputs) then asked + [insts[i].key] else asked;
          match outcome
          case Stop => Pass(steps[i := s], Failed, asked2)
          case Wait => Pass(steps[i := s], Running, asked2)
          case Done => Walk(steps[i := s], insts, i + 1, WithOutputs(outputs, insts[i], s), turn, asked2)
  }

  /** The phases in which a run counts as completed. */
  predicate Final(phase: Phase) {
    phase == Ready || phase == Failed || phase == RolledBack || phase == RollbackFailed
  }

  function SetRun(st: Status, phase: Phase, now: int): Status {
    st.(phase := phase,
        completedAt := if Final(phase) then (if st.completedAt.None? then Some(now) else st.completedAt) else None)
  }

  function Prepared(st: Status, insts: seq<Instance>, retry: bool): (out: seq<StepStatus>)
    ensures |out| == |insts|
  {
    var synced := Synced(st.steps, insts);
    if retry then ResetAll(synced) else synced
  }

  /** One walk from the status as it is persisted. */
  function PassFrom(st: Status, insts: seq<Instance>, turn: Turn, retry: bool): (p: Pass)
    ensures |p.steps| == |insts|
  {
    Walk(Prepared(st, insts, retry), insts, 0, map[], turn, [])
  }

  function Advanced(st: Status, insts: seq<Instance>, turn: Turn, retry: bool): Status {
    var p := PassFrom(st, insts, turn, retry);
    SetRun(st.(steps := p.steps, startedAt := if st.startedAt.None? then Some(turn.now)
        else st.startedAt), p.phase, turn.now)
  }

  // ---- the controller's own form of it ----

  class Run {
    var steps: seq<StepStatus>
    var phase: Phase
    var startedAt: Option<int>
    var completedAt: Option<int>
    /** The instances whose Ensure the last Advance called, in order. */
    var asked: seq<string>

    function Now(): Status
      reads this
    {
      Status(steps, phase, startedAt, completedAt)
    }

    constructor (st: Status)
      ensures Now() == st && asked == []
    {
      steps, phase, startedAt, completedAt, asked := st.steps, st.phase, st.startedAt, st.completedAt, [];
    }

    method SetPhase(to: Phase, now: int)
      modifies this
      ensures Now() == SetRun(old(Now()), to, now) && asked == old(asked)
    {
      phase := to;
      match to {
        case Ready | Failed | RolledBack | RollbackFailed =>
          if completedAt == None {
            completedAt := Some(now);
          }
        case _ =>
          completedAt := None;
      }
    }

    /** syncSteps: look every instance up among the known statuses. */
    method SyncSteps(insts: seq<Instance>)
      modifies this
      ensures Now() == old(Now()).(steps := Synced(old(steps), insts)) && asked == old(asked)
    {
      var out: seq<StepStatus> := [];
      for i := 0 to |insts|
        invariant |out| == i && forall j :: 0 <= j < i ==> out[j] == Synced(steps, insts)[j]
      {
        var s := Find(steps, insts[i].key);
        out := out + [if s.Some? then s.value else Fresh(insts[i])];
      }
      assert out == Synced(steps, insts);
      steps := out;
    }

    method ResetFailed()
      modifies this
      ensures Now() == old(Now()).(steps := ResetAll(old(steps))) && asked == old(asked)
    {
      for i := 0 to |steps|
        invariant |steps| == |old(steps)|
        invariant forall j :: 0 <= j < |steps| ==> steps[j] == if j < i then ResetOne(old(steps)[j]) else old(steps)[j]
        invariant phase == old(phase) && startedAt == old(startedAt) && completedAt == old(completedAt)
                  && asked == old(asked)
      {
        if steps[i].phase == StepFailed {
          steps := steps[i := steps[i].(phase := StepPending, failures := 0, startedAt := None, completedAt := None)];
        }
      }
      assert steps == ResetAll(old(steps));
    }

    /** runInstance: execute step i and record the result in its status. */
    method RunInstance(i: nat, in_: Instance, turn: Turn, outputs: Outputs) returns (outcome: Outcome)
      requires i < |steps|
      modifies this
      ensures var (s, o) := RunOne(old(steps)[i], in_, turn, outputs);
              outcome == o && Now() == old(Now()).(steps := old(steps)[i := s])
      ensures asked == if Called(in_, turn, outputs) then old(asked) + [in_.key] else old(asked)
    {
      var s := steps[i];
      if !turn.known(in_.step.typ) || turn.resolve(in_, outputs).None? {
        steps := steps[i := s.(phase := StepFailed, failures := 0, completedAt := Some(turn.now))];
        return Stop;
      }
      var resolved := turn.resolve(in_, outputs).value;
      if s.startedAt == None {
        s := s.(startedAt := Some(turn.now));
      }
      s := s.(phase := StepRunning);
      asked := asked + [in_.key];
      match turn.reply(Question(in_, resolved, s.outputs, s.startedAt.value)) {
        case Permanent =>
          s, outcome := s.(phase := StepFailed, failures := 0, completedAt := Some(turn.now)), Stop;
        case Transient =>
          s := s.(failures := s.failures + 1);
          if s.failures >= MAX_STEP_FAILURES {
            s, outcome := s.(phase := StepFailed, failures := 0, completedAt := Some(turn.now)), Stop;
          } else {
            outcome := Wait;
          }
        case Finished(out) =>
          s, outcome := s.(phase := StepSucceeded, failures := 0, outputs := out, completedAt := Some(turn.now)), Done;
        case Waiting(progress) =>
          s := s.(failures := 0);
          if progress.Some? {
            s := s.(outputs := progress.value);
          }
          outcome := Wait;
      }
      steps := steps[i := s];
    }

    /** advance: run steps in order for as long as they complete. */
    method Advance(insts: seq<Instance>, turn: Turn, retry: bool)
      modifies this
      ensures Now() == Advanced(old(Now()), insts, turn, retry)
      ensures asked == PassFrom(old(Now()), insts, turn, retry).asked
    {
      SyncSteps(insts);
      if retry {
        ResetFailed();
      }
      if startedAt == None {
        startedAt := Some(turn.now);
      }
      asked := [];
      var to := WalkSteps(insts, turn);
      SetPhase(to, turn.now);
    }

    /** The loop of advance; it stops at the first instance that must wait or has failed. */
    method WalkSteps(insts: seq<Instance>, turn: Turn) returns (to: Phase)
      requires |steps| == |insts| && asked == []
      modifies this
      ensures var p := Walk(old(steps), insts, 0, map[], turn, []);
              to == p.phase && asked == p.asked && Now() == old(Now()).(steps := p.steps)
    {
      ghost var p := Walk(steps, insts, 0, map[], turn, []);
      var outputs: Outputs := map[];
      var i := 0;
      while i < |insts|
        invariant 0 <= i <= |insts| == |steps|
        invariant Now() == old(Now()).(steps := steps)
        invariant Walk(steps, insts, i, outputs, turn, asked) == p
      {
        if steps[i].phase == StepFailed {
          return Failed;
        }
        if steps[i].phase != StepSucceeded {
          if !turn.configured {
            return Running;
          }
          var outcome := RunInstance(i, insts[i], turn, outputs);
          if outcome.Stop? {
            return Failed;
          }
          if outcome.Wait? {
            return Running;
          }
        }
        if insts[i].item == None {
          outputs := outputs[insts[i].step.name := steps[i].outputs];
        }
        i := i + 1;
      }
      to := Ready;
    }
  }
}
