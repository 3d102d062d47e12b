/** What every reconcile keeps, and why a run settles. */
module ReconcilerTheorems {
  import opened Types
  import opened Phases
  import opened Plan
  import opened Reconciler

  // ---- the shape of a run's steps ----

  ghost predicate Untouched(s: StepStatus) {
    s.phase == StepPending && s.failures == 0 && s.startedAt.None?
  }

  /** A step that is next in line: pending, running or failed. */
  ghost predicate FrontierOk(s: StepStatus, now: int) {
    && s.phase in {StepPending, StepRunning, StepFailed}
    && s.failures < MAX_STEP_FAILURES
    && (s.phase == StepPending ==> Untouched(s))
    && (s.phase == StepRunning ==> s.startedAt.Some? && s.startedAt.value <= now)
  }

  /** Succeeded steps, then at most one in progress or failed, then untouched ones. */
  ghost predicate Prefix(steps: seq<StepStatus>, n: nat, now: int) {
    && n <= |steps|
    && (forall j :: 0 <= j < n ==> steps[j].phase == StepSucceeded && steps[j].failures == 0)
    && (n < |steps| ==> FrontierOk(steps[n], now))
    && (forall j :: n < j < |steps| ==> Untouched(steps[j]))
  }

  ghost predicate KeysMatch(steps: seq<StepStatus>, insts: seq<Instance>) {
    |steps| == |insts| && forall j :: 0 <= j < |insts| ==> steps[j].key == insts[j].key
  }

  /** A run as its reconciler finds it, n steps done, when the time is at least now. */
  ghost predicate StatusOk(st: Status, insts: seq<Instance>, n: nat, now: int) {
    if st.steps == [] then n == 0 else KeysMatch(st.steps, insts) && Prefix(st.steps, n, now)
  }

  /** The phase says how far the run is: Ready when every step is done, Failed when the next one failed. */
  ghost predicate PhaseFits(phase: Phase, steps: seq<StepStatus>, n: nat)
    requires n <= |steps|
  {
    && (phase == Ready <==> n == |steps|)
    && (phase == Failed <==> n < |steps| && steps[n].phase == StepFailed)
    && phase in {Ready, Failed, Running}
  }

  /** A run some reconcile has left behind, n steps done. */
  ghost predicate InShape(st: Status, insts: seq<Instance>, n: nat, now: int) {
    KeysMatch(st.steps, insts) && Prefix(st.steps, n, now) && PhaseFits(st.phase, st.steps, n)
  }

  lemma InShapeIsOk(st: Status, insts: seq<Instance>, n: nat, now: int)
    requires InShape(st, insts, n, now)
    ensures StatusOk(st, insts, n, now) && (forall s :: s in st.steps ==> s.failures <= 9)
  {
  }

  lemma {:induction false} FindUnique(steps: seq<StepStatus>, j: nat)
    requires j < |steps| && forall a, b :: 0 <= a < b < |steps| ==> steps[a].key != steps[b].key
    ensures Find(steps, steps[j].key) == Some(steps[j])
  {
    if j > 0 {
      FindUnique(steps[1..], j - 1);
    }
  }

  /** Syncing with an unchanged plan changes nothing. */
  lemma SyncedIsSame(steps: seq<StepStatus>, insts: seq<Instance>)
    requires KeysMatch(steps, insts) && KeysDiffer(insts)
    ensures Synced(steps, insts) == steps
  {
    forall j | 0 <= j < |insts|
      ensures Synced(steps, insts)[j] == steps[j]
    {
      FindUnique(steps, j);
    }
  }

  lemma PreparedOk(st: Status, insts: seq<Instance>, n: nat, now: int, retry: bool)
    requires StatusOk(st, insts, n, now) && KeysDiffer(insts)
    ensures KeysMatch(Prepared(st, insts, retry), insts) && Prefix(Prepared(st, insts, retry), n, now)
    ensures !retry && st.steps != [] ==> Prepared(st, insts, retry) == st.steps
  {
    if st.steps == [] {
      NewIsUntouched(insts, now);
    } else {
      SyncedIsSame(st.steps, insts);
    }
    ResetKeeps(Synced(st.steps, insts), insts, n, now);
  }

  lemma NewIsUntouched(insts: seq<Instance>, now: int)
    ensures KeysMatch(Synced([], insts), insts) && Prefix(Synced([], insts), 0, now)
  {
    forall j | 0 <= j < |insts|
      ensures Synced([], insts)[j] == Fresh(insts[j])
    {
    }
  }

  lemma ResetKeeps(steps: seq<StepStatus>, insts: seq<Instance>, n: nat, now: int)
    requires KeysMatch(steps, insts) && Prefix(steps, n, now)
    ensures KeysMatch(ResetAll(steps), insts) && Prefix(ResetAll(steps), n, now)
  {
    assert forall j :: 0 <= j < |steps| ==> ResetAll(steps)[j] == ResetOne(steps[j]);
  }

  /** One step, run: it is done, or it is a frontier again. */
  lemma {:induction false} RunOneShape(s: StepStatus, in_: Instance, turn: Turn, outputs: Outputs, last: int)
    requires FrontierOk(s, last) && s.phase != StepFailed && last <= turn.now
    ensures var (s2, o) := RunOne(s, in_, turn, outputs);
            && s2.key == s.key
            && (o == Done ==> s2.phase == StepSucceeded && s2.failures == 0)
            && (o != Done ==> FrontierOk(s2, turn.now))
            && (o == Stop <==> s2.phase == StepFailed) && (o == Wait <==> s2.phase == StepRunning)
  {
  }

  /** The steps in the middle of a walk, n of them done. */
  ghost predicate Midway(steps: seq<StepStatus>, insts: seq<Instance>, n: nat, now: int) {
    KeysMatch(steps, insts) && Prefix(steps, n, now)
  }

  lemma MidwayLater(steps: seq<StepStatus>, insts: seq<Instance>, n: nat, last: int, now: int)
    requires Midway(steps, insts, n, last) && last <= now
    ensures Midway(steps, insts, n, now) && n <= |insts| == |steps|
    ensures forall j :: 0 <= j < n ==> steps[j].phase == StepSucceeded
    ensures n < |insts| ==> steps[n].phase in {StepPending, StepRunning, StepFailed}
  {
  }

  /** A walk that ends before instance i, on a phase that fits. */
  lemma {:induction false} EndShape(steps: seq<StepStatus>, insts: seq<Instance>, i: nat, outputs: Outputs, turn: Turn,
                                    asked: seq<string>, n: nat, last: int)
    requires Midway(steps, insts, n, last) && i == n && last <= turn.now && |steps| == |insts| && i <= |insts|
    requires i == |insts| || steps[i].phase == StepFailed || !turn.configured
    ensures var p := Walk(steps, insts, i, outputs, turn, asked);
            n <= |insts| && Midway(p.steps, insts, n, turn.now) && PhaseFits(p.phase, p.steps, n)
  {
    MidwayLater(steps, insts, n, last, turn.now);
  }

  lemma {:induction false} WalkShape(steps: seq<StepStatus>, insts: seq<Instance>, i: nat, outputs: Outputs, turn: Turn,
                                     asked: seq<string>, n: nat, last: int) returns (n2: nat)
    requires Midway(steps, insts, n, last) && i <= n && last <= turn.now && |steps| == |insts| && i <= |insts|
    ensures var p := Walk(steps, insts, i, outputs, turn, asked);
            n <= n2 <= |insts| && Midway(p.steps, insts, n2, turn.now) && PhaseFits(p.phase, p.steps, n2)
    decreases |insts| - i, 1
  {
    MidwayLater(steps, insts, n, last, turn.now);
    if i < n {
      n2 := WalkShape(steps, insts, i + 1, WithOutputs(outputs, insts[i], steps[i]), turn, asked, n, last);
    } else if i == |insts| || steps[i].phase == StepFailed || !turn.configured {
      EndShape(steps, insts, i, outputs, turn, asked, n, last);
      n2 := n;
    } else {
      n2 := FrontierShape(steps, insts, outputs, turn, asked, n, last);
    }
  }

  lemma {:induction false} FrontierShape(steps: seq<StepStatus>, insts: seq<Instance>, outputs: Outputs, turn: Turn,
                                         asked: seq<string>, n: nat, last: int) returns (n2: nat)
    requires Midway(steps, insts, n, last) && last <= turn.now && n < |steps| == |insts|
    requires steps[n].phase !in {StepSucceeded, StepFailed} && turn.configured
    ensures var p := Walk(steps, insts, n, outputs, turn, asked);
            n <= n2 <= |insts| && Midway(p.steps, insts, n2, turn.now) && PhaseFits(p.phase, p.steps, n2)
    decreases |insts| - n, 0
  {
    var (s, outcome) := RunOne(steps[n], insts[n], turn, outputs);
    var asked2 := if Called(insts[n], turn, outputs) then asked + [insts[n].key] else asked;
    FrontierRuns(steps, insts, n, turn, outputs, last);
    if outcome == Done {
      n2 := WalkShape(steps[n := s], insts, n + 1, WithOutputs(outputs, insts[n], s), turn, asked2, n + 1, turn.now);
    } else {
      n2 := n;
    }
  }

  lemma {:induction false} FrontierRuns(steps: seq<StepStatus>, insts: seq<Instance>, n: nat, turn: Turn,
                                        outputs: Outputs, last: int)
    requires Midway(steps, insts, n, last) && n < |steps| == |insts| && steps[n].phase != StepFailed && last <= turn.now
    ensures var (s, outcome) := RunOne(steps[n], insts[n], turn, outputs);
            && (outcome == Done ==> Midway(steps[n := s], insts, n + 1, turn.now))
            && (outcome != Done ==> Midway(steps[n := s], insts, n, turn.now))
            && (outcome == Stop <==> s.phase == StepFailed) && (outcome == Wait <==> s.phase == StepRunning)
  {
    RunOneShape(steps[n], insts[n], turn, outputs, last);
  }

  /** One reconcile: the shape is kept, no finished step is lost, and the phase tells the truth. */
  lemma {:induction false} AdvanceKeepsShape(st: Status, insts: seq<Instance>, turn: Turn, retry: bool, n: nat,
                                             last: int)
    returns (n2: nat)
    requires StatusOk(st, insts, n, last) && KeysDiffer(insts) && last <= turn.now
    ensures n <= n2 && InShape(Advanced(st, insts, turn, retry), insts, n2, turn.now)
  {
    PreparedOk(st, insts, n, last, retry);
    n2 := WalkShape(Prepared(st, insts, retry), insts, 0, map[], turn, [], n, last);
  }

  // ---- whole histories ----

  datatype Visit = Visit(turn: Turn, retry: bool)

  const NEW: Status := Status([], Pending, None, None)

  /** The status after some reconciles of one plan. */
  function After(st: Status, insts: seq<Instance>, visits: seq<Visit>): Status
    decreases |visits|
  {
    if visits == [] then st else After(Advanced(st, insts, visits[0].turn, visits[0].retry), insts, visits[1..])
  }

  ghost predicate ClockOk(start: int, visits: seq<Visit>) {
    && (forall i :: 0 <= i < |visits| ==> start <= visits[i].turn.now)
    && (forall i, j :: 0 <= i < j < |visits| ==> visits[i].turn.now <= visits[j].turn.now)
  }

  lemma {:induction false} ClockTail(start: int, visits: seq<Visit>)
    requires visits != [] && ClockOk(start, visits)
    ensures start <= visits[0].turn.now && ClockOk(visits[0].turn.now, visits[1..])
  {
  }

  /** The time of the last visit. */
  function LastTime(start: int, visits: seq<Visit>): int
    decreases |visits|
  {
    if visits == [] then start else LastTime(visits[0].turn.now, visits[1..])
  }

  lemma {:induction false} ShapeStays(st: Status, insts: seq<Instance>, n: nat, start: int, visits: seq<Visit>)
    returns (n2: nat)
    requires KeysDiffer(insts) && InShape(st, insts, n, start) && ClockOk(start, visits)
    ensures n <= n2 && InShape(After(st, insts, visits), insts, n2, LastTime(start, visits))
    decreases |visits|
  {
    if visits == [] {
      n2 := n;
    } else {
      var v := visits[0];
      ClockTail(start, visits);
      InShapeIsOk(st, insts, n, start);
      n2 := AdvanceKeepsShape(st, insts, v.turn, v.retry, n, start);
      n2 := ShapeStays(Advanced(st, insts, v.turn, v.retry), insts, n2, v.turn.now, visits[1..]);
    }
  }

  /**
   After any reconciles of an unchanged plan, whatever the steps answered and however often a retry
   was asked for: Succeeded steps, then at most one in progress or failed, then untouched ones;
   Ready exactly if all are done, Failed exactly if the next one failed.
   */
  lemma {:induction false} AlwaysPrefix(insts: seq<Instance>, visits: seq<Visit>, start: int) returns (n: nat)
    requires KeysDiffer(insts) && visits != [] && ClockOk(start, visits)
    ensures InShape(After(NEW, insts, visits), insts, n, LastTime(start, visits))
  {
    var v := visits[0];
    ClockTail(start, visits);
    n := AdvanceKeepsShape(NEW, insts, v.turn, v.retry, 0, start);
    n := ShapeStays(Advanced(NEW, insts, v.turn, v.retry), insts, n, v.turn.now, visits[1..]);
  }

  /** No step ever has ten failures on record. */
  lemma {:induction false} FailuresAreBounded(insts: seq<Instance>, visits: seq<Visit>, start: int, s: StepStatus)
    requires KeysDiffer(insts) && visits != [] && ClockOk(start, visits) && s in After(NEW, insts, visits).steps
    ensures s.failures <= 9
  {
    var n := AlwaysPrefix(insts, visits, start);
    InShapeIsOk(After(NEW, insts, visits), insts, n, LastTime(start, visits));
  }

  // ---- succeeded steps are left alone ----

  lemma {:induction false} WalkKeeps(steps: seq<StepStatus>, insts: seq<Instance>, i: nat, outputs: Outputs, turn: Turn,
                                     asked: seq<string>, m: nat)
    requires |steps| == |insts| && i <= |insts| && KeysDiffer(insts)
    requires m < |steps| && (m < i || steps[m].phase == StepSucceeded)
    ensures var p := Walk(steps, insts, i, outputs, turn, asked);
            p.steps[m] == steps[m] && (insts[m].key in p.asked ==> insts[m].key in asked)
    decreases |insts| - i
  {
    if i < |insts| && steps[i].phase == StepSucceeded {
      WalkKeeps(steps, insts, i + 1, WithOutputs(outputs, insts[i], steps[i]), turn, asked, m);
    } else if i < |insts| && steps[i].phase != StepFailed && turn.configured {
      var (s, outcome) := RunOne(steps[i], insts[i], turn, outputs);
      var asked2 := if Called(insts[i], turn, outputs) then asked + [insts[i].key] else asked;
      assert insts[i].key != insts[m].key;
      if outcome == Done {
        WalkKeeps(steps[i := s], insts, i + 1, WithOutputs(outputs, insts[i], s), turn, asked2, m);
      }
    }
  }

  /**
   A step that has succeeded is never run again and keeps its status, outputs included, through
   every reconcile: also on a retry, and also when the plan around it has changed.
   */
  lemma {:induction false} SucceededStays(st: Status, insts: seq<Instance>, turn: Turn, retry: bool, m: nat)
    requires KeysDiffer(insts) && m < |insts|
    requires Find(st.steps, insts[m].key).Some? && Find(st.steps, insts[m].key).value.phase == StepSucceeded
    ensures Advanced(st, insts, turn, retry).steps[m] == Find(st.steps, insts[m].key).value
    ensures insts[m].key !in PassFrom(st, insts, turn, retry).asked
  {
    WalkKeeps(Prepared(st, insts, retry), insts, 0, map[], turn, [], m);
  }

  /** Over any further history, too. */
  lemma {:induction false} SucceededForever(st: Status, insts: seq<Instance>, n: nat, start: int, visits: seq<Visit>,
                                            m: nat)
    requires KeysDiffer(insts) && InShape(st, insts, n, start) && ClockOk(start, visits)
    requires m < |insts| && st.steps[m].phase == StepSucceeded
    ensures var st2 := After(st, insts, visits); m < |st2.steps| && st2.steps[m] == st.steps[m]
    decreases |visits|
  {
    if visits != [] {
      var v := visits[0];
      ClockTail(start, visits);
      FindUnique(st.steps, m);
      SucceededStays(st, insts, v.turn, v.retry, m);
      InShapeIsOk(st, insts, n, start);
      var n2 := AdvanceKeepsShape(st, insts, v.turn, v.retry, n, start);
      SucceededForever(Advanced(st, insts, v.turn, v.retry), insts, n2, v.turn.now, visits[1..], m);
    }
  }

  // ---- when a run completed ----

  /** The phases a run is given, one after the other, and when. */
  datatype Mark = Mark(phase: Phase, now: int)

  function Marked(st: Status, marks: seq<Mark>): Status
    decreases |marks|
  {
    if marks == [] then st
    else SetRun(Marked(st, marks[..|marks| - 1]), marks[|marks| - 1].phase, marks[|marks| - 1].now)
  }

  /** The phases that end a run, or its rollback, until somebody asks for more. */
  const ENDS: set<Phase> := {Ready, Failed, RolledBack, RollbackFailed}

  /** The last phases are final from mark i on, and the one before mark i was not. */
  ghost predicate FinalSince(start: Phase, marks: seq<Mark>, i: nat) {
    && i < |marks| && (forall j :: i <= j < |marks| ==> marks[j].phase in ENDS)
    && (if i == 0 then start else marks[i - 1].phase) !in ENDS
  }

  /**
   The completion time is there exactly while the phase is final, and it is the time at which the
   run entered the final phases it is in now: later final phases do not move it, and leaving them
   forgets it.
   */
  lemma {:induction false} CompletedSinceFinal(st: Status, marks: seq<Mark>) returns (i: nat)
    requires st.phase !in ENDS && st.completedAt.None? && marks != []
    ensures var st2 := Marked(st, marks);
            && st2.phase == marks[|marks| - 1].phase && (st2.completedAt.Some? <==> st2.phase in ENDS)
            && (st2.phase in ENDS ==> FinalSince(st.phase, marks, i) && st2.completedAt == Some(marks[i].now))
    decreases |marks|
  {
    var n := |marks| - 1;
    i := n;
    if n > 0 {
      var k := CompletedSinceFinal(st, marks[..n]);
      if marks[n].phase in ENDS && marks[n - 1].phase in ENDS {
        i := k;
        assert forall j :: 0 <= j < n ==> marks[..n][j] == marks[j];
      }
    }
  }

  /** The phases a history of reconciles gives a run. */
  function MarksOf(st: Status, insts: seq<Instance>, visits: seq<Visit>): seq<Mark>
    decreases |visits|
  {
    if visits == [] then []
    else
      var st2 := Advanced(st, insts, visits[0].turn, visits[0].retry);
      [Mark(st2.phase, visits[0].turn.now)] + MarksOf(st2, insts, visits[1..])
  }

  lemma {:induction false} MarkedFirst(st: Status, mark: Mark, marks: seq<Mark>)
    ensures Marked(st, [mark] + marks) == Marked(SetRun(st, mark.phase, mark.now), marks)
    decreases |marks|
  {
    if marks == [] {
      assert [mark] + marks == [mark] && [mark][..0] == [];
    } else {
      var n := |marks| - 1;
      MarkedFirst(st, mark, marks[..n]);
      assert ([mark] + marks)[..|marks|] == [mark] + marks[..n];
    }
  }

  /** Only phase and completion time depend on the marks. */
  lemma {:induction false} MarkedDepends(a: Status, b: Status, marks: seq<Mark>)
    requires a.phase == b.phase && a.completedAt == b.completedAt
    ensures Marked(a, marks).phase == Marked(b, marks).phase
            && Marked(a, marks).completedAt == Marked(b, marks).completedAt
    decreases |marks|
  {
    if marks != [] {
      MarkedDepends(a, b, marks[..|marks| - 1]);
    }
  }

  lemma {:induction false} HistoryMarks(st: Status, insts: seq<Instance>, visits: seq<Visit>)
    ensures var marked, after := Marked(st, MarksOf(st, insts, visits)), After(st, insts, visits);
            after.phase == marked.phase && after.completedAt == marked.completedAt
    decreases |visits|
  {
    if visits != [] {
      var v := visits[0];
      var st2 := Advanced(st, insts, v.turn, v.retry);
      var mark, rest := Mark(st2.phase, v.turn.now), MarksOf(st2, insts, visits[1..]);
      HistoryMarks(st2, insts, visits[1..]);
      MarkedFirst(st, mark, rest);
      MarkedDepends(st2, SetRun(st, mark.phase, mark.now), rest);
    }
  }

  lemma {:induction false} StartedOnce(st: Status, insts: seq<Instance>, visits: seq<Visit>)
    requires st.startedAt.Some?
    ensures After(st, insts, visits).startedAt == st.startedAt
    decreases |visits|
  {
    if visits != [] {
      StartedOnce(Advanced(st, insts, visits[0].turn, visits[0].retry), insts, visits[1..]);
    }
  }

  lemma {:induction false} StartedFirst(insts: seq<Instance>, visits: seq<Visit>)
    requires visits != []
    ensures After(NEW, insts, visits).startedAt == Some(visits[0].turn.now)
  {
    StartedOnce(Advanced(NEW, insts, visits[0].turn, visits[0].retry), insts, visits[1..]);
  }

  /**
   In any history of reconciles the completion time is set exactly while the run is Ready or Failed; the
   start time is that of the first one.
   */
  lemma {:induction false} CompletedExactlyWhenFinal(insts: seq<Instance>, visits: seq<Visit>) returns (i: nat)
    requires visits != []
    ensures var st := After(NEW, insts, visits);
            && st.startedAt == Some(visits[0].turn.now)
            && (st.completedAt.Some? <==> st.phase in {Ready, Failed})
            && (st.completedAt.Some? ==>
                  i < |visits| && FinalSince(Pending, MarksOf(NEW, insts, visits), i)
                      && st.completedAt == Some(visits[i].turn.now))
  {
    var marks := MarksOf(NEW, insts, visits);
    HistoryMarks(NEW, insts, visits);
    i := CompletedSinceFinal(NEW, marks);
    StartedFirst(insts, visits);
    MarksFollow(NEW, insts, visits);
  }

  lemma {:induction false} MarksFollow(st: Status, insts: seq<Instance>, visits: seq<Visit>)
    ensures var marks := MarksOf(st, insts, visits);
            |marks| == |visits| && forall i :: 0 <= i < |visits| ==>
                  marks[i].now == visits[i].turn.now && marks[i].phase in {Ready, Failed, Running}
    decreases |visits|
  {
    if visits != [] {
      var st2 := Advanced(st, insts, visits[0].turn, visits[0].retry);
      WalkPhase(Prepared(st, insts, visits[0].retry), insts, 0, map[], visits[0].turn, []);
      MarksFollow(st2, insts, visits[1..]);
    }
  }

  lemma {:induction false} WalkPhase(steps: seq<StepStatus>, insts: seq<Instance>, i: nat, outputs: Outputs, turn: Turn,
                                     asked: seq<string>)
    requires |steps| == |insts| && i <= |insts|
    ensures Walk(steps, insts, i, outputs, turn, asked).phase in {Ready, Failed, Running}
    decreases |insts| - i
  {
    if i < |insts| && steps[i].phase == StepSucceeded {
      WalkPhase(steps, insts, i + 1, WithOutputs(outputs, insts[i], steps[i]), turn, asked);
    } else if i < |insts| && steps[i].phase != StepFailed && turn.configured {
      var (s, outcome) := RunOne(steps[i], insts[i], turn, outputs);
      var asked2 := if Called(insts[i], turn, outputs) then asked + [insts[i].key] else asked;
      if outcome == Done {
        WalkPhase(steps[i := s], insts, i + 1, WithOutputs(outputs, insts[i], s), turn, asked2);
      }
    }
  }

  // ---- why a run settles ----

  /** Only a step within its time limit says it is waiting. */
  ghost predicate Punctual(turn: Turn, timeout: nat) {
    forall q :: turn.reply(q).Waiting? ==> turn.now - q.startedAt <= timeout
  }

  /** Time a step has left, at the time of its last reconcile; a step not begun has a little more than that. */
  function TimeLeft(s: StepStatus, now: int, timeout: nat): nat {
    if s.startedAt.None? then timeout + 2
    else if now - s.startedAt.value > timeout then 0
    else if now < s.startedAt.value then timeout + 1
    else timeout + 1 - (now - s.startedAt.value)
  }

  /** The three parts of the measure, for a run with n steps done. */
  function StepsLeft(insts: seq<Instance>, n: nat): nat {
    if n <= |insts| then |insts| - n else 0
  }

  function FrontierTime(st: Status, n: nat, now: int, timeout: nat): nat {
    if n < |st.steps| then TimeLeft(st.steps[n], now, timeout) else timeout + 2
  }

  function TriesLeft(st: Status, n: nat): nat {
    if n < |st.steps| && st.steps[n].failures < 10 then 10 - st.steps[n].failures else 10
  }

  ghost predicate Less(a: (nat, nat, nat), b: (nat, nat, nat)) {
    a.0 < b.0 || (a.0 == b.0 && (a.1 < b.1 || (a.1 == b.1 && a.2 < b.2)))
  }

  ghost function Measure(st: Status, insts: seq<Instance>, n: nat, now: int, timeout: nat): (nat, nat, nat) {
    (StepsLeft(insts, n), FrontierTime(st, n, now, timeout), TriesLeft(st, n))
  }

  /** What waiting does to the step that waits. */
  lemma {:induction false} WaitingCosts(s: StepStatus, in_: Instance, turn: Turn, outputs: Outputs, last: int,
                                        timeout: nat)
    requires FrontierOk(s, last) && s.phase != StepFailed && last < turn.now && Punctual(turn, timeout)
    requires RunOne(s, in_, turn, outputs).1 == Wait
    ensures var s2 := RunOne(s, in_, turn, outputs).0;
            || TimeLeft(s2, turn.now, timeout) < TimeLeft(s, last, timeout)
            || (TimeLeft(s2, turn.now, timeout) == TimeLeft(s, last, timeout) && s.failures < s2.failures < 10)
  {
    var b := Begun(s, turn.now);
    var q := Question(in_, turn.resolve(in_, outputs).value, s.outputs, b.startedAt.value);
    assert turn.reply(q).Waiting? ==> turn.now - q.startedAt <= timeout;
  }

  /** A walk either gets a step further, stops for good, or leaves the frontier waiting. */
  lemma {:induction false} WalkWaits(steps: seq<StepStatus>, insts: seq<Instance>, i: nat, outputs: Outputs, turn: Turn,
                                     asked: seq<string>, n: nat, last: int) returns (outs: Outputs)
    requires KeysMatch(steps, insts) && Prefix(steps, n, last) && i <= n < |steps| && last <= turn.now
             && turn.configured
    requires var p := Walk(steps, insts, i, outputs, turn, asked);
             p.phase == Running && p.steps[n].phase != StepSucceeded
    ensures var p := Walk(steps, insts, i, outputs, turn, asked);
            steps[n].phase != StepFailed && RunOne(steps[n], insts[n], turn, outs) == (p.steps[n], Wait)
    decreases n - i
  {
    if i < n {
      outs := WalkWaits(steps, insts, i + 1, WithOutputs(outputs, insts[i], steps[i]), turn, asked, n, last);
    } else {
      outs := outputs;
      RunOneShape(steps[i], insts[i], turn, outputs, last);
      var (s, outcome) := RunOne(steps[i], insts[i], turn, outputs);
      var asked2 := if Called(insts[i], turn, outputs) then asked + [insts[i].key] else asked;
      if outcome == Done {
        WalkLeaves(steps[i := s], insts, i + 1, WithOutputs(outputs, insts[i], s), turn, asked2, i);
      }
    }
  }

  /** A walk that has passed a step leaves it alone. */
  lemma {:induction false} WalkLeaves(steps: seq<StepStatus>, insts: seq<Instance>, i: nat, outputs: Outputs,
                                      turn: Turn, asked: seq<string>, m: nat)
    requires |steps| == |insts| && m < i <= |insts|
    ensures Walk(steps, insts, i, outputs, turn, asked).steps[m] == steps[m]
    decreases |insts| - i
  {
    if i < |insts| && steps[i].phase == StepSucceeded {
      WalkLeaves(steps, insts, i + 1, WithOutputs(outputs, insts[i], steps[i]), turn, asked, m);
    } else if i < |insts| && steps[i].phase != StepFailed && turn.configured {
      var (s, outcome) := RunOne(steps[i], insts[i], turn, outputs);
      var asked2 := if Called(insts[i], turn, outputs) then asked + [insts[i].key] else asked;
      if outcome == Done {
        WalkLeaves(steps[i := s], insts, i + 1, WithOutputs(outputs, insts[i], s), turn, asked2, m);
      }
    }
  }

  /**
   With a valid config and a clock that has moved on, a reconcile that does not settle the run
   brings (steps left, time the next step has left, failures it may still have) strictly down.
   */
  lemma {:induction false} ReconcileDecreases(st: Status, insts: seq<Instance>, turn: Turn, n: nat, last: int,
                                              timeout: nat)
    returns (n2: nat)
    requires StatusOk(st, insts, n, last) && KeysDiffer(insts)
    requires last < turn.now && turn.configured && Punctual(turn, timeout)
    ensures var st2 := Advanced(st, insts, turn, false);
            && StatusOk(st2, insts, n2, turn.now) && st2.phase in {Ready, Failed, Running}
            && (st2.phase == Running ==>
                  Less(Measure(st2, insts, n2, turn.now, timeout), Measure(st, insts, n, last, timeout)))
  {
    n2 := AdvanceKeepsShape(st, insts, turn, false, n, last);
    InShapeIsOk(Advanced(st, insts, turn, false), insts, n2, turn.now);
    var st2 := Advanced(st, insts, turn, false);
    PreparedOk(st, insts, n, last, false);
    var steps := Prepared(st, insts, false);
    if st2.phase == Running && n2 == n {
      var outs := WalkWaits(steps, insts, 0, map[], turn, [], n, last);
      WaitingCosts(steps[n], insts[n], turn, outs, last, timeout);
    }
  }

  // ---- a run that is left to itself ----

  /** Reconciles number k, k+1, ... of an endless schedule. */
  ghost function Later(st: Status, insts: seq<Instance>, turns: nat -> Turn, k: nat, count: nat): Status
    decreases count
  {
    if count == 0 then st else Later(Advanced(st, insts, turns(k), false), insts, turns, k + 1, count - 1)
  }

  ghost predicate Favourable(turns: nat -> Turn, timeout: nat) {
    && (forall k: nat :: turns(k).configured && Punctual(turns(k), timeout))
    && (forall j: nat, k: nat :: j < k ==> turns(j).now < turns(k).now)
  }

  /**
   On an endless schedule of reconciles with a valid config and an advancing clock, in which a step
   waits only within its time limit, every run reaches Ready or Failed, whatever fails meanwhile.
   */
  lemma {:induction false} RunsSettle(st: Status, insts: seq<Instance>, turns: nat -> Turn, k: nat, n: nat, last: int,
                                      timeout: nat)
    returns (count: nat)
    requires KeysDiffer(insts) && StatusOk(st, insts, n, last) && last < turns(k).now && Favourable(turns, timeout)
    ensures count > 0 && Later(st, insts, turns, k, count).phase in {Ready, Failed}
    decreases StepsLeft(insts, n), FrontierTime(st, n, last, timeout), TriesLeft(st, n)
  {
    var st2 := Advanced(st, insts, turns(k), false);
    var n2 := ReconcileDecreases(st, insts, turns(k), n, last, timeout);
    if st2.phase in {Ready, Failed} {
      count := 1;
      assert Later(st2, insts, turns, k + 1, 0) == st2;
    } else {
      assert turns(k).now < turns(k + 1).now;
      var rest := RunsSettle(st2, insts, turns, k + 1, n2, turns(k).now, timeout);
      count := rest + 1;
    }
  }
}
