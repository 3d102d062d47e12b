/** Whole-system promises: what runs can rely on, and what rollback leaves behind. */
module SystemTheorems {
  import opened Types
  import opened LedgerRules
  import opened Protocol
  import opened Safety
  import opened LedgerTheorems
  import opened System
  import opened Phases

  // ---- the invariant ----

  /** Every succeeded step of run r holds its reference. */
  ghost predicate StepsHold(p: State, r: string, steps: seq<StepRecord>) {
    forall i :: 0 <= i < |steps| && steps[i].phase == StepSucceeded ==>
      steps[i].resource.Some? && HasRef(p, steps[i].resource.value, Ref(r, steps[i].key))
  }

  ghost predicate Follows(steps: seq<StepRecord>, plan: seq<string>) {
    |steps| == |plan| && forall i :: 0 <= i < |plan| ==> steps[i].key == plan[i]
  }

  ghost predicate AllSucceeded(steps: seq<StepRecord>) {
    forall i :: 0 <= i < |steps| ==> steps[i].phase == StepSucceeded
  }

  /** The ledger call of an Ensure for ref, or none. */
  ghost predicate InEnsure(pc: Pc, ref: Ref) {
    pc.Idle? ||
    ((pc.EnsureRead? || pc.EnsureProbe? || pc.EnsureRegister? || pc.AddRead? || pc.AddUpdate?
      || pc.EnsureCreate? || pc.EnsureRepoint? || pc.EnsureDone?)
     && pc.w.ref == ref)
  }

  ghost predicate InRollback(pc: Pc) {
    || pc.Idle? || (pc.SweepList? && pc.rollback) || (pc.Sweep? && pc.rollback)
    || pc.RollbackList? || pc.Release? || pc.RollbackDone?
  }

  ghost predicate LocalOk(s: Sys, r: string) {
    var pc := RunPc(s, r);
    match LocalOf(s, r)
    case Resting => pc.Idle?
    case Applying(steps, i) => Active(s, r, steps) && pc.Idle? && i <= |steps| && AllSucceeded(steps[..i])
    case Ensuring(steps, i) =>
      Active(s, r, steps) && i < |steps| && AllSucceeded(steps[..i]) && InEnsure(pc, Ref(r, steps[i].key))
    case Patching(steps, phase) =>
      Active(s, r, steps) && pc.Idle? && !Undone(phase) && (phase == Ready ==> AllSucceeded(steps))
    case Undoing =>
      && r in s.runs && s.runs[r].finalizer && InRollback(pc)
      && (s.runs[r].phase == RollingBack || s.runs[r].phase == RollbackFailed)
  }

  /** An apply reconcile of r is under way with this status in memory. */
  ghost predicate Active(s: Sys, r: string, steps: seq<StepRecord>) {
    && r in s.runs && s.runs[r].finalizer && !Undone(s.runs[r].phase)
    && Follows(steps, s.runs[r].plan) && StepsHold(s.p, r, steps)
  }

  ghost predicate Owned(s: Sys) {
    forall k, ref: Ref :: HasRef(s.p, k, ref) ==>
      ref.run in s.runs && s.runs[ref.run].finalizer && s.runs[ref.run].phase != RolledBack
  }

  ghost predicate RunOk(s: Sys, r: string)
    requires r in s.runs
  {
    && s.runs[r].born < s.births
    && (!Undone(s.runs[r].phase) ==> StepsHold(s.p, r, s.runs[r].steps))
    && (s.runs[r].phase == Ready ==> Follows(s.runs[r].steps, s.runs[r].plan) && AllSucceeded(s.runs[r].steps))
  }

  ghost predicate SysInv(s: Sys) {
    && Inv(s.p) && Owned(s)
    && (forall r :: r in s.runs ==> RunOk(s, r))
    && (forall r :: LocalOk(s, r))
  }

  // ---- ledger calls ----

  lemma EnsureFamily(p: State, a: Actor, act: Act, ref: Ref)
    requires Can(p, a, act) && Driven(act) && InEnsure(PcOf(p, a), ref)
    ensures InEnsure(PcOf(Do(p, a, act), a), ref)
    ensures PcOf(p, a).Idle? ==> PcOf(Do(p, a, act), a).Idle?
  {
  }

  lemma RollbackFamily(p: State, a: Actor, act: Act)
    requires Can(p, a, act) && Driven(act) && InRollback(PcOf(p, a))
    ensures InRollback(PcOf(Do(p, a, act), a))
  {
  }

  /** A reference appears only through its own run's Ensure. */
  lemma OnlyEnsureAdds(p: State, a: Actor, act: Act, k: Key, ref: Ref)
    requires Inv(p) && Can(p, a, act) && !HasRef(p, k, ref) && HasRef(Do(p, a, act), k, ref)
    ensures a == Run(ref.run) && (act.Register? || act.UpdateForAdd?) && InEnsure(PcOf(p, a), ref)
  {
    if a != Run(ref.run) || Outside(act) {
      Guarantee(p, a, act, Run(ref.run));
    } else if Writes(p, a, act) {
      WritesAdd(p, a, act, k, ref);
    } else if Removes(act) {
      var k2 := RemoveEffect(p, a, act);
    } else if !TouchesUpstream(act) {
      OtherwiseLocal(p, a, act);
    }
  }

  lemma WritesAdd(p: State, a: Actor, act: Act, k: Key, ref: Ref)
    requires Inv(p) && Can(p, a, act) && Writes(p, a, act) && a == Run(ref.run)
    requires !HasRef(p, k, ref) && HasRef(Do(p, a, act), k, ref)
    ensures (act.Register? || act.UpdateForAdd?) && InEnsure(PcOf(p, a), ref)
  {
    assert PcOk(p, a, PcOf(p, a));
    var k2, e := WriteEffect(p, a, act);
    if act.UpdateForRelease? {
      WithoutRefFacts(PcOf(p, a).at.snap.entry, PcOf(p, a).todo[0].ref);
    } else if act.UpdateForAdd? {
      WithRefFacts(PcOf(p, a).snap.entry, PcOf(p, a).w.ref, PcOf(p, a).opts);
    }
  }

  /** While a run is not being undone, no call of anybody takes a reference its steps rely on. */
  lemma StepsKeepHolding(s: Sys, a: Actor, act: Act, r: string, steps: seq<StepRecord>)
    requires SysInv(s) && SysCan(s, Ledger(a, act)) && r in s.runs && !Undone(s.runs[r].phase)
             && StepsHold(s.p, r, steps)
    ensures StepsHold(Do(s.p, a, act), r, steps)
  {
    assert LocalOk(s, r);
    forall i | 0 <= i < |steps| && steps[i].phase == StepSucceeded
      ensures HasRef(Do(s.p, a, act), steps[i].resource.value, Ref(r, steps[i].key))
    {
      var k, ref := steps[i].resource.value, Ref(r, steps[i].key);
      if !HasRef(Do(s.p, a, act), k, ref) {
        OnlyTheOwnerReleases(s.p, a, act, k, ref);
      }
    }
  }

  lemma LedgerKeepsOwned(s: Sys, a: Actor, act: Act)
    requires SysInv(s) && SysCan(s, Ledger(a, act))
    ensures Owned(SysDo(s, Ledger(a, act)))
  {
    forall k, ref: Ref | HasRef(Do(s.p, a, act), k, ref)
      ensures ref.run in s.runs && s.runs[ref.run].finalizer && s.runs[ref.run].phase != RolledBack
    {
      if !HasRef(s.p, k, ref) {
        OnlyEnsureAdds(s.p, a, act, k, ref);
        assert LocalOk(s, ref.run);
      }
    }
  }

  lemma LedgerKeepsLocal(s: Sys, a: Actor, act: Act, r: string)
    requires SysInv(s) && SysCan(s, Ledger(a, act))
    ensures LocalOk(SysDo(s, Ledger(a, act)), r)
  {
    assert LocalOk(s, r);
    var l := LocalOf(s, r);
    if a == Run(r) {
      OwnCallStays(s, act, r);
    } else {
      OthersStay(s.p, a, act, Run(r));
    }
    if l.Applying? || l.Ensuring? || l.Patching? {
      StepsKeepHolding(s, a, act, r, l.steps);
    }
  }

  /** A run's own ledger call stays within the operation its controller has started. */
  lemma OwnCallStays(s: Sys, act: Act, r: string)
    requires LocalOk(s, r) && SysCan(s, Ledger(Run(r), act))
    ensures var l, pc2 := LocalOf(s, r), PcOf(Do(s.p, Run(r), act), Run(r));
            match l
            case Undoing => InRollback(pc2)
            case Ensuring(steps, i) => InEnsure(pc2, Ref(r, steps[i].key))
            case _ => pc2.Idle?
  {
    var l := LocalOf(s, r);
    if l.Undoing? {
      RollbackFamily(s.p, Run(r), act);
    } else {
      EnsureFamily(s.p, Run(r), act, if l.Ensuring? then Ref(r, l.steps[l.i].key) else Ref("", ""));
    }
  }

  lemma LedgerKeeps(s: Sys, a: Actor, act: Act)
    requires SysInv(s) && SysCan(s, Ledger(a, act))
    ensures SysInv(SysDo(s, Ledger(a, act)))
  {
    var s2 := SysDo(s, Ledger(a, act));
    StepKeepsInv(s.p, a, act);
    LedgerKeepsOwned(s, a, act);
    forall r
      ensures LocalOk(s2, r)
    {
      LedgerKeepsLocal(s, a, act, r);
    }
    forall r | r in s2.runs
      ensures RunOk(s2, r)
    {
      assert RunOk(s, r);
      if !Undone(s.runs[r].phase) {
        StepsKeepHolding(s, a, act, r, s.runs[r].steps);
      }
    }
  }

  // ---- controller events ----

  /** The controller's own calls start or end an operation; the ledger is untouched. */
  ghost predicate Boundary(act: Act) {
    act.BeginEnsure? || act.BeginRollback? || act.Return? || act.Abort?
  }

  lemma BoundaryKeeps(p: State, a: Actor, act: Act)
    requires Inv(p) && Can(p, a, act) && Boundary(act)
    ensures Inv(Do(p, a, act)) && Do(p, a, act).store == p.store && Do(p, a, act).up == p.up
    ensures forall b :: b != a ==> PcOf(Do(p, a, act), b) == PcOf(p, b)
  {
    assert Exclusive(p, a, act);
    StepKeepsInv(p, a, act);
  }

  /** The call a controller event makes, if any, and the run it is about. */
  function ActOf(e: Event): Option<Act> {
    match e
    case CallEnsure(_, w) => Some(BeginEnsure(w))
    case EnsureOk(_) => Some(Return)
    case StartRollback(_) => Some(BeginRollback)
    case RollbackOk(_) => Some(Abort)
    case RollbackNotOk(_) => Some(Abort)
    case Crash(_) => Some(Abort)
    case _ => None
  }

  lemma EventsMakeCalls(s: Sys, e: Event)
    requires SysCan(s, e) && !e.Ledger? && LocalOk(s, e.r)
    ensures ActOf(e).None? ==> SysDo(s, e).p == s.p
    ensures ActOf(e).Some? ==> Can(s.p, Run(e.r), ActOf(e).value) && SysDo(s, e).p == Do(s.p, Run(e.r), ActOf(e).value)
  {
  }

  /** An event of one run leaves every other run's object and reconciler alone. */
  lemma OtherRuns(s: Sys, e: Event)
    requires SysCan(s, e) && !e.Ledger?
    ensures forall r :: r != e.r ==> LocalOf(SysDo(s, e), r) == LocalOf(s, r)
    ensures forall r :: r != e.r ==> (r in SysDo(s, e).runs <==> r in s.runs)
    ensures forall r :: r != e.r && r in s.runs ==> SysDo(s, e).runs[r] == s.runs[r]
    ensures s.births <= SysDo(s, e).births
  {
  }

  lemma CallsAreBoundaries(s: Sys, e: Event)
    requires SysInv(s) && SysCan(s, e) && !e.Ledger?
    ensures Inv(SysDo(s, e).p) && SysDo(s, e).p.store == s.p.store && SysDo(s, e).p.up == s.p.up
    ensures forall r :: r != e.r ==> RunPc(SysDo(s, e), r) == RunPc(s, r)
  {
    assert LocalOk(s, e.r);
    CallIsBoundary(s, e);
  }

  lemma CallIsBoundary(s: Sys, e: Event)
    requires Inv(s.p) && SysCan(s, e) && !e.Ledger? && LocalOk(s, e.r)
    ensures Inv(SysDo(s, e).p) && SysDo(s, e).p.store == s.p.store && SysDo(s, e).p.up == s.p.up
    ensures forall r :: r != e.r ==> RunPc(SysDo(s, e), r) == RunPc(s, r)
  {
    EventsMakeCalls(s, e);
    AtMostOneCall(s.p, SysDo(s, e).p, Run(e.r), ActOf(e));
  }

  lemma AtMostOneCall(p: State, p2: State, a: Actor, act: Option<Act>)
    requires Inv(p) && if act.None? then p2 == p
             else Can(p, a, act.value) && Boundary(act.value) && p2 == Do(p, a, act.value)
    ensures Inv(p2) && p2.store == p.store && p2.up == p.up && forall b :: b != a ==> PcOf(p2, b) == PcOf(p, b)
  {
    if act.Some? {
      BoundaryKeeps(p, a, act.value);
    }
  }

  lemma {:induction false} SyncHolds(p: State, r: string, steps: seq<StepRecord>, plan: seq<string>)
    requires StepsHold(p, r, steps)
    ensures StepsHold(p, r, Sync(steps, plan)) && StepsHold(p, r, Reset(Sync(steps, plan)))
    ensures Follows(Reset(Sync(steps, plan)), plan)
  {
    var out := Sync(steps, plan);
    forall i | 0 <= i < |out| && out[i].phase == StepSucceeded
      ensures out[i].resource.Some? && HasRef(p, out[i].resource.value, Ref(r, out[i].key))
    {
      var found := Find(steps, plan[i]);
      assert found.Some? && found.value in steps;
      var j :| 0 <= j < |steps| && steps[j] == found.value;
    }
  }

  /** A released run holds nothing. */
  lemma NothingLeft(s: Sys, r: string)
    requires SysInv(s) && RunPc(s, r) == RollbackDone(true)
    ensures forall k, ref: Ref :: ref.run == r ==> !HasRef(s.p, k, ref)
  {
    assert PcOk(s.p, Run(r), RunPc(s, r));
    forall k, ref: Ref | ref.run == r
      ensures !HasRef(s.p, k, ref)
    {
      assert HasRef(s.p, k, ref) ==> Claim(k, ref) in [];
    }
  }

  /** In-memory status steps carry over to any state with the same ledger. */
  lemma SameLedger(p: State, p2: State, r: string, steps: seq<StepRecord>)
    requires StepsHold(p, r, steps) && p2.store == p.store
    ensures StepsHold(p2, r, steps)
  {
    forall i | 0 <= i < |steps| && steps[i].phase == StepSucceeded
      ensures HasRef(p2, steps[i].resource.value, Ref(r, steps[i].key))
    {
      assert HasRef(p, steps[i].resource.value, Ref(r, steps[i].key));
    }
  }

  lemma OwnApplyLocal(s: Sys, e: Event)
    requires SysInv(s) && SysCan(s, e)
    requires e.StartApply? || e.PassSucceeded? || e.StopFailed? || e.CallEnsure? || e.NoConfig? || e.NoCall?
             || e.AllDone?
    ensures LocalOk(SysDo(s, e), e.r)
  {
    var l := LocalOf(s, e.r);
    assert LocalOk(s, e.r);
    if e.StartApply? {
      assert RunOk(s, e.r);
      SyncHolds(s.p, e.r, s.runs[e.r].steps, s.runs[e.r].plan);
    } else {
      SameLedger(s.p, SysDo(s, e).p, e.r, l.steps);
      if e.PassSucceeded? {
        assert l.steps[..l.i + 1] == l.steps[..l.i] + [l.steps[l.i]];
      } else if e.AllDone? {
        assert l.steps[..l.i] == l.steps;
      }
    }
  }

  lemma OwnEnsureLocal(s: Sys, e: Event)
    requires SysInv(s) && SysCan(s, e) && (e.EnsureOk? || e.EnsureNotOk?)
    ensures LocalOk(SysDo(s, e), e.r)
  {
    var l, s2 := LocalOf(s, e.r), SysDo(s, e);
    assert LocalOk(s, e.r);
    SameLedger(s.p, s2.p, e.r, l.steps);
    if e.EnsureOk? {
      EnsuredStep(s, e.r);
      var steps := LocalOf(s2, e.r).steps;
      assert steps[..l.i + 1] == l.steps[..l.i] + [steps[l.i]];
    }
  }

  lemma EnsuredStep(s: Sys, r: string)
    requires SysInv(s) && LocalOf(s, r).Ensuring? && RunPc(s, r).EnsureDone?
    ensures var l := LocalOf(s, r);
            l.i < |l.steps| && HasRef(s.p, RunPc(s, r).w.key, Ref(r, l.steps[l.i].key))
  {
    assert LocalOk(s, r) && PcOk(s.p, Run(r), RunPc(s, r));
  }

  lemma OwnOtherLocal(s: Sys, e: Event)
    requires SysInv(s) && SysCan(s, e) && !e.Ledger? && !e.EnsureOk? && !e.EnsureNotOk?
    requires !(e.StartApply? || e.PassSucceeded? || e.StopFailed? || e.CallEnsure? || e.NoConfig? || e.NoCall?
             || e.AllDone?)
    ensures LocalOk(SysDo(s, e), e.r)
  {
    assert LocalOk(s, e.r);
  }

  lemma OwnLocal(s: Sys, e: Event)
    requires SysInv(s) && SysCan(s, e) && !e.Ledger?
    ensures LocalOk(SysDo(s, e), e.r)
  {
    if e.StartApply? || e.PassSucceeded? || e.StopFailed? || e.CallEnsure? || e.NoConfig? || e.NoCall? || e.AllDone? {
      OwnApplyLocal(s, e);
    } else if e.EnsureOk? || e.EnsureNotOk? {
      OwnEnsureLocal(s, e);
    } else {
      OwnOtherLocal(s, e);
    }
  }

  /** Events that change nothing but what a reconciler has in memory. */
  predicate InMemory(e: Event) {
    || e.StartApply? || e.PassSucceeded? || e.StopFailed? || e.CallEnsure? || e.NoConfig? || e.NoCall?
    || e.EnsureOk? || e.EnsureNotOk? || e.AllDone? || e.Crash?
  }

  lemma MemoryOnly(s: Sys, e: Event)
    requires SysCan(s, e) && InMemory(e)
    ensures SysDo(s, e).runs == s.runs && SysDo(s, e).births == s.births
  {
  }

  lemma OwnRun(s: Sys, e: Event)
    requires SysInv(s) && SysCan(s, e) && !e.Ledger? && e.r in SysDo(s, e).runs
    ensures RunOk(SysDo(s, e), e.r)
  {
    CallsAreBoundaries(s, e);
    if InMemory(e) {
      MemoryOnly(s, e);
      assert RunOk(s, e.r);
      if !Undone(s.runs[e.r].phase) {
        SameLedger(s.p, SysDo(s, e).p, e.r, s.runs[e.r].steps);
      }
    } else {
      assert LocalOk(s, e.r);
      OwnObject(s, e);
    }
  }

  lemma OwnObject(s: Sys, e: Event)
    requires !e.Ledger? && LocalOk(s, e.r) && (e.r in s.runs ==> RunOk(s, e.r))
    requires SysCan(s, e) && !InMemory(e) && e.r in SysDo(s, e).runs && SysDo(s, e).p.store == s.p.store
    ensures RunOk(SysDo(s, e), e.r)
  {
  }

  /** As long as a run holds anything, its own events keep the finalizer and never call it RolledBack. */
  lemma OwnerStays(s: Sys, e: Event, k: Key, ref: Ref)
    requires SysInv(s) && SysCan(s, e) && !e.Ledger? && HasRef(s.p, k, ref) && ref.run == e.r
    ensures var s2 := SysDo(s, e);
            e.r in s2.runs && s2.runs[e.r].finalizer && s2.runs[e.r].phase != RolledBack
  {
    assert LocalOk(s, e.r);
    if e.RollbackOk? {
      NothingLeft(s, e.r);
    }
  }

  lemma ControllerKeepsOwned(s: Sys, e: Event)
    requires SysInv(s) && SysCan(s, e) && !e.Ledger?
    ensures Owned(SysDo(s, e))
  {
    var s2 := SysDo(s, e);
    OtherRuns(s, e);
    CallsAreBoundaries(s, e);
    forall k, ref: Ref | HasRef(s2.p, k, ref)
      ensures ref.run in s2.runs && s2.runs[ref.run].finalizer && s2.runs[ref.run].phase != RolledBack
    {
      assert HasRef(s.p, k, ref);
      if ref.run == e.r {
        OwnerStays(s, e, k, ref);
      }
    }
  }

  lemma OtherOk(s: Sys, e: Event, r: string)
    requires SysInv(s) && SysCan(s, e) && !e.Ledger? && r != e.r
    ensures LocalOk(SysDo(s, e), r) && (r in SysDo(s, e).runs ==> RunOk(SysDo(s, e), r))
  {
    OtherRuns(s, e);
    CallsAreBoundaries(s, e);
    assert LocalOk(s, r) && (r in s.runs ==> RunOk(s, r));
  }

  lemma SystemKeepsInv(s: Sys, e: Event)
    requires SysInv(s) && SysCan(s, e)
    ensures SysInv(SysDo(s, e))
  {
    if e.Ledger? {
      LedgerKeeps(s, e.a, e.act);
    } else {
      var s2 := SysDo(s, e);
      CallsAreBoundaries(s, e);
      ControllerKeepsOwned(s, e);
      forall r
        ensures LocalOk(s2, r) && (r in s2.runs ==> RunOk(s2, r))
      {
        if r != e.r {
          OtherOk(s, e, r);
        } else {
          OwnLocal(s, e);
          if r in s2.runs {
            OwnRun(s, e);
          }
        }
      }
    }
  }

  lemma {:induction false} TraceKeepsInv(s: Sys, events: seq<Event>, s2: Sys)
    requires SysInv(s) && Trace(s, events, s2)
    ensures SysInv(s2)
    decreases |events|
  {
    if events != [] {
      SystemKeepsInv(s, events[0]);
      TraceKeepsInv(SysDo(s, events[0]), events[1..], s2);
    }
  }

  lemma SysInitialInv(s: Sys)
    requires SysInitial(s)
    ensures SysInv(s)
  {
    InitialInv(s.p);
    forall r
      ensures LocalOk(s, r)
    {
      assert RunPc(s, r) == Idle;
    }
  }

  // ---- the promises ----

  /**
   Until a run is being undone, the entry behind each of its succeeded steps holds exactly that
   reference once and is not being deleted, whatever other runs apply, retry or roll back; a
   Ready run holds one for every step of its plan.
   */
  lemma ReadyIsNeverUndermined(s: Sys, events: seq<Event>, s2: Sys, r: string, i: nat)
    requires SysInitial(s) && Trace(s, events, s2) && r in s2.runs && !Undone(s2.runs[r].phase)
    requires i < |s2.runs[r].steps| && (s2.runs[r].steps[i].phase == StepSucceeded || s2.runs[r].phase == Ready)
    ensures var st := s2.runs[r].steps[i];
            && st.resource.Some? && st.resource.value in s2.p.store
            && var e := s2.p.store[st.resource.value].entry;
               && !e.terminating && multiset(e.refs)[Ref(r, st.key)] == 1
    ensures s2.runs[r].phase == Ready ==>
              |s2.runs[r].steps| == |s2.runs[r].plan| && s2.runs[r].steps[i].key == s2.runs[r].plan[i]
  {
    SysInitialInv(s);
    TraceKeepsInv(s, events, s2);
    assert RunOk(s2, r);
    var st := s2.runs[r].steps[i];
    assert HasRef(s2.p, st.resource.value, Ref(r, st.key));
    OncePerEntry(s2.p.store[st.resource.value].entry.refs, Ref(r, st.key));
  }

  /** Every reference in the ledger names a run that still carries the finalizer and is not RolledBack. */
  lemma NoDanglingOwnership(s: Sys, events: seq<Event>, s2: Sys, k: Key, ref: Ref)
    requires SysInitial(s) && Trace(s, events, s2) && HasRef(s2.p, k, ref)
    ensures ref.run in s2.runs && s2.runs[ref.run].finalizer && s2.runs[ref.run].phase != RolledBack
  {
    SysInitialInv(s);
    TraceKeepsInv(s, events, s2);
  }

  /** What later states may make of a run that existed before. */
  ghost predicate Onward(s: Sys, s2: Sys) {
    && s.births <= s2.births
    && forall r :: r in s2.runs && s2.runs[r].born < s.births ==>
         && r in s.runs && s2.runs[r].born == s.runs[r].born
         && (s.runs[r].phase == RolledBack ==> s2.runs[r].phase == RolledBack)
         && (Undone(s.runs[r].phase) ==> Undone(s2.runs[r].phase) && Shrinks(s, s2, r))
  }

  /** Run r holds nothing it did not hold before. */
  ghost predicate Shrinks(s: Sys, s2: Sys, r: string) {
    forall k, ref: Ref :: ref.run == r && HasRef(s2.p, k, ref) ==> HasRef(s.p, k, ref)
  }

  lemma LedgerOnward(s: Sys, a: Actor, act: Act)
    requires SysInv(s) && SysCan(s, Ledger(a, act))
    ensures Onward(s, SysDo(s, Ledger(a, act)))
  {
    var s2 := SysDo(s, Ledger(a, act));
    forall r, k, ref: Ref | r in s.runs && Undone(s.runs[r].phase) && ref.run == r && HasRef(s2.p, k, ref)
      ensures HasRef(s.p, k, ref)
    {
      assert LocalOk(s, r);
      if !HasRef(s.p, k, ref) {
        OnlyEnsureAdds(s.p, a, act, k, ref);
      }
    }
  }

  /** The only objects an event touches are those of its own run. */
  lemma OwnPhase(s: Sys, e: Event)
    requires SysInv(s) && SysCan(s, e) && !e.Ledger? && e.r in SysDo(s, e).runs && SysDo(s, e).runs[e.r].born < s.births
    ensures e.r in s.runs && SysDo(s, e).runs[e.r].born == s.runs[e.r].born
    ensures s.runs[e.r].phase == RolledBack ==> SysDo(s, e).runs[e.r].phase == RolledBack
    ensures Undone(s.runs[e.r].phase) ==> Undone(SysDo(s, e).runs[e.r].phase)
  {
    assert LocalOk(s, e.r);
    if InMemory(e) {
      MemoryOnly(s, e);
    }
  }

  lemma SameRefs(s: Sys, s2: Sys, r: string)
    requires s2.p.store == s.p.store
    ensures Shrinks(s, s2, r)
  {
  }

  lemma StepOnward(s: Sys, e: Event)
    requires SysInv(s) && SysCan(s, e)
    ensures Onward(s, SysDo(s, e))
  {
    if e.Ledger? {
      LedgerOnward(s, e.a, e.act);
    } else {
      var s2 := SysDo(s, e);
      OtherRuns(s, e);
      CallsAreBoundaries(s, e);
      forall r | r in s2.runs && s2.runs[r].born < s.births
        ensures r in s.runs && s2.runs[r].born == s.runs[r].born && Shrinks(s, s2, r)
        ensures s.runs[r].phase == RolledBack ==> s2.runs[r].phase == RolledBack
        ensures Undone(s.runs[r].phase) ==> Undone(s2.runs[r].phase)
      {
        SameRefs(s, s2, r);
        if r == e.r {
          OwnPhase(s, e);
        }
      }
    }
  }

  /**
   The rollback phases are absorbing and RolledBack is final; from the moment rollback starts the
   run gains no reference any more, even if desiredState is flipped back.
   */
  lemma {:induction false} RollbackIsAbsorbing(s: Sys, events: seq<Event>, s2: Sys)
    requires SysInv(s) && Trace(s, events, s2)
    ensures Onward(s, s2)
    decreases |events|
  {
    if events != [] {
      var s1 := SysDo(s, events[0]);
      SystemKeepsInv(s, events[0]);
      StepOnward(s, events[0]);
      RollbackIsAbsorbing(s1, events[1..], s2);
    }
  }

  /** Once a run is being undone, its actor makes no call that provisions anything. */
  lemma NothingIsProvisionedAfterRollback(s: Sys, events: seq<Event>, s2: Sys, r: string, act: Act)
    requires SysInitial(s) && Trace(s, events, s2) && r in s2.runs && Undone(s2.runs[r].phase)
    requires SysCan(s2, Ledger(Run(r), act)) && !Outside(act)
    ensures !EnsureCall(act)
  {
    SysInitialInv(s);
    TraceKeepsInv(s, events, s2);
    assert LocalOk(s2, r);
  }

  // ---- the resources behind succeeded steps ----

  ghost predicate HandDelete(e: Event, k: Key) {
    e.Ledger? && e.act == OutsiderDeletes(k)
  }

  /** One event of anybody, while the run is not being undone. */
  lemma HeldResourceOneEvent(s: Sys, e: Event, k: Key, ref: Ref)
    requires SysInv(s) && SysCan(s, e) && HasRef(s.p, k, ref) && ref.run in s.runs && !Undone(s.runs[ref.run].phase)
    ensures HasRef(SysDo(s, e).p, k, ref)
    ensures k in s.p.up && !HandDelete(e, k) ==> k in SysDo(s, e).p.up
  {
    if e.Ledger? {
      assert LocalOk(s, ref.run);
      if !HasRef(Do(s.p, e.a, e.act), k, ref) {
        OnlyTheOwnerReleases(s.p, e.a, e.act, k, ref);
      }
      if k in s.p.up && k !in Do(s.p, e.a, e.act).up && !HandDelete(e, k) {
        DeletionSafety(s.p, e.a, e.act, k);
      }
    } else {
      CallsAreBoundaries(s, e);
    }
  }

  lemma {:induction false} HeldResourceStays(s: Sys, events: seq<Event>, s2: Sys, k: Key, ref: Ref)
    requires SysInv(s) && Trace(s, events, s2) && HasRef(s.p, k, ref)
    requires ref.run in s.runs && ref.run in s2.runs && s2.runs[ref.run].born == s.runs[ref.run].born
    requires !Undone(s2.runs[ref.run].phase)
    ensures HasRef(s2.p, k, ref)
    ensures k in s.p.up && (forall e :: e in events ==> !HandDelete(e, k)) ==> k in s2.p.up
    decreases |events|
  {
    if events != [] {
      var e := events[0];
      var s1 := SysDo(s, e);
      RollbackIsAbsorbing(s, events, s2);
      SystemKeepsInv(s, e);
      StepOnward(s, e);
      RollbackIsAbsorbing(s1, events[1..], s2);
      assert RunOk(s, ref.run) && s2.runs[ref.run].born < s.births;
      HeldResourceOneEvent(s, e, k, ref);
      HeldResourceStays(s1, events[1..], s2, k, ref);
    }
  }

  /**
   Once a step has succeeded, then for as long as its run exists and is not being undone, nothing any
   run, rollback or sweep does takes its reference, or the upstream resource behind it, away; only
   somebody outside the wizard can delete that.
   */
  lemma SucceededResourcesStay(s0: Sys, before: seq<Event>, s: Sys, events: seq<Event>, s2: Sys, r: string, i: nat)
    requires SysInitial(s0) && Trace(s0, before, s) && Trace(s, events, s2)
    requires r in s.runs && r in s2.runs && s2.runs[r].born == s.runs[r].born && !Undone(s2.runs[r].phase)
    requires i < |s.runs[r].steps| && s.runs[r].steps[i].phase == StepSucceeded
    ensures var st := s.runs[r].steps[i];
            && st.resource.Some? && HasRef(s2.p, st.resource.value, Ref(r, st.key))
            && (st.resource.value in s.p.up && (forall e :: e in events ==> !HandDelete(e, st.resource.value)) ==>
                  st.resource.value in s2.p.up)
  {
    SysInitialInv(s0);
    TraceKeepsInv(s0, before, s);
    RollbackIsAbsorbing(s, events, s2);
    assert RunOk(s, r);
    var st := s.runs[r].steps[i];
    HeldResourceStays(s, events, s2, st.resource.value, Ref(r, st.key));
  }
}
