/**
 The controller of `Reconciler`, with its clocks, failures and outputs, refines the controller of
 `System`.  Given what everybody did between its reconciles and during each Ensure it called, its
 whole history is one schedule of System, which leaves the same status behind.  So what System proves
 of runs holds of it.
 */
module Refinement {
  import opened Types
  import opened Phases
  import opened Plan
  import LedgerRules
  import P = Protocol
  import R = Reconciler
  import RT = ReconcilerTheorems
  import S = System
  import ST = SystemTheorems
  import Safety
  import opened Serving

  /** A step status as System sees it; resource names the upstream resource of each step instance. */
  function Seen(s: R.StepStatus, resource: string -> Key): S.StepRecord {
    S.StepRecord(s.key, s.phase, if s.phase == StepSucceeded then Some(resource(s.key)) else None)
  }

  function SeenAll(steps: seq<R.StepStatus>, resource: string -> Key): (out: seq<S.StepRecord>)
    ensures |out| == |steps|
  {
    seq(|steps|, i requires 0 <= i < |steps| => Seen(steps[i], resource))
  }

  function KeysIn(insts: seq<Instance>): seq<string> {
    seq(|insts|, i requires 0 <= i < |insts| => insts[i].key)
  }

  lemma {:induction false} FindSeen(steps: seq<R.StepStatus>, key: string, resource: string -> Key)
    ensures S.Find(SeenAll(steps, resource), key) ==
              match R.Find(steps, key)
              case None => None
              case Some(s) => Some(Seen(s, resource))
  {
    if steps != [] {
      FindSeen(steps[1..], key, resource);
      assert SeenAll(steps, resource)[1..] == SeenAll(steps[1..], resource);
    }
  }

  /** An apply reconcile starts from the same steps in both. */
  lemma {:induction false} StartsAlike(st: R.Status, insts: seq<Instance>, retry: bool, resource: string -> Key)
    ensures var synced := S.Sync(SeenAll(st.steps, resource), KeysIn(insts));
            SeenAll(R.Prepared(st, insts, retry), resource) == if retry then S.Reset(synced) else synced
  {
    var synced := S.Sync(SeenAll(st.steps, resource), KeysIn(insts));
    forall i | 0 <= i < |insts|
      ensures Seen(R.Synced(st.steps, insts)[i], resource) == synced[i]
      ensures retry ==> Seen(R.ResetAll(R.Synced(st.steps, insts))[i], resource) == S.Reset(synced)[i]
    {
      FindSeen(st.steps, insts[i].key, resource);
    }
  }

  lemma {:induction false} SeenUpdate(steps: seq<R.StepStatus>, i: nat, s: R.StepStatus, resource: string -> Key)
    requires i < |steps|
    ensures SeenAll(steps[i := s], resource) == SeenAll(steps, resource)[i := Seen(s, resource)]
  {
  }

  // ---- one turn of the loop ----

  /** In System, run r's reconciler stands before instance i with these steps in memory. */
  ghost predicate StandsAt(sys: S.Sys, r: string, steps: seq<R.StepStatus>, i: nat, resource: string -> Key) {
    S.LocalOf(sys, r) == S.Applying(SeenAll(steps, resource), i)
  }

  /** In System, it is about to write this status. */
  ghost predicate Writes(sys: S.Sys, r: string, steps: seq<R.StepStatus>, phase: Phase, resource: string -> Key) {
    S.LocalOf(sys, r) == S.Patching(SeenAll(steps, resource), phase)
  }

  /** Does the loop go on past instance i? */
  predicate GoesOn(steps: seq<R.StepStatus>, insts: seq<Instance>, i: nat, outputs: R.Outputs, turn: R.Turn)
    requires |steps| == |insts| && i <= |insts|
  {
    && i < |insts| && steps[i].phase != StepFailed
    && (steps[i].phase == StepSucceeded || (turn.configured && R.RunOne(steps[i], insts[i], turn, outputs).1 == R.Done))
  }

  /** The status it then has of instance i. */
  function Passed(s: R.StepStatus, in_: Instance, outputs: R.Outputs, turn: R.Turn): R.StepStatus {
    if s.phase == StepSucceeded then s else R.RunOne(s, in_, turn, outputs).0
  }

  lemma {:induction false} WalkGoesOn(steps: seq<R.StepStatus>, insts: seq<Instance>, i: nat, outputs: R.Outputs,
                                      turn: R.Turn, asked: seq<string>)
    returns (asked2: seq<string>)
    requires |steps| == |insts| && i <= |insts| && GoesOn(steps, insts, i, outputs, turn)
    ensures var s := Passed(steps[i], insts[i], outputs, turn);
            R.Walk(steps, insts, i, outputs, turn, asked) ==
              R.Walk(steps[i := s], insts, i + 1, R.WithOutputs(outputs, insts[i], s), turn, asked2)
  {
    asked2 := if steps[i].phase != StepSucceeded && R.Called(insts[i], turn, outputs) then asked + [insts[i].key]
        else asked;
    assert steps[i].phase == StepSucceeded ==> steps[i := steps[i]] == steps;
  }

  // ---- what the ledger did meanwhile ----

  /** One Ensure a step called: what it asked for, and what everybody did until it returned. */
  datatype Service = Service(want: P.Want, calls: seq<S.Event>)

  /** What happened before a reconcile and the Ensures it called, in order. */
  datatype Meeting = Meeting(before: seq<S.Event>, visit: RT.Visit, services: seq<Service>)

  /** Ledger calls of anybody, and whatever else happens to other runs. */
  ghost predicate Foreign(events: seq<S.Event>, r: string) {
    forall e :: e in events ==> e.Ledger? || e.r != r
  }

  /** Where events lead, as far as they can happen. */
  ghost function End(sys: S.Sys, events: seq<S.Event>): S.Sys
    decreases |events|
  {
    if events == [] || !S.SysCan(sys, events[0]) then sys else End(S.SysDo(sys, events[0]), events[1..])
  }

  lemma {:induction false} TraceIsEnd(sys: S.Sys, events: seq<S.Event>, sys2: S.Sys)
    requires S.Trace(sys, events, sys2)
    ensures sys2 == End(sys, events)
    decreases |events|
  {
    if events != [] {
      TraceIsEnd(S.SysDo(sys, events[0]), events[1..], sys2);
    }
  }

  function Ensured(r: string, sv: Service): seq<S.Event> {
    [S.CallEnsure(r, sv.want)] + sv.calls
  }

  /** The service is one of the step with this key, and it could be given. */
  ghost predicate Serves(sys: S.Sys, r: string, key: string, sv: Service) {
    sv.want.ref == Ref(r, key) && Foreign(sv.calls, r) && S.Trace(sys, Ensured(r, sv), End(sys, Ensured(r, sv)))
  }

  /** Is instance i run, to no completion? */
  predicate Stops(steps: seq<R.StepStatus>, insts: seq<Instance>, i: nat, turn: R.Turn)
    requires |steps| == |insts| && i <= |insts|
  {
    i < |insts| && steps[i].phase !in {StepSucceeded, StepFailed} && turn.configured
  }

  /**
   The services agree with what the steps answered: an instance that completed had its own resource
   ensured; one that was run and did not complete called no Ensure, or one that gave up.
   */
  ghost predicate Answered(sys: S.Sys, r: string, steps: seq<R.StepStatus>, insts: seq<Instance>, i: nat,
                           outputs: R.Outputs, turn: R.Turn, services: seq<Service>, resource: string -> Key)
    requires |steps| == |insts| && i <= |insts|
    decreases |insts| - i
  {
    if !GoesOn(steps, insts, i, outputs, turn) then
      services != [] ==>
        && |services| == 1 && Stops(steps, insts, i, turn) && Serves(sys, r, steps[i].key, services[0])
        && S.RunPc(End(sys, Ensured(r, services[0])), r).Idle?
    else
      var s := Passed(steps[i], insts[i], outputs, turn);
      var outputs2 := R.WithOutputs(outputs, insts[i], s);
      if steps[i].phase == StepSucceeded then
        Answered(End(sys, [S.PassSucceeded(r)]), r, steps, insts, i + 1, outputs2, turn, services, resource)
      else
        && services != [] && Serves(sys, r, steps[i].key, services[0]) && services[0].want.key == resource(steps[i].key)
        && var called := End(sys, Ensured(r, services[0]));
           && S.RunPc(called, r).EnsureDone?
           && Answered(End(called, [S.EnsureOk(r)]), r, steps[i := s], insts, i + 1, outputs2, turn, services[1..],
               resource)
  }

  /** The events of a walk, with these services. */
  function Script(r: string, steps: seq<R.StepStatus>, insts: seq<Instance>, i: nat, outputs: R.Outputs, turn: R.Turn,
                  services: seq<Service>): seq<S.Event>
    requires |steps| == |insts| && i <= |insts|
    decreases |insts| - i
  {
    if !GoesOn(steps, insts, i, outputs, turn) then LastEvents(r, steps, insts, i, outputs, turn, services)
    else
      var s := Passed(steps[i], insts[i], outputs, turn);
      var outputs2 := R.WithOutputs(outputs, insts[i], s);
      if steps[i].phase == StepSucceeded then
        [S.PassSucceeded(r)] + Script(r, steps, insts, i + 1, outputs2, turn, services)
      else if services == [] then []
      else
        var first := Ensured(r, services[0]) + [S.EnsureOk(r)];
        first + Script(r, steps[i := s], insts, i + 1, outputs2, turn, services[1..])
  }

  /** And where it ends. */
  function LastEvents(r: string, steps: seq<R.StepStatus>, insts: seq<Instance>, i: nat, outputs: R.Outputs,
                      turn: R.Turn, services: seq<Service>): seq<S.Event>
    requires |steps| == |insts| && i <= |insts|
  {
    if i == |insts| then [S.AllDone(r)]
    else if steps[i].phase == StepFailed then [S.StopFailed(r)]
    else if !turn.configured then [S.NoConfig(r)]
    else
      var fails := R.RunOne(steps[i], insts[i], turn, outputs).1 == R.Stop;
      if services == [] then [S.NoCall(r, fails)] else Ensured(r, services[0]) + [S.EnsureNotOk(r, fails)]
  }

  // ---- others leave the run alone ----

  lemma {:induction false} ForeignLeavesRun(sys: S.Sys, events: seq<S.Event>, sys2: S.Sys, r: string)
    requires S.Trace(sys, events, sys2) && Foreign(events, r)
    ensures S.LocalOf(sys2, r) == S.LocalOf(sys, r) && (r in sys2.runs <==> r in sys.runs)
    ensures r in sys.runs ==> sys2.runs[r] == sys.runs[r]
    decreases |events|
  {
    if events != [] {
      assert events[0] in events && forall e :: e in events[1..] ==> e in events;
      if !events[0].Ledger? {
        ST.OtherRuns(sys, events[0]);
      }
      ForeignLeavesRun(S.SysDo(sys, events[0]), events[1..], sys2, r);
    }
  }

  /** Where an Ensure that asked for w can stand. */
  ghost predicate Asking(pc: P.Pc, w: P.Want) {
    pc.Idle? || (ST.InEnsure(pc, w.ref) && pc.w == w)
  }

  lemma WantStays(p: P.State, a: P.Actor, act: P.Act, w: P.Want)
    requires P.Can(p, a, act) && S.Driven(act) && Asking(P.PcOf(p, a), w)
    ensures Asking(P.PcOf(P.Do(p, a, act), a), w)
  {
  }

  lemma {:induction false} EnsureKeepsWant(sys: S.Sys, events: seq<S.Event>, sys2: S.Sys, r: string, w: P.Want)
    requires ST.SysInv(sys) && S.Trace(sys, events, sys2) && Foreign(events, r) && Asking(S.RunPc(sys, r), w)
    ensures Asking(S.RunPc(sys2, r), w)
    decreases |events|
  {
    if events != [] {
      var e := events[0];
      assert e in events && forall e2 :: e2 in events[1..] ==> e2 in events;
      ST.SystemKeepsInv(sys, e);
      if !e.Ledger? {
        ST.CallsAreBoundaries(sys, e);
      } else if e.a == P.Run(r) && !Safety.Outside(e.act) {
        WantStays(sys.p, e.a, e.act, w);
      } else {
        Safety.OthersStay(sys.p, e.a, e.act, P.Run(r));
      }
      EnsureKeepsWant(S.SysDo(sys, e), events[1..], sys2, r, w);
    }
  }

  // ---- one turn of the loop is a part of a schedule ----

  /** An Ensure that instance i called leaves the reconciler before the same instance. */
  lemma {:induction false} EnsureRuns(sys: S.Sys, r: string, steps: seq<R.StepStatus>, i: nat, sv: Service,
                                      resource: string -> Key)
    returns (called: S.Sys)
    requires ST.SysInv(sys) && StandsAt(sys, r, steps, i, resource) && i < |steps| && Serves(sys, r, steps[i].key, sv)
    ensures S.Trace(sys, Ensured(r, sv), called) && called == End(sys, Ensured(r, sv))
    ensures S.LocalOf(called, r) == S.Ensuring(SeenAll(steps, resource), i) && Asking(S.RunPc(called, r), sv.want)
  {
    called := End(sys, Ensured(r, sv));
    var e := S.CallEnsure(r, sv.want);
    assert Ensured(r, sv)[1..] == sv.calls;
    ST.SystemKeepsInv(sys, e);
    ForeignLeavesRun(S.SysDo(sys, e), sv.calls, called, r);
    EnsureKeepsWant(S.SysDo(sys, e), sv.calls, called, r, sv.want);
  }

  /** An instance is run to no completion. */
  lemma {:induction false} StopsAlike(sys: S.Sys, r: string, steps: seq<R.StepStatus>, i: nat, s: R.StepStatus,
                                      fails: bool, services: seq<Service>, resource: string -> Key)
    returns (sys2: S.Sys)
    requires ST.SysInv(sys) && StandsAt(sys, r, steps, i, resource) && i < |steps|
             && steps[i].phase !in {StepSucceeded, StepFailed}
    requires s.key == steps[i].key && s.phase == if fails then StepFailed else StepRunning
    requires services != [] ==>
               Serves(sys, r, steps[i].key, services[0]) && S.RunPc(End(sys, Ensured(r, services[0])), r).Idle?
    ensures var events := if services == [] then [S.NoCall(r, fails)]
            else Ensured(r, services[0]) + [S.EnsureNotOk(r, fails)];
            S.Trace(sys, events, sys2)
    ensures Writes(sys2, r, steps[i := s], if fails then Failed else Running, resource)
  {
    SeenUpdate(steps, i, s, resource);
    if services != [] {
      var called := EnsureRuns(sys, r, steps, i, services[0], resource);
      var e := S.EnsureNotOk(r, fails);
      OneEvent(called, e);
      sys2 := S.SysDo(called, e);
      TraceOn(sys, Ensured(r, services[0]), called, [e], sys2);
    } else {
      var e := S.NoCall(r, fails);
      OneEvent(sys, e);
      sys2 := S.SysDo(sys, e);
    }
  }

  /** The walk ends without running an instance. */
  lemma {:induction false} HaltsAlike(sys: S.Sys, r: string, steps: seq<R.StepStatus>, insts: seq<Instance>, i: nat,
                                      outputs: R.Outputs, turn: R.Turn, asked: seq<string>, resource: string -> Key)
    returns (sys2: S.Sys)
    requires ST.SysInv(sys) && StandsAt(sys, r, steps, i, resource) && |steps| == |insts| && i <= |insts|
    requires !GoesOn(steps, insts, i, outputs, turn) && !Stops(steps, insts, i, turn)
    ensures S.Trace(sys, LastEvents(r, steps, insts, i, outputs, turn, []), sys2)
    ensures var p := R.Walk(steps, insts, i, outputs, turn, asked); Writes(sys2, r, p.steps, p.phase, resource)
  {
    var e := if i == |insts| then S.AllDone(r) else if steps[i].phase == StepFailed then S.StopFailed(r)
        else S.NoConfig(r);
    OneEvent(sys, e);
    sys2 := S.SysDo(sys, e);
  }

  /** The walk ends here, in System with the same status and phase. */
  lemma {:induction false} EndsAlike(sys: S.Sys, r: string, steps: seq<R.StepStatus>, insts: seq<Instance>, i: nat,
                                     outputs: R.Outputs, turn: R.Turn, asked: seq<string>, services: seq<Service>,
                                     resource: string -> Key)
    returns (sys2: S.Sys)
    requires ST.SysInv(sys) && StandsAt(sys, r, steps, i, resource) && |steps| == |insts| && i <= |insts|
    requires !GoesOn(steps, insts, i, outputs, turn)
             && Answered(sys, r, steps, insts, i, outputs, turn, services, resource)
    ensures S.Trace(sys, LastEvents(r, steps, insts, i, outputs, turn, services), sys2)
    ensures var p := R.Walk(steps, insts, i, outputs, turn, asked); Writes(sys2, r, p.steps, p.phase, resource)
  {
    if Stops(steps, insts, i, turn) {
      var (s, outcome) := R.RunOne(steps[i], insts[i], turn, outputs);
      sys2 := StopsAlike(sys, r, steps, i, s, outcome == R.Stop, services, resource);
    } else {
      sys2 := HaltsAlike(sys, r, steps, insts, i, outputs, turn, asked, resource);
    }
  }

  /** An instance that succeeded before is passed. */
  lemma {:induction false} PassesAlike(sys: S.Sys, r: string, steps: seq<R.StepStatus>, i: nat, resource: string -> Key)
    returns (sys2: S.Sys)
    requires StandsAt(sys, r, steps, i, resource) && i < |steps| && steps[i].phase == StepSucceeded
    ensures S.Trace(sys, [S.PassSucceeded(r)], sys2) && sys2 == End(sys, [S.PassSucceeded(r)])
    ensures StandsAt(sys2, r, steps, i + 1, resource)
  {
    OneEvent(sys, S.PassSucceeded(r));
    sys2 := S.SysDo(sys, S.PassSucceeded(r));
    TraceIsEnd(sys, [S.PassSucceeded(r)], sys2);
  }

  /** An instance completes: System's reconciler goes on to the next one with its step recorded. */
  lemma {:induction false} CompletesAlike(sys: S.Sys, r: string, steps: seq<R.StepStatus>, i: nat, s: R.StepStatus,
                                          sv: Service, resource: string -> Key)
    returns (sys2: S.Sys)
    requires ST.SysInv(sys) && StandsAt(sys, r, steps, i, resource) && i < |steps| && Serves(sys, r, steps[i].key, sv)
    requires s.key == steps[i].key && s.phase == StepSucceeded && sv.want.key == resource(s.key)
    requires S.RunPc(End(sys, Ensured(r, sv)), r).EnsureDone?
    ensures S.Trace(sys, Ensured(r, sv) + [S.EnsureOk(r)], sys2) && StandsAt(sys2, r, steps[i := s], i + 1, resource)
    ensures sys2 == End(End(sys, Ensured(r, sv)), [S.EnsureOk(r)])
  {
    var called := EnsureRuns(sys, r, steps, i, sv, resource);
    var e := S.EnsureOk(r);
    SeenUpdate(steps, i, s, resource);
    OneEvent(called, e);
    sys2 := S.SysDo(called, e);
    TraceOn(sys, Ensured(r, sv), called, [e], sys2);
    TraceIsEnd(called, [e], sys2);
  }

  /** The events first take the loop past instance i, with these services left for the next turns. */
  ghost predicate GoesOnTo(sys: S.Sys, r: string, steps: seq<R.StepStatus>, insts: seq<Instance>, i: nat,
                           outputs: R.Outputs, turn: R.Turn, services: seq<Service>, resource: string -> Key,
                           first: seq<S.Event>, mid: S.Sys, left: seq<Service>)
    requires |steps| == |insts| && i < |insts|
  {
    var s := Passed(steps[i], insts[i], outputs, turn);
    var outputs2 := R.WithOutputs(outputs, insts[i], s);
    && S.Trace(sys, first, mid) && StandsAt(mid, r, steps[i := s], i + 1, resource)
    && Answered(mid, r, steps[i := s], insts, i + 1, outputs2, turn, left, resource)
    && Script(r, steps, insts, i, outputs, turn, services) ==
         first + Script(r, steps[i := s], insts, i + 1, outputs2, turn, left)
  }

  lemma {:induction false} PassTurn(sys: S.Sys, r: string, steps: seq<R.StepStatus>, insts: seq<Instance>, i: nat,
                                    outputs: R.Outputs, turn: R.Turn, services: seq<Service>, resource: string -> Key)
    returns (mid: S.Sys)
    requires StandsAt(sys, r, steps, i, resource) && |steps| == |insts| && i < |insts|
    requires steps[i].phase == StepSucceeded && Answered(sys, r, steps, insts, i, outputs, turn, services, resource)
    ensures GoesOnTo(sys, r, steps, insts, i, outputs, turn, services, resource, [S.PassSucceeded(r)], mid, services)
  {
    assert steps[i := steps[i]] == steps;
    mid := PassesAlike(sys, r, steps, i, resource);
  }

  lemma {:induction false} CompleteTurn(sys: S.Sys, r: string, steps: seq<R.StepStatus>, insts: seq<Instance>, i: nat,
                                        outputs: R.Outputs, turn: R.Turn, services: seq<Service>,
                                        resource: string -> Key)
    returns (mid: S.Sys)
    requires ST.SysInv(sys) && StandsAt(sys, r, steps, i, resource) && |steps| == |insts| && i < |insts|
    requires GoesOn(steps, insts, i, outputs, turn) && steps[i].phase != StepSucceeded
    requires Answered(sys, r, steps, insts, i, outputs, turn, services, resource)
    ensures services != []
    ensures GoesOnTo(sys, r, steps, insts, i, outputs, turn, services, resource,
                     Ensured(r, services[0]) + [S.EnsureOk(r)], mid, services[1..])
  {
    var s := Passed(steps[i], insts[i], outputs, turn);
    mid := CompletesAlike(sys, r, steps, i, s, services[0], resource);
  }

  /** One turn of the loop that goes on. */
  lemma {:induction false} TurnIsTrace(sys: S.Sys, r: string, steps: seq<R.StepStatus>, insts: seq<Instance>, i: nat,
                                       outputs: R.Outputs, turn: R.Turn, services: seq<Service>,
                                       resource: string -> Key)
    returns (first: seq<S.Event>, mid: S.Sys, left: seq<Service>)
    requires ST.SysInv(sys) && StandsAt(sys, r, steps, i, resource) && |steps| == |insts| && i <= |insts|
    requires GoesOn(steps, insts, i, outputs, turn)
             && Answered(sys, r, steps, insts, i, outputs, turn, services, resource)
    ensures GoesOnTo(sys, r, steps, insts, i, outputs, turn, services, resource, first, mid, left) && ST.SysInv(mid)
  {
    if steps[i].phase == StepSucceeded {
      mid := PassTurn(sys, r, steps, insts, i, outputs, turn, services, resource);
      first, left := [S.PassSucceeded(r)], services;
    } else {
      mid := CompleteTurn(sys, r, steps, insts, i, outputs, turn, services, resource);
      first, left := Ensured(r, services[0]) + [S.EnsureOk(r)], services[1..];
    }
    ST.TraceKeepsInv(sys, first, mid);
  }

  // ---- whole walks, whole reconciles, whole histories ----

  /** A whole walk over the steps, with what happened during its Ensures, is a trace of System. */
  lemma {:induction false} WalkIsTrace(sys: S.Sys, r: string, steps: seq<R.StepStatus>, insts: seq<Instance>, i: nat,
                                       outputs: R.Outputs, turn: R.Turn, asked: seq<string>, services: seq<Service>,
                                       resource: string -> Key) returns (sys2: S.Sys)
    requires ST.SysInv(sys) && StandsAt(sys, r, steps, i, resource) && |steps| == |insts| && i <= |insts|
    requires Answered(sys, r, steps, insts, i, outputs, turn, services, resource)
    ensures S.Trace(sys, Script(r, steps, insts, i, outputs, turn, services), sys2)
    ensures var p := R.Walk(steps, insts, i, outputs, turn, asked); Writes(sys2, r, p.steps, p.phase, resource)
    decreases |insts| - i
  {
    if !GoesOn(steps, insts, i, outputs, turn) {
      sys2 := EndsAlike(sys, r, steps, insts, i, outputs, turn, asked, services, resource);
    } else {
      var first, mid, left := TurnIsTrace(sys, r, steps, insts, i, outputs, turn, services, resource);
      var asked2 := WalkGoesOn(steps, insts, i, outputs, turn, asked);
      var s := Passed(steps[i], insts[i], outputs, turn);
      var outputs2 := R.WithOutputs(outputs, insts[i], s);
      sys2 := WalkIsTrace(mid, r, steps[i := s], insts, i + 1, outputs2, turn, asked2, left, resource);
      TraceOn(sys, first, mid, Script(r, steps[i := s], insts, i + 1, outputs2, turn, left), sys2);
    }
  }

  /** Run r of System is at rest and has the status st. */
  ghost predicate Shows(sys: S.Sys, r: string, st: R.Status, insts: seq<Instance>, resource: string -> Key) {
    && ST.SysInv(sys) && r in sys.runs && S.LocalOf(sys, r).Resting?
    && var run := sys.runs[r];
       && run.finalizer && !run.deleting && !run.undo && run.plan == KeysIn(insts)
       && run.steps == SeenAll(st.steps, resource) && run.phase == st.phase
  }

  /** The same status, with a retry asked for or not. */
  ghost predicate ShowsRetry(sys: S.Sys, r: string, st: R.Status, insts: seq<Instance>, resource: string -> Key,
                             retry: bool) {
    Shows(sys, r, st, insts, resource) && sys.runs[r].retry == retry
  }

  /** Where the walk of a reconcile starts. */
  ghost predicate AnsweredFrom(sys: S.Sys, r: string, st: R.Status, insts: seq<Instance>, v: RT.Visit,
                               services: seq<Service>, resource: string -> Key)
  {
    Answered(End(sys, Opening(r, v)), r, R.Prepared(st, insts, v.retry), insts, 0, map[], v.turn, services, resource)
  }

  /** A retry is asked for before the reconcile that honours it, and cleared after it. */
  function Opening(r: string, v: RT.Visit): seq<S.Event> {
    (if v.retry then [S.AskRetry(r)] else []) + [S.StartApply(r)]
  }

  function Closing(r: string, v: RT.Visit): seq<S.Event> {
    [S.PatchStatus(r)] + if v.retry then [S.ClearRetry(r)] else []
  }

  function VisitScript(r: string, st: R.Status, insts: seq<Instance>, m: Meeting): seq<S.Event> {
    Opening(r, m.visit) + Script(r, R.Prepared(st, insts, m.visit.retry), insts, 0, map[], m.visit.turn, m.services)
    + Closing(r, m.visit)
  }

  lemma {:induction false} Opens(sys: S.Sys, r: string, st: R.Status, insts: seq<Instance>, v: RT.Visit,
                                 resource: string -> Key)
    returns (sys2: S.Sys)
    requires ShowsRetry(sys, r, st, insts, resource, false) && !Undone(st.phase)
    ensures S.Trace(sys, Opening(r, v), sys2) && sys2 == End(sys, Opening(r, v)) && ST.SysInv(sys2)
    ensures StandsAt(sys2, r, R.Prepared(st, insts, v.retry), 0, resource)
    ensures r in sys2.runs && sys2.runs[r] == sys.runs[r].(retry := v.retry)
  {
    var start := S.StartApply(r);
    StartsAlike(st, insts, v.retry, resource);
    var asked := sys;
    if v.retry {
      asked := S.SysDo(sys, S.AskRetry(r));
      OneEvent(sys, S.AskRetry(r));
    }
    OneEvent(asked, start);
    sys2 := S.SysDo(asked, start);
    TraceOn(sys, if v.retry then [S.AskRetry(r)] else [], asked, [start], sys2);
    TraceIsEnd(sys, Opening(r, v), sys2);
    ST.TraceKeepsInv(sys, Opening(r, v), sys2);
  }

  lemma {:induction false} Closes(sys: S.Sys, r: string, st: R.Status, insts: seq<Instance>, v: RT.Visit,
                                  run: S.RunObject, resource: string -> Key)
    returns (sys2: S.Sys)
    requires ST.SysInv(sys) && r in sys.runs && sys.runs[r] == run.(retry := v.retry)
    requires run.finalizer && !run.deleting && !run.undo && run.plan == KeysIn(insts) && !run.retry
    requires Writes(sys, r, st.steps, st.phase, resource)
    ensures S.Trace(sys, Closing(r, v), sys2) && ShowsRetry(sys2, r, st, insts, resource, false)
  {
    var patch := S.PatchStatus(r);
    OneEvent(sys, patch);
    var patched := S.SysDo(sys, patch);
    sys2 := patched;
    if v.retry {
      OneEvent(patched, S.ClearRetry(r));
      sys2 := S.SysDo(patched, S.ClearRetry(r));
    }
    TraceOn(sys, [patch], patched, if v.retry then [S.ClearRetry(r)] else [], sys2);
    ST.TraceKeepsInv(sys, Closing(r, v), sys2);
  }

  /** None of the events is one of r's that writes its object. */
  ghost predicate Within(events: seq<S.Event>, r: string) {
    forall e :: e in events ==> e.Ledger? || e.r != r || ST.InMemory(e)
  }

  lemma WithinBoth(events: seq<S.Event>, more: seq<S.Event>, r: string)
    requires Within(events, r) && Within(more, r)
    ensures Within(events + more, r)
  {
  }

  lemma EnsuredWithin(r: string, sv: Service, last: S.Event)
    requires Foreign(sv.calls, r) && ST.InMemory(last)
    ensures Within(Ensured(r, sv) + [last], r)
  {
  }

  /** What a walk of r leaves of its object. */
  lemma {:induction false} ScriptKeepsRun(sys: S.Sys, events: seq<S.Event>, sys2: S.Sys, r: string)
    requires S.Trace(sys, events, sys2) && Within(events, r)
    ensures (r in sys2.runs <==> r in sys.runs) && (r in sys.runs ==> sys2.runs[r] == sys.runs[r])
    decreases |events|
  {
    if events != [] {
      var e := events[0];
      assert e in events && forall e2 :: e2 in events[1..] ==> e2 in events;
      if ST.InMemory(e) {
        ST.MemoryOnly(sys, e);
      } else if !e.Ledger? {
        ST.OtherRuns(sys, e);
      }
      ScriptKeepsRun(S.SysDo(sys, e), events[1..], sys2, r);
    }
  }

  lemma {:induction false} LastWithin(r: string, steps: seq<R.StepStatus>, insts: seq<Instance>, i: nat,
                                      outputs: R.Outputs, turn: R.Turn, services: seq<Service>)
    requires |steps| == |insts| && i <= |insts| && (services != [] ==> Foreign(services[0].calls, r))
    ensures Within(LastEvents(r, steps, insts, i, outputs, turn, services), r)
  {
    if services != [] && Stops(steps, insts, i, turn) {
      EnsuredWithin(r, services[0], S.EnsureNotOk(r, R.RunOne(steps[i], insts[i], turn, outputs).1 == R.Stop));
    }
  }

  lemma {:induction false} ScriptIsInMemory(sys: S.Sys, r: string, steps: seq<R.StepStatus>, insts: seq<Instance>,
                                            i: nat, outputs: R.Outputs, turn: R.Turn, services: seq<Service>,
                                            resource: string -> Key)
    requires |steps| == |insts| && i <= |insts| && Answered(sys, r, steps, insts, i, outputs, turn, services, resource)
    ensures Within(Script(r, steps, insts, i, outputs, turn, services), r)
    decreases |insts| - i
  {
    if GoesOn(steps, insts, i, outputs, turn) {
      var s := Passed(steps[i], insts[i], outputs, turn);
      var outputs2 := R.WithOutputs(outputs, insts[i], s);
      if steps[i].phase == StepSucceeded {
        ScriptIsInMemory(End(sys, [S.PassSucceeded(r)]), r, steps, insts, i + 1, outputs2, turn, services, resource);
        WithinBoth([S.PassSucceeded(r)], Script(r, steps, insts, i + 1, outputs2, turn, services), r);
      } else {
        var called := End(sys, Ensured(r, services[0]));
        ScriptIsInMemory(End(called, [S.EnsureOk(r)]), r, steps[i := s], insts, i + 1, outputs2, turn, services[1..],
                         resource);
        EnsuredWithin(r, services[0], S.EnsureOk(r));
        WithinBoth(Ensured(r, services[0]) + [S.EnsureOk(r)],
                   Script(r, steps[i := s], insts, i + 1, outputs2, turn, services[1..]), r);
      }
    } else {
      LastWithin(r, steps, insts, i, outputs, turn, services);
    }
  }

  /** One reconcile: from the status as it was to the status as the controller leaves it. */
  lemma {:induction false} ReconcileIsTrace(sys: S.Sys, r: string, st: R.Status, insts: seq<Instance>, m: Meeting,
                                            resource: string -> Key)
    returns (sys2: S.Sys)
    requires ShowsRetry(sys, r, st, insts, resource, false) && !Undone(st.phase)
    requires AnsweredFrom(sys, r, st, insts, m.visit, m.services, resource)
    ensures S.Trace(sys, VisitScript(r, st, insts, m), sys2)
    ensures ShowsRetry(sys2, r, R.Advanced(st, insts, m.visit.turn, m.visit.retry), insts, resource, false)
  {
    var v, steps := m.visit, R.Prepared(st, insts, m.visit.retry);
    var open := Opens(sys, r, st, insts, v, resource);
    var script := Script(r, steps, insts, 0, map[], v.turn, m.services);
    var done := WalkIsTrace(open, r, steps, insts, 0, map[], v.turn, [], m.services, resource);
    ST.TraceKeepsInv(open, script, done);
    ScriptIsInMemory(open, r, steps, insts, 0, map[], v.turn, m.services, resource);
    ScriptKeepsRun(open, script, done, r);
    sys2 := Closes(done, r, R.Advanced(st, insts, v.turn, v.retry), insts, v, sys.runs[r], resource);
    TraceOn(sys, Opening(r, v), open, script, done);
    TraceOn(sys, Opening(r, v) + script, done, Closing(r, v), sys2);
  }

  function VisitsOf(meetings: seq<Meeting>): (visits: seq<RT.Visit>)
    ensures |visits| == |meetings|
  {
    seq(|meetings|, i requires 0 <= i < |meetings| => meetings[i].visit)
  }

  /** The whole history, reconcile after reconcile. */
  function HistoryScript(r: string, st: R.Status, insts: seq<Instance>, meetings: seq<Meeting>): seq<S.Event>
    decreases |meetings|
  {
    if meetings == [] then []
    else
      var m := meetings[0];
      (m.before + VisitScript(r, st, insts, m))
      + HistoryScript(r, R.Advanced(st, insts, m.visit.turn, m.visit.retry), insts, meetings[1..])
  }

  /** Everything that is said to have happened between and during its reconciles could happen. */
  ghost predicate HistoryAnswered(sys: S.Sys, r: string, st: R.Status, insts: seq<Instance>, meetings: seq<Meeting>,
                                  resource: string -> Key)
    decreases |meetings|
  {
    meetings != [] ==>
      var m := meetings[0];
      var met := End(sys, m.before);
      && Foreign(m.before, r) && S.Trace(sys, m.before, met)
      && AnsweredFrom(met, r, st, insts, m.visit, m.services, resource)
      && HistoryAnswered(End(met, VisitScript(r, st, insts, m)), r, R.Advanced(st, insts, m.visit.turn, m.visit.retry),
                         insts, meetings[1..], resource)
  }

  lemma {:induction false} StillShows(sys: S.Sys, events: seq<S.Event>, sys2: S.Sys, r: string, st: R.Status,
                                      insts: seq<Instance>, resource: string -> Key)
    requires ShowsRetry(sys, r, st, insts, resource, false) && Foreign(events, r) && S.Trace(sys, events, sys2)
    ensures ShowsRetry(sys2, r, st, insts, resource, false)
  {
    ForeignLeavesRun(sys, events, sys2, r);
    ST.TraceKeepsInv(sys, events, sys2);
  }

  lemma {:induction false} StaysApplying(st: R.Status, insts: seq<Instance>, v: RT.Visit)
    ensures !Undone(R.Advanced(st, insts, v.turn, v.retry).phase)
  {
    RT.WalkPhase(R.Prepared(st, insts, v.retry), insts, 0, map[], v.turn, []);
  }

  /** One reconcile, with what happened before it. */
  lemma {:induction false} MeetingIsTrace(sys: S.Sys, r: string, st: R.Status, insts: seq<Instance>, m: Meeting,
                                          resource: string -> Key)
    returns (sys2: S.Sys)
    requires ShowsRetry(sys, r, st, insts, resource, false) && !Undone(st.phase)
    requires Foreign(m.before, r) && S.Trace(sys, m.before, End(sys, m.before))
    requires AnsweredFrom(End(sys, m.before), r, st, insts, m.visit, m.services, resource)
    ensures S.Trace(sys, m.before + VisitScript(r, st, insts, m), sys2)
    ensures sys2 == End(End(sys, m.before), VisitScript(r, st, insts, m))
    ensures var st2 := R.Advanced(st, insts, m.visit.turn, m.visit.retry);
            ShowsRetry(sys2, r, st2, insts, resource, false) && !Undone(st2.phase)
  {
    var met, script := End(sys, m.before), VisitScript(r, st, insts, m);
    StillShows(sys, m.before, met, r, st, insts, resource);
    StaysApplying(st, insts, m.visit);
    sys2 := ReconcileIsTrace(met, r, st, insts, m, resource);
    TraceIsEnd(met, script, sys2);
    TraceOn(sys, m.before, met, script, sys2);
  }

  lemma {:induction false} AfterOne(st: R.Status, insts: seq<Instance>, meetings: seq<Meeting>)
    requires meetings != []
    ensures var v := meetings[0].visit;
            RT.After(st, insts, VisitsOf(meetings)) ==
              RT.After(R.Advanced(st, insts, v.turn, v.retry), insts, VisitsOf(meetings[1..]))
  {
    assert VisitsOf(meetings)[0] == meetings[0].visit && VisitsOf(meetings)[1..] == VisitsOf(meetings[1..]);
  }

  /** A history of reconciles, with all that happened meanwhile, is a schedule of System that leaves the same status. */
  lemma {:induction false} HistoryIsTrace(sys: S.Sys, r: string, st: R.Status, insts: seq<Instance>,
                                          meetings: seq<Meeting>, resource: string -> Key) returns (sys2: S.Sys)
    requires ShowsRetry(sys, r, st, insts, resource, false) && !Undone(st.phase)
    requires HistoryAnswered(sys, r, st, insts, meetings, resource)
    ensures S.Trace(sys, HistoryScript(r, st, insts, meetings), sys2)
    ensures Shows(sys2, r, RT.After(st, insts, VisitsOf(meetings)), insts, resource)
    ensures !Undone(RT.After(st, insts, VisitsOf(meetings)).phase)
    decreases |meetings|
  {
    if meetings == [] {
      sys2 := sys;
    } else {
      var m := meetings[0];
      var mid := MeetingIsTrace(sys, r, st, insts, m, resource);
      var st2 := R.Advanced(st, insts, m.visit.turn, m.visit.retry);
      sys2 := HistoryIsTrace(mid, r, st2, insts, meetings[1..], resource);
      AfterOne(st, insts, meetings);
      TraceOn(sys, m.before + VisitScript(r, st, insts, m), mid, HistoryScript(r, st2, insts, meetings[1..]), sys2);
    }
  }

  /** The run is created and gets its finalizer. */
  function Birth(r: string, insts: seq<Instance>): seq<S.Event> {
    [S.CreateRun(r, KeysIn(insts)), S.AddFinalizer(r)]
  }

  lemma {:induction false} IsBorn(sys: S.Sys, r: string, insts: seq<Instance>, resource: string -> Key)
    returns (sys2: S.Sys)
    requires ST.SysInv(sys) && r !in sys.runs
    ensures S.Trace(sys, Birth(r, insts), sys2) && sys2 == End(sys, Birth(r, insts))
    ensures ShowsRetry(sys2, r, RT.NEW, insts, resource, false)
  {
    assert ST.LocalOk(sys, r);
    var create, mark := S.CreateRun(r, KeysIn(insts)), S.AddFinalizer(r);
    OneEvent(sys, create);
    var made := S.SysDo(sys, create);
    OneEvent(made, mark);
    sys2 := S.SysDo(made, mark);
    TraceOn(sys, [create], made, [mark], sys2);
    assert [create] + [mark] == Birth(r, insts);
    TraceIsEnd(sys, Birth(r, insts), sys2);
    ST.TraceKeepsInv(sys, Birth(r, insts), sys2);
    assert SeenAll(RT.NEW.steps, resource) == [];
  }

  /**
   A run's life from its creation, in a system in any state and with anything others do meanwhile: it
   is a schedule of System that leaves the run with the same status, and the entry of each succeeded
   step's resource then holds that step's reference once and is no tombstone.
   */
  lemma {:induction false} LifeIsTrace(sys: S.Sys, r: string, insts: seq<Instance>, meetings: seq<Meeting>,
                                       resource: string -> Key)
    returns (sys2: S.Sys)
    requires ST.SysInv(sys) && r !in sys.runs
    requires HistoryAnswered(End(sys, Birth(r, insts)), r, RT.NEW, insts, meetings, resource)
    ensures S.Trace(sys, Birth(r, insts) + HistoryScript(r, RT.NEW, insts, meetings), sys2)
    ensures var st := RT.After(RT.NEW, insts, VisitsOf(meetings));
            && Shows(sys2, r, st, insts, resource)
            && forall s :: s in st.steps && s.phase == StepSucceeded ==> Owns(sys2, r, s.key, resource(s.key))
  {
    var born := IsBorn(sys, r, insts, resource);
    sys2 := HistoryIsTrace(born, r, RT.NEW, insts, meetings, resource);
    TraceOn(sys, Birth(r, insts), born, HistoryScript(r, RT.NEW, insts, meetings), sys2);
    SucceededHold(sys2, r, RT.After(RT.NEW, insts, VisitsOf(meetings)), insts, resource);
  }

  /** The entry of the resource holds the step's reference exactly once and is no tombstone. */
  ghost predicate Owns(sys: S.Sys, r: string, step: string, k: Key) {
    && k in sys.p.store
    && var e := sys.p.store[k].entry; !e.terminating && multiset(e.refs)[Ref(r, step)] == 1
  }

  lemma {:induction false} SucceededHold(sys: S.Sys, r: string, st: R.Status, insts: seq<Instance>,
                                         resource: string -> Key)
    requires Shows(sys, r, st, insts, resource) && !Undone(st.phase)
    ensures forall s :: s in st.steps && s.phase == StepSucceeded ==> Owns(sys, r, s.key, resource(s.key))
  {
    assert ST.RunOk(sys, r);
    forall i | 0 <= i < |st.steps| && st.steps[i].phase == StepSucceeded
      ensures Owns(sys, r, st.steps[i].key, resource(st.steps[i].key))
    {
      var seen := sys.runs[r].steps[i];
      assert Safety.HasRef(sys.p, seen.resource.value, Ref(r, seen.key));
      LedgerRules.OncePerEntry(sys.p.store[seen.resource.value].entry.refs, Ref(r, seen.key));
    }
  }
}
