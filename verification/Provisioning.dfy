/** The static check and the run controller together: why an accepted definition's runs do not fail on params. */
module Provisioning {
  import opened Types
  import opened Phases
  import opened Templates
  import opened Rendering
  import opened Parameters
  import opened Plan
  import opened Catalog
  import opened Soundness
  import opened Reconciler
  import opened ReconcilerTheorems

  /** The params of an instance, if all of them resolve. */
  function ParamsOf(in_: Instance, x: Context, lib: Library): Option<Fields> {
    if Unresolved(in_.step.params, x, lib) == {} then Some(ResolvedMap(in_.step.params, x, lib)) else None
  }

  /** The context the controller builds for an instance. */
  function ContextFor(in_: Instance, values: Values, config: Fields, outputs: Outputs): Context {
    Context(values, config, outputs, in_.item, in_.fields)
  }

  /** A reconcile of this definition: known step types, params resolved by templates, declared outputs reported. */
  ghost predicate RunsCatalogue(turn: Turn, c: Catalogue, values: Values, config: Fields, lib: Library) {
    && (forall key :: key in c.configKeys ==> key in config)
    && (forall typ :: turn.known(typ) <==> typ in c.specs)
    && (forall in_, outputs ::
          turn.resolve(in_, outputs) == ParamsOf(in_, ContextFor(in_, values, config, outputs), lib))
    && (forall q :: turn.reply(q).Finished? && q.instance.step.typ in c.specs ==>
          forall key :: key in c.specs[q.instance.step.typ].outputs ==> key in turn.reply(q).outputs)
  }

  /** The instance mentions a parameter without a value, or a field its item does not have. */
  ghost predicate Wanting(in_: Instance, values: Values) {
    exists p :: p in in_.step.params && WantingParam(in_, values, p)
  }

  ghost predicate WantingParam(in_: Instance, values: Values, p: string)
    requires p in in_.step.params
  {
    ParsedFrom(in_.step.params[p], "").Some?
    && !AllSupplied(ParsedFrom(in_.step.params[p], "").value, ContextFor(in_, values, map[], map[]))
  }

  /** Succeeded steps have reported what their type declares. */
  ghost predicate Reported(c: Catalogue, insts: seq<Instance>, steps: seq<StepStatus>)
    requires |steps| == |insts|
  {
    forall j :: 0 <= j < |steps| && steps[j].phase == StepSucceeded ==> ReportedOne(c, insts[j], steps[j])
  }

  ghost predicate ReportedOne(c: Catalogue, in_: Instance, s: StepStatus) {
    in_.step.typ in c.specs ==> forall key :: key in c.specs[in_.step.typ].outputs ==> key in s.outputs
  }

  lemma {:induction false} ResolvesUnlessWanting(c: Catalogue, def: Definition, supplied: map<string, Json>,
                                                 values: Values, re: Patterns, k: nat, config: Fields, outputs: Outputs,
                                                 lib: Library)
    requires Accepted(c, def, re) && Resolves(def.parameters, supplied, values, re)
    requires k < |All(def.steps, values)| && PriorOutputs(c, All(def.steps, values), k, outputs)
    requires forall key :: key in c.configKeys ==> key in config
    requires !Wanting(All(def.steps, values)[k], values)
    ensures var in_ := All(def.steps, values)[k]; ParamsOf(in_, ContextFor(in_, values, config, outputs), lib).Some?
  {
    var in_ := All(def.steps, values)[k];
    var x := ContextFor(in_, values, config, outputs);
    assert ContextOf(c, def.steps, values, k, x);
    forall p | p in in_.step.params
      ensures Resolved(in_.step.params[p], x, lib).Good?
    {
      AcceptedParamsResolve(c, def, supplied, values, re, k, x, p, lib);
      assert !WantingParam(in_, values, p);
      var t := ParsedFrom(in_.step.params[p], "").value;
      forall s | s in t && s.Place?
        ensures Supplied(s.hole, x)
      {
        assert Supplied(s.hole, ContextFor(in_, values, map[], map[]));
      }
    }
  }

  /** Instances without an item carry their step's name as key. */
  lemma PlanHasPlainKeys(steps: seq<Step>, values: Values)
    ensures PlainKeys(All(steps, values))
  {
    forall k | 0 <= k < |All(steps, values)| && All(steps, values)[k].item.None?
      ensures All(steps, values)[k].key == All(steps, values)[k].step.name
    {
      var i, j := Origin(steps, values, k);
    }
  }

  /** Instances without an item are their steps' only ones. */
  ghost predicate PlainKeys(insts: seq<Instance>) {
    forall k :: 0 <= k < |insts| && insts[k].item.None? ==> insts[k].key == insts[k].step.name
  }

  /** One more finished step makes one more step's outputs available. */
  lemma PriorGrows(c: Catalogue, insts: seq<Instance>, k: nat, outputs: Outputs, s: StepStatus)
    requires k < |insts| && KeysDiffer(insts) && PlainKeys(insts) && PriorOutputs(c, insts, k, outputs)
    requires ReportedOne(c, insts[k], s)
    ensures PriorOutputs(c, insts, k + 1, WithOutputs(outputs, insts[k], s))
  {
    var more := WithOutputs(outputs, insts[k], s);
    forall m | 0 <= m < k + 1 && insts[m].item.None? && insts[m].step.typ in c.specs
      ensures Provided(c, insts[m].step, more)
    {
      if m < k {
        assert Provided(c, insts[m].step, outputs);
        assert insts[m].key != insts[k].key;
      }
    }
  }

  /** Everything the theorems below take for granted about one reconcile of one run. */
  ghost predicate Setting(c: Catalogue, def: Definition, supplied: map<string, Json>, values: Values, re: Patterns,
                          turn: Turn, config: Fields, lib: Library) {
    && Accepted(c, def, re) && Resolves(def.parameters, supplied, values, re) && KeysDiffer(All(def.steps, values))
    && RunsCatalogue(turn, c, values, config, lib)
  }

  /** The step failed in this walk before its Ensure was ever called. */
  ghost predicate FailedUnasked(steps: seq<StepStatus>, p: Pass, insts: seq<Instance>, m: nat)
    requires |steps| == |insts| == |p.steps| && m < |insts|
  {
    p.steps[m].phase == StepFailed && steps[m].phase != StepFailed && insts[m].key !in p.asked
  }

  lemma {:induction false} KnownType(c: Catalogue, def: Definition, values: Values, re: Patterns, k: nat)
    requires Accepted(c, def, re) && k < |All(def.steps, values)|
    ensures All(def.steps, values)[k].step.typ in c.specs
  {
    var i, j := Origin(def.steps, values, k);
    assert StepOk(c, def, i);
  }

  /** Instance i with status s, met with outputs that cover everything before it. */
  ghost predicate SoundAt(c: Catalogue, values: Values, insts: seq<Instance>, turn: Turn, i: nat, outputs: Outputs,
                          s: StepStatus)
    requires i < |insts|
  {
    var (s2, outcome) := RunOne(s, insts[i], turn, outputs);
    && (ReportedOne(c, insts[i], s) ==> PriorOutputs(c, insts, i + 1, WithOutputs(outputs, insts[i], s)))
    && (outcome == Done ==>
          ReportedOne(c, insts[i], s2) && PriorOutputs(c, insts, i + 1, WithOutputs(outputs, insts[i], s2)))
    && (outcome != Done ==> s2.phase != StepSucceeded)
    && (!Called(insts[i], turn, outputs) ==> Wanting(insts[i], values))
  }

  ghost predicate SoundRun(c: Catalogue, values: Values, insts: seq<Instance>, turn: Turn) {
    forall i, outputs, s :: 0 <= i < |insts| && PriorOutputs(c, insts, i, outputs) ==>
      SoundAt(c, values, insts, turn, i, outputs, s)
  }

  lemma {:induction false} RunsAreSound(c: Catalogue, def: Definition, supplied: map<string, Json>, values: Values,
                                        re: Patterns, config: Fields, lib: Library, turn: Turn)
    requires Setting(c, def, supplied, values, re, turn, config, lib)
    ensures SoundRun(c, values, All(def.steps, values), turn)
  {
    var insts := All(def.steps, values);
    forall i, outputs, s | 0 <= i < |insts| && PriorOutputs(c, insts, i, outputs)
      ensures SoundAt(c, values, insts, turn, i, outputs, s)
    {
      StepIsSound(c, def, supplied, values, re, config, lib, turn, i, outputs, s);
    }
  }

  lemma {:induction false} StepIsSound(c: Catalogue, def: Definition, supplied: map<string, Json>, values: Values,
                                       re: Patterns, config: Fields, lib: Library, turn: Turn, i: nat, outputs: Outputs,
                                       s: StepStatus)
    requires Setting(c, def, supplied, values, re, turn, config, lib)
    requires i < |All(def.steps, values)| && PriorOutputs(c, All(def.steps, values), i, outputs)
    ensures SoundAt(c, values, All(def.steps, values), turn, i, outputs, s)
  {
    var in_ := All(def.steps, values)[i];
    PlanHasPlainKeys(def.steps, values);
    KnownType(c, def, values, re, i);
    if !Wanting(in_, values) {
      ResolvesUnlessWanting(c, def, supplied, values, re, i, config, outputs, lib);
    }
    RunReports(c, in_, s, turn, outputs, values, config, lib);
    var (s2, outcome) := RunOne(s, in_, turn, outputs);
    if ReportedOne(c, in_, s) {
      PriorGrows(c, All(def.steps, values), i, outputs, s);
    }
    if outcome == Done {
      PriorGrows(c, All(def.steps, values), i, outputs, s2);
    }
  }

  /** The walk steps over a finished instance. */
  lemma {:induction false} PassIsSound(c: Catalogue, values: Values, insts: seq<Instance>, steps: seq<StepStatus>,
                                       i: nat, outputs: Outputs, turn: Turn)
    requires SoundRun(c, values, insts, turn)
    requires |steps| == |insts| && i < |insts| && Reported(c, insts, steps) && PriorOutputs(c, insts, i, outputs)
    requires steps[i].phase == StepSucceeded
    ensures PriorOutputs(c, insts, i + 1, WithOutputs(outputs, insts[i], steps[i]))
  {
    assert SoundAt(c, values, insts, turn, i, outputs, steps[i]);
  }

  /** The walk runs an instance. */
  lemma {:induction false} RunIsSound(c: Catalogue, values: Values, insts: seq<Instance>, steps: seq<StepStatus>,
                                      i: nat, outputs: Outputs, turn: Turn)
    requires SoundRun(c, values, insts, turn)
    requires |steps| == |insts| && i < |insts| && Reported(c, insts, steps) && PriorOutputs(c, insts, i, outputs)
    ensures var (s, outcome) := RunOne(steps[i], insts[i], turn, outputs);
            && Reported(c, insts, steps[i := s])
            && (outcome == Done ==>
                  s.phase == StepSucceeded && PriorOutputs(c, insts, i + 1, WithOutputs(outputs, insts[i], s)))
            && (!Called(insts[i], turn, outputs) ==> Wanting(insts[i], values))
  {
    assert SoundAt(c, values, insts, turn, i, outputs, steps[i]);
  }

  lemma {:induction false} WalkResolves(c: Catalogue, values: Values, insts: seq<Instance>, steps: seq<StepStatus>,
                                        i: nat, outputs: Outputs, turn: Turn, asked: seq<string>, m: nat)
    requires SoundRun(c, values, insts, turn)
    requires |steps| == |insts| && i <= |insts| && m < |insts| && Reported(c, insts, steps)
             && PriorOutputs(c, insts, i, outputs)
    ensures var p := Walk(steps, insts, i, outputs, turn, asked);
            Reported(c, insts, p.steps) && (FailedUnasked(steps, p, insts, m) ==> Wanting(insts[m], values))
    decreases |insts| - i
  {
    if i == |insts| || steps[i].phase == StepFailed {
    } else if steps[i].phase == StepSucceeded {
      PassIsSound(c, values, insts, steps, i, outputs, turn);
      WalkResolves(c, values, insts, steps, i + 1, WithOutputs(outputs, insts[i], steps[i]), turn, asked, m);
    } else if turn.configured {
      RunIsSound(c, values, insts, steps, i, outputs, turn);
      var (s, outcome) := RunOne(steps[i], insts[i], turn, outputs);
      var asked2 := if Called(insts[i], turn, outputs) then asked + [insts[i].key] else asked;
      if outcome == Done {
        WalkResolves(c, values, insts, steps[i := s], i + 1, WithOutputs(outputs, insts[i], s), turn, asked2, m);
      }
    }
  }

  lemma {:induction false} RunReports(c: Catalogue, in_: Instance, s: StepStatus, turn: Turn, outputs: Outputs,
                                      values: Values, config: Fields, lib: Library)
    requires RunsCatalogue(turn, c, values, config, lib) && in_.step.typ in c.specs
    ensures var (s2, o) := RunOne(s, in_, turn, outputs);
            && (o == Done <==> s2.phase == StepSucceeded)
            && (o == Done ==> ReportedOne(c, in_, s2))
  {
  }

  /**
   One reconcile of a run of an accepted definition.  A step fails without its Ensure ever being
   called only if it mentions a parameter without a value or a field its list entry lacks, and
   the outputs that later steps rely on stay complete.
   */
  lemma {:induction false} OnlyWantingStepsFailUnasked(c: Catalogue, def: Definition, supplied: map<string, Json>,
                                                       values: Values, re: Patterns, config: Fields, lib: Library,
                                                       st: Status, turn: Turn, retry: bool, m: nat)
    requires Setting(c, def, supplied, values, re, turn, config, lib) && m < |All(def.steps, values)|
    requires Reported(c, All(def.steps, values), Prepared(st, All(def.steps, values), retry))
    ensures var insts := All(def.steps, values);
            && Reported(c, insts, Advanced(st, insts, turn, retry).steps)
            && (FailedUnasked(Prepared(st, insts, retry), PassFrom(st, insts, turn, retry), insts, m) ==>
                Wanting(insts[m], values))
  {
    RunsAreSound(c, def, supplied, values, re, config, lib, turn);
    WalkResolves(c, values, All(def.steps, values), Prepared(st, All(def.steps, values), retry), 0, map[], turn, [], m);
  }

  /** What steps have reported survives until the next reconcile, retry or not. */
  lemma ReportedStays(c: Catalogue, insts: seq<Instance>, st: Status, retry: bool)
    requires KeysDiffer(insts) && (st.steps == [] || (KeysMatch(st.steps, insts) && Reported(c, insts, st.steps)))
    ensures Reported(c, insts, Prepared(st, insts, retry))
  {
    if st.steps != [] {
      SyncedIsSame(st.steps, insts);
    }
  }

  /** A run between two reconciles: new, or with a status for every instance and complete outputs. */
  ghost predicate Tracked(c: Catalogue, insts: seq<Instance>, st: Status) {
    st.steps == [] || (KeysMatch(st.steps, insts) && Reported(c, insts, st.steps))
  }

  ghost predicate SoundVisits(c: Catalogue, def: Definition, supplied: map<string, Json>, values: Values, re: Patterns,
                              lib: Library, visits: seq<Visit>) {
    forall i :: 0 <= i < |visits| ==> SoundVisit(c, def, supplied, values, re, lib, visits[i])
  }

  ghost predicate SoundVisit(c: Catalogue, def: Definition, supplied: map<string, Json>, values: Values, re: Patterns,
                             lib: Library, v: Visit) {
    exists config :: Setting(c, def, supplied, values, re, v.turn, config, lib)
  }

  lemma {:induction false} WalkKeepsKeys(steps: seq<StepStatus>, insts: seq<Instance>, i: nat, outputs: Outputs,
                                         turn: Turn, asked: seq<string>)
    requires KeysMatch(steps, insts) && i <= |insts|
    ensures KeysMatch(Walk(steps, insts, i, outputs, turn, asked).steps, insts)
    decreases |insts| - i
  {
    if i < |insts| && steps[i].phase == StepSucceeded {
      WalkKeepsKeys(steps, insts, i + 1, WithOutputs(outputs, insts[i], steps[i]), turn, asked);
    } else if i < |insts| && steps[i].phase != StepFailed && turn.configured {
      var (s, outcome) := RunOne(steps[i], insts[i], turn, outputs);
      var asked2 := if Called(insts[i], turn, outputs) then asked + [insts[i].key] else asked;
      if outcome == Done {
        WalkKeepsKeys(steps[i := s], insts, i + 1, WithOutputs(outputs, insts[i], s), turn, asked2);
      }
    }
  }

  lemma {:induction false} VisitKeepsTrack(c: Catalogue, def: Definition, supplied: map<string, Json>, values: Values,
                                           re: Patterns, lib: Library, st: Status, v: Visit, m: nat)
    requires SoundVisit(c, def, supplied, values, re, lib, v) && Tracked(c, All(def.steps, values), st)
    ensures var insts := All(def.steps, values);
            && Tracked(c, insts, Advanced(st, insts, v.turn, v.retry))
            && (m < |insts|
                && FailedUnasked(Prepared(st, insts, v.retry), PassFrom(st, insts, v.turn, v.retry), insts, m) ==>
                  Wanting(insts[m], values))
  {
    var insts := All(def.steps, values);
    var config :| Setting(c, def, supplied, values, re, v.turn, config, lib);
    ReportedStays(c, insts, st, v.retry);
    WalkKeepsKeys(Prepared(st, insts, v.retry), insts, 0, map[], v.turn, []);
    if insts != [] {
      OnlyWantingStepsFailUnasked(c, def, supplied, values, re, config, lib, st, v.turn, v.retry, if m < |insts| then m
          else 0);
    }
  }

  lemma {:induction false} HistoryKeepsTrack(c: Catalogue, def: Definition, supplied: map<string, Json>, values: Values,
                                             re: Patterns, lib: Library, st: Status, visits: seq<Visit>)
    requires SoundVisits(c, def, supplied, values, re, lib, visits) && Tracked(c, All(def.steps, values), st)
    ensures Tracked(c, All(def.steps, values), After(st, All(def.steps, values), visits))
    decreases |visits|
  {
    if visits != [] {
      assert SoundVisit(c, def, supplied, values, re, lib, visits[0]);
      VisitKeepsTrack(c, def, supplied, values, re, lib, st, visits[0], 0);
      assert forall i :: 0 <= i < |visits[1..]| ==> visits[1..][i] == visits[i + 1];
      HistoryKeepsTrack(c, def, supplied, values, re, lib,
                        Advanced(st, All(def.steps, values), visits[0].turn, visits[0].retry), visits[1..]);
    }
  }

  /**
   End to end: in any history of reconciles of an accepted definition, with parameters resolved
   once and for all, whatever steps answer and however often a retry is asked for, a step fails
   before its Ensure is called only if it mentions a parameter without a value or a field its list
   entry lacks.
   */
  lemma {:induction false} OnlyWantingStepsEverFailUnasked(c: Catalogue, def: Definition, supplied: map<string, Json>,
                                                           values: Values, re: Patterns, lib: Library,
                                                           visits: seq<Visit>, v: Visit, m: nat)
    requires SoundVisits(c, def, supplied, values, re, lib, visits) && SoundVisit(c, def, supplied, values, re, lib, v)
    requires var insts := All(def.steps, values);
             var st := After(NEW, insts, visits);
             m < |insts| && FailedUnasked(Prepared(st, insts, v.retry), PassFrom(st, insts, v.turn, v.retry), insts, m)
    ensures Wanting(All(def.steps, values)[m], values)
  {
    HistoryKeepsTrack(c, def, supplied, values, re, lib, NEW, visits);
    VisitKeepsTrack(c, def, supplied, values, re, lib, After(NEW, All(def.steps, values), visits), v, m);
  }
}
