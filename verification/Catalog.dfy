/** The step catalogue and the static check of definitions (steps.ValidateDefinition). */
module Catalog {
  import opened Types
  import opened Text
  import opened Templates
  import opened Rendering
  import opened Parameters
  import opened Plan

  datatype Definition = Definition(parameters: seq<Parameter>, steps: seq<Step>)

  /** The params a step type takes and the outputs it declares. */
  datatype StepSpec = StepSpec(required: set<string>, optional: set<string>, prefixes: set<string>,
                               outputs: set<string>)

  /** What the check needs to know of the catalogue: the fixed order, the step types, the config keys. */
  datatype Catalogue = Catalogue(order: seq<string>, specs: map<string, StepSpec>, configKeys: set<string>)

  predicate Allows(e: StepSpec, name: string) {
    name in e.required || name in e.optional || exists pre ::
          pre in e.prefixes && HasPrefix(name, pre) && |name| > |pre|
  }

  /** The position of a step type in the fixed order, or -1. */
  method OrderIndex(c: Catalogue, typ: string) returns (i: int)
    ensures i == Position(typ, c.order)
  {
    i := 0;
    while i < |c.order|
      invariant 0 <= i <= |c.order|
      invariant Position(typ, c.order) == if Position(typ, c.order[i..]) < 0 then -1
                else i + Position(typ, c.order[i..])
    {
      if c.order[i] == typ {
        return;
      }
      assert c.order[i..][1..] == c.order[i + 1..];
      i := i + 1;
    }
    i := -1;
  }

  function Position(typ: string, order: seq<string>): (i: int)
    ensures -1 <= i < |order| && (i >= 0 ==> order[i] == typ)
  {
    if order == [] then -1
    else if order[0] == typ then 0
    else if Position(typ, order[1..]) < 0 then -1
    else 1 + Position(typ, order[1..])
  }

  // ---- what an acceptable definition is ----

  /** Every default decodes under its own declaration, apart from being required. */
  ghost predicate DefaultOk(d: Parameter, re: Patterns) {
    Given(d.default) ==> Usable(d.(required := false), d.default.value, re)
  }

  predicate PatternOk(d: Parameter, re: Patterns) {
    d.pattern != "" ==> re.compiles(d.pattern)
  }

  /** Step j of the definition runs before step i and provides this output unambiguously. */
  ghost predicate Provides(c: Catalogue, steps: seq<Step>, i: nat, name: string, key: string) {
    exists j :: 0 <= j < i && j < |steps| && steps[j].name == name && steps[j].forEach == "" && steps[j].typ in c.specs
                && key in c.specs[steps[j].typ].outputs
  }

  ghost predicate IsDeclared(def: Definition, name: string, types: set<ParamType>) {
    exists i :: 0 <= i < |def.parameters| && def.parameters[i].name == name && def.parameters[i].typ in types
  }

  /** What a placeholder in a param of step i may refer to. */
  ghost predicate PlaceOk(c: Catalogue, def: Definition, i: nat, h: Hole)
    requires i < |def.steps|
  {
    match h.kind
    case OfParams =>
      IsDeclared(def, h.name, {StringType, NumberType, BooleanType} + if h.filters == [] then {ObjectListType} else {})
    case OfConfig => h.name in c.configKeys
    case OfSteps => Provides(c, def.steps, i, h.name, h.key)
    case OfItem => def.steps[i].forEach != ""
  }

  ghost predicate ValueOk(c: Catalogue, def: Definition, i: nat, value: string)
    requires i < |def.steps|
  {
    ParsedFrom(value, "").Some? && forall s :: s in ParsedFrom(value, "").value && s.Place? ==>
        PlaceOk(c, def, i, s.hole)
  }

  ghost predicate StepParamOk(c: Catalogue, def: Definition, i: nat, p: string)
    requires i < |def.steps| && def.steps[i].typ in c.specs && p in def.steps[i].params
  {
    Allows(c.specs[def.steps[i].typ], p) && ValueOk(c, def, i, def.steps[i].params[p])
  }

  ghost predicate ForEachOk(def: Definition, st: Step) {
    st.forEach != "" ==>
          ListRef(st.forEach).Some? && IsDeclared(def, ListRef(st.forEach).value, {StringListType, ObjectListType})
  }

  ghost predicate StepOk(c: Catalogue, def: Definition, i: nat)
    requires i < |def.steps|
  {
    var st := def.steps[i];
    && st.typ in c.specs
    && (forall j :: 0 <= j < i ==> def.steps[j].name != st.name)
    && (i > 0 ==> Position(def.steps[i - 1].typ, c.order) <= Position(st.typ, c.order))
    && (forall p :: p in c.specs[st.typ].required ==> p in st.params)
    && (forall p :: p in st.params ==> StepParamOk(c, def, i, p))
    && ForEachOk(def, st)
  }

  /** The first n steps are in order. */
  ghost predicate StepsOk(c: Catalogue, def: Definition, n: nat)
    requires n <= |def.steps|
  {
    forall i :: 0 <= i < n ==> StepOk(c, def, i)
  }

  ghost predicate ParametersOk(defs: seq<Parameter>, re: Patterns) {
    NamesDiffer(defs) && forall i :: 0 <= i < |defs| ==> PatternOk(defs[i], re) && DefaultOk(defs[i], re)
  }

  ghost predicate Accepted(c: Catalogue, def: Definition, re: Patterns) {
    ParametersOk(def.parameters, re) && StepsOk(c, def, |def.steps|)
  }

  // ---- the same, all at once ----

  /** b does not stand before a in the list; what is not in the list stands before everything that is. */
  ghost predicate NotBefore(order: seq<string>, b: string, a: string) {
    a !in order || (b in order && exists p :: 0 <= p < |order| && order[p] == a && b !in order[..p])
  }

  lemma {:induction false} PositionIff(order: seq<string>, a: string, b: string)
    ensures (Position(a, order) >= 0 <==> a in order) && (Position(b, order) >= 0 <==> b in order)
    ensures Position(a, order) <= Position(b, order) <==> NotBefore(order, b, a)
  {
    if order != [] {
      PositionIff(order[1..], a, b);
      assert order == [order[0]] + order[1..];
      FirstPlaces(order, a, b);
    }
  }

  lemma FirstPlaces(order: seq<string>, a: string, b: string)
    requires order != [] && order == [order[0]] + order[1..]
    ensures order[0] == a && b in order ==> NotBefore(order, b, a)
    ensures order[0] != a && order[0] == b && a in order ==> !NotBefore(order, b, a)
    ensures order[0] != a && order[0] != b ==> (NotBefore(order, b, a) <==> NotBefore(order[1..], b, a))
  {
    if order[0] == a {
      assert b !in order[..0];
    } else if order[0] == b {
      forall p | 0 <= p < |order| && order[p] == a
        ensures b in order[..p]
      {
        assert order[..p][0] == b;
      }
    } else {
      forall p | 0 < p < |order|
        ensures b in order[..p] <==> b in order[1..][..p - 1]
      {
        assert order[..p] == [order[0]] + order[1..][..p - 1];
      }
      if NotBefore(order[1..], b, a) && a in order[1..] {
        var p :| 0 <= p < |order[1..]| && order[1..][p] == a && b !in order[1..][..p];
        assert order[p + 1] == a && b !in order[..p + 1];
      }
      if NotBefore(order, b, a) && a in order {
        var p :| 0 <= p < |order| && order[p] == a && b !in order[..p];
        assert order[1..][p - 1] == a;
      }
    }
  }

  /** The names a step type takes: its required and its optional ones, and those with something behind a prefix. */
  lemma AllowsIff(e: StepSpec, name: string)
    ensures Allows(e, name) <==>
            name in e.required + e.optional || exists pre, rest :: pre in e.prefixes && rest != "" && name == pre + rest
  {
    forall pre | pre in e.prefixes && HasPrefix(name, pre) && |name| > |pre|
      ensures name == pre + name[|pre|..] && name[|pre|..] != ""
    {
    }
  }

  /** The order of the steps is that of the catalogue, not only from one to the next. */
  lemma {:induction false} PairwiseInOrder(c: Catalogue, steps: seq<Step>, i: nat, j: nat)
    requires i <= j < |steps|
    requires forall k :: 0 < k < |steps| ==> Position(steps[k - 1].typ, c.order) <= Position(steps[k].typ, c.order)
    ensures Position(steps[i].typ, c.order) <= Position(steps[j].typ, c.order)
    decreases j
  {
    if i < j {
      PairwiseInOrder(c, steps, i, j - 1);
    }
  }

  /** What the steps of an acceptable definition are like, any two of them taken together. */
  ghost predicate StepsFit(c: Catalogue, def: Definition) {
    && (forall i :: 0 <= i < |def.steps| ==> def.steps[i].typ in c.specs)
    && (forall i, j :: 0 <= i < j < |def.steps| ==> def.steps[i].name != def.steps[j].name)
    && (forall i, j :: 0 <= i < j < |def.steps| ==> NotBefore(c.order, def.steps[j].typ, def.steps[i].typ))
    && (forall i, p :: 0 <= i < |def.steps| && p in def.steps[i].params ==>
          ValueOk(c, def, i, def.steps[i].params[p]))
    && (forall i :: 0 <= i < |def.steps| && def.steps[i].typ in c.specs ==>
          HasItsParams(c.specs[def.steps[i].typ], def.steps[i]))
    && (forall i :: 0 <= i < |def.steps| ==> LoopsOverAList(def, def.steps[i]))
  }

  /** All required params are there, and nothing the type does not take. */
  ghost predicate HasItsParams(e: StepSpec, st: Step) {
    (forall p :: p in e.required ==> p in st.params) && (forall p :: p in st.params ==> Takes(e, p))
  }

  /** The step has no forEach, or one that is a declared list. */
  ghost predicate LoopsOverAList(def: Definition, st: Step) {
    st.forEach == "" || exists name :: LoopsOver(def, st, name)
  }

  ghost predicate LoopsOver(def: Definition, st: Step, name: string) {
    && ListRef(st.forEach) == Some(name)
    && (IsDeclared(def, name, {StringListType}) || IsDeclared(def, name, {ObjectListType}))
  }

  ghost predicate Takes(e: StepSpec, name: string) {
    name in e.required + e.optional || exists pre, rest :: pre in e.prefixes && rest != "" && name == pre + rest
  }

  /** And its parameters: different names, patterns that compile, defaults that decode if nothing is required. */
  ghost predicate ParametersFit(defs: seq<Parameter>, re: Patterns) {
    && (forall i, j :: 0 <= i < j < |defs| ==> defs[i].name != defs[j].name)
    && (forall i :: 0 <= i < |defs| ==> defs[i].pattern == "" || re.compiles(defs[i].pattern))
    && (forall i :: 0 <= i < |defs| ==>
          || defs[i].default == None || defs[i].default == Some(Null)
          || exists v :: Decodes(defs[i].(required := false), defs[i].default.value, v, re))
  }

  lemma {:induction false} AcceptedIff(c: Catalogue, def: Definition, re: Patterns)
    ensures Accepted(c, def, re) <==> ParametersFit(def.parameters, re) && StepsFit(c, def)
  {
    ParametersIff(def.parameters, re);
    if StepsOk(c, def, |def.steps|) {
      OkStepsFit(c, def);
    }
    if StepsFit(c, def) {
      forall i | 0 <= i < |def.steps|
        ensures StepOk(c, def, i)
      {
        FitStepIsOk(c, def, i);
      }
    }
  }

  lemma {:induction false} ParametersIff(defs: seq<Parameter>, re: Patterns)
    ensures ParametersOk(defs, re) <==> ParametersFit(defs, re)
  {
    forall i | 0 <= i < |defs|
      ensures DefaultOk(defs[i], re) <==>
              || defs[i].default == None || defs[i].default == Some(Null)
              || exists v :: Decodes(defs[i].(required := false), defs[i].default.value, v, re)
    {
    }
  }

  lemma OkStepsFit(c: Catalogue, def: Definition)
    requires StepsOk(c, def, |def.steps|)
    ensures StepsFit(c, def)
  {
    forall i | 0 <= i < |def.steps|
      ensures StepOk(c, def, i) && HasItsParams(c.specs[def.steps[i].typ], def.steps[i])
      ensures forall p :: p in def.steps[i].params ==> ValueOk(c, def, i, def.steps[i].params[p])
      ensures LoopsOverAList(def, def.steps[i])
    {
      assert StepOk(c, def, i);
      OkStepFits(c, def, i);
    }
    forall i, j | 0 <= i < j < |def.steps|
      ensures NotBefore(c.order, def.steps[j].typ, def.steps[i].typ)
    {
      PairwiseInOrder(c, def.steps, i, j);
      PositionIff(c.order, def.steps[i].typ, def.steps[j].typ);
    }
  }

  lemma OkStepFits(c: Catalogue, def: Definition, i: nat)
    requires i < |def.steps| && StepOk(c, def, i)
    ensures HasItsParams(c.specs[def.steps[i].typ], def.steps[i]) && LoopsOverAList(def, def.steps[i])
    ensures forall p :: p in def.steps[i].params ==> ValueOk(c, def, i, def.steps[i].params[p])
  {
    var st := def.steps[i];
    forall p | p in st.params
      ensures Takes(c.specs[st.typ], p) && ValueOk(c, def, i, st.params[p])
    {
      assert StepParamOk(c, def, i, p);
      AllowsIff(c.specs[st.typ], p);
    }
    if st.forEach != "" {
      var name := ListRef(st.forEach).value;
      EitherDeclared(def, name);
      assert LoopsOver(def, st, name);
    }
  }

  lemma EitherDeclared(def: Definition, name: string)
    ensures IsDeclared(def, name, {StringListType, ObjectListType}) <==>
            IsDeclared(def, name, {StringListType}) || IsDeclared(def, name, {ObjectListType})
  {
    if IsDeclared(def, name, {StringListType, ObjectListType}) {
      var i :| 0 <= i < |def.parameters| && def.parameters[i].name == name
          && def.parameters[i].typ in {StringListType, ObjectListType};
      assert def.parameters[i].typ in {StringListType} || def.parameters[i].typ in {ObjectListType};
    }
  }

  lemma FitStepIsOk(c: Catalogue, def: Definition, i: nat)
    requires i < |def.steps| && StepsFit(c, def)
    ensures StepOk(c, def, i)
  {
    var st := def.steps[i];
    if i > 0 {
      PositionIff(c.order, def.steps[i - 1].typ, st.typ);
    }
    forall p | p in st.params
      ensures StepParamOk(c, def, i, p)
    {
      AllowsIff(c.specs[st.typ], p);
    }
    if st.forEach != "" {
      var name :| LoopsOver(def, st, name);
      EitherDeclared(def, name);
    }
  }

  // ---- the checker ----

  datatype Fault =
    | DeclaredTwice(param: string) | InvalidPattern(param: string) | InvalidDefaults
    | UnknownType(step: string) | NameUsedTwice(step: string) | OutOfOrder(step: string)
    | MissingParam(step: string, param: string) | UnknownParam(step: string, param: string)
    | BadValue(step: string, param: string) | BadSource(step: string)

  /** What the checker remembers of an earlier step. */
  datatype Earlier = Earlier(outputs: set<string>, forEach: bool)

  /** The declared parameters by name; exact as long as no name was declared twice. */
  ghost predicate Knows(declared: map<string, Parameter>, defs: seq<Parameter>) {
    && (forall i :: 0 <= i < |defs| ==> defs[i].name in declared && declared[defs[i].name] == defs[i])
    && (forall p :: p in declared ==> declared[p] in defs && declared[p].name == p)
  }

  ghost predicate Remembers(c: Catalogue, earlier: map<string, Earlier>, steps: seq<Step>, i: nat)
    requires i <= |steps|
  {
    && (forall j :: 0 <= j < i ==> steps[j].typ in c.specs && steps[j].name in earlier
                                   && earlier[steps[j].name] ==
                                       Earlier(c.specs[steps[j].typ].outputs, steps[j].forEach != ""))
    && (forall name :: name in earlier ==> exists j :: 0 <= j < i && steps[j].name == name)
  }

  /** As long as nothing was wrong: what the checker has in its tables before step i. */
  ghost predicate TablesOk(c: Catalogue, def: Definition, i: nat, declared: map<string, Parameter>,
                           earlier: map<string, Earlier>, lastOrder: int)
    requires i <= |def.steps|
  {
    && NamesDiffer(def.parameters) && Knows(declared, def.parameters)
    && Remembers(c, earlier, def.steps, i)
    && lastOrder == if i == 0 then -1 else Position(def.steps[i - 1].typ, c.order)
  }

  lemma OneStepMore(c: Catalogue, def: Definition, i: nat)
    requires i < |def.steps|
    ensures StepsOk(c, def, i + 1) <==> StepsOk(c, def, i) && StepOk(c, def, i)
  {
  }

  /**
   All faults are reported together; there are none exactly if the definition is acceptable: names
   are unique, patterns and defaults are valid, steps are known and in catalogue order with their
   params complete, and every placeholder and forEach refers to something that will exist.
   */
  method ValidateDefinition(c: Catalogue, def: Definition, re: Patterns) returns (errs: seq<Fault>)
    ensures errs == [] <==> Accepted(c, def, re)
  {
    var declared;
    errs, declared := CheckParameters(def.parameters, re);
    var more := CheckSteps(c, def, declared, errs == []);
    errs := errs + more;
  }

  /** The walk over the steps; it is exact where the parameters are in order. */
  method CheckSteps(c: Catalogue, def: Definition, declared: map<string, Parameter>, ghost clean: bool)
    returns (errs: seq<Fault>)
    requires clean ==> NamesDiffer(def.parameters) && Knows(declared, def.parameters)
    ensures clean ==> (errs == [] <==> StepsOk(c, def, |def.steps|))
  {
    errs := [];
    var earlier: map<string, Earlier> := map[];
    var lastOrder := -1;
    for i := 0 to |def.steps|
      invariant clean ==> (errs == [] <==> StepsOk(c, def, i))
      invariant clean && errs == [] ==> TablesOk(c, def, i, declared, earlier, lastOrder)
    {
      var more;
      more, earlier, lastOrder := CheckNext(c, def, i, declared, earlier, lastOrder, clean && errs == []);
      OneStepMore(c, def, i);
      errs := errs + more;
    }
  }

  /** One round of the walk over the steps. */
  method CheckNext(c: Catalogue, def: Definition, i: nat, declared: map<string, Parameter>,
                   earlier: map<string, Earlier>, lastOrder: int, ghost clean: bool)
    returns (errs: seq<Fault>, earlier2: map<string, Earlier>, order: int)
    requires i < |def.steps| && (clean ==> TablesOk(c, def, i, declared, earlier, lastOrder))
    ensures clean ==> (errs == [] <==> StepOk(c, def, i))
    ensures clean && errs == [] ==> TablesOk(c, def, i + 1, declared, earlier2, order)
  {
    var st := def.steps[i];
    if st.typ !in c.specs {
      return [UnknownType(st.name)], earlier, lastOrder;
    }
    errs, order := CheckStep(c, st, declared, earlier, lastOrder);
    earlier2 := earlier[st.name := Earlier(c.specs[st.typ].outputs, st.forEach != "")];
    if clean {
      NextStep(c, def, i, declared, earlier, lastOrder);
    }
  }

  /** The parameter declarations: names, patterns and defaults. */
  method CheckParameters(defs: seq<Parameter>, re: Patterns)
    returns (errs: seq<Fault>, declared: map<string, Parameter>)
    ensures errs == [] <==> ParametersOk(defs, re)
    ensures errs == [] ==> Knows(declared, defs)
  {
    errs, declared := CheckDeclarations(defs, re);
    var ok := CheckDefaults(defs, re);
    if !ok {
      errs := errs + [InvalidDefaults];
    }
  }

  method CheckDeclarations(defs: seq<Parameter>, re: Patterns)
    returns (errs: seq<Fault>, declared: map<string, Parameter>)
    ensures errs == [] <==> NamesDiffer(defs) && forall i :: 0 <= i < |defs| ==> PatternOk(defs[i], re)
    ensures errs == [] ==> Knows(declared, defs)
  {
    errs, declared := [], map[];
    for i := 0 to |defs|
      invariant errs == [] <==> NamesDiffer(defs[..i]) && forall j :: 0 <= j < i ==> PatternOk(defs[j], re)
      invariant errs == [] ==> Knows(declared, defs[..i])
      invariant forall p :: p in declared <==> exists j :: 0 <= j < i && defs[j].name == p
    {
      assert defs[..i + 1] == defs[..i] + [defs[i]];
      var d := defs[i];
      if d.name in declared {
        errs := errs + [DeclaredTwice(d.name)];
      }
      declared := declared[d.name := d];
      if d.pattern != "" && !re.compiles(d.pattern) {
        errs := errs + [InvalidPattern(d.name)];
      }
    }
    assert defs[..|defs|] == defs;
  }

  /** The defaults as if the caller had supplied them; of a name declared twice, the last default. */
  function DefaultsOf(defs: seq<Parameter>): map<string, Json> {
    if defs == [] then map[]
    else
      var d := defs[|defs| - 1];
      if d.default.Some? then DefaultsOf(defs[..|defs| - 1])[d.name := d.default.value]
          else DefaultsOf(defs[..|defs| - 1])
  }

  lemma {:induction false} DefaultsAreDeclared(defs: seq<Parameter>, relaxed: seq<Parameter>, name: string)
    requires name in DefaultsOf(defs) && |defs| <= |relaxed| && forall i :: 0 <= i < |defs| ==>
             relaxed[i].name == defs[i].name
    ensures Declared(relaxed, name)
    decreases |defs|
  {
    var n := |defs| - 1;
    if defs[n].name != name {
      DefaultsAreDeclared(defs[..n], relaxed, name);
    } else {
      assert relaxed[n].name == name;
    }
  }

  /** Of different names, each has its own default or none. */
  lemma {:induction false} DefaultsWhenDifferent(defs: seq<Parameter>, i: nat)
    requires NamesDiffer(defs) && i < |defs|
    ensures if defs[i].default.Some? then defs[i].name in DefaultsOf(defs)
            && DefaultsOf(defs)[defs[i].name] == defs[i].default.value
            else defs[i].name !in DefaultsOf(defs)
    decreases |defs|
  {
    var n := |defs| - 1;
    var init := defs[..n];
    if i < n {
      assert init[i] == defs[i] && NamesDiffer(init);
      DefaultsWhenDifferent(init, i);
    } else if defs[n].name in DefaultsOf(init) {
      DefaultsAreDeclared(init, init, defs[n].name);
    }
  }

  /** Every default, run through parameter resolution as if supplied, with nothing required. */
  method CheckDefaults(defs: seq<Parameter>, re: Patterns) returns (ok: bool)
    ensures ok <==> forall i :: 0 <= i < |defs| ==>
            Parameters.ParamOk(defs[i].(required := false), DefaultsOf(defs), re)
    ensures NamesDiffer(defs) ==> (ok <==> forall i :: 0 <= i < |defs| ==> DefaultOk(defs[i], re))
  {
    var relaxed: seq<Parameter> := [];
    var supplied: map<string, Json> := map[];
    for i := 0 to |defs|
      invariant |relaxed| == i && forall j :: 0 <= j < i ==> relaxed[j] == defs[j].(required := false)
      invariant supplied == DefaultsOf(defs[..i])
    {
      relaxed := relaxed + [defs[i].(required := false)];
      assert defs[..i + 1][..i] == defs[..i];
      if defs[i].default.Some? {
        supplied := supplied[defs[i].name := defs[i].default.value];
      }
    }
    assert defs[..|defs|] == defs;
    forall name | name in supplied
      ensures Declared(relaxed, name)
    {
      DefaultsAreDeclared(defs, relaxed, name);
    }
    var out, errs := ResolveParameters(relaxed, supplied, re);
    ok := errs == [];
    if NamesDiffer(defs) {
      forall i | 0 <= i < |defs|
        ensures Parameters.ParamOk(relaxed[i], supplied, re) <==> DefaultOk(defs[i], re)
      {
        DefaultsWhenDifferent(defs, i);
      }
    }
  }

  /** One step of a known type; order is the lastOrder for the next one. */
  method CheckStep(c: Catalogue, st: Step, declared: map<string, Parameter>, earlier: map<string, Earlier>,
                   lastOrder: int)
    returns (errs: seq<Fault>, order: int)
    requires st.typ in c.specs
    ensures errs == [] <==> StepPasses(c, st, declared, earlier, lastOrder)
    ensures errs == [] ==> order == Position(st.typ, c.order)
  {
    errs, order := [], lastOrder;
    if st.name in earlier {
      errs := errs + [NameUsedTwice(st.name)];
    }
    var o := OrderIndex(c, st.typ);
    if o < lastOrder {
      errs := errs + [OutOfOrder(st.name)];
    } else {
      order := o;
    }
    var missing := CheckRequired(c, st);
    var bad := CheckParams(c, st, declared, earlier);
    errs := errs + missing + bad;
    if st.forEach != "" && !SourcePasses(st, declared) {
      errs := errs + [BadSource(st.name)];
    }
  }

  method CheckRequired(c: Catalogue, st: Step) returns (errs: seq<Fault>)
    requires st.typ in c.specs
    ensures errs == [] <==> forall p :: p in c.specs[st.typ].required ==> p in st.params
  {
    errs := [];
    var left := c.specs[st.typ].required;
    while left != {}
      invariant left <= c.specs[st.typ].required
      invariant errs == [] <==> forall p :: p in c.specs[st.typ].required && p !in left ==> p in st.params
      decreases left
    {
      var p :| p in left;
      left := left - {p};
      if p !in st.params {
        errs := errs + [MissingParam(st.name, p)];
      }
    }
  }

  method CheckParams(c: Catalogue, st: Step, declared: map<string, Parameter>, earlier: map<string, Earlier>)
    returns (errs: seq<Fault>)
    requires st.typ in c.specs
    ensures errs == [] <==> forall p :: p in st.params ==> ParamPasses(c, st, p, declared, earlier)
  {
    errs := [];
    var left := st.params.Keys;
    while left != {}
      invariant left <= st.params.Keys
      invariant errs == [] <==> forall p :: p in st.params && p !in left ==> ParamPasses(c, st, p, declared, earlier)
      decreases left
    {
      var p :| p in left;
      left := left - {p};
      if !Allows(c.specs[st.typ], p) {
        errs := errs + [UnknownParam(st.name, p)];
      } else {
        var ok := CheckRefs(c, st.params[p], st.forEach != "", declared, earlier);
        if !ok {
          errs := errs + [BadValue(st.name, p)];
        }
      }
    }
  }

  /** Parse a param and look at each of its placeholders. */
  method CheckRefs(c: Catalogue, value: string, inForEach: bool, declared: map<string, Parameter>,
                   earlier: map<string, Earlier>) returns (ok: bool)
    ensures ok <==> ValuePasses(c, value, inForEach, declared, earlier)
  {
    var t := Parse(value);
    if t.None? {
      return false;
    }
    ok := true;
    for i := 0 to |t.value|
      invariant ok <==> forall s :: s in t.value[..i] && s.Place? ==>
                PlacePasses(c, s.hole, inForEach, declared, earlier)
    {
      if t.value[i].Place? && !PlacePasses(c, t.value[i].hole, inForEach, declared, earlier) {
        ok := false;
      }
    }
    assert t.value[..|t.value|] == t.value;
  }

  // ---- what the checker asks of its two tables ----

  predicate PlacePasses(c: Catalogue, h: Hole, inForEach: bool, declared: map<string, Parameter>,
                        earlier: map<string, Earlier>) {
    match h.kind
    case OfParams =>
      && h.name in declared && declared[h.name].typ != StringListType
      && !(declared[h.name].typ == ObjectListType && |h.filters| > 0)
    case OfConfig => h.name in c.configKeys
    case OfSteps => h.name in earlier && !earlier[h.name].forEach && h.key in earlier[h.name].outputs
    case OfItem => inForEach
  }

  ghost predicate ValuePasses(c: Catalogue, value: string, inForEach: bool, declared: map<string, Parameter>,
                              earlier: map<string, Earlier>) {
    && ParsedFrom(value, "").Some?
    && forall s :: s in ParsedFrom(value, "").value && s.Place? ==> PlacePasses(c, s.hole, inForEach, declared, earlier)
  }

  ghost predicate ParamPasses(c: Catalogue, st: Step, p: string, declared: map<string, Parameter>,
                              earlier: map<string, Earlier>)
    requires st.typ in c.specs && p in st.params
  {
    Allows(c.specs[st.typ], p) && ValuePasses(c, st.params[p], st.forEach != "", declared, earlier)
  }

  predicate SourcePasses(st: Step, declared: map<string, Parameter>) {
    && ListRef(st.forEach).Some? && ListRef(st.forEach).value in declared
    && declared[ListRef(st.forEach).value].typ in {StringListType, ObjectListType}
  }

  ghost predicate StepPasses(c: Catalogue, st: Step, declared: map<string, Parameter>, earlier: map<string, Earlier>,
                             lastOrder: int)
    requires st.typ in c.specs
  {
    && st.name !in earlier
    && lastOrder <= Position(st.typ, c.order)
    && (forall p :: p in c.specs[st.typ].required ==> p in st.params)
    && (forall p :: p in st.params ==> ParamPasses(c, st, p, declared, earlier))
    && (st.forEach != "" ==> SourcePasses(st, declared))
  }

  /** While nothing was wrong, the tables answer every question as the definition itself does. */
  lemma NextStep(c: Catalogue, def: Definition, i: nat, declared: map<string, Parameter>, earlier: map<string, Earlier>,
                 lastOrder: int)
    requires i < |def.steps| && def.steps[i].typ in c.specs && TablesOk(c, def, i, declared, earlier, lastOrder)
    ensures var st := def.steps[i];
            && (StepPasses(c, st, declared, earlier, lastOrder) <==> StepOk(c, def, i))
            && (StepOk(c, def, i) ==>
                  TablesOk(c, def, i + 1, declared,
                      earlier[st.name := Earlier(c.specs[st.typ].outputs, st.forEach != "")],
                           Position(st.typ, c.order)))
  {
    var st := def.steps[i];
    forall p | p in st.params
      ensures ParamPasses(c, st, p, declared, earlier) <==> StepParamOk(c, def, i, p)
    {
      ValueSame(c, def, i, declared, earlier, lastOrder, st.params[p]);
    }
    if ListRef(st.forEach).Some? {
      DeclaredSame(def, declared, ListRef(st.forEach).value);
    }
  }

  lemma ValueSame(c: Catalogue, def: Definition, i: nat, declared: map<string, Parameter>,
                  earlier: map<string, Earlier>, lastOrder: int, value: string)
    requires i < |def.steps| && TablesOk(c, def, i, declared, earlier, lastOrder)
    ensures ValuePasses(c, value, def.steps[i].forEach != "", declared, earlier) <==> ValueOk(c, def, i, value)
  {
    forall h: Hole
      ensures PlacePasses(c, h, def.steps[i].forEach != "", declared, earlier) <==> PlaceOk(c, def, i, h)
    {
      DeclaredSame(def, declared, h.name);
      EarlierSame(c, def.steps, i, earlier, h.name, h.key);
    }
  }

  lemma DeclaredSame(def: Definition, declared: map<string, Parameter>, name: string)
    requires NamesDiffer(def.parameters) && Knows(declared, def.parameters)
    ensures forall types :: IsDeclared(def, name, types) <==> name in declared && declared[name].typ in types
  {
    if name in declared {
      var i :| 0 <= i < |def.parameters| && def.parameters[i] == declared[name];
    }
  }

  lemma EarlierSame(c: Catalogue, steps: seq<Step>, i: nat, earlier: map<string, Earlier>, name: string, key: string)
    requires i <= |steps| && Remembers(c, earlier, steps, i)
    ensures Provides(c, steps, i, name, key) <==>
              name in earlier && !earlier[name].forEach && key in earlier[name].outputs
  {
    if name in earlier {
      var j :| 0 <= j < i && steps[j].name == name;
    }
  }
}
