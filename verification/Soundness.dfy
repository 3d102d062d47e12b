/**
 What an accepted definition guarantees at run time: placeholders resolve, except for the two
 things the static check cannot know (optional values and the fields of list entries).
 */
module Soundness {
  import opened Types
  import opened Templates
  import opened Rendering
  import opened Parameters
  import opened Plan
  import opened Catalog

  /** The outputs recorded by the time instance k runs: every earlier step without forEach has its declared ones. */
  ghost predicate PriorOutputs(c: Catalogue, insts: seq<Instance>, k: nat, outputs: map<string, map<string, string>>)
    requires k <= |insts|
  {
    forall m :: 0 <= m < k && insts[m].item.None? && insts[m].step.typ in c.specs ==>
        Provided(c, insts[m].step, outputs)
  }

  ghost predicate Provided(c: Catalogue, st: Step, outputs: map<string, map<string, string>>)
    requires st.typ in c.specs
  {
    st.name in outputs && forall key :: key in c.specs[st.typ].outputs ==> key in outputs[st.name]
  }

  /** The context in which the reconciler resolves the params of instance k. */
  ghost predicate ContextOf(c: Catalogue, steps: seq<Step>, values: Values, k: nat, x: Context)
    requires k < |All(steps, values)|
  {
    && x.params == values
    && (forall key :: key in c.configKeys ==> key in x.config)
    && PriorOutputs(c, All(steps, values), k, x.steps)
    && x.item == All(steps, values)[k].item && x.fields == All(steps, values)[k].fields
  }

  /** The only two things that can be missing when a placeholder of an accepted definition is looked up. */
  predicate Supplied(h: Hole, x: Context) {
    match h.kind
    case OfParams => h.name in x.params
    case OfItem => h.name == "" || (x.fields.Some? && h.name in x.fields.value)
    case _ => true
  }

  ghost predicate AllSupplied(t: Template, x: Context) {
    forall s :: s in t && s.Place? ==> Supplied(s.hole, x)
  }

  /** The problem a missing value or field causes. */
  predicate Excusable(p: Problem) {
    p.NoValue? || p.NoFields? || p.NoField?
  }

  /** A template whose placeholders can fail only for want of a value or a field resolves exactly if none is wanting. */
  lemma {:induction false} RendersIff(t: Template, x: Context, lib: Library)
    requires forall s :: s in t && s.Place? ==> (RenderedHole(s.hole, x, lib).Good? <==> Supplied(s.hole, x))
    requires forall s :: s in t && s.Place? && RenderedHole(s.hole, x, lib).Bad? ==>
             Excusable(RenderedHole(s.hole, x, lib).problem)
    ensures Rendered(t, x, lib).Good? <==> AllSupplied(t, x)
    ensures Rendered(t, x, lib).Bad? ==> Excusable(Rendered(t, x, lib).problem)
  {
    if t != [] {
      assert t == [t[0]] + t[1..];
      RendersIff(t[1..], x, lib);
      if t[0].Place? {
        assert RenderedOne(t[0], x, lib) == RenderedHole(t[0].hole, x, lib);
      }
    }
  }

  /** Typed as declared: what ResolveParameters guarantees of each value. */
  lemma {:induction false} TypedAsDeclared(def: Definition, supplied: map<string, Json>, values: Values, re: Patterns,
                                           name: string, types: set<ParamType>)
    requires NamesDiffer(def.parameters) && Resolves(def.parameters, supplied, values, re)
    requires IsDeclared(def, name, types) && name in values
    ensures exists d :: d in def.parameters && d.name == name && d.typ in types && Fits(d, values[name], re)
  {
    var i :| 0 <= i < |def.parameters| && def.parameters[i].name == name && def.parameters[i].typ in types;
    assert HasDocument(def.parameters, supplied, name);
    var j :| 0 <= j < |def.parameters| && def.parameters[j].name == name && Chosen(def.parameters[j], supplied).Some?;
    assert i == j;
    assert def.parameters[i] in def.parameters;
  }

  /** An earlier step that provides an output has its outputs recorded. */
  lemma ProvidedEarlier(c: Catalogue, steps: seq<Step>, values: Values, k: nat, i: nat,
                        outputs: map<string, map<string, string>>, name: string, key: string)
    requires k < |All(steps, values)| && PriorOutputs(c, All(steps, values), k, outputs)
    requires i < |steps| && k >= |All(steps[..i], values)| && Provides(c, steps, i, name, key)
    ensures name in outputs && key in outputs[name]
  {
    var j :| 0 <= j < i && j < |steps| && steps[j].name == name && steps[j].forEach == "" && steps[j].typ in c.specs
             && key in c.specs[steps[j].typ].outputs;
    OnlyInstance(steps, values, i, j);
    assert Provided(c, steps[j], outputs);
  }

  /** A step without forEach stands before every instance of a later step. */
  lemma OnlyInstance(steps: seq<Step>, values: Values, i: nat, j: nat)
    requires j < i < |steps| && steps[j].forEach == ""
    ensures var m := |All(steps[..j], values)|;
            && m < |All(steps[..i], values)| && m < |All(steps, values)|
            && All(steps, values)[m] == Instance(steps[j].name, steps[j], None, None)
  {
    PlaceOf(steps, values, j, 0);
    LongerFront(steps, values, j, i);
  }

  /** One placeholder that passed the check, looked up when its instance's turn has come. */
  lemma {:induction false} PlaceResolves(c: Catalogue, def: Definition, supplied: map<string, Json>, values: Values,
                                         re: Patterns, k: nat, i: nat, x: Context, h: Hole, lib: Library)
    requires Accepted(c, def, re) && Resolves(def.parameters, supplied, values, re)
    requires k < |All(def.steps, values)| && ContextOf(c, def.steps, values, k, x)
    requires i < |def.steps| && |All(def.steps[..i], values)| <= k
             && All(def.steps, values)[k] in Of(def.steps[i], values)
    requires PlaceOk(c, def, i, h)
    ensures RenderedHole(h, x, lib).Good? <==> Supplied(h, x)
    ensures RenderedHole(h, x, lib).Bad? ==> Excusable(RenderedHole(h, x, lib).problem)
  {
    match h.kind
    case OfParams =>
      ParamResolves(def, supplied, values, re, x, h, lib);
    case OfConfig =>
    case OfSteps =>
      ProvidedEarlier(c, def.steps, values, k, i, x.steps, h.name, h.key);
    case OfItem =>
      assert All(def.steps, values)[k].item.Some?;
  }

  lemma {:induction false} ParamResolves(def: Definition, supplied: map<string, Json>, values: Values, re: Patterns,
                                         x: Context, h: Hole, lib: Library)
    requires NamesDiffer(def.parameters) && Resolves(def.parameters, supplied, values, re) && x.params == values
    requires h.kind == OfParams
    requires IsDeclared(def, h.name, {StringType, NumberType, BooleanType} + if h.filters == [] then {ObjectListType}
             else {})
    ensures RenderedHole(h, x, lib).Good? <==> h.name in values
    ensures RenderedHole(h, x, lib).Bad? ==> RenderedHole(h, x, lib).problem == NoValue(h.name)
  {
    if h.name in values {
      var types := {StringType, NumberType, BooleanType} + if h.filters == [] then {ObjectListType} else {};
      TypedAsDeclared(def, supplied, values, re, h.name, types);
      assert !values[h.name].StrList?;
    }
  }

  /**
   Soundness of the static check.  For an accepted definition and resolved parameters, when an
   instance's turn comes, each of its params resolves exactly if every parameter it mentions has a
   value and every item field it mentions is in the item; nothing else can go wrong.
   */
  lemma {:induction false} AcceptedParamsResolve(c: Catalogue, def: Definition, supplied: map<string, Json>,
                                                 values: Values, re: Patterns, k: nat, x: Context, p: string,
                                                 lib: Library)
    requires Accepted(c, def, re) && Resolves(def.parameters, supplied, values, re)
    requires k < |All(def.steps, values)| && ContextOf(c, def.steps, values, k, x)
    requires p in All(def.steps, values)[k].step.params
    ensures var value := All(def.steps, values)[k].step.params[p];
            && ParsedFrom(value, "").Some?
            && (Resolved(value, x, lib).Good? <==> AllSupplied(ParsedFrom(value, "").value, x))
            && (Resolved(value, x, lib).Bad? ==> Excusable(Resolved(value, x, lib).problem))
  {
    var i, j := Origin(def.steps, values, k);
    assert StepOk(c, def, i) && StepParamOk(c, def, i, p);
    var t := ParsedFrom(def.steps[i].params[p], "").value;
    forall s | s in t && s.Place?
      ensures RenderedHole(s.hole, x, lib).Good? <==> Supplied(s.hole, x)
      ensures RenderedHole(s.hole, x, lib).Bad? ==> Excusable(RenderedHole(s.hole, x, lib).problem)
    {
      PlaceResolves(c, def, supplied, values, re, k, i, x, s.hole, lib);
    }
    RendersIff(t, x, lib);
  }

  // ---- what the check asks of a placeholder ----

  /** A context with everything step i can count on, and nothing else. */
  ghost predicate Countable(c: Catalogue, def: Definition, i: nat, x: Context)
    requires i < |def.steps|
  {
    && (forall p :: p in x.params <==> exists d :: d in def.parameters && d.name == p)
    && (forall d :: d in def.parameters && d.name in x.params ==> OfType(x.params[d.name], d.typ))
    && (forall key :: key in x.config <==> key in c.configKeys)
    && (forall name, key :: name in x.steps && key in x.steps[name] <==> GivenBefore(c, def, i, name, key))
    && (x.item == None <==> def.steps[i].forEach == "")
  }

  /** A step before this one, of that name and without forEach, has a type that declares the output. */
  ghost predicate GivenBefore(c: Catalogue, def: Definition, i: nat, name: string, key: string) {
    exists st: Step, j :: 0 <= j < i && j < |def.steps| && def.steps[j] == st && st.name == name && st.forEach == ""
                          && st.typ in c.specs && key in c.specs[st.typ].outputs
  }

  /** An objectList, which stands for its JSON text, does not go with filters. */
  ghost predicate FiltersObjects(h: Hole, x: Context) {
    h.kind == OfParams && h.name in x.params && x.params[h.name].ObjList? && h.filters != []
  }

  /** It resolves, but for an item's fields, which nobody declares. */
  ghost predicate ResolvesThere(h: Hole, x: Context, lib: Library) {
    var r := RenderedHole(h, x, lib);
    r.Good? || r.problem.NoFields? || r.problem.NoField?
  }

  /**
   The check lets a placeholder pass exactly if it resolves in a context with everything the step can
   count on and nothing else.  The only thing beyond that is filters on an objectList.
   */
  lemma {:induction false} PlaceOkIff(c: Catalogue, def: Definition, i: nat, h: Hole, x: Context, lib: Library)
    requires i < |def.steps| && NamesDiffer(def.parameters) && Countable(c, def, i, x)
    ensures PlaceOk(c, def, i, h) <==> ResolvesThere(h, x, lib) && !FiltersObjects(h, x)
  {
    match h.kind
    case OfParams =>
      ParamPlaceIff(c, def, i, h, x, lib);
    case OfSteps =>
      GivenIff(c, def, i, h.name, h.key);
    case _ =>
  }

  lemma GivenIff(c: Catalogue, def: Definition, i: nat, name: string, key: string)
    requires i < |def.steps|
    ensures GivenBefore(c, def, i, name, key) <==> Provides(c, def.steps, i, name, key)
  {
    if Provides(c, def.steps, i, name, key) {
      var j :| 0 <= j < i && j < |def.steps| && def.steps[j].name == name && def.steps[j].forEach == ""
          && def.steps[j].typ in c.specs && key in c.specs[def.steps[j].typ].outputs;
      assert def.steps[j] == def.steps[j];
    }
  }

  lemma {:induction false} ParamPlaceIff(c: Catalogue, def: Definition, i: nat, h: Hole, x: Context, lib: Library)
    requires i < |def.steps| && NamesDiffer(def.parameters) && Countable(c, def, i, x) && h.kind == OfParams
    ensures PlaceOk(c, def, i, h) <==> ResolvesThere(h, x, lib) && !FiltersObjects(h, x)
  {
    var types := {StringType, NumberType, BooleanType} + if h.filters == [] then {ObjectListType} else {};
    if h.name in x.params {
      var d :| d in def.parameters && d.name == h.name;
      var k :| 0 <= k < |def.parameters| && def.parameters[k] == d;
      assert OfType(x.params[h.name], d.typ);
      assert IsDeclared(def, h.name, types) <==> d.typ in types;
    }
  }

  /** So it lets a param pass exactly if it parses and all its placeholders do that. */
  lemma {:induction false} ValueOkIff(c: Catalogue, def: Definition, i: nat, value: string, x: Context, lib: Library)
    requires i < |def.steps| && NamesDiffer(def.parameters) && Countable(c, def, i, x)
    ensures ValueOk(c, def, i, value) <==>
            && ParsedFrom(value, "").Some?
            && forall s :: s in ParsedFrom(value, "").value && s.Place? ==>
                 ResolvesThere(s.hole, x, lib) && !FiltersObjects(s.hole, x)
  {
    forall h: Hole
      ensures PlaceOk(c, def, i, h) <==> ResolvesThere(h, x, lib) && !FiltersObjects(h, x)
    {
      PlaceOkIff(c, def, i, h, x, lib);
    }
  }

  // ---- expansion ----

  /** What the static check leaves to run time for one forEach step. */
  ghost predicate SourceUsable(st: Step, values: Values)
    requires st.forEach != "" && ListRef(st.forEach).Some?
  {
    var name := ListRef(st.forEach).value;
    name in values && (values[name].StrList? ==> "" !in values[name].items && Distinct(values[name].items))
  }

  ghost predicate Distinct(items: seq<string>) {
    forall i, j :: 0 <= i < j < |items| ==> items[i] != items[j]
  }

  lemma {:induction false} SourceResolves(c: Catalogue, def: Definition, supplied: map<string, Json>, values: Values,
                                          re: Patterns, i: nat)
    requires Accepted(c, def, re) && Resolves(def.parameters, supplied, values, re)
    requires i < |def.steps| && def.steps[i].forEach != ""
    ensures ListRef(def.steps[i].forEach).Some?
    ensures Resolvable(def.steps[i], values) <==> ListRef(def.steps[i].forEach).value in values
    ensures Resolvable(def.steps[i], values) && ListOk(def.steps[i], values) <==> SourceUsable(def.steps[i], values)
  {
    var st := def.steps[i];
    assert StepOk(c, def, i);
    var name := ListRef(st.forEach).value;
    if name in values {
      TypedAsDeclared(def, supplied, values, re, name, {StringListType, ObjectListType});
      var d :| d in def.parameters && d.name == name && d.typ in {StringListType, ObjectListType}
          && Fits(d, values[name], re);
      if d.typ == ObjectListType {
        ObjectListsAreOk(st, values, d, re);
      } else {
        StringItems(st, values);
      }
    }
  }

  lemma StringItems(st: Step, values: Values)
    requires st.forEach != "" && ListRef(st.forEach).Some? && ListRef(st.forEach).value in values
    requires values[ListRef(st.forEach).value].StrList?
    ensures var list := values[ListRef(st.forEach).value].items;
            Items(st, values).Good? && (ListOk(st, values) <==> "" !in list && Distinct(list))
  {
    var list, items := values[ListRef(st.forEach).value].items, Items(st, values).value;
    assert |items| == |list| && forall i :: 0 <= i < |list| ==> items[i].key == list[i];
    if ListOk(st, values) {
      forall i, j | 0 <= i < j < |list|
        ensures list[i] != list[j]
      {
        assert items[i].key != items[j].key;
      }
    }
  }

  /**
   Expanding an accepted definition succeeds exactly if every forEach parameter has a value and
   every stringList among them has non-empty, pairwise different items.
   */
  lemma {:induction false} AcceptedPlansExpandIff(c: Catalogue, def: Definition, supplied: map<string, Json>,
                                                  values: Values, re: Patterns)
    requires Accepted(c, def, re) && Resolves(def.parameters, supplied, values, re)
    requires forall i :: 0 <= i < |def.steps| ==> SlashFree(def.steps[i].name)
    ensures Executable(def.steps, values) <==>
            forall i :: 0 <= i < |def.steps| && def.steps[i].forEach != "" ==>
              ListRef(def.steps[i].forEach).Some? && SourceUsable(def.steps[i], values)
  {
    assert NamesOk(def.steps) by {
      forall i, j | 0 <= i < j < |def.steps|
        ensures def.steps[i].name != def.steps[j].name
      {
        assert StepOk(c, def, j);
      }
    }
    forall i | 0 <= i < |def.steps| && def.steps[i].forEach != ""
      ensures ListRef(def.steps[i].forEach).Some?
      ensures Resolvable(def.steps[i], values) && ListOk(def.steps[i], values) <==> SourceUsable(def.steps[i], values)
    {
      SourceResolves(c, def, supplied, values, re, i);
    }
    if forall i :: 0 <= i < |def.steps| ==> Resolvable(def.steps[i], values) {
      ExecutableIff(def.steps, values);
    }
  }
}
