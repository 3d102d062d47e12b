/** Expanding a definition into the ordered step instances a run executes (plan.Expand). */
module Plan {
  import opened Types
  import opened Text
  import opened Templates
  import opened Rendering
  import Parameters

  datatype Step = Step(name: string, typ: string, forEach: string, params: map<string, string>)

  datatype Instance = Instance(key: string, step: Step, item: Option<string>, fields: Option<map<string, string>>)

  datatype PlanError = NoList(step: string, problem: Problem) | EmptyItem(step: string) | Twice(key: string)

  datatype Planned = Plan(instances: seq<Instance>) | NoPlan(error: PlanError)

  type Values = map<string, Value>

  // ---- what a plan is ----

  /** The items a step runs for, if it has a forEach at all. */
  function Items(st: Step, values: Values): Answer<seq<Item>>
    requires st.forEach != ""
  {
    ResolvedList(st.forEach, values)
  }

  predicate Resolvable(st: Step, values: Values) {
    st.forEach != "" ==> Items(st, values).Good?
  }

  /** The instances of one step. */
  function Of(st: Step, values: Values): seq<Instance> {
    if st.forEach == "" then [Instance(st.name, st, None, None)]
    else match Items(st, values)
      case Bad(_) => []
      case Good(items) => seq(|items|, i requires 0 <= i < |items| => ForItem(st, items[i]))
  }

  function ForItem(st: Step, it: Item): Instance {
    Instance(st.name + "/" + it.key, st, Some(it.key), it.fields)
  }

  lemma ListedBy(n: string)
    requires Plain(n)
    ensures ListRef("${params." + n + "}") == Some(n)
  {
    ParamMeans(n, []);
    assert "${params." + n + "" + "}" == "${params." + n + "}";
  }

  /**
   Which instances a step has.  Without forEach there is one, with the step's name.  With the list of a
   parameter there is one for each entry: named after a string, or after the "key" of an object whose
   fields it then has.
   */
  lemma InstancesAre(st: Step, values: Values, n: string)
    requires Plain(n)
    ensures st.forEach == "" ==> Of(st, values) == [Instance(st.name, st, None, None)]
    ensures st.forEach == "${params." + n + "}" ==>
              if n !in values then Items(st, values) == Bad(NoValue(n))
              else if values[n].StrList? then
                && |Of(st, values)| == |values[n].items|
                && forall i :: 0 <= i < |values[n].items| ==>
                     var item := values[n].items[i];
                     Of(st, values)[i] == Instance(st.name + "/" + item, st, Some(item), None)
              else if values[n].ObjList? then
                && |Of(st, values)| == |values[n].objects|
                && forall i :: 0 <= i < |values[n].objects| ==>
                     var fields := values[n].objects[i];
                     var key := if "key" in fields then fields["key"] else "";
                     Of(st, values)[i] == Instance(st.name + "/" + key, st, Some(key), Some(fields))
              else Items(st, values) == Bad(NotAList(n))
  {
    ListedBy(n);
  }

  /** The instances of all steps: definition order, then item order. */
  function All(steps: seq<Step>, values: Values): seq<Instance> {
    if steps == [] then [] else All(steps[..|steps| - 1], values) + Of(steps[|steps| - 1], values)
  }

  predicate HasEmptyItem(st: Step, values: Values) {
    && st.forEach != "" && Items(st, values).Good?
    && exists i :: 0 <= i < |Items(st, values).value| && Items(st, values).value[i].key == ""
  }

  predicate Expandable(st: Step, values: Values) {
    Resolvable(st, values) && !HasEmptyItem(st, values)
  }

  ghost predicate KeysDiffer(instances: seq<Instance>) {
    forall i, j :: 0 <= i < j < |instances| ==> instances[i].key != instances[j].key
  }

  function KeysOf(instances: seq<Instance>): set<string> {
    set x | x in instances :: x.key
  }

  lemma AddKey(out: seq<Instance>, x: Instance)
    requires KeysDiffer(out) && x.key !in KeysOf(out)
    ensures KeysDiffer(out + [x]) && KeysOf(out + [x]) == KeysOf(out) + {x.key}
  {
    assert forall i :: 0 <= i < |out| ==> out[i].key in KeysOf(out);
  }

  predicate UsedTwice(instances: seq<Instance>, key: string) {
    exists i, j :: 0 <= i < j < |instances| && instances[i].key == key && instances[j].key == key
  }

  ghost predicate Executable(steps: seq<Step>, values: Values) {
    && (forall i :: 0 <= i < |steps| ==> Expandable(steps[i], values))
    && KeysDiffer(All(steps, values))
  }

  /** The error names something that is really wrong. */
  ghost predicate Explains(steps: seq<Step>, values: Values, e: PlanError) {
    match e
    case NoList(name, p) =>
      exists i :: 0 <= i < |steps| && steps[i].name == name && steps[i].forEach != ""
          && Items(steps[i], values) == Bad(p)
    case EmptyItem(name) => exists i :: 0 <= i < |steps| && steps[i].name == name && HasEmptyItem(steps[i], values)
    case Twice(key) => UsedTwice(All(steps, values), key)
  }

  /** Everything up to part of step i stands at the front of the whole plan. */
  lemma {:induction false} FrontOfAll(steps: seq<Step>, i: nat, values: Values)
    requires i < |steps|
    ensures All(steps[..i + 1], values) == All(steps[..i], values) + Of(steps[i], values)
    ensures All(steps[..i + 1], values) <= All(steps, values)
    decreases |steps|
  {
    assert steps[..i + 1][..i] == steps[..i];
    if i + 1 == |steps| {
      assert steps[..i + 1] == steps;
    } else {
      FrontOfAll(steps[..|steps| - 1], i, values);
      assert steps[..|steps| - 1][..i + 1] == steps[..i + 1] && steps[..|steps| - 1][..i] == steps[..i];
    }
  }

  /** Add one instance unless its key is taken. */
  method Add(out: seq<Instance>, seen: set<string>, x: Instance)
    returns (out2: seq<Instance>, seen2: set<string>, dup: bool)
    requires KeysDiffer(out) && seen == KeysOf(out)
    ensures dup <==> x.key in seen
    ensures !dup ==> out2 == out + [x] && KeysDiffer(out2) && seen2 == KeysOf(out2)
  {
    out2, seen2, dup := out, seen, x.key in seen;
    if !dup {
      AddKey(out, x);
      seen2 := seen + {x.key};
      out2 := out + [x];
    }
  }

  /** Add the instances of a forEach step. */
  method AddItems(st: Step, values: Values, out: seq<Instance>, seen: set<string>)
    returns (out2: seq<Instance>, seen2: set<string>, err: Option<PlanError>)
    requires st.forEach != "" && Items(st, values).Good? && KeysDiffer(out) && seen == KeysOf(out)
    ensures err.None? ==>
              out2 == out + Of(st, values) && KeysDiffer(out2) && seen2 == KeysOf(out2) && !HasEmptyItem(st, values)
    ensures err.Some? ==>
              || (err.value == EmptyItem(st.name) && HasEmptyItem(st, values))
              || (err.value.Twice? && UsedTwice(out + Of(st, values), err.value.key))
  {
    var items := Items(st, values).value;
    out2, seen2, err := out, seen, None;
    for j := 0 to |items|
      invariant out2 == out + Of(st, values)[..j] && KeysDiffer(out2) && seen2 == KeysOf(out2)
      invariant forall l :: 0 <= l < j ==> items[l].key != ""
    {
      if items[j].key == "" {
        err := Some(EmptyItem(st.name));
        return;
      }
      var dup;
      ghost var before, all := out2, out + Of(st, values);
      assert before == all[..|before|] && all[|before|] == ForItem(st, items[j]);
      out2, seen2, dup := Add(out2, seen2, ForItem(st, items[j]));
      if dup {
        TwiceInAll(all, all, |before|);
        err := Some(Twice(st.name + "/" + items[j].key));
        return;
      }
    }
    assert Of(st, values)[..|items|] == Of(st, values);
  }

  /** What is wrong at step i makes the whole plan inexecutable. */
  lemma StepError(steps: seq<Step>, i: nat, values: Values, e: PlanError)
    requires i < |steps|
    requires match e
             case NoList(name, p) => name == steps[i].name && steps[i].forEach != ""
                 && Items(steps[i], values) == Bad(p)
             case EmptyItem(name) => name == steps[i].name && HasEmptyItem(steps[i], values)
             case Twice(key) => UsedTwice(All(steps[..i], values) + Of(steps[i], values), key)
    ensures Explains(steps, values, e) && !Executable(steps, values)
  {
    FrontOfAll(steps, i, values);
    if e.Twice? {
      TwiceInFront(All(steps[..i + 1], values), All(steps, values), e.key);
    }
  }

  /** Add the instances of one step. */
  method AddStep(steps: seq<Step>, i: nat, values: Values, out: seq<Instance>, seen: set<string>)
    returns (out2: seq<Instance>, seen2: set<string>, err: Option<PlanError>)
    requires i < |steps| && out == All(steps[..i], values) && KeysDiffer(out) && seen == KeysOf(out)
    ensures err.None? ==>
              && out2 == All(steps[..i + 1], values) && KeysDiffer(out2) && seen2 == KeysOf(out2)
              && Expandable(steps[i], values)
    ensures err.Some? ==> Explains(steps, values, err.value) && !Executable(steps, values)
  {
    var st := steps[i];
    FrontOfAll(steps, i, values);
    if st.forEach == "" {
      var dup;
      out2, seen2, dup := Add(out, seen, Instance(st.name, st, None, None));
      err := if dup then Some(Twice(st.name)) else None;
      if dup {
        assert (out + Of(st, values))[..|out|] == out;
        TwiceInAll(out + Of(st, values), out + Of(st, values), |out|);
        StepError(steps, i, values, err.value);
      }
    } else {
      var items := Items(st, values);
      if items.Bad? {
        out2, seen2, err := out, seen, Some(NoList(st.name, items.problem));
        StepError(steps, i, values, err.value);
        return;
      }
      out2, seen2, err := AddItems(st, values, out, seen);
      if err.Some? {
        StepError(steps, i, values, err.value);
      }
    }
  }

  /** The expansion succeeds exactly if the plan is executable, and yields that plan in order. */
  method Expand(steps: seq<Step>, values: Values) returns (r: Planned)
    ensures r.Plan? <==> Executable(steps, values)
    ensures r.Plan? ==> r.instances == All(steps, values)
    ensures r.NoPlan? ==> Explains(steps, values, r.error)
  {
    var seen: set<string> := {};
    var out: seq<Instance> := [];
    for i := 0 to |steps|
      invariant out == All(steps[..i], values) && KeysDiffer(out) && seen == KeysOf(out)
      invariant forall j :: 0 <= j < i ==> Expandable(steps[j], values)
    {
      var err;
      out, seen, err := AddStep(steps, i, values, out, seen);
      if err.Some? {
        return NoPlan(err.value);
      }
    }
    assert steps[..|steps|] == steps;
    return Plan(out);
  }

  /** A key that occurs again in a front part of the plan occurs twice in the plan. */
  lemma TwiceInAll(front: seq<Instance>, all: seq<Instance>, n: nat)
    requires front <= all && n < |front| && front[n].key in KeysOf(front[..n])
    ensures UsedTwice(all, front[n].key) && !KeysDiffer(all)
  {
    var x :| x in front[..n] && x.key == front[n].key;
    var k :| 0 <= k < n && front[..n][k] == x;
    assert all[k] == front[k] && all[n] == front[n];
  }

  lemma TwiceInFront(front: seq<Instance>, all: seq<Instance>, key: string)
    requires front <= all && UsedTwice(front, key)
    ensures UsedTwice(all, key) && !KeysDiffer(all)
  {
    var i, j :| 0 <= i < j < |front| && front[i].key == key && front[j].key == key;
    assert all[i] == front[i] && all[j] == front[j];
  }

  // ---- keys ----

  predicate SlashFree(name: string) {
    '/' !in name
  }

  /** Step names as the CRD's list-map key and pattern guarantee them. */
  ghost predicate NamesOk(steps: seq<Step>) {
    && (forall i :: 0 <= i < |steps| ==> SlashFree(steps[i].name))
    && (forall i, j :: 0 <= i < j < |steps| ==> steps[i].name != steps[j].name)
  }

  /** An instance key, split at its first slash. */
  function SplitKey(key: string): (string, Option<string>) {
    match IndexOf(key, '/')
    case None => (key, None)
    case Some(i) => (key[..i], Some(key[i + 1..]))
  }

  /** The key of every instance splits back into its step and its item. */
  lemma KeySplits(in_: Instance, steps: seq<Step>, values: Values, i: nat)
    requires i < |steps| && NamesOk(steps) && in_ in Of(steps[i], values)
    ensures SplitKey(in_.key) == (steps[i].name, in_.item)
  {
    var name := steps[i].name;
    assert SlashFree(name);
    if in_.item.Some? {
      FirstSlash(name, in_.item.value);
    }
  }

  lemma FirstSlash(name: string, item: string)
    requires SlashFree(name)
    ensures SplitKey(name + "/" + item) == (name, Some(item))
  {
    IndexAfter(name, '/', item);
    var key := name + "/" + item;
    assert key[..|name|] == name && key[|name| + 1..] == item;
  }

  /** Where instance k of the plan comes from. */
  lemma {:induction false} Origin(steps: seq<Step>, values: Values, k: nat) returns (i: nat, j: nat)
    requires k < |All(steps, values)|
    ensures i < |steps| && j < |Of(steps[i], values)| && All(steps, values)[k] == Of(steps[i], values)[j]
    ensures k == |All(steps[..i], values)| + j
    decreases |steps|
  {
    var n := |steps| - 1;
    var before := All(steps[..n], values);
    if k < |before| {
      i, j := Origin(steps[..n], values, k);
      assert steps[..n][..i] == steps[..i];
    } else {
      i, j := n, k - |before|;
    }
  }

  lemma {:induction false} LongerFront(steps: seq<Step>, values: Values, a: nat, b: nat)
    requires a < b <= |steps|
    ensures |All(steps[..a], values)| + |Of(steps[a], values)| <= |All(steps[..b], values)|
    decreases b
  {
    if a + 1 < b {
      LongerFront(steps, values, a, b - 1);
    }
    assert steps[..b][..b - 1] == steps[..b - 1];
  }

  /** Instances stand in definition order, then item order. */
  lemma InOrder(steps: seq<Step>, values: Values, k1: nat, k2: nat) returns (i1: nat, j1: nat, i2: nat, j2: nat)
    requires k1 < k2 < |All(steps, values)|
    ensures i1 < |steps| && j1 < |Of(steps[i1], values)| && All(steps, values)[k1] == Of(steps[i1], values)[j1]
    ensures i2 < |steps| && j2 < |Of(steps[i2], values)| && All(steps, values)[k2] == Of(steps[i2], values)[j2]
    ensures i1 < i2 || (i1 == i2 && j1 < j2)
  {
    i1, j1 := Origin(steps, values, k1);
    i2, j2 := Origin(steps, values, k2);
    if i2 < i1 {
      LongerFront(steps, values, i2, i1);
    }
  }

  ghost predicate ItemsDiffer(st: Step, values: Values)
    requires st.forEach != "" && Items(st, values).Good?
  {
    var items := Items(st, values).value;
    forall i, j :: 0 <= i < j < |items| ==> items[i].key != items[j].key
  }

  /** A step's list gives usable, pairwise different items. */
  ghost predicate ListOk(st: Step, values: Values) {
    st.forEach != "" && Items(st, values).Good? ==> !HasEmptyItem(st, values) && ItemsDiffer(st, values)
  }

  /**
   With resolvable lists, the expansion succeeds exactly if every forEach list has non-empty,
   pairwise different items.  Different steps never clash, whatever characters items contain.
   */
  lemma ExecutableIff(steps: seq<Step>, values: Values)
    requires NamesOk(steps) && forall i :: 0 <= i < |steps| ==> Resolvable(steps[i], values)
    ensures Executable(steps, values) <==> forall i :: 0 <= i < |steps| ==> ListOk(steps[i], values)
  {
    if forall i :: 0 <= i < |steps| ==> ListOk(steps[i], values) {
      forall k1, k2 | 0 <= k1 < k2 < |All(steps, values)|
        ensures All(steps, values)[k1].key != All(steps, values)[k2].key
      {
        NeverTwice(steps, values, k1, k2);
      }
    }
    if Executable(steps, values) {
      forall i | 0 <= i < |steps|
        ensures ListOk(steps[i], values)
      {
        if steps[i].forEach != "" {
          DifferentItems(steps, values, i);
        }
      }
    }
  }

  lemma NeverTwice(steps: seq<Step>, values: Values, k1: nat, k2: nat)
    requires NamesOk(steps) && k1 < k2 < |All(steps, values)|
    requires forall i :: 0 <= i < |steps| ==> ListOk(steps[i], values)
    ensures All(steps, values)[k1].key != All(steps, values)[k2].key
  {
    var i1, j1, i2, j2 := InOrder(steps, values, k1, k2);
    var a, b := Of(steps[i1], values)[j1], Of(steps[i2], values)[j2];
    KeySplits(a, steps, values, i1);
    KeySplits(b, steps, values, i2);
    assert ListOk(steps[i1], values);
  }

  lemma DifferentItems(steps: seq<Step>, values: Values, i: nat)
    requires i < |steps| && steps[i].forEach != "" && Resolvable(steps[i], values) && KeysDiffer(All(steps, values))
    ensures ItemsDiffer(steps[i], values)
  {
    var items := Items(steps[i], values).value;
    forall a, b | 0 <= a < b < |items|
      ensures items[a].key != items[b].key
    {
      PlaceOf(steps, values, i, a);
      PlaceOf(steps, values, i, b);
    }
  }

  lemma PlaceOf(steps: seq<Step>, values: Values, i: nat, j: nat)
    requires i < |steps| && j < |Of(steps[i], values)|
    ensures var n := |All(steps[..i], values)|;
            n + j < |All(steps, values)| && All(steps, values)[n + j] == Of(steps[i], values)[j]
  {
    FrontOfAll(steps, i, values);
    assert All(steps[..i + 1], values)[|All(steps[..i], values)| + j] == Of(steps[i], values)[j];
  }

  /** An objectList that ResolveParameters accepted always has usable, different items. */
  lemma {:induction false} ObjectListsAreOk(st: Step, values: Values, d: Parameters.Parameter, re: Parameters.Patterns)
    requires st.forEach != "" && ListRef(st.forEach) == Some(d.name)
    requires d.typ == Parameters.ObjectListType && d.name in values && Parameters.Fits(d, values[d.name], re)
    ensures Items(st, values).Good? && ListOk(st, values)
  {
    var objects, items := values[d.name].objects, Items(st, values).value;
    assert forall i :: 0 <= i < |items| ==> items[i].key == Parameters.KeyOf(objects[i]);
  }
}
