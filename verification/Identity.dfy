/**
 How a step recognises an object it finds upstream: triggers and apps are read back and compared
 in their identity fields (triggerStep.Ensure, appStep.Ensure).
 */
module Identity {
  import opened Types
  import opened Text
  import opened Ordering
  import opened EarlyChecks

  const NUL: char := '\0'

  /** authRefKey and existingAuthKey: "" when there is no reference. */
  function AuthKey(ref: Option<AuthRef>): string {
    match ref
    case None => ""
    case Some(r) => r.mode + "/" + r.name
  }

  /** What existingAuthKey makes of the two strings it finds, "" when a field is missing. */
  function FoundAuthKey(ref: Option<AuthRef>): string {
    match ref
    case None => ""
    case Some(r) => if r.mode == "" && r.name == "" then "" else r.mode + "/" + r.name
  }

  predicate ModeOk(ref: Option<AuthRef>) {
    ref.Some? ==> ref.value.mode == "serviceAccount" || ref.value.mode == "oidc"
  }

  /** Modes contain no slash, so keys of accepted references determine them. */
  lemma AuthKeysDiffer(a: Option<AuthRef>, b: Option<AuthRef>)
    requires ModeOk(a) && ModeOk(b)
    ensures FoundAuthKey(a) == AuthKey(b) <==> a == b
  {
    if a.Some? && b.Some? && FoundAuthKey(a) == AuthKey(b) {
      assert '/' !in a.value.mode && '/' !in b.value.mode;
      CutsApart(a.value.mode, a.value.name, b.value.mode, b.value.name, '/');
    }
  }

  // ---- triggers ----

  /** One parameterOverrides entry. */
  datatype Override = Override(name: string, value: string)

  /** A WeaveTrigger spec as weave returns it; schedule is "" when absent. */
  datatype Trigger = Trigger(chain: string, typ: string, schedule: string, overrides: seq<Override>,
                             auth: Option<AuthRef>)

  const OVERRIDE_PREFIX: string := "override."

  function OverrideNames(p: Params): set<string> {
    set k | k in p && HasPrefix(k, OVERRIDE_PREFIX) :: k[|OVERRIDE_PREFIX|..]
  }

  function OverridesOf(p: Params): map<string, string> {
    map name | name in OverrideNames(p) && OVERRIDE_PREFIX + name in p :: p[OVERRIDE_PREFIX + name]
  }

  method CollectOverrides(p: Params) returns (overrides: map<string, string>)
    ensures overrides == OverridesOf(p)
    ensures forall name :: name in overrides <==> "override." + name in p
    ensures forall name :: name in overrides ==> overrides[name] == p["override." + name]
  {
    overrides := map[];
    var left := p.Keys;
    while left != {}
      invariant left <= p.Keys
      invariant forall name :: name in overrides <==> OVERRIDE_PREFIX + name in p && OVERRIDE_PREFIX + name !in left
      invariant forall name :: name in overrides ==> overrides[name] == p[OVERRIDE_PREFIX + name]
      decreases left
    {
      var k :| k in left;
      left := left - {k};
      if HasPrefix(k, OVERRIDE_PREFIX) {
        assert OVERRIDE_PREFIX + k[|OVERRIDE_PREFIX|..] == k;
        overrides := overrides[k[|OVERRIDE_PREFIX|..] := p[k]];
      }
    }
    forall name | OVERRIDE_PREFIX + name in p
      ensures name in OverrideNames(p)
    {
      assert (OVERRIDE_PREFIX + name)[|OVERRIDE_PREFIX|..] == name;
    }
  }

  function TypeOf(p: Params): string {
    if Get(p, "type") != "" then Get(p, "type") else "OnDemand"
  }

  /** The step's own checks before it touches anything. */
  predicate TriggerOk(p: Params) {
    && (TypeOf(p) == "OnDemand" || TypeOf(p) == "Cron")
    && (TypeOf(p) == "Cron" <==> Get(p, "schedule") != "")
    && AuthOk(p, "externalAuthOverrideMode", "externalAuthOverrideName")
  }

  function TriggerAuth(p: Params): Option<AuthRef> {
    AuthFrom(p, "externalAuthOverrideMode", "externalAuthOverrideName")
  }

  ghost function ListOf(m: map<string, string>): seq<Override> {
    var keys := SortedKeys(m.Keys);
    seq(|keys|, i requires 0 <= i < |keys| => assert keys[i] in keys; Override(keys[i], m[keys[i]]))
  }

  ghost function BuiltTrigger(p: Params): Trigger {
    Trigger(Get(p, "chain"), TypeOf(p), Get(p, "schedule"), ListOf(OverridesOf(p)), TriggerAuth(p))
  }

  function Pair(k: string, v: string): string {
    k + "=" + v
  }

  ghost function SortedPairs(m: map<string, string>): seq<string> {
    var keys := SortedKeys(m.Keys);
    seq(|keys|, i requires 0 <= i < |keys| => assert keys[i] in keys; Pair(keys[i], m[keys[i]]))
  }

  /** The overrides of a list by name; the last entry of a name wins. */
  function ByName(list: seq<Override>): map<string, string> {
    if list == [] then map[] else ByName(list[..|list| - 1])[list[|list| - 1].name := list[|list| - 1].value]
  }

  method ReadBack(list: seq<Override>) returns (m: map<string, string>)
    ensures m == ByName(list)
  {
    m := map[];
    for i := 0 to |list|
      invariant m == ByName(list[..i])
    {
      m := m[list[i].name := list[i].value];
      assert list[..i + 1][..i] == list[..i];
    }
    assert list[..|list|] == list;
  }

  /** Does the trigger found upstream have the content these params ask for? */
  ghost predicate TriggerMatches(found: Trigger, p: Params) {
    && found.chain == Get(p, "chain")
    && found.typ == TypeOf(p) && found.schedule == Get(p, "schedule")
    && Join(SortedPairs(ByName(found.overrides)), NUL) == Join(SortedPairs(OverridesOf(p)), NUL)
    && FoundAuthKey(found.auth) == AuthKey(TriggerAuth(p))
  }

  lemma {:induction false} ByNameOf(list: seq<Override>)
    requires forall i, j :: 0 <= i < j < |list| ==> list[i].name != list[j].name
    ensures forall name :: name in ByName(list) <==> exists i :: 0 <= i < |list| && list[i].name == name
    ensures forall i :: 0 <= i < |list| ==> list[i].name in ByName(list) && ByName(list)[list[i].name] == list[i].value
  {
    if list != [] {
      var n := |list| - 1;
      ByNameOf(list[..n]);
      assert forall i :: 0 <= i < n ==> list[..n][i] == list[i];
    }
  }

  lemma {:induction false} KeysDiffer(s: set<string>)
    ensures forall i, j :: 0 <= i < j < |SortedKeys(s)| ==> SortedKeys(s)[i] != SortedKeys(s)[j]
    decreases |s|
  {
    if s != {} {
      var keys := SortedKeys(s);
      KeysDiffer(s - {keys[0]});
      assert keys == [keys[0]] + SortedKeys(s - {keys[0]});
    }
  }

  /** A map written as a list and read back is the same map. */
  lemma ListReadBack(m: map<string, string>)
    ensures ByName(ListOf(m)) == m
  {
    KeysDiffer(m.Keys);
    var keys, list := SortedKeys(m.Keys), ListOf(m);
    forall i, j | 0 <= i < j < |list|
      ensures list[i].name != list[j].name
    {
      assert list[i].name == keys[i] && list[j].name == keys[j];
    }
    ByNameOf(list);
    forall k
      ensures k in ByName(list) <==> k in m
      ensures k in m ==> ByName(list)[k] == m[k]
    {
      if k in m {
        var i :| 0 <= i < |keys| && keys[i] == k;
        assert list[i].name == k;
      }
    }
  }

  /** The order in which weave lists the overrides does not matter. */
  lemma OverrideOrderIsForgotten(a: seq<Override>, b: seq<Override>)
    requires multiset(a) == multiset(b)
    requires forall i, j :: 0 <= i < j < |a| ==> a[i].name != a[j].name
    requires forall i, j :: 0 <= i < j < |b| ==> b[i].name != b[j].name
    ensures ByName(a) == ByName(b)
  {
    ByNameOf(a);
    ByNameOf(b);
    forall name
      ensures name in ByName(a) <==> name in ByName(b)
      ensures name in ByName(a) ==> ByName(a)[name] == ByName(b)[name]
    {
      if name in ByName(a) {
        SameEntry(a, b, name);
      }
      if name in ByName(b) {
        SameEntry(b, a, name);
      }
    }
  }

  lemma SameEntry(a: seq<Override>, b: seq<Override>, name: string)
    requires multiset(a) == multiset(b) && exists i :: 0 <= i < |a| && a[i].name == name
    ensures exists i, j :: 0 <= i < |a| && 0 <= j < |b| && a[i] == b[j] && a[i].name == name
  {
    var i :| 0 <= i < |a| && a[i].name == name;
    assert a[i] in multiset(b);
    var j :| 0 <= j < |b| && b[j] == a[i];
  }

  /** The comparison's own separator occurs nowhere. */
  predicate NoNuls(m: map<string, string>) {
    forall k :: k in m ==> NUL !in k && NUL !in m[k]
  }

  lemma PairsAreJoinable(m: map<string, string>)
    requires NoNuls(m)
    ensures Joinable(SortedPairs(m), NUL)
  {
    var keys := SortedKeys(m.Keys);
    forall i | 0 <= i < |keys|
      ensures SortedPairs(m)[i] != "" && NUL !in SortedPairs(m)[i]
    {
      assert keys[i] in keys;
    }
  }

  /** The sorted pairs of a map determine it, among maps with unambiguous names. */
  lemma PairsDetermine(a: map<string, string>, b: map<string, string>)
    requires Unambiguous(a.Keys + b.Keys, '=') && SortedPairs(a) == SortedPairs(b)
    ensures a == b
  {
    forall k
      ensures k in a <==> k in b
      ensures k in a ==> a[k] == b[k]
    {
      if k in a {
        PairOccurs(a, b, k);
      }
      if k in b {
        PairOccurs(b, a, k);
      }
    }
  }

  lemma PairOccurs(a: map<string, string>, b: map<string, string>, k: string)
    requires Unambiguous(a.Keys + b.Keys, '=') && SortedPairs(a) == SortedPairs(b) && k in a
    ensures k in b && b[k] == a[k]
  {
    var ka, kb := SortedKeys(a.Keys), SortedKeys(b.Keys);
    assert k in ka;
    var i :| 0 <= i < |ka| && ka[i] == k;
    assert kb[i] in kb;
    assert SortedPairs(a)[i] == Pair(k, a[k]) && SortedPairs(b)[i] == Pair(kb[i], b[kb[i]]);
    CutsApartUnless(k, a[k], kb[i], b[kb[i]], '=');
  }

  ghost predicate PairsTellApart(names: set<string>) {
    forall a: map<string, string>, b: map<string, string> ::
      a.Keys <= names && b.Keys <= names && SortedPairs(a) == SortedPairs(b) ==> a == b
  }

  /** Overrides with names from a set can be told apart exactly if no name is another one followed by '='. */
  lemma NamesTellApartIff(names: set<string>)
    ensures PairsTellApart(names) <==> Unambiguous(names, '=')
  {
    if Unambiguous(names, '=') {
      forall a: map<string, string>, b: map<string, string> | a.Keys <= names && b.Keys <= names
          && SortedPairs(a) == SortedPairs(b)
        ensures a == b
      {
        PairsDetermine(a, b);
      }
    } else {
      var x, y :| x in names && y in names && x + ['='] <= y;
      ConfusedPair(x, y);
      assert map[y := ""].Keys <= names && map[x := y[|x| + 1..] + "="].Keys <= names;
    }
  }

  /** A name that is another one followed by '=', and two different overrides that look alike. */
  lemma ConfusedPair(x: string, y: string)
    requires x + ['='] <= y
    ensures var a, b := map[y := ""], map[x := y[|x| + 1..] + "="];
            SortedPairs(a) == SortedPairs(b) && a != b
  {
    var rest := y[|x| + 1..];
    OnePair(y, "");
    OnePair(x, rest + "=");
    assert y == x + ['='] + rest;
    assert Pair(y, "") == x + "=" + rest + "=" == Pair(x, rest + "=");
    assert y in map[y := ""] && y !in map[x := rest + "="];
  }

  /** The same chain, type (OnDemand if none is given), schedule, overrides and auth are asked for. */
  ghost predicate SameTrigger(p: Params, q: Params) {
    && Get(p, "chain") == Get(q, "chain") && Get(p, "schedule") == Get(q, "schedule")
    && (|| Get(p, "type") == Get(q, "type")
        || (Get(p, "type") == "" && Get(q, "type") == "OnDemand")
        || (Get(p, "type") == "OnDemand" && Get(q, "type") == ""))
    && OverridesOf(p) == OverridesOf(q) && TriggerAuth(p) == TriggerAuth(q)
  }

  /** A trigger step recognises the trigger it builds, from any params it accepts. */
  lemma TriggerRecognisesItself(p: Params)
    requires TriggerOk(p)
    ensures TriggerMatches(BuiltTrigger(p), p)
  {
    ListReadBack(OverridesOf(p));
    AuthKeysDiffer(TriggerAuth(p), TriggerAuth(p));
  }

  /** No name or value of the two has a NUL, and no name of the two is another one followed by '='. */
  predicate Distinct(a: map<string, string>, b: map<string, string>) {
    NoNuls(a) && NoNuls(b) && Unambiguous(a.Keys + b.Keys, '=')
  }

  /**
   A trigger step accepts every trigger built from params that ask for the same one, and no other,
   unless one override name of the two is another one followed by '=', or there is a NUL.
   */
  lemma TriggerMatchesIff(p: Params, q: Params)
    requires TriggerOk(p) && TriggerOk(q)
    ensures SameTrigger(p, q) ==> TriggerMatches(BuiltTrigger(p), q)
    ensures Distinct(OverridesOf(p), OverridesOf(q)) ==> (TriggerMatches(BuiltTrigger(p), q) <==> SameTrigger(p, q))
  {
    var mine, theirs := OverridesOf(p), OverridesOf(q);
    ListReadBack(mine);
    AuthKeysDiffer(TriggerAuth(p), TriggerAuth(q));
    if Distinct(mine, theirs) && Join(SortedPairs(mine), NUL) == Join(SortedPairs(theirs), NUL) {
      PairsAreJoinable(mine);
      PairsAreJoinable(theirs);
      JoinIsInjective(SortedPairs(mine), SortedPairs(theirs), NUL);
      PairsDetermine(mine, theirs);
    }
  }

  /** The trigger step compares rightly whatever triggers are asked for with these override names. */
  ghost predicate StepTellsApart(names: set<string>) {
    forall p: Params, q: Params ::
      TriggerOk(p) && TriggerOk(q) && NoNuls(OverridesOf(p)) && NoNuls(OverridesOf(q))
      && OverridesOf(p).Keys <= names && OverridesOf(q).Keys <= names ==>
        (TriggerMatches(BuiltTrigger(p), q) <==> SameTrigger(p, q))
  }

  /** It does so exactly if no name is another one followed by '='. */
  lemma StepTellsApartIff(names: set<string>)
    requires forall name :: name in names ==> NUL !in name
    ensures StepTellsApart(names) <==> Unambiguous(names, '=')
  {
    if Unambiguous(names, '=') {
      forall p: Params, q: Params | TriggerOk(p) && TriggerOk(q) && NoNuls(OverridesOf(p)) && NoNuls(OverridesOf(q))
                                    && OverridesOf(p).Keys <= names && OverridesOf(q).Keys <= names
        ensures TriggerMatches(BuiltTrigger(p), q) <==> SameTrigger(p, q)
      {
        TriggerMatchesIff(p, q);
      }
    } else {
      var x, y :| x in names && y in names && x + ['='] <= y;
      var p, q := ConfusedTriggers(x, y);
    }
  }

  /** A trigger with these overrides and nothing else to it. */
  ghost predicate Plain(p: Params, overrides: map<string, string>) {
    && OverridesOf(p) == overrides && TriggerOk(p) && Get(p, "chain") == "c" && TypeOf(p) == "OnDemand"
    && Get(p, "schedule") == "" && TriggerAuth(p) == None
  }

  /** Two such triggers whose overrides look alike are taken for each other. */
  lemma PlainOnesConfused(p: Params, q: Params, a: map<string, string>, b: map<string, string>)
    requires Plain(p, a) && Plain(q, b) && a != b && Join(SortedPairs(a), NUL) == Join(SortedPairs(b), NUL)
    ensures TriggerMatches(BuiltTrigger(p), q) && !SameTrigger(p, q)
  {
    ListReadBack(OverridesOf(p));
  }

  lemma ConfusedTriggers(x: string, y: string) returns (p: Params, q: Params)
    requires x + ['='] <= y && NUL !in x && NUL !in y
    ensures TriggerOk(p) && TriggerOk(q) && NoNuls(OverridesOf(p)) && NoNuls(OverridesOf(q))
    ensures OverridesOf(p).Keys == {y} && OverridesOf(q).Keys == {x}
    ensures TriggerMatches(BuiltTrigger(p), q) && !SameTrigger(p, q)
  {
    var value := y[|x| + 1..] + "=";
    p, q := WithOverride(y, ""), WithOverride(x, value);
    ConfusedPair(x, y);
    OnlyOverride(p, y, "");
    OnlyOverride(q, x, value);
    PlainOnesConfused(p, q, map[y := ""], map[x := value]);
  }

  // ---- values with the separator of the comparison in them ----

  /** The same without any condition on names and values. */
  ghost predicate StepTellsAllApart(names: set<string>) {
    forall p: Params, q: Params ::
      TriggerOk(p) && TriggerOk(q) && OverridesOf(p).Keys <= names && OverridesOf(q).Keys <= names ==>
        (TriggerMatches(BuiltTrigger(p), q) <==> SameTrigger(p, q))
  }

  /**
   If values may have NULs in them, the step compares rightly exactly as long as there is one
   override name at most.
   */
  lemma StepTellsAllApartIff(names: set<string>)
    ensures StepTellsAllApart(names) <==> |names| <= 1
  {
    if |names| <= 1 {
      forall p: Params, q: Params | TriggerOk(p) && TriggerOk(q) && OverridesOf(p).Keys <= names
          && OverridesOf(q).Keys <= names
        ensures TriggerMatches(BuiltTrigger(p), q) <==> SameTrigger(p, q)
      {
        OneNameIsEnough(p, q, names);
      }
    } else {
      var a :| a in names;
      assert |names - {a}| == |names| - 1;
      var b :| b in names - {a};
      StringLessTotal(a, b);
      var p, q := NulConfuses(if StringLess(a, b) then a else b, if StringLess(a, b) then b else a);
    }
  }

  lemma OneNameIsEnough(p: Params, q: Params, names: set<string>)
    requires TriggerOk(p) && TriggerOk(q) && |names| <= 1 && OverridesOf(p).Keys <= names
             && OverridesOf(q).Keys <= names
    ensures TriggerMatches(BuiltTrigger(p), q) <==> SameTrigger(p, q)
  {
    ListReadBack(OverridesOf(p));
    AuthKeysDiffer(TriggerAuth(p), TriggerAuth(q));
    OneNameTellsApart(OverridesOf(p), OverridesOf(q), names);
  }

  lemma OneNameTellsApart(m: map<string, string>, n: map<string, string>, names: set<string>)
    requires |names| <= 1 && m.Keys <= names && n.Keys <= names
    ensures Join(SortedPairs(m), NUL) == Join(SortedPairs(n), NUL) ==> m == n
  {
    if names == {} {
      assert m.Keys == {} == n.Keys;
    } else {
      var k :| k in names;
      assert names == {k} by {
        assert |names - {k}| == 0;
      }
      JoinedOne(m, k);
      JoinedOne(n, k);
      if k in m && k in n {
        assert (k + "=" + m[k])[|k| + 1..] == m[k] && (k + "=" + n[k])[|k| + 1..] == n[k];
      }
    }
  }

  lemma JoinedOne(m: map<string, string>, k: string)
    requires m.Keys <= {k}
    ensures Join(SortedPairs(m), NUL) == if k in m then k + "=" + m[k] else ""
    ensures m == if k in m then map[k := m[k]] else map[]
  {
    if k in m {
      assert m == map[k := m[k]];
      OnePair(k, m[k]);
    } else {
      assert m.Keys == {} && m == map[];
    }
  }

  /** Two overrides, and one whose value spells the other one out behind a NUL. */
  lemma NulConfuses(a: string, b: string) returns (p: Params, q: Params)
    requires StringLess(a, b)
    ensures TriggerOk(p) && TriggerOk(q) && OverridesOf(p).Keys == {a, b} && OverridesOf(q).Keys == {a}
    ensures TriggerMatches(BuiltTrigger(p), q) && !SameTrigger(p, q)
  {
    var hidden := "x" + [NUL] + b + "=y";
    JoinsAlike(a, b, hidden);
    p, q := TwoForOne(a, "x", b, "y", hidden);
  }

  /** Two overrides and one that join to the same make such triggers. */
  lemma TwoForOne(a: string, u: string, b: string, v: string, w: string) returns (p: Params, q: Params)
    requires StringLess(a, b) && Join(SortedPairs(map[a := u, b := v]), NUL) == Join(SortedPairs(map[a := w]), NUL)
    ensures TriggerOk(p) && TriggerOk(q) && OverridesOf(p).Keys == {a, b} && OverridesOf(q).Keys == {a}
    ensures TriggerMatches(BuiltTrigger(p), q) && !SameTrigger(p, q)
  {
    p, q := WithTwo(a, u, b, v), WithOverride(a, w);
    StringLessIrreflexive(a);
    OnlyTwo(p, a, u, b, v);
    OnlyOverride(q, a, w);
    var two, one := map[a := u, b := v], map[a := w];
    assert b in two && b !in one;
    PlainOnesConfused(p, q, two, one);
  }

  lemma JoinsAlike(a: string, b: string, hidden: string)
    requires StringLess(a, b) && hidden == "x" + [NUL] + b + "=y"
    ensures Join(SortedPairs(map[a := "x", b := "y"]), NUL) == Join(SortedPairs(map[a := hidden]), NUL)
  {
    TwoPairs(a, "x", b, "y");
    OnePair(a, hidden);
    var two := [Pair(a, "x"), Pair(b, "y")];
    assert two[1..] == [Pair(b, "y")];
    assert Join(two, NUL) == Pair(a, "x") + [NUL] + Pair(b, "y") == Pair(a, hidden);
  }

  function WithTwo(a: string, u: string, b: string, v: string): Params {
    map["chain" := "c", OVERRIDE_PREFIX + a := u, OVERRIDE_PREFIX + b := v]
  }

  lemma OnlyTwo(p: Params, a: string, u: string, b: string, v: string)
    requires p == WithTwo(a, u, b, v) && a != b
    ensures Plain(p, map[a := u, b := v])
  {
    var k, l := OVERRIDE_PREFIX + a, OVERRIDE_PREFIX + b;
    assert k[|OVERRIDE_PREFIX|..] == a && HasPrefix(k, OVERRIDE_PREFIX) && k[0] == 'o';
    assert l[|OVERRIDE_PREFIX|..] == b && HasPrefix(l, OVERRIDE_PREFIX) && l[0] == 'o';
    assert "chain"[0] == 'c' && "type"[0] == 't' && "schedule"[0] == 's' && "externalAuthOverrideMode"[0] == 'e'
           && "externalAuthOverrideName"[0] == 'e';
    assert !HasPrefix("chain", OVERRIDE_PREFIX);
    assert OverrideNames(p) == {a, b};
  }

  lemma TwoPairs(a: string, u: string, b: string, v: string)
    requires StringLess(a, b)
    ensures SortedPairs(map[a := u, b := v]) == [Pair(a, u), Pair(b, v)]
  {
    StringLessIrreflexive(a);
    var m, s := map[a := u, b := v], {a, b};
    assert m.Keys == s;
    var keys := SortedKeys(s);
    assert keys[0] in s && IsSmallest(keys[0], s) by {
      HasSmallest(s);
    }
    if keys[0] == b {
      StringLessTransitive(a, b, a);
    }
    assert keys[0] == a && keys == [a] + SortedKeys(s - {a}) && s - {a} == {b};
    OneKey(b);
  }

  lemma OneKey(k: string)
    ensures SortedKeys({k}) == [k]
  {
    var keys := SortedKeys({k});
    assert keys[0] in keys;
    assert {k} - {keys[0]} == {} && keys == [keys[0]] + SortedKeys({});
  }

  function WithOverride(name: string, value: string): Params {
    map["chain" := "c", OVERRIDE_PREFIX + name := value]
  }

  /** Such names in triggers: the step that wants the one takes the other for it. */
  lemma EqualsSignsConfuse()
    ensures var p := map["chain" := "c", "override.A=B" := "C"];
            var q := map["chain" := "c", "override.A" := "B=C"];
            TriggerOk(p) && TriggerOk(q) && !SameTrigger(p, q) && TriggerMatches(BuiltTrigger(p), q)
  {
    var p := map["chain" := "c", "override.A=B" := "C"];
    var q := map["chain" := "c", "override.A" := "B=C"];
    assert OVERRIDE_PREFIX + "A=B" == "override.A=B" && OVERRIDE_PREFIX + "A" == "override.A";
    OnlyOverride(p, "A=B", "C");
    OnlyOverride(q, "A", "B=C");
    SamePairs();
    assert "A=B" in OverridesOf(p) && "A=B" !in OverridesOf(q);
    PlainOnesConfused(p, q, map["A=B" := "C"], map["A" := "B=C"]);
  }

  lemma SamePairs()
    ensures SortedPairs(map["A=B" := "C"]) == SortedPairs(map["A" := "B=C"])
  {
    OnePair("A=B", "C");
    OnePair("A", "B=C");
    assert Pair("A=B", "C") == "A=B=C" == Pair("A", "B=C");
  }

  lemma OnlyOverride(p: Params, name: string, value: string)
    requires p == WithOverride(name, value)
    ensures Plain(p, map[name := value])
  {
    var k := OVERRIDE_PREFIX + name;
    assert k[|OVERRIDE_PREFIX|..] == name && HasPrefix(k, OVERRIDE_PREFIX) && k[0] == 'o' && k[1] == 'v';
    assert "chain"[0] == 'c' && "type"[0] == 't' && "schedule"[0] == 's' && "externalAuthOverrideMode"[0] == 'e'
           && "externalAuthOverrideName"[0] == 'e';
    assert !HasPrefix("chain", OVERRIDE_PREFIX);
    assert OverrideNames(p) == {name};
  }

  lemma OnePair(name: string, value: string)
    ensures SortedPairs(map[name := value]) == [Pair(name, value)]
  {
    assert map[name := value].Keys == {name};
    OneKey(name);
  }
}
