/** Turning what the caller supplied into typed parameter values (params.ResolveParameters). */
module Parameters {
  import opened Types
  import opened Rendering

  /** A decoded JSON document; Garbled is text that is not JSON. */
  datatype Json =
    | Null | Truth(flag: bool) | Number(number: real) | Text(text: string)
    | Array(elements: seq<Json>) | Object(members: map<string, Json>) | Garbled

  datatype ParamType = StringType | NumberType | BooleanType | StringListType | ObjectListType

  /** default is None when the definition gives none. */
  datatype Parameter = Parameter(name: string, typ: ParamType, required: bool, default: Option<Json>, pattern: string)

  /** Go's regexp: which patterns compile, and what they match. */
  datatype Patterns = Patterns(compiles: string -> bool, matches: (string, string) -> bool)

  predicate Matches(d: Parameter, s: string, re: Patterns) {
    d.pattern == "" || re.matches(d.pattern, s)
  }

  /** A string position of a Go value: null leaves it empty. */
  function AsString(j: Json): Option<string> {
    match j
    case Text(s) => Some(s)
    case Null => Some("")
    case _ => None
  }

  predicate AllStrings(elements: seq<Json>) {
    forall i :: 0 <= i < |elements| ==> AsString(elements[i]).Some?
  }

  function Strings(elements: seq<Json>): seq<string>
    requires AllStrings(elements)
  {
    seq(|elements|, i requires 0 <= i < |elements| => AsString(elements[i]).value)
  }

  /** A map[string]string position: null leaves it nil. */
  function AsFields(j: Json): Option<map<string, string>> {
    match j
    case Null => Some(map[])
    case Object(m) =>
      if forall k :: k in m ==> AsString(m[k]).Some? then Some(map k | k in m :: AsString(m[k]).value) else None
    case _ => None
  }

  predicate AllFields(elements: seq<Json>) {
    forall i :: 0 <= i < |elements| ==> AsFields(elements[i]).Some?
  }

  function FieldMaps(elements: seq<Json>): seq<map<string, string>>
    requires AllFields(elements)
  {
    seq(|elements|, i requires 0 <= i < |elements| => AsFields(elements[i]).value)
  }

  function KeyOf(obj: map<string, string>): string {
    FieldOr(obj, "key")
  }

  /** The rules for an objectList: every entry has its own non-empty key, matching the pattern. */
  predicate KeysOk(d: Parameter, objects: seq<map<string, string>>, re: Patterns) {
    && (forall i :: 0 <= i < |objects| ==> KeyOf(objects[i]) != "" && Matches(d, KeyOf(objects[i]), re))
    && (forall i, j :: 0 <= i < j < |objects| ==> KeyOf(objects[i]) != KeyOf(objects[j]))
  }

  /** What a value must satisfy, said of the value alone: its type and the declaration's rules. */
  predicate Fits(d: Parameter, v: Value, re: Patterns) {
    match d.typ
    case NumberType => v.Num?
    case BooleanType => v.Bool?
    case StringListType => v.StrList? && (d.required ==> v.items != []) && forall i :: 0 <= i < |v.items| ==>
        Matches(d, v.items[i], re)
    case ObjectListType => v.ObjList? && (d.required ==> v.objects != []) && KeysOk(d, v.objects, re)
    case StringType => v.Str? && (d.required ==> v.text != "") && Matches(d, v.text, re)
  }

  /** The strings of a value that a pattern is about: those of an object list are its keys. */
  predicate Patterned(v: Value, s: string) {
    match v
    case Str(text) => s == text
    case StrList(items) => s in items
    case ObjList(objects) => exists i :: 0 <= i < |objects| && s == KeyOf(objects[i])
    case _ => false
  }

  /** A required value is not empty, a pattern is matched throughout, and an object list has its own keys. */
  lemma {:induction false} FitsIff(d: Parameter, v: Value, re: Patterns)
    ensures Fits(d, v, re) <==>
            && OfType(v, d.typ)
            && (d.required ==> v != Str("") && v != StrList([]) && v != ObjList([]))
            && (d.pattern != "" ==> forall s :: Patterned(v, s) ==> re.matches(d.pattern, s))
            && (v.ObjList? ==>
                  && (forall i :: 0 <= i < |v.objects| ==> "key" in v.objects[i] && v.objects[i]["key"] != "")
                  && (forall i, j :: 0 <= i < j < |v.objects| ==> KeyOf(v.objects[i]) != KeyOf(v.objects[j])))
  {
    if v.StrList? {
      assert forall i :: 0 <= i < |v.items| ==> Patterned(v, v.items[i]);
    } else if v.ObjList? {
      assert forall i :: 0 <= i < |v.objects| ==> Patterned(v, KeyOf(v.objects[i]));
    } else if v.Str? {
      assert Patterned(v, v.text);
    }
  }

  /** The value a document spells for a declared type, before the declaration's rules are applied. */
  function Spelled(d: Parameter, raw: Json): Option<Value> {
    match d.typ
    case NumberType => if raw.Number? then Some(Num(raw.number)) else None
    case BooleanType => if raw.Truth? then Some(Bool(raw.flag)) else None
    case StringListType => if raw.Array? && AllStrings(raw.elements) then Some(StrList(Strings(raw.elements))) else None
    case ObjectListType => if raw.Array? && AllFields(raw.elements) then Some(ObjList(FieldMaps(raw.elements)))
        else None
    case StringType => if raw.Text? then Some(Str(raw.text)) else None
  }

  /** A string, or null for an empty one. */
  predicate WritesString(j: Json, s: string) {
    j == Text(s) || (j == Null && s == "")
  }

  /** An object of strings, or null for an empty one. */
  predicate WritesFields(j: Json, m: map<string, string>) {
    || (j == Null && m == map[])
    || (j.Object? && j.members.Keys == m.Keys && forall k :: k in m ==> WritesString(j.members[k], m[k]))
  }

  /** The document is this value, written as JSON. */
  predicate Writes(raw: Json, v: Value) {
    match v
    case Num(n) => raw == Number(n)
    case Bool(b) => raw == Truth(b)
    case Str(s) => raw == Text(s)
    case StrList(items) =>
      && raw.Array? && |raw.elements| == |items|
      && forall i :: 0 <= i < |items| ==> WritesString(raw.elements[i], items[i])
    case ObjList(objects) =>
      && raw.Array? && |raw.elements| == |objects|
      && forall i :: 0 <= i < |objects| ==> WritesFields(raw.elements[i], objects[i])
  }

  predicate OfType(v: Value, typ: ParamType) {
    match typ
    case NumberType => v.Num?
    case BooleanType => v.Bool?
    case StringType => v.Str?
    case StringListType => v.StrList?
    case ObjectListType => v.ObjList?
  }

  lemma FieldsIff(j: Json, m: map<string, string>)
    ensures AsFields(j) == Some(m) <==> WritesFields(j, m)
  {
    if j.Object? && AsFields(j).Some? {
      var read := AsFields(j).value;
      assert read.Keys == j.members.Keys;
      if WritesFields(j, m) {
        assert forall k :: k in m ==> read[k] == m[k];
        assert read == m;
      }
    }
  }

  /** A document spells a value of the declared type exactly if it is that value written as JSON. */
  lemma SpelledIff(d: Parameter, raw: Json, v: Value)
    ensures Spelled(d, raw) == Some(v) <==> OfType(v, d.typ) && Writes(raw, v)
  {
    if v.StrList? && d.typ == StringListType && Writes(raw, v) {
      assert Strings(raw.elements) == v.items;
    } else if v.ObjList? && d.typ == ObjectListType && raw.Array? {
      if Writes(raw, v) {
        forall i | 0 <= i < |raw.elements|
          ensures AsFields(raw.elements[i]) == Some(v.objects[i])
        {
          FieldsIff(raw.elements[i], v.objects[i]);
        }
        assert FieldMaps(raw.elements) == v.objects;
      } else if AllFields(raw.elements) && FieldMaps(raw.elements) == v.objects {
        forall i | 0 <= i < |raw.elements|
          ensures WritesFields(raw.elements[i], v.objects[i])
        {
          FieldsIff(raw.elements[i], v.objects[i]);
        }
      }
    }
  }

  /** decode succeeds with v: the document spells v, and v fits. */
  predicate Decodes(d: Parameter, raw: Json, v: Value, re: Patterns) {
    (d.pattern != "" ==> re.compiles(d.pattern)) && Spelled(d, raw) == Some(v) && Fits(d, v, re)
  }

  method Decode(d: Parameter, raw: Json, re: Patterns) returns (r: Option<Value>)
    ensures r.Some? ==> Decodes(d, raw, r.value, re)
    ensures r.None? ==> forall v :: !Decodes(d, raw, v, re)
  {
    if d.pattern != "" && !re.compiles(d.pattern) {
      return None;
    }
    match d.typ {
      case NumberType =>
        return if raw.Number? then Some(Num(raw.number)) else None;
      case BooleanType =>
        return if raw.Truth? then Some(Bool(raw.flag)) else None;
      case StringListType =>
        if !raw.Array? || !AllStrings(raw.elements) {
          return None;
        }
        var list := Strings(raw.elements);
        if d.required && |list| == 0 {
          return None;
        }
        for i := 0 to |list|
          invariant forall j :: 0 <= j < i ==> Matches(d, list[j], re)
        {
          if !Matches(d, list[i], re) {
            return None;
          }
        }
        return Some(StrList(list));
      case ObjectListType =>
        if !raw.Array? || !AllFields(raw.elements) {
          return None;
        }
        var list := FieldMaps(raw.elements);
        if d.required && |list| == 0 {
          return None;
        }
        var ok := CheckKeys(d, list, re);
        return if ok then Some(ObjList(list)) else None;
      case StringType =>
        if !raw.Text? || (d.required && raw.text == "") || !Matches(d, raw.text, re) {
          return None;
        }
        return Some(Str(raw.text));
    }
  }

  /** The walk over an objectList's entries, with the keys seen so far. */
  method CheckKeys(d: Parameter, list: seq<map<string, string>>, re: Patterns) returns (ok: bool)
    ensures ok <==> KeysOk(d, list, re)
  {
    var seen: set<string> := {};
    for i := 0 to |list|
      invariant KeysOk(d, list[..i], re)
      invariant seen == set j | 0 <= j < i :: KeyOf(list[j])
    {
      var key := KeyOf(list[i]);
      if key == "" || key in seen || !Matches(d, key, re) {
        return false;
      }
      seen := seen + {key};
    }
    assert list[..|list|] == list;
    return true;
  }

  // ---- all parameters of a definition ----

  predicate Given(j: Option<Json>) {
    j.Some? && !j.value.Null?
  }

  /** The document used for a parameter: what was supplied, or the default. */
  function Chosen(d: Parameter, supplied: map<string, Json>): Option<Json> {
    if d.name in supplied && !supplied[d.name].Null? then Some(supplied[d.name])
    else if Given(d.default) then d.default
    else None
  }

  ghost predicate Usable(d: Parameter, raw: Json, re: Patterns) {
    exists v :: Decodes(d, raw, v, re)
  }

  /** Nothing is wrong with one parameter: it has a usable document, or none and needs none. */
  ghost predicate ParamOk(d: Parameter, supplied: map<string, Json>, re: Patterns) {
    match Chosen(d, supplied)
    case None => !d.required
    case Some(raw) => Usable(d, raw, re)
  }

  predicate Declared(defs: seq<Parameter>, name: string) {
    exists i :: 0 <= i < |defs| && defs[i].name == name
  }

  ghost predicate AllKnown(defs: seq<Parameter>, supplied: map<string, Json>) {
    forall name :: name in supplied ==> Declared(defs, name)
  }

  ghost predicate NamesDiffer(defs: seq<Parameter>) {
    forall i, j :: 0 <= i < j < |defs| ==> defs[i].name != defs[j].name
  }

  ghost predicate HasDocument(defs: seq<Parameter>, supplied: map<string, Json>, name: string) {
    exists i :: 0 <= i < |defs| && defs[i].name == name && Chosen(defs[i], supplied).Some?
  }

  /** values holds, for each declared parameter that has a document, the value it spells, and nothing else. */
  ghost predicate Resolves(defs: seq<Parameter>, supplied: map<string, Json>, values: map<string, Value>, re: Patterns)
    {
    && (forall i :: 0 <= i < |defs| && Chosen(defs[i], supplied).Some? ==>
          defs[i].name in values && Decodes(defs[i], Chosen(defs[i], supplied).value, values[defs[i].name], re))
    && (forall p :: p in values ==> HasDocument(defs, supplied, p))
  }

  /** The parameter has this document: what the caller supplied, or else the default; null is none. */
  predicate Reads(d: Parameter, supplied: map<string, Json>, raw: Json) {
    && raw != Null
    && if d.name in supplied && supplied[d.name] != Null then raw == supplied[d.name] else d.default == Some(raw)
  }

  /** The caller supplied nothing for it, and it has no default. */
  predicate GoesWithout(d: Parameter, supplied: map<string, Json>) {
    (d.name !in supplied || supplied[d.name] == Null) && (d.default == None || d.default == Some(Null))
  }

  /** It has the value its document writes, or no value without one. */
  ghost predicate HasItsValue(d: Parameter, supplied: map<string, Json>, values: map<string, Value>, re: Patterns) {
    if GoesWithout(d, supplied) then d.name !in values
    else
      && d.name in values && OfType(values[d.name], d.typ) && Fits(d, values[d.name], re)
      && exists raw :: Reads(d, supplied, raw) && Writes(raw, values[d.name])
  }

  /** Its document writes no value that fits. */
  ghost predicate HasBadDocument(d: Parameter, supplied: map<string, Json>, re: Patterns) {
    exists raw :: Reads(d, supplied, raw) && !Usable(d, raw, re)
  }

  lemma ChosenReads(d: Parameter, supplied: map<string, Json>)
    ensures GoesWithout(d, supplied) <==> Chosen(d, supplied) == None
    ensures forall raw :: Reads(d, supplied, raw) <==> Chosen(d, supplied) == Some(raw)
  {
  }

  /** What resolution means for each parameter. */
  lemma {:induction false} ResolvesEach(defs: seq<Parameter>, supplied: map<string, Json>, values: map<string, Value>,
                                        re: Patterns)
    requires NamesDiffer(defs) && Resolves(defs, supplied, values, re)
    ensures forall i :: 0 <= i < |defs| ==> HasItsValue(defs[i], supplied, values, re)
    ensures forall p :: p in values ==> Declared(defs, p)
  {
    forall i | 0 <= i < |defs|
      ensures HasItsValue(defs[i], supplied, values, re)
    {
      ChosenReads(defs[i], supplied);
      if Chosen(defs[i], supplied).Some? {
        var raw := Chosen(defs[i], supplied).value;
        SpelledIff(defs[i], raw, values[defs[i].name]);
        assert Reads(defs[i], supplied, raw);
      } else {
        assert !HasDocument(defs, supplied, defs[i].name);
      }
    }
    assert forall p :: p in values ==> HasDocument(defs, supplied, p);
  }

  /** The problems of the first n parameters, each of them and nothing else. */
  ghost predicate Reports(errs: seq<ParamError>, defs: seq<Parameter>, n: nat, supplied: map<string, Json>,
                          re: Patterns)
    requires n <= |defs|
  {
    && (forall name :: IsRequired(name) in errs <==>
          exists i :: 0 <= i < n && defs[i].name == name && defs[i].required && GoesWithout(defs[i], supplied))
    && (forall name :: Invalid(name) in errs <==>
          exists i :: 0 <= i < n && defs[i].name == name && HasBadDocument(defs[i], supplied, re))
    && (forall names :: UnknownParameters(names) in errs <==>
          names != {} && names == set name | name in supplied && !Declared(defs, name))
  }

  /** The problem of one parameter, if it has one. */
  ghost predicate ReportsOne(errs: seq<ParamError>, d: Parameter, supplied: map<string, Json>, re: Patterns) {
    && (d.required && GoesWithout(d, supplied) <==> errs == [IsRequired(d.name)])
    && (HasBadDocument(d, supplied, re) <==> errs == [Invalid(d.name)])
    && (errs == [] || errs == [IsRequired(d.name)] || errs == [Invalid(d.name)])
  }

  lemma {:induction false} ReportsMore(errs: seq<ParamError>, more: seq<ParamError>, defs: seq<Parameter>, n: nat,
                                       supplied: map<string, Json>, re: Patterns)
    requires n < |defs| && Reports(errs, defs, n, supplied, re) && ReportsOne(more, defs[n], supplied, re)
    ensures Reports(errs + more, defs, n + 1, supplied, re)
  {
  }

  datatype ParamError = UnknownParameters(names: set<string>) | IsRequired(name: string) | Invalid(name: string)

  /**
   All problems are collected, each of them and nothing else.  There are none exactly if every supplied
   name is declared and every parameter is in order; then, for a definition that declares no name
   twice, each parameter has the value that was supplied for it, or else its default, or else none.
   */
  method ResolveParameters(defs: seq<Parameter>, supplied: map<string, Json>, re: Patterns)
    returns (out: map<string, Value>, errs: seq<ParamError>)
    ensures errs == [] <==> AllKnown(defs, supplied) && forall i :: 0 <= i < |defs| ==> ParamOk(defs[i], supplied, re)
    ensures errs == [] && NamesDiffer(defs) ==>
              && Resolves(defs, supplied, out, re)
              && (forall i :: 0 <= i < |defs| ==> HasItsValue(defs[i], supplied, out, re))
              && (forall p :: p in out ==> Declared(defs, p))
    ensures Reports(errs, defs, |defs|, supplied, re)
  {
    errs := [];
    var unknown := Unknown(defs, supplied);
    if unknown != {} {
      errs := [UnknownParameters(unknown)];
    }
    assert errs == [] <==> AllKnown(defs, supplied) by {
      if unknown != {} {
        var name :| name in unknown;
        assert !Declared(defs, name);
      }
      forall name | unknown == {} && name in supplied
        ensures Declared(defs, name)
      {
        assert name !in unknown;
      }
    }
    ghost var known := errs == [];
    out := map[];
    for i := 0 to |defs|
      invariant errs == [] <==> known && forall j :: 0 <= j < i ==> ParamOk(defs[j], supplied, re)
      invariant errs == [] && NamesDiffer(defs) ==> Resolves(defs[..i], supplied, out, re)
      invariant Reports(errs, defs, i, supplied, re)
    {
      var v, more := ResolveOne(defs[i], supplied, re);
      ReportsMore(errs, more, defs, i, supplied, re);
      if v.None? {
        if more == [] {
          OneLess(defs, i, supplied, out, re);
        }
      } else {
        if errs == [] && NamesDiffer(defs) {
          OneMore(defs, i, supplied, out, v.value, re);
        }
        out := out[defs[i].name := v.value];
      }
      errs := errs + more;
    }
    assert defs[..|defs|] == defs;
    if errs == [] && NamesDiffer(defs) {
      ResolvesEach(defs, supplied, out, re);
    }
  }

  /** One parameter: its value, or its problem, or neither. */
  method ResolveOne(d: Parameter, supplied: map<string, Json>, re: Patterns)
    returns (v: Option<Value>, errs: seq<ParamError>)
    ensures errs == [] <==> ParamOk(d, supplied, re)
    ensures if v.Some? then Chosen(d, supplied).Some? && Decodes(d, Chosen(d, supplied).value, v.value, re)
            else errs == [] ==> Chosen(d, supplied).None?
    ensures v.Some? ==> errs == []
    ensures ReportsOne(errs, d, supplied, re)
  {
    var raw := Chosen(d, supplied);
    ChosenReads(d, supplied);
    if raw.None? {
      return None, if d.required then [IsRequired(d.name)] else [];
    }
    v := Decode(d, raw.value, re);
    errs := if v.None? then [Invalid(d.name)] else [];
  }

  /** The supplied names nothing declares. */
  method Unknown(defs: seq<Parameter>, supplied: map<string, Json>) returns (unknown: set<string>)
    ensures unknown == set name | name in supplied && !Declared(defs, name)
  {
    var known: set<string> := {};
    for i := 0 to |defs|
      invariant known == set j | 0 <= j < i :: defs[j].name
    {
      known := known + {defs[i].name};
    }
    unknown := set name | name in supplied && name !in known;
    assert forall name :: name in known <==> Declared(defs, name);
  }

  lemma {:induction false} OneLess(defs: seq<Parameter>, i: nat, supplied: map<string, Json>, out: map<string, Value>,
                                   re: Patterns)
    requires i < |defs| && Chosen(defs[i], supplied).None?
    ensures Resolves(defs[..i], supplied, out, re) ==> Resolves(defs[..i + 1], supplied, out, re)
  {
    Prefixes(defs, i, supplied);
  }

  lemma Prefixes(defs: seq<Parameter>, i: nat, supplied: map<string, Json>)
    requires i < |defs|
    ensures forall p :: HasDocument(defs[..i], supplied, p) ==> HasDocument(defs[..i + 1], supplied, p)
  {
    forall p | HasDocument(defs[..i], supplied, p)
      ensures HasDocument(defs[..i + 1], supplied, p)
    {
      var j :| 0 <= j < i && defs[..i][j].name == p && Chosen(defs[..i][j], supplied).Some?;
      assert defs[..i + 1][j] == defs[j];
    }
  }

  lemma {:induction false} OneMore(defs: seq<Parameter>, i: nat, supplied: map<string, Json>, was: map<string, Value>,
                                   v: Value, re: Patterns)
    requires i < |defs| && NamesDiffer(defs) && Resolves(defs[..i], supplied, was, re)
    requires Chosen(defs[i], supplied).Some? && Decodes(defs[i], Chosen(defs[i], supplied).value, v, re)
    ensures Resolves(defs[..i + 1], supplied, was[defs[i].name := v], re)
  {
    Prefixes(defs, i, supplied);
    assert defs[..i + 1][i] == defs[i];
    assert HasDocument(defs[..i + 1], supplied, defs[i].name);
  }

  /** There is only one way to resolve: the values are determined by the declarations and the input. */
  lemma {:induction false} ResolutionIsUnique(defs: seq<Parameter>, supplied: map<string, Json>, a: map<string, Value>,
                                              b: map<string, Value>, re: Patterns)
    requires Resolves(defs, supplied, a, re) && Resolves(defs, supplied, b, re)
    ensures a == b
  {
    forall p
      ensures p in a <==> p in b
      ensures p in a ==> a[p] == b[p]
    {
      assert p in a || p in b ==> HasDocument(defs, supplied, p);
    }
  }
}
