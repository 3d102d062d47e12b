/** What templates mean: rendering, resolving a step's params, and resolving forEach lists. */
module Rendering {
  import opened Types
  import opened Templates
  import opened Text

  /** A typed parameter value (string, float64, bool, []string, []map[string]string). */
  datatype Value =
    | Str(text: string)
    | Num(number: real)
    | Bool(flag: bool)
    | StrList(items: seq<string>)
    | ObjList(objects: seq<map<string, string>>)

  /** What a template is rendered against; fields is set only under an objectList forEach. */
  datatype Context = Context(
    params: map<string, Value>,
    config: map<string, string>,
    steps: map<string, map<string, string>>,
    item: Option<string>,
    fields: Option<map<string, string>>)

  datatype Problem =
    | BadTemplate
    | OutsideForEach | NoFields | NoField(field: string)
    | NoValue(param: string) | NoConfig(config: string) | NotRun(step: string)
        | NoOutput(ofStep: string, output: string)
    | ListInText(listParam: string)
    | BadForEach | NotAList(param: string)

  datatype Answer<+T> = Good(value: T) | Bad(problem: Problem)

  /** The parts of Go's libraries that rendering uses: filters, number formatting and JSON. */
  datatype Library = Library(
    filter: (string, string) -> string,
    number: real -> string,
    json: seq<map<string, string>> -> string)

  function Lookup(h: Hole, c: Context): Answer<Value> {
    match h.kind
    case OfItem =>
      if c.item.None? then Bad(OutsideForEach)
      else if h.name == "" then Good(Str(c.item.value))
      else if c.fields.None? then Bad(NoFields)
      else if h.name !in c.fields.value then Bad(NoField(h.name))
      else Good(Str(c.fields.value[h.name]))
    case OfParams => if h.name in c.params then Good(c.params[h.name]) else Bad(NoValue(h.name))
    case OfConfig => if h.name in c.config then Good(Str(c.config[h.name])) else Bad(NoConfig(h.name))
    case OfSteps =>
      if h.name !in c.steps then Bad(NotRun(h.name))
      else if h.key !in c.steps[h.name] then Bad(NoOutput(h.name, h.key))
      else Good(Str(c.steps[h.name][h.key]))
  }

  function Stringify(h: Hole, v: Value, lib: Library): Answer<string> {
    match v
    case Str(s) => Good(s)
    case Num(n) => Good(lib.number(n))
    case Bool(b) => Good(if b then "true" else "false")
    case ObjList(objects) => Good(lib.json(objects))
    case StrList(_) => Bad(ListInText(h.name))
  }

  function Filtered(s: string, filters: seq<string>, lib: Library): string
    decreases |filters|
  {
    if filters == [] then s else Filtered(lib.filter(filters[0], s), filters[1..], lib)
  }

  /** Filters are applied from left to right. */
  lemma {:induction false} FiltersInOrder(s: string, filters: seq<string>, last: string, lib: Library)
    ensures Filtered(s, filters + [last], lib) == lib.filter(last, Filtered(s, filters, lib))
    ensures Filtered(s, [], lib) == s
    decreases |filters|
  {
    if filters == [] {
      assert Filtered(s, [last], lib) == Filtered(lib.filter(last, s), [], lib);
    } else {
      FiltersInOrder(lib.filter(filters[0], s), filters[1..], last, lib);
      assert (filters + [last])[1..] == filters[1..] + [last];
    }
  }

  function RenderedHole(h: Hole, c: Context, lib: Library): Answer<string> {
    match Lookup(h, c)
    case Bad(p) => Bad(p)
    case Good(v) =>
      match Stringify(h, v, lib)
      case Bad(p) => Bad(p)
      case Good(s) => Good(Filtered(s, h.filters, lib))
  }

  function RenderedOne(seg: Segment, c: Context, lib: Library): Answer<string> {
    match seg
    case Words(text) => Good(text)
    case Place(hole) => RenderedHole(hole, c, lib)
  }

  /** The rendered text, or the problem with the first placeholder that has one. */
  function Rendered(t: Template, c: Context, lib: Library): Answer<string> {
    if t == [] then Good("")
    else
      match RenderedOne(t[0], c, lib)
      case Bad(p) => Bad(p)
      case Good(s) =>
        match Rendered(t[1..], c, lib)
        case Bad(p) => Bad(p)
        case Good(rest) => Good(s + rest)
  }

  function Joined(s: string, rest: Answer<string>): Answer<string> {
    match rest
    case Bad(p) => Bad(p)
    case Good(more) => Good(s + more)
  }

  method Render(t: Template, c: Context, lib: Library) returns (r: Answer<string>)
    ensures r == Rendered(t, c, lib)
  {
    var b := "";
    var i := 0;
    ghost var whole := Rendered(t, c, lib);
    assert t[0..] == t && (whole.Good? ==> "" + whole.value == whole.value);
    while i < |t|
      invariant 0 <= i <= |t|
      invariant whole == Joined(b, Rendered(t[i..], c, lib))
    {
      assert t[i..][0] == t[i] && t[i..][1..] == t[i + 1..];
      var piece;
      match t[i] {
        case Words(text) =>
          piece := text;
        case Place(hole) =>
          var v := Lookup(hole, c);
          if v.Bad? {
            return Bad(v.problem);
          }
          var str := Stringify(hole, v.value, lib);
          if str.Bad? {
            return Bad(str.problem);
          }
          piece := ApplyFilters(str.value, hole.filters, lib);
      }
      ghost var rest := Rendered(t[i + 1..], c, lib);
      assert rest.Good? ==> b + (piece + rest.value) == b + piece + rest.value;
      b := b + piece;
      i := i + 1;
    }
    assert b + "" == b;
    return Good(b);
  }

  method ApplyFilters(s: string, filters: seq<string>, lib: Library) returns (r: string)
    ensures r == Filtered(s, filters, lib)
  {
    r := s;
    var i := 0;
    while i < |filters|
      invariant 0 <= i <= |filters|
      invariant Filtered(s, filters, lib) == Filtered(r, filters[i..], lib)
    {
      assert filters[i..][1..] == filters[i + 1..];
      r := lib.filter(filters[i], r);
      i := i + 1;
    }
  }

  /** Parse and render (Resolve). */
  function Resolved(s: string, c: Context, lib: Library): Answer<string> {
    match ParsedFrom(s, "")
    case None => Bad(BadTemplate)
    case Some(t) => Rendered(t, c, lib)
  }

  /** The params of a step that resolve (ResolveMap's map), and those that do not. */
  function ResolvedMap(m: map<string, string>, c: Context, lib: Library): map<string, string> {
    map k | k in m && Resolved(m[k], c, lib).Good? :: Resolved(m[k], c, lib).value
  }

  function Unresolved(m: map<string, string>, c: Context, lib: Library): set<string> {
    set k | k in m && Resolved(m[k], c, lib).Bad?
  }

  method ResolveMap(m: map<string, string>, c: Context, lib: Library)
    returns (out: map<string, string>, failed: set<string>)
    ensures out == ResolvedMap(m, c, lib) && failed == Unresolved(m, c, lib)
  {
    out, failed := map[], {};
    var keys := m.Keys;
    while keys != {}
      invariant keys <= m.Keys
      invariant out == map k | k in m && k !in keys && Resolved(m[k], c, lib).Good? :: Resolved(m[k], c, lib).value
      invariant failed == set k | k in m && k !in keys && Resolved(m[k], c, lib).Bad?
      decreases keys
    {
      var k :| k in keys;
      keys := keys - {k};
      var t := Parse(m[k]);
      var v := Bad(BadTemplate);
      if t.Some? {
        v := Render(t.value, c, lib);
      }
      if v.Good? {
        out := out[k := v.value];
      } else {
        failed := failed + {k};
      }
    }
  }

  /** Any plain string, escaped, resolves to itself in every context. */
  lemma {:induction false} PlainTextResolves(s: string, c: Context, lib: Library)
    ensures Resolved(Escape(s), c, lib) == Good(s)
  {
    PlainTextSurvives(s);
    assert s + "" == s && Flush(s)[..] == Flush(s);
    if s != "" {
      assert Rendered([Words(s)][1..], c, lib) == Good("");
    }
  }

  /** One template behind another: the texts in that order, or the first problem. */
  lemma {:induction false} RenderedJoins(a: Template, b: Template, c: Context, lib: Library)
    ensures Rendered(a + b, c, lib) ==
              match Rendered(a, c, lib)
              case Bad(p) => Bad(p)
              case Good(s) => Joined(s, Rendered(b, c, lib))
  {
    if a == [] {
      assert a + b == b;
      assert Rendered(b, c, lib).Good? ==> "" + Rendered(b, c, lib).value == Rendered(b, c, lib).value;
    } else {
      RenderedJoins(a[1..], b, c, lib);
      assert (a + b)[1..] == a[1..] + b;
      var first, rest := RenderedOne(a[0], c, lib), Rendered(a[1..], c, lib);
      if first.Good? && rest.Good? && Rendered(b, c, lib).Good? {
        var last := Rendered(b, c, lib).value;
        assert first.value + (rest.value + last) == first.value + rest.value + last;
      }
    }
  }

  lemma {:induction false} RendersAlone(s: string, h: Hole, c: Context, lib: Library)
    requires ReadsAs(s, h)
    ensures Resolved(s, c, lib) == RenderedHole(h, c, lib)
  {
    var t, r := [Place(h)], RenderedHole(h, c, lib);
    assert t[1..] == [] && Rendered(t[1..], c, lib) == Good("") && RenderedOne(t[0], c, lib) == r;
    assert r.Good? ==> r.value + "" == r.value;
    assert Rendered(t, c, lib) == r;
  }

  /** What an item placeholder resolves to: the item's key or field, filtered, or the problem that there is none. */
  lemma {:induction false} ItemRenders(n: string, filters: seq<string>, c: Context, lib: Library)
    requires Plain(n) && KnownFilters(filters)
    ensures var f := Tails(filters, '|');
            Resolved("${item" + f + "}", c, lib) ==
              if c.item == None then Bad(OutsideForEach) else Good(Filtered(c.item.value, filters, lib))
    ensures var f := Tails(filters, '|');
            Resolved("${item." + n + f + "}", c, lib) ==
              if c.item == None then Bad(OutsideForEach)
              else if c.fields == None then Bad(NoFields)
              else if n in c.fields.value then Good(Filtered(c.fields.value[n], filters, lib))
              else Bad(NoField(n))
  {
    var f := Tails(filters, '|');
    ItemMeans(filters);
    FieldMeans(n, filters);
    RendersAlone("${item" + f + "}", Hole(OfItem, "", "", filters, "item" + f), c, lib);
    RendersAlone("${item." + n + f + "}", Hole(OfItem, n, "", filters, "item." + n + f), c, lib);
  }

  /** A parameter's: its value as text, filtered; a list of strings has none. */
  lemma {:induction false} ParamRenders(n: string, filters: seq<string>, c: Context, lib: Library)
    requires Plain(n) && KnownFilters(filters)
    ensures var f := Tails(filters, '|');
            Resolved("${params." + n + f + "}", c, lib) ==
              if n !in c.params then Bad(NoValue(n))
              else if c.params[n].Str? then Good(Filtered(c.params[n].text, filters, lib))
              else if c.params[n].Num? then Good(Filtered(lib.number(c.params[n].number), filters, lib))
              else if c.params[n] == Bool(true) then Good(Filtered("true", filters, lib))
              else if c.params[n] == Bool(false) then Good(Filtered("false", filters, lib))
              else if c.params[n].ObjList? then Good(Filtered(lib.json(c.params[n].objects), filters, lib))
              else Bad(ListInText(n))
  {
    var f := Tails(filters, '|');
    ParamMeans(n, filters);
    RendersAlone("${params." + n + f + "}", Hole(OfParams, n, "", filters, "params." + n + f), c, lib);
  }

  /** A config key's and a step output's. */
  lemma {:induction false} LookupRenders(n: string, k: string, filters: seq<string>, c: Context, lib: Library)
    requires Plain(n) && Plain(k) && KnownFilters(filters)
    ensures var f := Tails(filters, '|');
            Resolved("${config." + n + f + "}", c, lib) ==
              if n in c.config then Good(Filtered(c.config[n], filters, lib)) else Bad(NoConfig(n))
    ensures var f := Tails(filters, '|');
            Resolved("${steps." + n + ".outputs." + k + f + "}", c, lib) ==
              if n !in c.steps then Bad(NotRun(n))
              else if k in c.steps[n] then Good(Filtered(c.steps[n][k], filters, lib))
              else Bad(NoOutput(n, k))
  {
    var f := Tails(filters, '|');
    ConfigMeans(n, filters);
    OutputMeans(n, k, filters);
    RendersAlone("${config." + n + f + "}", Hole(OfConfig, n, "", filters, "config." + n + f), c, lib);
    RendersAlone("${steps." + n + ".outputs." + k + f + "}",
                 Hole(OfSteps, n, k, filters, "steps." + n + ".outputs." + k + f), c, lib);
  }

  // ---- forEach lists ----

  datatype Item = Item(key: string, fields: Option<map<string, string>>)

  /** The parameter a forEach source names: one ${params.x} and nothing else (ListRef). */
  function ListRef(s: string): Option<string> {
    match ParsedFrom(s, "")
    case None => None
    case Some(t) =>
      if |t| == 1 && t[0].Place? && t[0].hole.kind == OfParams && t[0].hole.filters == [] then Some(t[0].hole.name)
          else None
  }

  /** A forEach source is a placeholder of a parameter alone, without filters. */
  lemma ListRefIff(s: string, name: string)
    ensures ListRef(s) == Some(name) <==>
            && name != "" && NameOk(name)
            && exists expr :: '}' !in expr && s == "${" + expr + "}" && Squeezed(expr) == "params." + name
  {
    if ListRef(s) == Some(name) {
      var h := ParsedFrom(s, "").value[0].hole;
      assert ParsedFrom(s, "").value == [Place(h)];
      OnePlaceIff(s, h);
      var expr :| '}' !in expr && s == "${" + expr + "}" && ParseHole(expr) == Some(h);
      HoleIff(expr, h);
      assert Squeezed(expr) == "params." + name;
    }
    forall expr | name != "" && NameOk(name) && '}' !in expr && s == "${" + expr + "}"
                  && Squeezed(expr) == "params." + name
      ensures ListRef(s) == Some(name)
    {
      var h := Hole(OfParams, name, "", [], Trim(expr));
      assert ExprOf(OfParams, name, "", []) == "params." + name;
      HoleIff(expr, h);
      OnePlaceIff(s, h);
    }
  }

  function FieldOr(m: map<string, string>, field: string): string {
    if field in m then m[field] else ""
  }

  function ItemsOf(v: Value): Option<seq<Item>> {
    match v
    case StrList(items) => Some(seq(|items|, i requires 0 <= i < |items| => Item(items[i], None)))
    case ObjList(objects) =>
      Some(seq(|objects|, i requires 0 <= i < |objects| => Item(FieldOr(objects[i], "key"), Some(objects[i]))))
    case _ => None
  }

  function ResolvedList(s: string, params: map<string, Value>): Answer<seq<Item>> {
    match ListRef(s)
    case None => Bad(BadForEach)
    case Some(name) =>
      if name !in params then Bad(NoValue(name))
      else match ItemsOf(params[name])
        case None => Bad(NotAList(name))
        case Some(items) => Good(items)
  }

  // ---- more context never changes an answer ----

  /** Everything the smaller context knows, the larger one knows too, with the same value. */
  ghost predicate Extends(small: Context, large: Context) {
    && (forall p :: p in small.params ==> p in large.params && large.params[p] == small.params[p])
    && (forall k :: k in small.config ==> k in large.config && large.config[k] == small.config[k])
    && (forall s :: s in small.steps ==> s in large.steps && OutputsExtend(small.steps[s], large.steps[s]))
    && (small.item.Some? ==> large.item == small.item)
    && (small.fields.Some? ==> large.fields.Some? && OutputsExtend(small.fields.value, large.fields.value))
  }

  ghost predicate OutputsExtend(small: map<string, string>, large: map<string, string>) {
    forall k :: k in small ==> k in large && large[k] == small[k]
  }

  lemma {:induction false} RenderedStays(t: Template, small: Context, large: Context, lib: Library)
    requires Extends(small, large) && Rendered(t, small, lib).Good?
    ensures Rendered(t, large, lib) == Rendered(t, small, lib)
  {
    if t != [] {
      assert RenderedOne(t[0], small, lib).Good? && Rendered(t[1..], small, lib).Good?;
      assert t[0].Place? ==> Lookup(t[0].hole, small).Good? && Lookup(t[0].hole, large) == Lookup(t[0].hole, small);
      RenderedStays(t[1..], small, large, lib);
    }
  }

  /** A param that resolves in a partial context resolves to the same in every fuller one. */
  lemma {:induction false} ResolvedStays(s: string, small: Context, large: Context, lib: Library)
    requires Extends(small, large) && Resolved(s, small, lib).Good?
    ensures Resolved(s, large, lib) == Resolved(s, small, lib)
  {
    RenderedStays(ParsedFrom(s, "").value, small, large, lib);
  }
}
