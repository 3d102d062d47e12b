/** The ${...} language of wizard definitions: parsing, printing, and how the two fit together. */
module Templates {
  import opened Types
  import opened Text

  datatype HoleKind = OfParams | OfConfig | OfSteps | OfItem

  /** One parsed placeholder (Ref); raw is the expression as written. */
  datatype Hole = Hole(kind: HoleKind, name: string, key: string, filters: seq<string>, raw: string)

  datatype Segment = Words(text: string) | Place(hole: Hole)

  type Template = seq<Segment>

  const FILTERS: set<string> := {"lower", "stem", "k8sName"}

  // ---- parsing ----

  /** What the dotted path of a placeholder names, if it names anything. */
  function ParsePath(path: seq<string>): Option<(HoleKind, string, string)> {
    if |path| == 1 && path[0] == "item" then Some((OfItem, "", ""))
    else if |path| == 2 && path[0] == "item" && path[1] != "" then Some((OfItem, path[1], ""))
    else if |path| == 2 && path[0] == "params" && path[1] != "" then Some((OfParams, path[1], ""))
    else if |path| == 2 && path[0] == "config" && path[1] != "" then Some((OfConfig, path[1], ""))
    else if |path| == 4 && path[0] == "steps" && path[2] == "outputs" && path[1] != "" && path[3] != "" then
      Some((OfSteps, path[1], path[3]))
    else None
  }

  function ParseHole(expr: string): Option<Hole> {
    var parts := TrimAll(Split(expr, '|'));
    match ParsePath(Split(parts[0], '.'))
    case None => None
    case Some((kind, name, key)) =>
      if forall f :: f in parts[1..] ==> f in FILTERS then Some(Hole(kind, name, key, parts[1..], Trim(expr))) else None
  }

  function Flush(lit: string): Template {
    if lit == "" then [] else [Words(lit)]
  }

  /** Put segments before a template that may have failed to parse. */
  function Behind(before: Template, rest: Option<Template>): Option<Template> {
    match rest
    case None => None
    case Some(t) => Some(before + t)
  }

  lemma BehindTwice(a: Template, b: Template, rest: Option<Template>)
    ensures Behind(a, Behind(b, rest)) == Behind(a + b, rest)
  {
    if rest.Some? {
      assert a + (b + rest.value) == a + b + rest.value;
    }
  }

  /** The template of s, given that the literal text lit comes right before it. */
  function ParsedFrom(s: string, lit: string): Option<Template>
    decreases |s|
  {
    if s == "" then Some(Flush(lit))
    else if HasPrefix(s, "$${") then ParsedFrom(s[3..], lit + "${")
    else if HasPrefix(s, "${") then
      match IndexOf(s[2..], '}')
      case None => None
      case Some(end) =>
        match ParseHole(s[2..2 + end])
        case None => None
        case Some(hole) => Behind(Flush(lit) + [Place(hole)], ParsedFrom(s[2 + end + 1..], ""))
    else ParsedFrom(s[1..], lit + [s[0]])
  }

  /** Parse walks an index over s, collecting literal text in a buffer. */
  method Parse(s: string) returns (r: Option<Template>)
    ensures r == ParsedFrom(s, "")
  {
    var t: Template := [];
    var lit := "";
    var i := 0;
    ghost var whole := ParsedFrom(s, "");
    ghost var ahead := whole;
    assert s[0..] == s && (whole.Some? ==> [] + whole.value == whole.value);
    while i < |s|
      invariant 0 <= i <= |s|
      invariant ahead == ParsedFrom(s[i..], lit) && whole == Behind(t, ahead)
    {
      var tail := s[i..];
      if HasPrefix(tail, "$${") {
        lit := lit + "${";
        i := i + 3;
        assert tail[3..] == s[i..];
      } else if HasPrefix(tail, "${") {
        var end := IndexOf(tail[2..], '}');
        if end.None? {
          return None;
        }
        var hole := ParseHole(tail[2..2 + end.value]);
        if hole.None? {
          return None;
        }
        i := i + 2 + end.value + 1;
        assert tail[2 + end.value + 1..] == s[i..];
        ahead := ParsedFrom(s[i..], "");
        BehindTwice(t, Flush(lit) + [Place(hole.value)], ahead);
        t := t + (Flush(lit) + [Place(hole.value)]);
        lit := "";
      } else {
        lit := lit + [tail[0]];
        i := i + 1;
        assert tail[1..] == s[i..];
      }
    }
    return Some(t + Flush(lit));
  }

  // ---- what a placeholder means ----

  /** The path that names something. */
  function PathOf(kind: HoleKind, name: string, key: string): string {
    match kind
    case OfItem => if name == "" then "item" else "item." + name
    case OfParams => "params." + name
    case OfConfig => "config." + name
    case OfSteps => "steps." + name + ".outputs." + key
  }

  /** The expression that names it and applies filters to it. */
  function ExprOf(kind: HoleKind, name: string, key: string, filters: seq<string>): string {
    PathOf(kind, name, key) + Tails(filters, '|')
  }

  /** The expression without the space around its parts. */
  function Squeezed(expr: string): string {
    Glue(TrimAll(Split(expr, '|')), '|')
  }

  predicate NameOk(name: string) {
    '.' !in name && '|' !in name
  }

  predicate NamesSomething(kind: HoleKind, name: string, key: string) {
    && NameOk(name) && NameOk(key) && (kind != OfItem ==> name != "") && (kind == OfSteps <==> key != "")
  }

  ghost predicate KnownFilters(filters: seq<string>) {
    forall f :: f in filters ==> f in {"lower", "stem", "k8sName"}
  }

  lemma {:induction false} TrimmedFree(parts: seq<string>, sep: char)
    requires FreeOf(parts, sep)
    ensures FreeOf(TrimAll(parts), sep)
  {
    forall i | 0 <= i < |parts|
      ensures sep !in TrimAll(parts)[i]
    {
      TrimTwice(parts[i]);
    }
  }

  lemma SplitTwo(a: string, b: string)
    requires '.' !in a && '.' !in b
    ensures Split(a + "." + b, '.') == [a, b]
  {
    SplitFirst(a, b, '.');
    SplitFirst(b, "", '.');
  }

  lemma SplitFour(a: string, b: string, c: string, d: string)
    requires '.' !in a && '.' !in b && '.' !in c && '.' !in d
    ensures Split(a + "." + b + "." + c + "." + d, '.') == [a, b, c, d]
  {
    SplitTwo(c, d);
    SplitFirst(b, c + "." + d, '.');
    var rest := b + "." + (c + "." + d);
    SplitFirst(a, rest, '.');
    Dotted(a, b, c, d);
  }

  lemma Dotted(a: string, b: string, c: string, d: string)
    ensures a + "." + b + "." + c + "." + d == a + "." + (b + "." + (c + "." + d))
  {
  }

  lemma PathSplits(kind: HoleKind, name: string, key: string)
    requires NamesSomething(kind, name, key)
    ensures ParsePath(Split(PathOf(kind, name, key), '.')) == Some((kind, name, key))
  {
    match kind
    case OfItem =>
      SplitFirst("item", "", '.');
      SplitTwo("item", name);
      assert "item" + "." == "item.";
    case OfParams =>
      SplitTwo("params", name);
      assert "params" + "." == "params.";
    case OfConfig =>
      SplitTwo("config", name);
      assert "config" + "." == "config.";
    case OfSteps =>
      StepPathSplits(name, key);
  }

  lemma StepPathSplits(name: string, key: string)
    requires NamesSomething(OfSteps, name, key)
    ensures ParsePath(Split(PathOf(OfSteps, name, key), '.')) == Some((OfSteps, name, key))
  {
    SplitFour("steps", name, "outputs", key);
    assert "steps." + name + ".outputs." + key == "steps" + "." + name + "." + "outputs" + "." + key;
  }

  lemma GluedPath(path: seq<string>)
    ensures |path| == 1 ==> Glue(path, '.') == path[0]
    ensures |path| == 2 ==> Glue(path, '.') == path[0] + "." + path[1]
    ensures |path| == 4 ==> Glue(path, '.') == path[0] + "." + path[1] + "." + path[2] + "." + path[3]
  {
    if |path| == 2 {
      assert path[1..][1..] == [];
    } else if |path| == 4 {
      assert path[1..][1..] == path[2..] && path[2..][1..] == path[3..] && path[3..][1..] == [];
      assert Tails(path[3..], '.') == "." + path[3];
      assert Tails(path[2..], '.') == "." + path[2] + ("." + path[3]);
    }
  }

  lemma PathParses(path: seq<string>, kind: HoleKind, name: string, key: string)
    requires path != [] && FreeOf(path, '.') && FreeOf(path, '|') && ParsePath(path) == Some((kind, name, key))
    ensures NamesSomething(kind, name, key) && Glue(path, '.') == PathOf(kind, name, key)
  {
    GluedPath(path);
    assert path[0] in path && (|path| > 1 ==> '.' !in path[1] && '|' !in path[1]);
  }

  lemma SplitKeepsFree(s: string, sep: char, c: char)
    requires c !in s
    ensures FreeOf(Split(s, sep), c)
  {
    if s != "" {
      SplitKeepsFree(s[1..], sep, c);
      assert s[0] in s;
    }
  }

  /**
   A placeholder is read as h exactly if its expression, the space around its parts aside, is the path
   of what h names followed by h's filters, all of them known.
   */
  lemma HoleIff(expr: string, h: Hole)
    ensures ParseHole(expr) == Some(h) <==>
            && Squeezed(expr) == ExprOf(h.kind, h.name, h.key, h.filters) && NamesSomething(h.kind, h.name, h.key)
            && KnownFilters(h.filters) && h.raw == Trim(expr)
  {
    var parts := TrimAll(Split(expr, '|'));
    GluedSplit(expr, '|');
    TrimmedFree(Split(expr, '|'), '|');
    if ParseHole(expr) == Some(h) {
      GluedSplit(parts[0], '.');
      SplitKeepsFree(parts[0], '.', '|');
      PathParses(Split(parts[0], '.'), h.kind, h.name, h.key);
    }
    if Squeezed(expr) == ExprOf(h.kind, h.name, h.key, h.filters) && NamesSomething(h.kind, h.name, h.key)
       && KnownFilters(h.filters) && h.raw == Trim(expr) {
      var written := [PathOf(h.kind, h.name, h.key)] + h.filters;
      WrittenIsFree(h.kind, h.name, h.key, h.filters);
      SplitGlued(written, '|');
      SplitGlued(parts, '|');
      assert Glue(written, '|') == Squeezed(expr) && written[1..] == h.filters;
      PathSplits(h.kind, h.name, h.key);
    }
  }

  lemma WrittenIsFree(kind: HoleKind, name: string, key: string, filters: seq<string>)
    requires NamesSomething(kind, name, key) && KnownFilters(filters)
    ensures FreeOf([PathOf(kind, name, key)] + filters, '|')
  {
    forall i | 0 <= i < |filters|
      ensures '|' !in filters[i]
    {
      assert filters[i] in filters;
    }
  }

  /** A name as definitions have them. */
  predicate Plain(name: string) {
    name != "" && NameOk(name) && '}' !in name && SpaceFree(name)
  }

  lemma {:induction false} TailsPlain(filters: seq<string>)
    requires KnownFilters(filters)
    ensures '}' !in Tails(filters, '|') && SpaceFree(Tails(filters, '|'))
  {
    if filters != [] {
      assert filters[0] in filters && forall f :: f in filters[1..] ==> f in filters;
      TailsPlain(filters[1..]);
    }
  }

  /** Paths and filters without any space in them are their own trimmed parts. */
  lemma NothingToSqueeze(path: string, filters: seq<string>)
    requires '|' !in path && SpaceFree(path) && KnownFilters(filters)
    ensures Squeezed(path + Tails(filters, '|')) == path + Tails(filters, '|')
  {
    var written := [path] + filters;
    assert written[1..] == filters && Glue(written, '|') == path + Tails(filters, '|');
    forall i | 0 <= i < |filters|
      ensures '|' !in filters[i] && SpaceFree(filters[i])
    {
      assert filters[i] in filters;
    }
    SplitGlued(written, '|');
    forall i | 0 <= i < |written|
      ensures Trim(written[i]) == written[i]
    {
      TrimSpaceFree(written[i]);
    }
    assert TrimAll(written) == written;
  }

  lemma PathIsPlain(kind: HoleKind, name: string, key: string)
    requires NamesSomething(kind, name, key) && (name != "" ==> Plain(name)) && (key != "" ==> Plain(key))
    ensures var path := PathOf(kind, name, key); '|' !in path && '}' !in path && SpaceFree(path)
  {
  }

  /** What is written without any space is read back, name, key and filters. */
  lemma WrittenIsRead(kind: HoleKind, name: string, key: string, filters: seq<string>)
    requires NamesSomething(kind, name, key) && KnownFilters(filters)
    requires (name != "" ==> Plain(name)) && (key != "" ==> Plain(key))
    ensures var expr := ExprOf(kind, name, key, filters);
            ParsedFrom("${" + expr + "}", "") == Some([Place(Hole(kind, name, key, filters, expr))])
  {
    var path, expr := PathOf(kind, name, key), ExprOf(kind, name, key, filters);
    PathIsPlain(kind, name, key);
    TailsPlain(filters);
    NothingToSqueeze(path, filters);
    TrimSpaceFree(expr);
    var h := Hole(kind, name, key, filters, expr);
    HoleIff(expr, h);
    AloneIsRead(h);
  }

  lemma AloneIsRead(h: Hole)
    requires HoleOk(h)
    ensures ParsedFrom("${" + h.raw + "}", "") == Some([Place(h)])
  {
    HoleIsRead(h, "", "");
    assert "${" + h.raw + "}" + "" == "${" + h.raw + "}" && Flush("") + [Place(h)] + Flush("") == [Place(h)];
  }

  /** What stands in the braces, put together differently. */
  lemma InBraces(head: string, open: string, rest: string, f: string)
    requires open == "${" + head
    ensures "${" + (head + rest + f) + "}" == open + rest + f + "}"
  {
  }

  /** Literal text in front stays in front. */
  lemma {:induction false} LiteralFirst(s: string, lit: string)
    requires ParsedFrom(s, lit).Some?
    ensures lit != "" ==> ParsedFrom(s, lit).value != [] && ParsedFrom(s, lit).value[0].Words?
    ensures s != "" ==> ParsedFrom(s, lit).value != []
    decreases |s|
  {
    if s == "" {
    } else if HasPrefix(s, "$${") {
      LiteralFirst(s[3..], lit + "${");
    } else if !HasPrefix(s, "${") {
      LiteralFirst(s[1..], lit + [s[0]]);
    }
  }

  /** A text that is one placeholder and nothing else. */
  lemma OnePlaceIff(s: string, h: Hole)
    ensures ReadsAs(s, h) <==>
            exists expr :: '}' !in expr && s == "${" + expr + "}" && ParseHole(expr) == Some(h)
  {
    if ReadsAs(s, h) {
      OnePlaceOnly(s, h);
    }
    forall expr | '}' !in expr && s == "${" + expr + "}" && ParseHole(expr) == Some(h)
      ensures ReadsAs(s, h)
    {
      BracesRead(expr, "", h);
      assert "${" + expr + "}" + "" == s && [Place(h)] + Flush("") == [Place(h)];
    }
  }

  lemma BracesRead(expr: string, rest: string, h: Hole)
    requires '}' !in expr && ParseHole(expr) == Some(h)
    ensures ParsedFrom("${" + expr + "}" + rest, "") == Behind([Place(h)], ParsedFrom(rest, ""))
  {
    var s := "${" + expr + "}" + rest;
    assert s[2..] == expr + "}" + rest;
    IndexAfter(expr, '}', rest);
    assert s[2..2 + |expr|] == expr && s[2 + |expr| + 1..] == rest;
    assert s[0] == '$' && s[1] == '{' && Flush("") + [Place(h)] == [Place(h)];
  }

  lemma OnePlaceOnly(s: string, h: Hole)
    requires ReadsAs(s, h)
    ensures exists expr :: '}' !in expr && s == "${" + expr + "}" && ParseHole(expr) == Some(h)
  {
    StartsWithPlace(s, h);
    var end := IndexOf(s[2..], '}').value;
    var expr, rest := s[2..2 + end], s[2 + end + 1..];
    assert s == "${" + expr + "}" + rest && expr == s[2..][..end];
    LiteralFirst(rest, "");
    var read := ParseHole(expr).value;
    BracesRead(expr, rest, read);
    assert |[Place(read)] + ParsedFrom(rest, "").value| == 1;
    assert rest == "" && ParsedFrom(s, "").value[0] == Place(read);
    assert s == "${" + expr + "}";
  }

  lemma StartsWithPlace(s: string, h: Hole)
    requires ReadsAs(s, h)
    ensures HasPrefix(s, "${") && IndexOf(s[2..], '}').Some? && ParseHole(s[2..2 + IndexOf(s[2..], '}').value]).Some?
    ensures ParsedFrom(s[2 + IndexOf(s[2..], '}').value + 1..], "").Some?
  {
    if HasPrefix(s, "$${") {
      LiteralFirst(s[3..], "" + "${");
    } else if s != "" && !HasPrefix(s, "${") {
      LiteralFirst(s[1..], "" + [s[0]]);
    }
  }

  predicate ReadsAs(s: string, h: Hole) {
    ParsedFrom(s, "") == Some([Place(h)])
  }

  /** The five placeholders, and what each of them means. */
  lemma PlaceholdersMean(n: string, k: string, filters: seq<string>)
    requires Plain(n) && Plain(k) && KnownFilters(filters)
    ensures var f := Tails(filters, '|');
            && ReadsAs("${item" + f + "}", Hole(OfItem, "", "", filters, "item" + f))
            && ReadsAs("${item." + n + f + "}", Hole(OfItem, n, "", filters, "item." + n + f))
            && ReadsAs("${params." + n + f + "}", Hole(OfParams, n, "", filters, "params." + n + f))
            && ReadsAs("${config." + n + f + "}", Hole(OfConfig, n, "", filters, "config." + n + f))
            && ReadsAs("${steps." + n + ".outputs." + k + f + "}",
                       Hole(OfSteps, n, k, filters, "steps." + n + ".outputs." + k + f))
  {
    ItemMeans(filters);
    FieldMeans(n, filters);
    ParamMeans(n, filters);
    ConfigMeans(n, filters);
    OutputMeans(n, k, filters);
  }

  lemma ItemMeans(filters: seq<string>)
    requires KnownFilters(filters)
    ensures var f := Tails(filters, '|'); ReadsAs("${item" + f + "}", Hole(OfItem, "", "", filters, "item" + f))
  {
    WrittenIsRead(OfItem, "", "", filters);
    BracesAround("item", "${item", Tails(filters, '|'));
  }

  lemma BracesAround(head: string, open: string, f: string)
    requires open == "${" + head
    ensures "${" + (head + f) + "}" == open + f + "}"
  {
  }

  lemma FieldMeans(n: string, filters: seq<string>)
    requires Plain(n) && KnownFilters(filters)
    ensures var f := Tails(filters, '|');
            ReadsAs("${item." + n + f + "}", Hole(OfItem, n, "", filters, "item." + n + f))
  {
    WrittenIsRead(OfItem, n, "", filters);
    InBraces("item.", "${item.", n, Tails(filters, '|'));
  }

  lemma ParamMeans(n: string, filters: seq<string>)
    requires Plain(n) && KnownFilters(filters)
    ensures var f := Tails(filters, '|');
            ReadsAs("${params." + n + f + "}", Hole(OfParams, n, "", filters, "params." + n + f))
  {
    WrittenIsRead(OfParams, n, "", filters);
    InBraces("params.", "${params.", n, Tails(filters, '|'));
  }

  lemma ConfigMeans(n: string, filters: seq<string>)
    requires Plain(n) && KnownFilters(filters)
    ensures var f := Tails(filters, '|');
            ReadsAs("${config." + n + f + "}", Hole(OfConfig, n, "", filters, "config." + n + f))
  {
    WrittenIsRead(OfConfig, n, "", filters);
    InBraces("config.", "${config.", n, Tails(filters, '|'));
  }

  lemma Regrouped(a: string, b: string, c: string, d: string, e: string)
    ensures a + (b + c + d) + e == a + b + c + d + e
  {
  }

  lemma OutputMeans(n: string, k: string, filters: seq<string>)
    requires Plain(n) && Plain(k) && KnownFilters(filters)
    ensures var f := Tails(filters, '|');
            ReadsAs("${steps." + n + ".outputs." + k + f + "}",
                    Hole(OfSteps, n, k, filters, "steps." + n + ".outputs." + k + f))
  {
    var f := Tails(filters, '|');
    WrittenIsRead(OfSteps, n, k, filters);
    InBraces("steps.", "${steps.", n + ".outputs." + k, f);
    Regrouped("steps.", n, ".outputs.", k, f);
    Regrouped("${steps.", n, ".outputs.", k, f);
    OutputPath(n, k, f);
  }

  lemma OutputPath(n: string, k: string, f: string)
    ensures PathOf(OfSteps, n, k) + f == "steps." + (n + ".outputs." + k) + f
  {
    Regrouped("steps.", n, ".outputs.", k, f);
  }

  // ---- printing ----

  /** Literal text with every "${" written "$${". */
  function Escape(s: string): string {
    if s == "" then ""
    else if HasPrefix(s, "${") then "$${" + Escape(s[2..])
    else [s[0]] + Escape(s[1..])
  }

  function PrintOne(seg: Segment): string {
    match seg
    case Words(text) => Escape(text)
    case Place(hole) => "${" + hole.raw + "}"
  }

  function Print(t: Template): string {
    if t == [] then "" else PrintOne(t[0]) + Print(t[1..])
  }

  // ---- what Parse can return ----

  ghost predicate HoleOk(h: Hole) {
    '}' !in h.raw && ParseHole(h.raw) == Some(h)
  }

  predicate EndsInDollar(s: string) {
    s != "" && s[|s| - 1] == '$'
  }

  /** May segment b follow segment a? */
  predicate Joins(a: Segment, b: Segment) {
    (a.Words? ==> !b.Words? && !EndsInDollar(a.text))
  }

  /** No empty or adjacent literals, and none that ends in '$' right before a placeholder. */
  ghost predicate Neat(t: Template) {
    && (forall i :: 0 <= i < |t| ==> if t[i].Words? then t[i].text != "" else HoleOk(t[i].hole))
    && (forall i :: 0 < i < |t| ==> Joins(t[i - 1], t[i]))
  }

  /** A literal cannot end in '$' where a placeholder starts: that would have been an escape. */
  predicate Separate(lit: string, s: string) {
    !(EndsInDollar(lit) && HasPrefix(s, "${"))
  }

  lemma ParseHoleTrimmed(expr: string)
    requires ParseHole(expr).Some? && '}' !in expr
    ensures HoleOk(ParseHole(expr).value)
  {
    TrimTwice(expr);
    SplitTrimmed(expr, '|');
  }

  lemma NeatJoin(lit: string, hole: Hole, rest: Template)
    requires HoleOk(hole) && Neat(rest) && !EndsInDollar(lit)
    ensures Neat(Flush(lit) + [Place(hole)] + rest)
  {
  }

  /** Everything Parse returns is neat. */
  lemma {:induction false} ParsedIsNeat(s: string, lit: string)
    requires Separate(lit, s) && ParsedFrom(s, lit).Some?
    ensures Neat(ParsedFrom(s, lit).value)
    decreases |s|
  {
    if s == "" {
    } else if HasPrefix(s, "$${") {
      ParsedIsNeat(s[3..], lit + "${");
    } else if HasPrefix(s, "${") {
      var end := IndexOf(s[2..], '}').value;
      ParseHoleTrimmed(s[2..2 + end]);
      ParsedIsNeat(s[2 + end + 1..], "");
      NeatJoin(lit, ParseHole(s[2..2 + end]).value, ParsedFrom(s[2 + end + 1..], "").value);
    } else {
      ParsedIsNeat(s[1..], lit + [s[0]]);
    }
  }

  // ---- printing and parsing again ----

  /** What may be printed after literal text: nothing, or a placeholder. */
  predicate MayFollow(text: string, rest: string) {
    rest == "" || (HasPrefix(rest, "${") && !EndsInDollar(text))
  }

  lemma {:induction false} EscapedIsRead(text: string, rest: string, lit: string)
    requires MayFollow(text, rest)
    ensures ParsedFrom(Escape(text) + rest, lit) == ParsedFrom(rest, lit + text)
    decreases |text|
  {
    if text == "" {
      assert Escape(text) + rest == rest && lit + text == lit;
    } else if HasPrefix(text, "${") {
      EscapedIsRead(text[2..], rest, lit + "${");
      EscapeIsRead(Escape(text[2..]) + rest, lit);
      EscapedHead(text, rest, lit);
    } else {
      EscapedIsRead(text[1..], rest, lit + [text[0]]);
      NotAPlaceholder(text, rest);
      PlainHead(text, rest, lit);
      CharIsRead(text[0], Escape(text[1..]) + rest, lit);
    }
  }

  lemma EscapedHead(text: string, rest: string, lit: string)
    requires HasPrefix(text, "${")
    ensures Escape(text) + rest == "$${" + (Escape(text[2..]) + rest) && lit + text == lit + "${" + text[2..]
  {
  }

  lemma PlainHead(text: string, rest: string, lit: string)
    requires text != "" && !HasPrefix(text, "${")
    ensures Escape(text) + rest == [text[0]] + (Escape(text[1..]) + rest) && lit + text == lit + [text[0]] + text[1..]
  {
  }

  lemma EscapeIsRead(s: string, lit: string)
    ensures ParsedFrom("$${" + s, lit) == ParsedFrom(s, lit + "${")
  {
    assert ("$${" + s)[3..] == s;
  }

  lemma CharIsRead(c: char, s: string, lit: string)
    requires !HasPrefix([c] + s, "${") && !HasPrefix([c] + s, "$${")
    ensures ParsedFrom([c] + s, lit) == ParsedFrom(s, lit + [c])
  {
    assert ([c] + s)[1..] == s;
  }

  lemma NotAPlaceholder(text: string, rest: string)
    requires text != "" && !HasPrefix(text, "${") && MayFollow(text, rest)
    ensures var s := Escape(text) + rest; !HasPrefix(s, "${") && !HasPrefix(s, "$${")
  {
    var s := Escape(text) + rest;
    assert "${"[0] == '$' && "${"[1] == '{' && "$${"[0] == '$' && "$${"[1] == '$' && "$${"[2] == '{';
    assert s[0] == text[0];
    if |text| > 1 {
      assert Escape(text[1..])[0] == text[1..][0];
      assert s[1] == text[1];
      if text[1] == '$' {
        if HasPrefix(text[1..], "${") {
          assert s[2] == '$';
        } else if |text| > 2 {
          assert s[2] == Escape(text[2..])[0] == text[2];
        } else {
          assert Escape(text[2..]) == "";
        }
      }
    } else {
      assert Escape(text[1..]) == "" && Escape(text) == text;
    }
  }

  lemma HoleIsRead(hole: Hole, rest: string, lit: string)
    requires HoleOk(hole)
    ensures ParsedFrom("${" + hole.raw + "}" + rest, lit) == Behind(Flush(lit) + [Place(hole)], ParsedFrom(rest, ""))
  {
    var s := "${" + hole.raw + "}" + rest;
    assert s[2..] == hole.raw + "}" + rest;
    IndexAfter(hole.raw, '}', rest);
    assert s[2..2 + |hole.raw|] == hole.raw;
    assert s[2 + |hole.raw| + 1..] == rest;
    assert s[0] == '$' && s[1] == '{';
  }

  lemma {:induction false} PrintedIsRead(t: Template, lit: string)
    requires Neat(t)
    requires lit != "" && t != [] ==> Joins(Words(lit), t[0])
    ensures ParsedFrom(Print(t), lit) == Some(Flush(lit) + t)
    decreases |t|
  {
    if t == [] {
      assert Flush(lit) + t == Flush(lit);
    } else {
      NeatTail(t);
      match t[0]
      case Words(text) =>
        PrintedIsRead(t[1..], text);
        WordsAreRead(t, lit);
      case Place(hole) =>
        PrintedIsRead(t[1..], "");
        PlaceIsRead(t, lit);
    }
  }

  lemma WordsAreRead(t: Template, lit: string)
    requires t != [] && t == [t[0]] + t[1..] && t[0].Words? && t[0].text != "" && MayFollow(t[0].text, Print(t[1..]))
             && lit == ""
    requires ParsedFrom(Print(t[1..]), t[0].text) == Some(Flush(t[0].text) + t[1..])
    ensures ParsedFrom(Print(t), lit) == Some(Flush(lit) + t)
  {
    EscapedIsRead(t[0].text, Print(t[1..]), "");
    assert "" + t[0].text == t[0].text;
    assert Flush(lit) + t == t;
  }

  lemma PlaceIsRead(t: Template, lit: string)
    requires t != [] && t == [t[0]] + t[1..] && t[0].Place? && HoleOk(t[0].hole)
    requires ParsedFrom(Print(t[1..]), "") == Some(Flush("") + t[1..])
    ensures ParsedFrom(Print(t), lit) == Some(Flush(lit) + t)
  {
    HoleIsRead(t[0].hole, Print(t[1..]), lit);
    FlushFirst(t, lit);
  }

  lemma FlushFirst(t: Template, lit: string)
    requires t != []
    ensures Flush(lit) + [t[0]] + (Flush("") + t[1..]) == Flush(lit) + t
  {
    assert t == [t[0]] + t[1..] && Flush("") + t[1..] == t[1..];
  }

  lemma NeatTail(t: Template)
    requires Neat(t) && t != []
    ensures t == [t[0]] + t[1..] && Neat(t[1..])
    ensures t[0].Words? ==>
              t[0].text != "" && MayFollow(t[0].text, Print(t[1..])) && (|t| > 1 ==> Joins(t[0], t[1..][0]))
  {
    if |t| > 1 {
      assert Joins(t[0], t[1]);
      if t[1].Place? {
        assert Print(t[1..]) == "${" + t[1].hole.raw + "}" + Print(t[1..][1..]);
      }
    }
  }

  /** A template printed and parsed again is the same template, exactly if it is one Parse can return. */
  lemma RoundTrip(t: Template)
    ensures Neat(t) <==> ParsedFrom(Print(t), "") == Some(t)
    ensures Neat(t) <==> exists s :: ParsedFrom(s, "") == Some(t)
  {
    if Neat(t) {
      PrintedIsRead(t, "");
      assert Flush("") + t == t;
    }
    forall s | ParsedFrom(s, "") == Some(t)
      ensures Neat(t)
    {
      ParsedIsNeat(s, "");
    }
  }

  /** Any plain string, escaped, parses to itself: no placeholder appears and no text is lost. */
  lemma PlainTextSurvives(s: string)
    ensures ParsedFrom(Escape(s), "") == Some(Flush(s))
  {
    EscapedIsRead(s, "", "");
    assert Escape(s) + "" == Escape(s) && "" + s == s;
  }
}
