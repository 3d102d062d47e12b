/**
 Checking step params when a run is created, before any step has run: what is known already is
 checked, the rest is pending (validateStepParams, ValidateAppParams, ValidateExternalAuthParams).
 */
module EarlyChecks {
  import opened Types
  import opened Text
  import opened Rendering
  import opened Plan

  type Params = map<string, string>

  /** Stands for a param that cannot be resolved yet. */
  const PENDING: string := "\0pending"

  function Get(p: Params, k: string): string {
    if k in p then p[k] else ""
  }

  predicate Known(p: Params, k: string) {
    Get(p, k) != PENDING
  }

  // ---- external auth ----

  datatype AuthRef = AuthRef(mode: string, name: string)

  /** None: not used.  A half-set pair or an unknown mode is an error (AuthOk). */
  function AuthFrom(p: Params, modeKey: string, nameKey: string): Option<AuthRef> {
    if Get(p, modeKey) == "" && Get(p, nameKey) == "" then None else Some(AuthRef(Get(p, modeKey), Get(p, nameKey)))
  }

  predicate AuthOk(p: Params, modeKey: string, nameKey: string) {
    match AuthFrom(p, modeKey, nameKey)
    case None => true
    case Some(ref) => ref.mode != "" && ref.name != "" && (ref.mode == "serviceAccount" || ref.mode == "oidc")
  }

  /** Both are left out, or both are given and the mode is one of two. */
  lemma AuthOkIff(p: Params, modeKey: string, nameKey: string)
    ensures AuthOk(p, modeKey, nameKey) <==>
            || (Get(p, modeKey) == "" && Get(p, nameKey) == "")
            || (Get(p, modeKey) in {"serviceAccount", "oidc"} && Get(p, nameKey) != "")
  {
  }

  predicate AuthParamsOk(typ: string, p: Params) {
    if typ == "chain" then AuthOk(p, "externalAuthMode", "externalAuthName")
    else if typ == "trigger" then AuthOk(p, "externalAuthOverrideMode", "externalAuthOverrideName")
    else true
  }

  // ---- apps ----

  /** One entry of an app's entrypoints list. */
  datatype Entrypoint = Entrypoint(key: string, typ: string, schedule: string)

  /** JSON decoding of an entrypoints list, and the entrypoint name a file key maps to. */
  datatype AppLibrary = AppLibrary(parse: string -> Option<seq<Entrypoint>>, name: string -> string)

  predicate Contains(s: string, sub: string) {
    sub <= s || (s != "" && Contains(s[1..], sub))
  }

  /** What follows the last c, or all of s. */
  function AfterLast(s: string, c: char): string {
    match IndexOf(s, c)
    case None => s
    case Some(i) => AfterLast(s[i + 1..], c)
  }

  /** A digest, or a tag other than latest after the last ':' after the last '/'. */
  predicate HasImmutableRef(image: string) {
    || Contains(image, "@sha256:")
    || var name := AfterLast(image, '/');
       ':' in name && AfterLast(name, ':') != "" && AfterLast(name, ':') != "latest"
  }

  // ---- the same of an image's text as a whole ----

  predicate OccursAt(s: string, sub: string, i: nat) {
    i + |sub| <= |s| && s[i..i + |sub|] == sub
  }

  lemma AtFront(s: string, sub: string)
    requires OccursAt(s, sub, 0)
    ensures sub <= s
  {
    assert s == sub + s[|sub|..];
  }

  lemma {:induction false} ContainsIff(s: string, sub: string)
    ensures Contains(s, sub) <==> exists i: nat :: OccursAt(s, sub, i)
  {
    if sub <= s {
      assert OccursAt(s, sub, 0);
    } else if s != "" {
      ContainsIff(s[1..], sub);
      if i: nat :| OccursAt(s[1..], sub, i) {
        assert s[1..][i..i + |sub|] == s[i + 1..i + 1 + |sub|];
        assert OccursAt(s, sub, i + 1);
      }
      if i: nat :| OccursAt(s, sub, i) {
        if i == 0 {
          AtFront(s, sub);
        }
        assert i > 0 && s[1..][i - 1..i - 1 + |sub|] == s[i..i + |sub|];
        assert OccursAt(s[1..], sub, i - 1);
      }
    }
  }

  /** t is what s ends with, and c stands before it. */
  predicate EndsBehind(s: string, c: char, t: string) {
    |t| < |s| && s[|s| - |t|..] == t && s[|s| - |t| - 1] == c
  }

  lemma {:induction false} AfterLastIs(s: string, c: char)
    ensures c !in AfterLast(s, c) && if c in s then EndsBehind(s, c, AfterLast(s, c)) else AfterLast(s, c) == s
    decreases |s|
  {
    var i := IndexOf(s, c);
    if i.Some? {
      var rest, t := s[i.value + 1..], AfterLast(s, c);
      AfterLastIs(rest, c);
      if c in rest {
        assert s[|s| - |t|..] == rest[|rest| - |t|..];
      }
    }
  }

  lemma OnlyOneBehind(s: string, c: char, t: string, u: string)
    requires EndsBehind(s, c, t) && EndsBehind(s, c, u) && c !in t && c !in u
    ensures t == u
  {
    Shorter(s, c, t, u);
    Shorter(s, c, u, t);
  }

  lemma Shorter(s: string, c: char, t: string, u: string)
    requires EndsBehind(s, c, t) && s != "" && |u| <= |s| && s[|s| - |u|..] == u && c !in u
    ensures |u| <= |t|
  {
    assert forall i :: 0 <= i < |u| ==> u[i] == s[|s| - |u| + i];
  }

  /** It ends in a tag, which is not latest. */
  predicate TaggedWith(image: string, tag: string) {
    EndsBehind(image, ':', tag) && ':' !in tag && '/' !in tag && tag != "" && tag != "latest"
  }

  lemma TagOf(image: string, tag: string)
    requires EndsBehind(image, ':', tag) && ':' !in tag && '/' !in tag
    ensures var name := AfterLast(image, '/'); ':' in name && AfterLast(name, ':') == tag
  {
    var name := AfterLast(image, '/');
    AfterLastIs(image, '/');
    LongEnough(image, name, tag);
    assert name[|name| - |tag| - 1] == ':' && name[|name| - |tag|..] == tag;
    AfterLastIs(name, ':');
    OnlyOneBehind(name, ':', tag, AfterLast(name, ':'));
  }

  lemma LongEnough(image: string, name: string, tag: string)
    requires EndsBehind(image, ':', tag) && '/' !in tag && (name == image || EndsBehind(image, '/', name))
    ensures |name| > |tag|
  {
    if name != image {
      var longer := image[|image| - |tag| - 1..];
      assert longer == [':'] + tag;
      Shorter(image, '/', name, longer);
    }
  }

  lemma TagIsLast(image: string)
    requires ':' in AfterLast(image, '/')
    ensures var tag := AfterLast(AfterLast(image, '/'), ':');
            EndsBehind(image, ':', tag) && ':' !in tag && '/' !in tag
  {
    var name := AfterLast(image, '/');
    var tag := AfterLast(name, ':');
    AfterLastIs(image, '/');
    AfterLastIs(name, ':');
    EndOfEnd(image, name, tag);
  }

  lemma EndOfEnd(s: string, n: string, t: string)
    requires |n| <= |s| && s[|s| - |n|..] == n && EndsBehind(n, ':', t) && '/' !in n
    ensures EndsBehind(s, ':', t) && '/' !in t
  {
    assert s[|s| - |t|..] == n[|n| - |t|..];
    assert forall c :: c in t ==> c in n[|n| - |t|..];
  }

  /** An image is pinned by a digest, or by a tag behind its last colon that is not latest and has no slash in it. */
  lemma ImmutableIff(image: string)
    ensures HasImmutableRef(image) <==>
            (exists i: nat :: OccursAt(image, "@sha256:", i)) || exists tag :: TaggedWith(image, tag)
  {
    ContainsIff(image, "@sha256:");
    if ':' in AfterLast(image, '/') {
      TagIsLast(image);
      var tag := AfterLast(AfterLast(image, '/'), ':');
      assert tag != "" && tag != "latest" ==> TaggedWith(image, tag);
    }
    if tag :| TaggedWith(image, tag) {
      TagOf(image, tag);
    }
  }

  predicate ImageOk(image: string) {
    image != "" && ' ' !in image && '\t' !in image && '\n' !in image && HasImmutableRef(image)
  }

  predicate SourceOk(p: Params) {
    Known(p, "artifactName") && Known(p, "tag") ==>
      && (Get(p, "artifactName") == "" <==> Get(p, "tag") == "")
      && (Get(p, "artifactName") == "" && Known(p, "image") ==> ImageOk(Get(p, "image")))
  }

  predicate AppAuthOk(p: Params, appType: string) {
    Known(p, "externalAuthMode") && Known(p, "externalAuthName") ==>
      && AuthOk(p, "externalAuthMode", "externalAuthName")
      && (AuthFrom(p, "externalAuthMode", "externalAuthName").Some? ==> appType != "service")
  }

  predicate Unused(p: Params, k: string) {
    Known(p, k) ==> Get(p, k) == ""
  }

  predicate PortOk(port: string) {
    ParseInt(port).Some? && 1 <= ParseInt(port).value <= 65535
  }

  predicate ServiceOk(p: Params) {
    && Unused(p, "entrypoints") && Unused(p, "schedule") && Unused(p, "fireOnCreate")
    && (Known(p, "port") && Get(p, "port") != "" ==> PortOk(Get(p, "port")))
  }

  predicate EntryOk(e: Entrypoint) {
    && (e.typ == "" || e.typ == "OnDemand" || e.typ == "Cron")
    && (e.typ == "Cron" <==> e.schedule != "")
  }

  ghost predicate EntriesOk(list: seq<Entrypoint>, lib: AppLibrary) {
    && (forall i :: 0 <= i < |list| ==> EntryOk(list[i]))
    && (forall i, j :: 0 <= i < j < |list| ==> lib.name(list[i].key) != lib.name(list[j].key))
  }

  ghost predicate JobOk(p: Params, lib: AppLibrary) {
    && Unused(p, "port") && Unused(p, "ingressName")
    && (Known(p, "entrypoints") && Known(p, "schedule") && Known(p, "fireOnCreate") && Get(p, "entrypoints") != "" ==>
          && Get(p, "schedule") == "" && Get(p, "fireOnCreate") != "true"
          && var list := lib.parse(Get(p, "entrypoints")); list.Some? && list.value != [] && EntriesOk(list.value, lib))
  }

  /** The rules for an app, as far as its known params go. */
  ghost predicate AppOk(p: Params, lib: AppLibrary) {
    var appType := Get(p, "type");
    Known(p, "type") ==>
      && (appType == "service" || appType == "job")
      && SourceOk(p) && AppAuthOk(p, appType)
      && (if appType == "service" then ServiceOk(p) else JobOk(p, lib))
  }

  ghost predicate AppParamsOk(typ: string, p: Params, lib: AppLibrary) {
    typ == "app" ==> AppOk(p, lib)
  }

  method ValidateAppParams(typ: string, p: Params, lib: AppLibrary) returns (ok: bool)
    ensures ok <==> AppParamsOk(typ, p, lib)
  {
    if typ != "app" || !Known(p, "type") {
      return true;
    }
    var appType := Get(p, "type");
    if appType != "service" && appType != "job" {
      return false;
    }
    if Known(p, "artifactName") && Known(p, "tag") {
      if (Get(p, "artifactName") == "") != (Get(p, "tag") == "") {
        return false;
      }
      if Get(p, "artifactName") == "" && Known(p, "image") && !ImageOk(Get(p, "image")) {
        return false;
      }
    }
    if Known(p, "externalAuthMode") && Known(p, "externalAuthName") {
      if !AuthOk(p, "externalAuthMode", "externalAuthName") {
        return false;
      }
      if AuthFrom(p, "externalAuthMode", "externalAuthName").Some? && appType == "service" {
        return false;
      }
    }
    if appType == "service" {
      if !Unused(p, "entrypoints") || !Unused(p, "schedule") || !Unused(p, "fireOnCreate") {
        return false;
      }
      return !Known(p, "port") || Get(p, "port") == "" || PortOk(Get(p, "port"));
    }
    if !Unused(p, "port") || !Unused(p, "ingressName") {
      return false;
    }
    if !Known(p, "entrypoints") || !Known(p, "schedule") || !Known(p, "fireOnCreate") || Get(p, "entrypoints") == "" {
      return true;
    }
    if Get(p, "schedule") != "" || Get(p, "fireOnCreate") == "true" {
      return false;
    }
    var list := lib.parse(Get(p, "entrypoints"));
    if list.None? || |list.value| == 0 {
      return false;
    }
    ok := CheckEntries(list.value, lib);
  }

  /** The walk over an entrypoints list, with the names seen so far. */
  method CheckEntries(list: seq<Entrypoint>, lib: AppLibrary) returns (ok: bool)
    ensures ok <==> EntriesOk(list, lib)
  {
    var seen: map<string, string> := map[];
    for i := 0 to |list|
      invariant EntriesOk(list[..i], lib)
      invariant forall name :: name in seen <==> exists j :: 0 <= j < i && lib.name(list[j].key) == name
    {
      var e := list[i];
      if !EntryOk(e) {
        return false;
      }
      if lib.name(e.key) in seen {
        return false;
      }
      seen := seen[lib.name(e.key) := e.key];
    }
    assert list[..|list|] == list;
    return true;
  }

  // ---- pending values ----

  /** The params the app rules read. */
  const APP_KEYS: set<string> :=
    {"type", "image", "artifactName", "tag", "port", "ingressName", "schedule", "entrypoints", "fireOnCreate",
        "externalAuthMode", "externalAuthName"}

  /** q agrees with p wherever p is not pending. */
  ghost predicate Completes(p: Params, q: Params) {
    forall k :: k in APP_KEYS && Known(p, k) ==> Get(q, k) == Get(p, k)
  }

  /** What fails while values are pending fails whatever those values turn out to be. */
  lemma {:induction false} FailureIsFinal(p: Params, q: Params, lib: AppLibrary)
    requires Completes(p, q) && !AppOk(p, lib)
    ensures !AppOk(q, lib)
  {
    assert forall k :: k in APP_KEYS && Known(p, k) ==> Get(q, k) == Get(p, k);
  }

  /** With nothing pending the early verdict is the final one. */
  lemma {:induction false} ExactWhenNothingPends(p: Params, q: Params, lib: AppLibrary)
    requires Completes(p, q) && forall k :: k in APP_KEYS ==> Known(p, k)
    ensures AppOk(p, lib) <==> AppOk(q, lib)
  {
    assert forall k :: k in APP_KEYS ==> Get(q, k) == Get(p, k) && Known(q, k);
  }

  // ---- validateStepParams ----

  predicate ValidatesEarly(typ: string, key: string) {
    if typ == "chain" || typ == "trigger" then HasPrefix(key, "externalAuth") else typ == "app" && key != "name"
  }

  /** What is known of a run when it is created. */
  function EarlyContext(in_: Instance, values: Values): Context {
    Context(values, map[], map[], in_.item, in_.fields)
  }

  predicate Resolves(in_: Instance, values: Values, k: string, lib: Library)
    requires k in in_.step.params
  {
    Resolved(in_.step.params[k], EarlyContext(in_, values), lib).Good?
  }

  function EarlyKeys(in_: Instance): set<string> {
    set k | k in in_.step.params && ValidatesEarly(in_.step.typ, k)
  }

  /** A param's value as far as it is known; for an app, one that is not is pending. */
  function EarlyValue(in_: Instance, values: Values, k: string, lib: Library): Option<string>
    requires k in in_.step.params
  {
    if Resolves(in_, values, k, lib) then Some(Resolved(in_.step.params[k], EarlyContext(in_, values), lib).value)
    else if in_.step.typ == "app" then Some(PENDING)
    else None
  }

  function ValuesOf(in_: Instance, values: Values, keys: set<string>, lib: Library): Params
    requires keys <= in_.step.params.Keys
  {
    map k | k in keys && EarlyValue(in_, values, k, lib).Some? :: EarlyValue(in_, values, k, lib).value
  }

  lemma {:induction false} OneMoreValue(in_: Instance, values: Values, keys: set<string>, k: string, lib: Library)
    requires keys <= in_.step.params.Keys && k in in_.step.params
    ensures ValuesOf(in_, values, keys + {k}, lib) ==
              var v := EarlyValue(in_, values, k, lib);
              if v.Some? then ValuesOf(in_, values, keys, lib)[k := v.value] else ValuesOf(in_, values, keys, lib)
  {
  }

  /** The params looked at early. */
  function EarlyParams(in_: Instance, values: Values, lib: Library): Params {
    ValuesOf(in_, values, EarlyKeys(in_), lib)
  }

  /** A chain or trigger some of whose checked params cannot be resolved yet is left to the step itself. */
  ghost predicate Postponed(in_: Instance, values: Values, lib: Library) {
    in_.step.typ != "app" && exists k :: k in EarlyKeys(in_) && !Resolves(in_, values, k, lib)
  }

  ghost predicate EarlyOk(in_: Instance, values: Values, lib: Library, app: AppLibrary) {
    Postponed(in_, values, lib) ||
    (var p := EarlyParams(in_, values, lib); AuthParamsOk(in_.step.typ, p) && AppParamsOk(in_.step.typ, p, app))
  }

  method ValidateStepParams(instances: seq<Instance>, values: Values, lib: Library, app: AppLibrary)
    returns (errs: seq<string>)
    ensures errs == [] <==> forall i :: 0 <= i < |instances| ==> EarlyOk(instances[i], values, lib, app)
  {
    errs := [];
    for i := 0 to |instances|
      invariant errs == [] <==> forall j :: 0 <= j < i ==> EarlyOk(instances[j], values, lib, app)
    {
      var ok := CheckInstance(instances[i], values, lib, app);
      if !ok {
        errs := errs + [instances[i].key];
      }
    }
  }

  method CheckInstance(in_: Instance, values: Values, lib: Library, app: AppLibrary) returns (ok: bool)
    ensures ok <==> EarlyOk(in_, values, lib, app)
  {
    var resolved, declared := ResolveEarly(in_, values, lib);
    PostponedIff(in_, values, lib);
    if |resolved| < declared {
      return true; // depends on a step output
    }
    ok := ValidateAppParams(in_.step.typ, resolved, app);
    ok := ok && AuthParamsOk(in_.step.typ, resolved);
  }

  /** The params of one instance that are looked at early, and how many were declared. */
  method ResolveEarly(in_: Instance, values: Values, lib: Library) returns (resolved: Params, declared: nat)
    ensures resolved == EarlyParams(in_, values, lib) && declared == |EarlyKeys(in_)|
  {
    resolved, declared := map[], 0;
    var left := in_.step.params.Keys;
    ghost var counted: set<string> := {};
    while left != {}
      invariant left <= in_.step.params.Keys
      invariant counted == EarlyKeys(in_) - left && declared == |counted|
      invariant resolved == ValuesOf(in_, values, counted, lib)
      decreases left
    {
      var k :| k in left;
      left := left - {k};
      if ValidatesEarly(in_.step.typ, k) {
        declared := declared + 1;
        OneMoreValue(in_, values, counted, k, lib);
        counted := counted + {k};
        var v := EarlyValue(in_, values, k, lib);
        if v.Some? {
          resolved := resolved[k := v.value];
        }
      }
    }
    assert counted == EarlyKeys(in_);
  }

  /** Some declared param is missing among the resolved ones exactly if the instance is postponed. */
  lemma {:induction false} PostponedIff(in_: Instance, values: Values, lib: Library)
    ensures |EarlyParams(in_, values, lib)| < |EarlyKeys(in_)| <==> Postponed(in_, values, lib)
  {
    var some, all := EarlyParams(in_, values, lib).Keys, EarlyKeys(in_);
    assert |EarlyParams(in_, values, lib)| == |some|;
    CountMissing(some, all);
    if Postponed(in_, values, lib) {
      var k :| k in all && !Resolves(in_, values, k, lib);
      assert k !in some;
    }
  }

  lemma CountMissing(some: set<string>, all: set<string>)
    requires some <= all
    ensures |some| < |all| <==> exists k :: k in all && k !in some
  {
    assert all == some + (all - some);
    if |some| < |all| {
      assert all - some != {};
      var k :| k in all - some;
    }
  }

  /** In the end every param resolves, to the same value wherever it already did. */
  ghost predicate FullParams(in_: Instance, values: Values, x: Context, lib: Library, full: Params) {
    && Extends(EarlyContext(in_, values), x)
    && full.Keys == in_.step.params.Keys
    && forall k :: k in full ==> Resolved(in_.step.params[k], x, lib) == Good(full[k])
  }

  /** A step's own checks when it runs. */
  ghost predicate StepChecksPass(in_: Instance, full: Params, app: AppLibrary) {
    AuthParamsOk(in_.step.typ, full) && AppParamsOk(in_.step.typ, full, app)
  }

  lemma {:induction false} SameWhereResolved(in_: Instance, values: Values, x: Context, lib: Library, full: Params,
                                             k: string)
    requires FullParams(in_, values, x, lib, full) && ValidatesEarly(in_.step.typ, k)
    requires k in in_.step.params ==> Resolves(in_, values, k, lib)
    ensures Get(EarlyParams(in_, values, lib), k) == Get(full, k)
  {
    if k in in_.step.params {
      ResolvedStays(in_.step.params[k], EarlyContext(in_, values), x, lib);
    }
  }

  lemma {:induction false} AppCompletes(in_: Instance, values: Values, x: Context, lib: Library, full: Params)
    requires FullParams(in_, values, x, lib, full) && in_.step.typ == "app"
    ensures Completes(EarlyParams(in_, values, lib), full)
  {
    var p := EarlyParams(in_, values, lib);
    forall k | k in APP_KEYS && Known(p, k)
      ensures Get(full, k) == Get(p, k)
    {
      SameWhereResolved(in_, values, x, lib, full, k);
    }
  }

  /** Run creation never rejects an instance whose step would pass its own checks. */
  lemma {:induction false} EarlyRejectionIsRight(in_: Instance, values: Values, x: Context, lib: Library,
                                                 app: AppLibrary, full: Params)
    requires FullParams(in_, values, x, lib, full) && StepChecksPass(in_, full, app)
    ensures EarlyOk(in_, values, lib, app)
  {
    var typ, p := in_.step.typ, EarlyParams(in_, values, lib);
    if typ == "app" {
      AppCompletes(in_, values, x, lib, full);
      if !AppOk(p, app) {
        FailureIsFinal(p, full, app);
      }
    } else if (typ == "chain" || typ == "trigger") && !Postponed(in_, values, lib) {
      var mode, name := if typ == "chain" then "externalAuthMode" else "externalAuthOverrideMode",
                        if typ == "chain" then "externalAuthName" else "externalAuthOverrideName";
      SameWhereResolved(in_, values, x, lib, full, mode);
      SameWhereResolved(in_, values, x, lib, full, name);
    }
  }

  lemma {:induction false} SameAuth(in_: Instance, values: Values, x: Context, lib: Library, full: Params, mode: string,
                                    name: string)
    requires FullParams(in_, values, x, lib, full)
    requires ValidatesEarly(in_.step.typ, mode) && ValidatesEarly(in_.step.typ, name)
    requires forall k :: k in EarlyKeys(in_) ==> Resolves(in_, values, k, lib)
    ensures AuthOk(EarlyParams(in_, values, lib), mode, name) <==> AuthOk(full, mode, name)
  {
    SameWhereResolved(in_, values, x, lib, full, mode);
    SameWhereResolved(in_, values, x, lib, full, name);
  }

  /** For a chain or trigger whose auth params are all known, it accepts exactly those whose step would pass. */
  lemma {:induction false} EarlyAuthIsExact(in_: Instance, values: Values, x: Context, lib: Library, app: AppLibrary,
                                            full: Params)
    requires FullParams(in_, values, x, lib, full) && in_.step.typ in {"chain", "trigger"}
    requires forall k :: k in in_.step.params && HasPrefix(k, "externalAuth") ==> Resolves(in_, values, k, lib)
    ensures EarlyOk(in_, values, lib, app) <==> StepChecksPass(in_, full, app)
  {
    assert HasPrefix("externalAuthMode", "externalAuth") && HasPrefix("externalAuthName", "externalAuth");
    assert HasPrefix("externalAuthOverrideMode", "externalAuth")
           && HasPrefix("externalAuthOverrideName", "externalAuth");
    if in_.step.typ == "chain" {
      SameAuth(in_, values, x, lib, full, "externalAuthMode", "externalAuthName");
    } else {
      SameAuth(in_, values, x, lib, full, "externalAuthOverrideMode", "externalAuthOverrideName");
    }
  }

  /** For an app none of whose params is pending, it accepts exactly the instances whose step would pass. */
  lemma {:induction false} EarlyAcceptanceIsExact(in_: Instance, values: Values, x: Context, lib: Library,
                                                  app: AppLibrary, full: Params)
    requires FullParams(in_, values, x, lib, full) && in_.step.typ == "app"
    requires forall k :: k in APP_KEYS ==> Known(EarlyParams(in_, values, lib), k)
    ensures EarlyOk(in_, values, lib, app) <==> StepChecksPass(in_, full, app)
  {
    AppCompletes(in_, values, x, lib, full);
    ExactWhenNothingPends(EarlyParams(in_, values, lib), full, app);
  }
}
