/** How the app step recognises the app it finds upstream (appStep.Ensure). */
module AppIdentity {
  import opened Types
  import opened Text
  import opened Ordering
  import opened EarlyChecks
  import opened Identity

  /** One entrypoint of a WeaveApp: schedule and ENTRYPOINT value are "" when absent. */
  datatype AppEntry = AppEntry(name: string, schedule: string, value: string)

  /** A WeaveApp spec as weave returns it; missing strings are "". */
  datatype App = App(
    typ: string, image: string, artifactName: string, tag: string,
    port: Option<nat>, ingress: string,
    entrypoints: seq<AppEntry>, auth: Option<AuthRef>)

  function EntryFor(e: Entrypoint, lib: AppLibrary): AppEntry {
    AppEntry(lib.name(e.key), e.schedule, e.key)
  }

  function EntriesFor(list: seq<Entrypoint>, lib: AppLibrary): seq<AppEntry> {
    seq(|list|, i requires 0 <= i < |list| => EntryFor(list[i], lib))
  }

  /** The entrypoints a job app is built with; without a list, the single "main". */
  function Entries(p: Params, lib: AppLibrary): seq<AppEntry> {
    if Get(p, "entrypoints") == "" then [AppEntry("main", Get(p, "schedule"), "")]
    else match lib.parse(Get(p, "entrypoints"))
      case None => []
      case Some(list) => EntriesFor(list, lib)
  }

  method AppEntrypoints(p: Params, lib: AppLibrary) returns (r: Option<seq<AppEntry>>)
    ensures r == if Get(p, "entrypoints") != "" && lib.parse(Get(p, "entrypoints")).None? then None
            else Some(Entries(p, lib))
    ensures Get(p, "entrypoints") == "" ==> r == Some([AppEntry("main", Get(p, "schedule"), "")])
    ensures Get(p, "entrypoints") != "" && r.Some? ==>
              && lib.parse(Get(p, "entrypoints")).Some? && |r.value| == |lib.parse(Get(p, "entrypoints")).value|
              && forall i :: 0 <= i < |r.value| ==>
                   var e := lib.parse(Get(p, "entrypoints")).value[i];
                   r.value[i] == AppEntry(lib.name(e.key), e.schedule, e.key)
  {
    if Get(p, "entrypoints") == "" {
      return Some([AppEntry("main", Get(p, "schedule"), "")]);
    }
    var list := lib.parse(Get(p, "entrypoints"));
    if list.None? {
      return None;
    }
    var out: seq<AppEntry> := [];
    for i := 0 to |list.value|
      invariant |out| == i && forall j :: 0 <= j < i ==> out[j] == EntryFor(list.value[j], lib)
    {
      out := out + [EntryFor(list.value[i], lib)];
    }
    assert out == EntriesFor(list.value, lib);
    return Some(out);
  }

  // ---- ports ----

  /** The number a port param is built as; "" is no port. */
  function BuiltPort(port: string): Option<nat> {
    if port == "" || ParseInt(port).None? || ParseInt(port).value < 0 then None else Some(ParseInt(port).value)
  }

  /** existingPort: the number as text again. */
  function FoundPort(port: Option<nat>): string {
    match port
    case None => ""
    case Some(n) => FormatNat(n)
  }

  predicate Canonical(port: string) {
    port == "" || (ParseInt(port).Some? && ParseInt(port).value >= 0 && port == FormatNat(ParseInt(port).value))
  }

  /** A valid port param reads back as itself exactly if it is canonical decimal. */
  lemma PortReadsBackIff(port: string)
    requires port == "" || PortOk(port)
    ensures FoundPort(BuiltPort(port)) == port <==> Canonical(port)
  {
  }

  // ---- apps ----

  function AppAuth(p: Params): Option<AuthRef> {
    AuthFrom(p, "externalAuthMode", "externalAuthName")
  }

  function ImageFor(p: Params, runner: string): string {
    if Get(p, "artifactName") != "" && Get(p, "image") == "" then runner else Get(p, "image")
  }

  function BuiltApp(p: Params, runner: string, lib: AppLibrary): App {
    var service := Get(p, "type") == "service";
    App(Get(p, "type"), ImageFor(p, runner), Get(p, "artifactName"),
        if Get(p, "artifactName") != "" then Get(p, "tag") else "",
        if service then BuiltPort(Get(p, "port")) else None,
        if service then Get(p, "ingressName") else "",
        if service then [] else Entries(p, lib),
        if service then None else AppAuth(p))
  }

  /** Name, schedule and ENTRYPOINT value in one string. */
  function EntryKey(e: AppEntry): string {
    e.name + "|" + e.schedule + "|" + e.value
  }

  function EntryKeys(entries: seq<AppEntry>): seq<string> {
    seq(|entries|, i requires 0 <= i < |entries| => EntryKey(entries[i]))
  }

  /** Is the app found upstream the one these params ask for?  The runner image is no part of it. */
  predicate AppMatches(found: App, p: Params, runner: string, lib: AppLibrary) {
    var service, job := Get(p, "type") == "service", Get(p, "type") == "job";
    && found.typ == Get(p, "type")
    && found.artifactName == Get(p, "artifactName") && found.tag == Get(p, "tag")
    && (Get(p, "artifactName") == "" ==> found.image == ImageFor(p, runner))
    && (service ==> FoundPort(found.port) == Get(p, "port") && found.ingress == Get(p, "ingressName"))
    && (job ==>
          Join(SortStrings(EntryKeys(found.entrypoints)), NUL) == Join(SortStrings(EntryKeys(Entries(p, lib))), NUL))
    && (job ==> FoundAuthKey(found.auth) == AuthKey(AppAuth(p)))
  }

  /** Every param the rules read is there; nothing is pending when the step runs. */
  ghost predicate Valid(p: Params, lib: AppLibrary) {
    AppOk(p, lib) && forall k :: k in APP_KEYS ==> Known(p, k)
  }

  lemma {:induction false} ValidFacts(p: Params, lib: AppLibrary)
    requires Valid(p, lib)
    ensures Get(p, "type") == "service" || Get(p, "type") == "job"
    ensures Get(p, "artifactName") == "" <==> Get(p, "tag") == ""
    ensures ModeOk(AppAuth(p))
    ensures Get(p, "type") == "service" ==> Get(p, "port") == "" || PortOk(Get(p, "port"))
  {
    assert Known(p, "type") && Known(p, "artifactName") && Known(p, "tag");
    assert Known(p, "externalAuthMode") && Known(p, "externalAuthName") && Known(p, "port");
  }

  /**
   An app step recognises the app it builds exactly if the port, for a service, is written in
   canonical decimal.  Otherwise it takes its own app for somebody else's.
   */
  lemma {:induction false} AppRecognisesItselfIff(p: Params, runner: string, lib: AppLibrary)
    requires Valid(p, lib)
    ensures AppMatches(BuiltApp(p, runner, lib), p, runner, lib) <==>
            (Get(p, "type") == "service" ==> Canonical(Get(p, "port")))
  {
    ValidFacts(p, lib);
    AuthKeysDiffer(AppAuth(p), AppAuth(p));
    if Get(p, "type") == "service" {
      PortReadsBackIff(Get(p, "port"));
    }
  }

  /** Such an app: a service on port "080", which the rules accept. */
  lemma {:induction false} LeadingZeroIsNotRecognised(lib: AppLibrary)
    ensures var p := ServiceParams("r/app:1", "080");
            Valid(p, lib) && !AppMatches(BuiltApp(p, "", lib), p, "", lib)
  {
    var p := ServiceParams("r/app:1", "080");
    PortEighty();
    PinnedImage();
    assert PENDING[0] == '\0' && "080"[0] != '\0' && "r/app:1"[0] != '\0';
    ServiceIsValid("r/app:1", "080", lib);
    AppRecognisesItselfIff(p, "", lib);
  }

  function ServiceParams(image: string, port: string): Params {
    map["type" := "service", "image" := image, "port" := port]
  }

  lemma {:induction false} ServiceIsValid(image: string, port: string, lib: AppLibrary)
    requires ImageOk(image) && PortOk(port) && image != PENDING && port != PENDING
    ensures Valid(ServiceParams(image, port), lib)
    ensures Get(ServiceParams(image, port), "type") == "service" && Get(ServiceParams(image, port), "port") == port
  {
    assert PENDING[0] == '\0' && "service"[0] != '\0' && |PENDING| > 0;
    forall k | k in APP_KEYS
      ensures Known(ServiceParams(image, port), k)
    {
    }
  }

  lemma PortEighty()
    ensures ParseInt("080") == Some(80) && PortOk("080") && !Canonical("080")
  {
    assert "080"[..2] == "08" && "08"[..1] == "0" && "0"[..0] == "";
    assert Value("0") == 0 && Value("08") == 8 && Value("080") == 80;
    assert FormatNat(80) == FormatNat(8) + ['0'] == "80";
    assert |"080"| == 3 && |"80"| == 2;
  }

  lemma PinnedImage()
    ensures ImageOk("r/app:1")
  {
    var name := "app:1";
    assert "r/app:1"[2..] == name && name[4..] == "1";
    assert IndexOf("r/app:1", '/') == Some(1) by {
      assert "r/app:1"[1..] == "/app:1" && IndexOf("/app:1", '/') == Some(0);
    }
    assert AfterLast("r/app:1", '/') == name by {
      NoneLeft(name, '/');
    }
    IndexAfter("app", ':', "1");
    assert "app" + [':'] + "1" == name;
    NoneLeft("1", ':');
    assert AfterLast(name, ':') == "1";
    assert name[3] == ':' && |"1"| == 1 && |"latest"| == 6;
  }

  lemma NoneLeft(s: string, c: char)
    requires c !in s
    ensures AfterLast(s, c) == s
  {
  }

  // ---- what makes two apps the same ----

  /** Entrypoint names are DNS labels, so without '|'; and NUL, the comparison's own separator, occurs nowhere. */
  predicate CleanEntry(e: AppEntry) {
    '|' !in e.name && NUL !in e.name && NUL !in e.schedule && NUL !in e.value
  }

  predicate CleanEntries(entries: seq<AppEntry>) {
    forall i :: 0 <= i < |entries| ==> CleanEntry(entries[i])
  }

  /**
   Two entries of one name, the schedule of the second being that of the first followed by '|' and a
   rest, which the value of the first has in front instead.
   */
  predicate Mistakable(a: AppEntry, b: AppEntry) {
    && a.name == b.name && a.schedule + "|" <= b.schedule
    && a.value == b.schedule[|a.schedule| + 1..] + "|" + b.value
  }

  /** Different entries have the same key exactly if one can be mistaken for the other in this way. */
  lemma SameKeyIff(a: AppEntry, b: AppEntry)
    requires '|' !in a.name && '|' !in b.name
    ensures EntryKey(a) == EntryKey(b) <==> a == b || Mistakable(a, b) || Mistakable(b, a)
  {
    var x, y := a.schedule + "|" + a.value, b.schedule + "|" + b.value;
    assert EntryKey(a) == a.name + ['|'] + x && EntryKey(b) == b.name + ['|'] + y;
    if EntryKey(a) == EntryKey(b) {
      CutsApart(a.name, x, b.name, y, '|');
      SameTail(a, b);
    }
    if Mistakable(a, b) {
      MistakableLookAlike(a, b);
    }
    if Mistakable(b, a) {
      MistakableLookAlike(b, a);
    }
  }

  lemma SameTail(a: AppEntry, b: AppEntry)
    requires a.name == b.name && a.schedule + ['|'] + a.value == b.schedule + ['|'] + b.value
    ensures a == b || Mistakable(a, b) || Mistakable(b, a)
  {
    if !(a.schedule + ['|'] <= b.schedule) && !(b.schedule + ['|'] <= a.schedule) {
      CutsApartUnless(a.schedule, a.value, b.schedule, b.value, '|');
    } else if a.schedule + ['|'] <= b.schedule {
      RestInFront(a, b);
    } else {
      RestInFront(b, a);
    }
  }

  lemma RestInFront(a: AppEntry, b: AppEntry)
    requires a.schedule + ['|'] + a.value == b.schedule + ['|'] + b.value && a.schedule + ['|'] <= b.schedule
    ensures a.value == b.schedule[|a.schedule| + 1..] + "|" + b.value
  {
    var n := |a.schedule| + 1;
    assert b.schedule == a.schedule + ['|'] + b.schedule[n..];
    assert (a.schedule + ['|'] + a.value)[n..] == a.value;
    assert (b.schedule + ['|'] + b.value)[n..] == b.schedule[n..] + ['|'] + b.value;
  }

  lemma MistakableLookAlike(a: AppEntry, b: AppEntry)
    requires Mistakable(a, b)
    ensures EntryKey(a) == EntryKey(b)
  {
    var rest := b.schedule[|a.schedule| + 1..];
    assert b.schedule == a.schedule + "|" + rest;
    assert EntryKey(b) == b.name + "|" + a.schedule + "|" + rest + "|" + b.value == EntryKey(a);
  }

  /** No entry of the two lists can be mistaken for another one of them. */
  predicate Comparable(a: seq<AppEntry>, b: seq<AppEntry>) {
    var all := a + b;
    CleanEntries(all) && forall i, j :: 0 <= i < |all| && 0 <= j < |all| ==> !Mistakable(all[i], all[j])
  }

  lemma ComparableKeys(a: seq<AppEntry>, b: seq<AppEntry>, x: AppEntry, y: AppEntry)
    requires Comparable(a, b) && x in a + b && y in a + b
    ensures EntryKey(x) == EntryKey(y) <==> x == y
  {
    var i :| 0 <= i < |a + b| && (a + b)[i] == x;
    var j :| 0 <= j < |a + b| && (a + b)[j] == y;
    assert CleanEntry(x) && CleanEntry(y) && !Mistakable(x, y) && !Mistakable(y, x);
    SameKeyIff(x, y);
  }

  /** Each entry is listed as often as its key. */
  lemma {:induction false} KeysCount(entries: seq<AppEntry>, e: AppEntry, a: seq<AppEntry>, b: seq<AppEntry>)
    requires Comparable(a, b) && e in a + b && forall x :: x in entries ==> x in a + b
    ensures multiset(EntryKeys(entries))[EntryKey(e)] == multiset(entries)[e]
  {
    if entries == [] {
      assert EntryKeys(entries) == [];
    } else {
      var rest := entries[1..];
      assert entries == [entries[0]] + rest && EntryKeys(entries) == [EntryKey(entries[0])] + EntryKeys(rest);
      KeysCount(rest, e, a, b);
      ComparableKeys(a, b, entries[0], e);
    }
  }

  lemma KeysDetermineEntries(a: seq<AppEntry>, b: seq<AppEntry>)
    requires Comparable(a, b) && multiset(EntryKeys(a)) == multiset(EntryKeys(b))
    ensures multiset(a) == multiset(b)
  {
    forall e
      ensures multiset(a)[e] == multiset(b)[e]
    {
      if e in a || e in b {
        KeysCount(a, e, a, b);
        KeysCount(b, e, a, b);
      }
    }
  }

  /** The same entries have the same keys, whatever they are. */
  lemma {:induction false} SameKeys(a: seq<AppEntry>, b: seq<AppEntry>)
    requires multiset(a) == multiset(b)
    ensures multiset(EntryKeys(a)) == multiset(EntryKeys(b))
    decreases |a|
  {
    assert |multiset(a)| == |a| && |multiset(b)| == |b|;
    if a == [] {
      assert EntryKeys(a) == [] == EntryKeys(b);
    } else {
      assert a[0] in multiset(b);
      var i :| 0 <= i < |b| && b[i] == a[0];
      var rest := b[..i] + b[i + 1..];
      SameRest(a, b, i);
      SameKeys(a[1..], rest);
      KeysOfParts(b, i);
      assert EntryKeys(a) == [EntryKey(a[0])] + EntryKeys(a[1..]);
    }
  }

  lemma SameRest(a: seq<AppEntry>, b: seq<AppEntry>, i: nat)
    requires a != [] && i < |b| && b[i] == a[0] && multiset(a) == multiset(b)
    ensures multiset(a[1..]) == multiset(b[..i] + b[i + 1..])
  {
    assert a == [a[0]] + a[1..] && b == b[..i] + [b[i]] + b[i + 1..];
    assert multiset(a[1..]) == multiset(a) - multiset{a[0]};
    assert multiset(b[..i] + b[i + 1..]) == multiset(b) - multiset{b[i]};
  }

  lemma KeysOfParts(b: seq<AppEntry>, i: nat)
    requires i < |b|
    ensures multiset(EntryKeys(b)) == multiset(EntryKeys(b[..i] + b[i + 1..])) + multiset{EntryKey(b[i])}
  {
    assert EntryKeys(b) == EntryKeys(b[..i]) + [EntryKey(b[i])] + EntryKeys(b[i + 1..]);
    assert EntryKeys(b[..i] + b[i + 1..]) == EntryKeys(b[..i]) + EntryKeys(b[i + 1..]);
  }

  lemma KeysAreJoinable(entries: seq<AppEntry>)
    requires CleanEntries(entries)
    ensures Joinable(SortStrings(EntryKeys(entries)), NUL)
  {
    var keys, sorted := EntryKeys(entries), SortStrings(EntryKeys(entries));
    SortAscends(keys);
    forall i | 0 <= i < |sorted|
      ensures sorted[i] != "" && NUL !in sorted[i]
    {
      assert sorted[i] in multiset(sorted);
      var j :| 0 <= j < |keys| && keys[j] == sorted[i];
      assert CleanEntry(entries[j]);
    }
  }

  /** Comparing joined, sorted keys compares the entrypoints, whatever their order. */
  lemma JoinedKeysIff(a: seq<AppEntry>, b: seq<AppEntry>)
    ensures multiset(a) == multiset(b) ==> Join(SortStrings(EntryKeys(a)), NUL) == Join(SortStrings(EntryKeys(b)), NUL)
    ensures Comparable(a, b) && Join(SortStrings(EntryKeys(a)), NUL) == Join(SortStrings(EntryKeys(b)), NUL) ==>
              multiset(a) == multiset(b)
  {
    SortForgetsOrder(EntryKeys(a), EntryKeys(b));
    if multiset(a) == multiset(b) {
      SameKeys(a, b);
    }
    if Comparable(a, b) && Join(SortStrings(EntryKeys(a)), NUL) == Join(SortStrings(EntryKeys(b)), NUL) {
      assert forall i :: 0 <= i < |a| ==> (a + b)[i] == a[i];
      assert forall i :: 0 <= i < |b| ==> (a + b)[|a| + i] == b[i];
      KeysAreJoinable(a);
      KeysAreJoinable(b);
      JoinIsInjective(SortStrings(EntryKeys(a)), SortStrings(EntryKeys(b)), NUL);
      KeysDetermineEntries(a, b);
    }
  }

  /** The identity of an app; a service's port counts as the number it is. */
  ghost predicate SameApp(p: Params, q: Params, lib: AppLibrary) {
    && Get(p, "type") == Get(q, "type")
    && Get(p, "artifactName") == Get(q, "artifactName") && Get(p, "tag") == Get(q, "tag")
    && (Get(q, "artifactName") == "" ==> Get(p, "image") == Get(q, "image"))
    && (Get(q, "type") == "service" ==>
          BuiltPort(Get(p, "port")) == BuiltPort(Get(q, "port")) && Get(p, "ingressName") == Get(q, "ingressName"))
    && (Get(q, "type") == "job" ==> multiset(Entries(p, lib)) == multiset(Entries(q, lib)) && AppAuth(p) == AppAuth(q))
  }

  lemma SamePortIff(p: string, q: string)
    requires (p == "" || PortOk(p)) && (q == "" || PortOk(q))
    ensures FoundPort(BuiltPort(p)) == q <==> BuiltPort(p) == BuiltPort(q) && Canonical(q)
  {
    PortReadsBackIff(q);
    if p != "" {
      FormatParses(ParseInt(p).value);
      FormatIsDecimal(ParseInt(p).value);
    }
  }

  /** These params, for an app step that finds an app built from those. */
  ghost predicate SameAppFound(p: Params, q: Params, lib: AppLibrary) {
    SameApp(p, q, lib) && (Get(q, "type") == "service" ==> Canonical(Get(q, "port")))
  }

  /**
   An app step whose own port is canonical accepts every app built from params that ask for the same
   one, and no other, unless one entrypoint of the two can be mistaken for another one.
   */
  lemma {:induction false} AppMatchesIff(p: Params, q: Params, runner: string, lib: AppLibrary)
    requires Valid(p, lib) && Valid(q, lib)
    ensures SameAppFound(p, q, lib) ==> AppMatches(BuiltApp(p, runner, lib), q, runner, lib)
    ensures Comparable(Entries(p, lib), Entries(q, lib)) ==>
              (AppMatches(BuiltApp(p, runner, lib), q, runner, lib) <==> SameAppFound(p, q, lib))
  {
    ValidFacts(p, lib);
    ValidFacts(q, lib);
    AuthKeysDiffer(AppAuth(p), AppAuth(q));
    JoinedKeysIff(Entries(p, lib), Entries(q, lib));
    if Get(q, "type") == "service" && Get(p, "type") == "service" {
      SamePortIff(Get(p, "port"), Get(q, "port"));
    }
  }

  // ---- which schedules the app step tells apart ----

  /** Every entrypoint the rules accept has a JSON text, and names are DNS labels. */
  ghost predicate Spells(lib: AppLibrary) {
    && (forall v :: '|' !in lib.name(v) && NUL !in lib.name(v))
    && (forall e :: EntryOk(e) ==> exists text :: Spelling(lib, e, text))
  }

  predicate Spelling(lib: AppLibrary, e: Entrypoint, text: string) {
    text != "" && text != PENDING && lib.parse(text) == Some([e])
  }

  /** Whether an app step can build an entry of this name for this value; "main" is the default one. */
  predicate NameFor(lib: AppLibrary, value: string, name: string) {
    name == lib.name(value) || (value == "" && name == "main")
  }

  /** No two schedules, and no values for them, make entries that can be mistaken for each other. */
  ghost predicate Unmistakable(schedules: set<string>, lib: AppLibrary) {
    forall x, y, v :: x in schedules && y in schedules && x + "|" <= y && NUL !in v ==>
      !NameFor(lib, v, lib.name(Fronted(x, y, v)))
  }

  function Fronted(x: string, y: string, v: string): string
    requires x + "|" <= y
  {
    y[|x| + 1..] + "|" + v
  }

  ghost predicate FromSchedules(p: Params, lib: AppLibrary, schedules: set<string>) {
    Valid(p, lib) && CleanEntries(Entries(p, lib)) && forall e :: e in Entries(p, lib) ==> e.schedule in schedules
  }

  /** The app step compares rightly whatever apps are asked for with these schedules. */
  ghost predicate StepTellsApart(schedules: set<string>, runner: string, lib: AppLibrary) {
    forall p: Params, q: Params :: FromSchedules(p, lib, schedules) && FromSchedules(q, lib, schedules) ==>
      (AppMatches(BuiltApp(p, runner, lib), q, runner, lib) <==> SameAppFound(p, q, lib))
  }

  /**
   It does so exactly if for no two of them, one being the other followed by '|' and a rest, a value
   with that rest in front is mapped to the name of the value itself.
   */
  lemma {:induction false} StepTellsApartIff(schedules: set<string>, runner: string, lib: AppLibrary)
    requires Spells(lib) && forall s :: s in schedules ==> NUL !in s
    ensures StepTellsApart(schedules, runner, lib) <==> Unmistakable(schedules, lib)
  {
    if Unmistakable(schedules, lib) {
      forall p: Params, q: Params | FromSchedules(p, lib, schedules) && FromSchedules(q, lib, schedules)
        ensures AppMatches(BuiltApp(p, runner, lib), q, runner, lib) <==> SameAppFound(p, q, lib)
      {
        UnmistakableAreComparable(p, q, schedules, lib);
        AppMatchesIff(p, q, runner, lib);
      }
    } else {
      var x, y, v :| x in schedules && y in schedules && x + "|" <= y && NUL !in v
                     && NameFor(lib, v, lib.name(Fronted(x, y, v)));
      var p, q := Confused(x, y, v, runner, lib);
      assert FromSchedules(p, lib, schedules) && FromSchedules(q, lib, schedules);
    }
  }

  /** The entries an app step builds have such names. */
  lemma {:induction false} BuiltNames(p: Params, lib: AppLibrary, e: AppEntry)
    requires e in Entries(p, lib)
    ensures NameFor(lib, e.value, e.name)
  {
  }

  lemma {:induction false} UnmistakableAreComparable(p: Params, q: Params, schedules: set<string>, lib: AppLibrary)
    requires Unmistakable(schedules, lib) && FromSchedules(p, lib, schedules) && FromSchedules(q, lib, schedules)
    ensures Comparable(Entries(p, lib), Entries(q, lib))
  {
    var a, b := Entries(p, lib), Entries(q, lib);
    var all := a + b;
    forall i | 0 <= i < |all|
      ensures CleanEntry(all[i]) && all[i].schedule in schedules && NameFor(lib, all[i].value, all[i].name)
    {
      if i < |a| {
        assert all[i] == a[i] && a[i] in a;
        BuiltNames(p, lib, a[i]);
      } else {
        assert all[i] == b[i - |a|] && b[i - |a|] in b;
        BuiltNames(q, lib, b[i - |a|]);
      }
    }
    forall i, j | 0 <= i < |all| && 0 <= j < |all|
      ensures !Mistakable(all[i], all[j])
    {
      NotMistaken(all[i], all[j], schedules, lib);
    }
  }

  lemma {:induction false} NotMistaken(a: AppEntry, b: AppEntry, schedules: set<string>, lib: AppLibrary)
    requires Unmistakable(schedules, lib) && a.schedule in schedules && b.schedule in schedules && CleanEntry(b)
    requires NameFor(lib, a.value, a.name) && NameFor(lib, b.value, b.name)
    ensures !Mistakable(a, b)
  {
    if Mistakable(a, b) {
      MistakenValue(a, b);
    }
  }

  lemma MistakenValue(a: AppEntry, b: AppEntry)
    requires Mistakable(a, b)
    ensures a.value == Fronted(a.schedule, b.schedule, b.value) && a.value != "" && a.name == b.name
  {
  }

  /** The entrypoint with this value and schedule, if that is one. */
  function Scheduled(value: string, schedule: string): Entrypoint {
    Entrypoint(value, if schedule == "" then "" else "Cron", schedule)
  }

  /** A job with this one entrypoint. */
  lemma {:induction false} JobWith(image: string, e: Entrypoint, lib: AppLibrary) returns (p: Params)
    requires Spells(lib) && ImageOk(image) && image != PENDING && EntryOk(e)
    ensures Job(p, image, EntryFor(e, lib), lib)
  {
    var text :| Spelling(lib, e, text);
    JobIs(image, text, e, lib);
    p := JobParams(image, text);
  }

  lemma {:induction false} JobIs(image: string, text: string, e: Entrypoint, lib: AppLibrary)
    requires Spelling(lib, e, text) && ImageOk(image) && image != PENDING && EntryOk(e)
    ensures Job(JobParams(image, text), image, EntryFor(e, lib), lib)
  {
    JobIsValid(image, text, lib);
    assert EntriesFor([e], lib) == [EntryFor(e, lib)];
  }

  /** A job with one entrypoint of this name, for this value. */
  lemma {:induction false} JobNamed(image: string, name: string, v: string, schedule: string, lib: AppLibrary)
    returns (p: Params)
    requires Spells(lib) && ImageOk(image) && image != PENDING && NameFor(lib, v, name) && NUL !in schedule
    ensures Job(p, image, AppEntry(name, schedule, v), lib)
  {
    if name == lib.name(v) {
      p := JobWith(image, Scheduled(v, schedule), lib);
    } else {
      p := MainParams(image, schedule);
      MainIsValid(image, schedule, lib);
    }
  }

  /** Two jobs with one entrypoint each that the step takes for each other. */
  lemma {:induction false} Confused(x: string, y: string, v: string, runner: string, lib: AppLibrary)
    returns (p: Params, q: Params)
    requires Spells(lib) && x + "|" <= y && NameFor(lib, v, lib.name(Fronted(x, y, v)))
    requires NUL !in x && NUL !in y && NUL !in v
    ensures FromSchedules(p, lib, {x}) && FromSchedules(q, lib, {y})
    ensures AppMatches(BuiltApp(p, runner, lib), q, runner, lib) && !SameAppFound(p, q, lib)
  {
    var image := "r/app:1";
    PinnedImage();
    NotPending(image);
    p, q := ConfusedWith(image, Fronted(x, y, v), x, y, v, runner, lib);
  }

  lemma {:induction false} ConfusedWith(image: string, value: string, x: string, y: string, v: string, runner: string,
                                        lib: AppLibrary)
    returns (p: Params, q: Params)
    requires Spells(lib) && ImageOk(image) && image != PENDING && x + "|" <= y && value == Fronted(x, y, v)
    requires NameFor(lib, v, lib.name(value)) && NUL !in x && NUL !in y && NUL !in v
    ensures FromSchedules(p, lib, {x}) && FromSchedules(q, lib, {y})
    ensures AppMatches(BuiltApp(p, runner, lib), q, runner, lib) && !SameAppFound(p, q, lib)
  {
    var name := lib.name(value);
    var a, b := AppEntry(name, x, value), AppEntry(name, y, v);
    p := JobNamed(image, name, value, x, lib);
    q := JobNamed(image, name, v, y, lib);
    JobFrom(p, image, a, lib, x);
    JobFrom(q, image, b, lib, y);
    TakenForEachOther(p, q, a, b, image, runner, lib);
  }

  lemma NotPending(s: string)
    requires s != "" && s[0] != NUL
    ensures s != PENDING
  {
    assert PENDING[0] == NUL;
  }

  lemma {:induction false} JobFrom(p: Params, image: string, e: AppEntry, lib: AppLibrary, schedule: string)
    requires Job(p, image, e, lib) && CleanEntry(e) && e.schedule == schedule
    ensures FromSchedules(p, lib, {schedule})
  {
    assert Entries(p, lib) == [e];
  }

  /** Two valid jobs that differ in their one entrypoint only. */
  ghost predicate Job(p: Params, image: string, e: AppEntry, lib: AppLibrary) {
    && Valid(p, lib) && Get(p, "type") == "job" && Get(p, "image") == image && Get(p, "artifactName") == ""
    && Get(p, "tag") == "" && AppAuth(p) == None && Entries(p, lib) == [e]
  }

  lemma {:induction false} TakenForEachOther(p: Params, q: Params, a: AppEntry, b: AppEntry, image: string,
                                             runner: string, lib: AppLibrary)
    requires Job(p, image, a, lib) && Job(q, image, b, lib) && Mistakable(a, b)
    ensures AppMatches(BuiltApp(p, runner, lib), q, runner, lib) && !SameApp(p, q, lib)
  {
    MistakableLookAlike(a, b);
    assert EntryKeys([a]) == [EntryKey(a)] == EntryKeys([b]);
    assert |a.schedule| < |b.schedule|;
    assert a in multiset([a]) && a !in multiset([b]);
  }

  function MainParams(image: string, schedule: string): Params {
    map["type" := "job", "image" := image, "schedule" := schedule]
  }

  lemma {:induction false} MainIsValid(image: string, schedule: string, lib: AppLibrary)
    requires ImageOk(image) && image != PENDING && NUL !in schedule
    ensures Job(MainParams(image, schedule), image, AppEntry("main", schedule, ""), lib)
  {
    assert PENDING[0] == NUL && "job"[0] != NUL && |PENDING| > 0;
    forall k | k in APP_KEYS
      ensures Known(MainParams(image, schedule), k)
    {
    }
  }

  /**
   Such schedules in apps: two files that map to one entrypoint name, as "*|v" and "v" do, and
   schedules that differ by what the other file's name has in front.
   */
  lemma {:induction false} PipesConfuse(runner: string, lib: AppLibrary)
    requires lib.parse("P") == Some([Entrypoint("*|v", "Cron", "s")])
             && lib.parse("Q") == Some([Entrypoint("v", "Cron", "s|*")])
    requires lib.name("*|v") == lib.name("v")
    ensures var p, q := JobParams("r/app:1", "P"), JobParams("r/app:1", "Q");
            Valid(p, lib) && Valid(q, lib) && !SameApp(p, q, lib)
                && AppMatches(BuiltApp(p, runner, lib), q, runner, lib)
  {
    PinnedImage();
    assert PENDING[0] == NUL && "P"[0] != NUL && "Q"[0] != NUL && "r/app:1"[0] != NUL;
    JobIs("r/app:1", "P", Entrypoint("*|v", "Cron", "s"), lib);
    JobIs("r/app:1", "Q", Entrypoint("v", "Cron", "s|*"), lib);
    StarPipe(lib.name("v"));
    TakenForEachOther(JobParams("r/app:1", "P"), JobParams("r/app:1", "Q"), AppEntry(lib.name("v"), "s", "*|v"),
                      AppEntry(lib.name("v"), "s|*", "v"), "r/app:1", runner, lib);
  }

  lemma StarPipe(name: string)
    ensures Mistakable(AppEntry(name, "s", "*|v"), AppEntry(name, "s|*", "v"))
  {
    assert "s|*"[..2] == "s" + "|" && "s|*"[2..] == "*" && "*" + "|" + "v" == "*|v";
  }

  function JobParams(image: string, entrypoints: string): Params {
    map["type" := "job", "image" := image, "entrypoints" := entrypoints]
  }

  lemma {:induction false} JobIsValid(image: string, entrypoints: string, lib: AppLibrary)
    requires ImageOk(image) && image != PENDING && entrypoints != PENDING && entrypoints != ""
    requires lib.parse(entrypoints).Some? && lib.parse(entrypoints).value != []
             && EntriesOk(lib.parse(entrypoints).value, lib)
    ensures var p := JobParams(image, entrypoints);
            && Valid(p, lib) && Get(p, "type") == "job" && Get(p, "entrypoints") == entrypoints
                && Get(p, "image") == image
            && Get(p, "artifactName") == "" && Get(p, "tag") == "" && AppAuth(p) == None
  {
    assert PENDING[0] == '\0' && "job"[0] != '\0' && |PENDING| > 0;
    forall k | k in APP_KEYS
      ensures Known(JobParams(image, entrypoints), k)
    {
    }
  }
}
