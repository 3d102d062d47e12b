/** How steps answer, and in particular how waitBuild finds and polls the build it waits for. */
module Builds {
  import opened Types
  import opened Phases
  import opened Text
  import opened Reconciler
  import opened Plan
  import opened ReconcilerTheorems
  import opened Questions

  /** An upstream read; a broken one is worth retrying unless it is permanent. */
  datatype Fetched<+T> = Got(value: T) | Missing | Broken(permanent: bool)

  datatype Watcher = Watcher(disabled: bool, repo: string, dir: string)

  datatype Build = Build(
    id: int, status: string, name: string, version: string,
    buildType: string, repo: Option<string>, dir: Option<string>,
    artifactId: Option<int>, artifactVersion: Option<string>)

  /** The upstream services at the time of one call. */
  datatype Upstream = Upstream(
    watcher: string -> Fetched<Watcher>,
    build: int -> Fetched<Build>,
    list: Fetched<seq<Build>>,
    artifact: string -> Fetched<int>)

  /** What ensuring a resource came to (Env.ensure). */
  datatype Claim = Claimed | StillDeleting | Refused(permanent: bool)

  datatype Found = Found(build: Build) | NoneYet | Unreadable(permanent: bool)

  // ---- which build is waited for ----

  predicate SameDir(build: Option<string>, watcher: string) {
    if build.None? then watcher == "" else build.value == watcher
  }

  predicate BuiltFor(b: Build, gw: Watcher) {
    b.repo == Some(gw.repo) && b.buildType == "app" && SameDir(b.dir, gw.dir)
  }

  function NotFoundAsNil(f: Fetched<Build>): Found {
    match f
    case Got(b) => Found(b)
    case Missing => NoneYet
    case Broken(p) => Unreadable(p)
  }

  /** Where the newest build of the watcher stands in a list, newest first. */
  ghost predicate NewestAt(builds: seq<Build>, gw: Watcher, i: nat) {
    i < |builds| && BuiltFor(builds[i], gw) && forall j :: 0 <= j < i ==> !BuiltFor(builds[j], gw)
  }

  /** The remembered build as long as forge still has it. */
  predicate Remembered(up: Upstream, remembered: string) {
    ParseInt(remembered).Some? && !up.build(ParseInt(remembered).value).Missing?
  }

  /** A remembered build is polled by its ID; otherwise the newest one listed for the watcher is re-read. */
  method FindBuild(up: Upstream, gw: Watcher, remembered: string) returns (r: Found)
    ensures r == FoundBuild(up, gw, remembered)
  {
    var id := ParseInt(remembered);
    if id.Some? {
      var b := NotFoundAsNil(up.build(id.value));
      if b != NoneYet {
        return b;
      }
    }
    match up.list {
      case Missing =>
        return Unreadable(true);
      case Broken(p) =>
        return Unreadable(p);
      case Got(builds) =>
        for i := 0 to |builds|
          invariant Newest(builds, gw) == Newest(builds[i..], gw)
        {
          assert builds[i..][1..] == builds[i + 1..];
          if BuiltFor(builds[i], gw) {
            return NotFoundAsNil(up.build(builds[i].id));
          }
        }
        return NoneYet;
    }
  }

  function Newest(builds: seq<Build>, gw: Watcher): Option<Build> {
    if builds == [] then None else if BuiltFor(builds[0], gw) then Some(builds[0]) else Newest(builds[1..], gw)
  }

  function FoundBuild(up: Upstream, gw: Watcher, remembered: string): Found {
    if Remembered(up, remembered) then NotFoundAsNil(up.build(ParseInt(remembered).value))
    else match up.list
      case Missing => Unreadable(true)
      case Broken(p) => Unreadable(p)
      case Got(builds) =>
        match Newest(builds, gw)
        case None => NoneYet
        case Some(b) => NotFoundAsNil(up.build(b.id))
  }

  lemma {:induction false} NewestIsFirst(builds: seq<Build>, gw: Watcher)
    ensures Newest(builds, gw).None? ==> forall i :: 0 <= i < |builds| ==> !BuiltFor(builds[i], gw)
    ensures Newest(builds, gw).Some? ==> exists i: nat ::
              NewestAt(builds, gw, i) && builds[i] == Newest(builds, gw).value
  {
    if builds != [] {
      assert builds == [builds[0]] + builds[1..];
      NewestIsFirst(builds[1..], gw);
      if BuiltFor(builds[0], gw) {
        assert NewestAt(builds, gw, 0);
      } else if Newest(builds, gw).Some? {
        var i: nat :| NewestAt(builds[1..], gw, i) && builds[1..][i] == Newest(builds[1..], gw).value;
        assert builds[i + 1] == builds[1..][i] && forall j :: 0 < j < i + 1 ==> builds[j] == builds[1..][j - 1];
        assert NewestAt(builds, gw, i + 1);
      }
    }
  }

  /** An app build of the watcher's repository and folder; the top folder may go unnamed. */
  predicate OfWatcher(b: Build, gw: Watcher) {
    b.buildType == "app" && b.repo == Some(gw.repo) && (b.dir == Some(gw.dir) || (b.dir == None && gw.dir == ""))
  }

  /**
   A remembered build is taken as long as forge can be asked about it and has it; otherwise the first of
   the list that is the watcher's, asked about again, and nothing if there is none.
   */
  lemma {:induction false} FoundBuildIs(up: Upstream, gw: Watcher, remembered: string, i: nat)
    ensures ParseInt(remembered).Some? ==>
              match up.build(ParseInt(remembered).value)
              case Got(b) => FoundBuild(up, gw, remembered) == Found(b)
              case Broken(p) => FoundBuild(up, gw, remembered) == Unreadable(p)
              case Missing => true
    ensures ParseInt(remembered).None? || up.build(ParseInt(remembered).value).Missing? ==>
              match up.list
              case Missing => FoundBuild(up, gw, remembered) == Unreadable(true)
              case Broken(p) => FoundBuild(up, gw, remembered) == Unreadable(p)
              case Got(builds) =>
                && ((forall j :: 0 <= j < |builds| ==> !OfWatcher(builds[j], gw)) ==>
                      FoundBuild(up, gw, remembered) == NoneYet)
                && (i < |builds| && OfWatcher(builds[i], gw)
                    && (forall j :: 0 <= j < i ==> !OfWatcher(builds[j], gw)) ==>
                      FoundBuild(up, gw, remembered) ==
                        match up.build(builds[i].id)
                        case Got(b) => Found(b)
                        case Missing => NoneYet
                        case Broken(p) => Unreadable(p))
  {
    assert forall b :: BuiltFor(b, gw) <==> OfWatcher(b, gw);
    if up.list.Got? {
      NewestIsFirst(up.list.value, gw);
    }
  }

  // ---- what a step answers ----

  /** ensureStep: a resource still being deleted is a wait, not an error. */
  function ClaimReply(claim: Claim, outputs: Fields, prior: Fields): Reply {
    match claim
    case Claimed => Finished(outputs)
    case StillDeleting => Waiting(Some(prior))
    case Refused(permanent) => if permanent then Permanent else Transient
  }

  function Error(permanent: bool): Reply {
    if permanent then Permanent else Transient
  }

  /** The instance settings waitBuild reads, and how Go writes an integer. */
  datatype Settings = Settings(timeout: nat, prefix: string, format: int -> string)

  function FieldOf(m: Fields, k: string): string {
    if k in m then m[k] else ""
  }

  function VersionOf(b: Build): string {
    if b.artifactVersion.Some? then b.artifactVersion.value else b.version
  }

  /** waitBuild's Ensure; claim is what ensuring the artifact's entry comes to. */
  function BuildReply(up: Upstream, claim: Claim, q: Question, now: int, cfg: Settings): Reply {
    match up.watcher(FieldOf(q.params, "watcher"))
    case Missing => Permanent
    case Broken(p) => Error(p)
    case Got(gw) =>
      if gw.disabled then Permanent
      else if now - q.startedAt > cfg.timeout then Permanent
      else match FoundBuild(up, gw, FieldOf(q.prior, "buildId"))
        case Unreadable(p) => Error(p)
        case NoneYet => Waiting(None)
        case Found(b) => BuildAnswer(up, claim, q, b, cfg)
  }

  function Progress(b: Build, cfg: Settings): Fields {
    map["buildId" := cfg.format(b.id)]
  }

  function BuildAnswer(up: Upstream, claim: Claim, q: Question, b: Build, cfg: Settings): Reply {
    if b.status == "FAILED" then Permanent
    else if b.status != "SUCCESS" then Waiting(Some(Progress(b, cfg)))
    else if b.artifactId.None? then Permanent
    else match up.artifact(cfg.prefix + b.name)
      case Missing => Waiting(Some(Progress(b, cfg)))
      case Broken(p) => Error(p)
      case Got(id) =>
        ClaimReply(claim, map["buildId" := cfg.format(b.id), "name" := b.name, "artifactName" := cfg.prefix + b.name,
                              "artifactId" := cfg.format(id), "version" := VersionOf(b)], q.prior)
  }

  /**
   What answers a question: waitBuild's look at the services, or another step's verdict on its
   params and its resource.
   */
  datatype View = ForBuild(up: Upstream, claim: Claim) | ForOther(rejected: bool, claim: Claim, outputs: Fields)

  function StepReply(v: View, q: Question, now: int, cfg: Settings): Reply {
    match v
    case ForBuild(up, claim) => BuildReply(up, claim, q, now, cfg)
    case ForOther(rejected, claim, outputs) => if rejected then Permanent else ClaimReply(claim, outputs, q.prior)
  }

  /** The replies of one reconcile are those of the catalogue's steps, and no tombstone is in the way. */
  ghost predicate Answers(turn: Turn, views: Question -> View, cfg: Settings) {
    forall q :: turn.reply(q) == StepReply(views(q), q, turn.now, cfg) && views(q).claim != StillDeleting
  }

  /** Without tombstones in the way, a step waits only within the build timeout. */
  lemma {:induction false} RepliesArePunctual(turn: Turn, views: Question -> View, cfg: Settings)
    requires Answers(turn, views, cfg)
    ensures Punctual(turn, cfg.timeout)
  {
    forall q | turn.reply(q).Waiting?
      ensures turn.now - q.startedAt <= cfg.timeout
    {
      assert turn.reply(q) == StepReply(views(q), q, turn.now, cfg);
    }
  }

  /**
   On an endless schedule of reconciles with a valid config and an advancing clock, in which the
   steps answer as those of the catalogue do and no tombstone is in the way, every run reaches
   Ready or Failed.
   */
  lemma {:induction false} CatalogueRunsSettle(st: Status, insts: seq<Instance>, turns: nat -> Turn,
                                               views: nat -> Question -> View, cfg: Settings, k: nat, n: nat, last: int)
    returns (count: nat)
    requires KeysDiffer(insts) && StatusOk(st, insts, n, last) && last < turns(k).now
    requires forall j: nat :: turns(j).configured && Answers(turns(j), views(j), cfg)
    requires forall i: nat, j: nat :: i < j ==> turns(i).now < turns(j).now
    ensures count > 0 && Later(st, insts, turns, k, count).phase in {Ready, Failed}
  {
    forall j: nat
      ensures Punctual(turns(j), cfg.timeout)
    {
      RepliesArePunctual(turns(j), views(j), cfg);
    }
    count := RunsSettle(st, insts, turns, k, n, last, cfg.timeout);
  }

  /**
   waitBuild is done only when forge reports a successful build of the watcher's repository whose
   artifact is in the index and claimed; it then reports that build's own data.
   */
  lemma {:induction false} DoneMeansBuilt(up: Upstream, claim: Claim, q: Question, now: int, cfg: Settings)
    requires BuildReply(up, claim, q, now, cfg).Finished?
    ensures exists gw, b: Build, id ::
              && up.watcher(FieldOf(q.params, "watcher")) == Got(gw) && !gw.disabled
              && FoundBuild(up, gw, FieldOf(q.prior, "buildId")) == Found(b)
              && b.status == "SUCCESS" && b.artifactId.Some? && up.artifact(cfg.prefix + b.name) == Got(id)
                  && claim == Claimed
              && BuildReply(up, claim, q, now, cfg).outputs ==
                   map["buildId" := cfg.format(b.id), "name" := b.name, "artifactName" := cfg.prefix + b.name,
                       "artifactId" := cfg.format(id), "version" := VersionOf(b)]
  {
    var gw := up.watcher(FieldOf(q.params, "watcher")).value;
    var b := FoundBuild(up, gw, FieldOf(q.prior, "buildId")).build;
    var id := up.artifact(cfg.prefix + b.name).value;
    assert BuildReply(up, claim, q, now, cfg) == BuildAnswer(up, claim, q, b, cfg);
  }

  /** The watcher is there, not disabled, and the step still in time. */
  predicate InTime(up: Upstream, q: Question, now: int, cfg: Settings) {
    var w := up.watcher(FieldOf(q.params, "watcher"));
    w.Got? && !w.value.disabled && now - q.startedAt <= cfg.timeout
  }

  /**
   waitBuild's answer, case by case.  It waits for a build that has not begun or not ended, for the
   artifact of a finished one to appear and for a previous owner to let go of it; it is done with a
   successful build whose artifact it has claimed, and reports that build; a read that fails is worth
   another try unless the failure is permanent; everything else is the end.
   */
  lemma {:induction false} BuildVerdict(up: Upstream, claim: Claim, q: Question, now: int, cfg: Settings, gw: Watcher,
                                        b: Build, id: int)
    ensures var r, w := BuildReply(up, claim, q, now, cfg), up.watcher(FieldOf(q.params, "watcher"));
            && (w == Missing ==> r == Permanent)
            && (w == Broken(true) ==> r == Permanent) && (w == Broken(false) ==> r == Transient)
            && (w.Got? && !InTime(up, q, now, cfg) ==> r == Permanent)
    ensures InTime(up, q, now, cfg) && up.watcher(FieldOf(q.params, "watcher")) == Got(gw) ==>
              var r, found := BuildReply(up, claim, q, now, cfg), FoundBuild(up, gw, FieldOf(q.prior, "buildId"));
              && (found == NoneYet ==> r == Waiting(None))
              && (found == Unreadable(true) ==> r == Permanent) && (found == Unreadable(false) ==> r == Transient)
              && (found == Found(b) && b.status !in {"SUCCESS", "FAILED"} ==>
                    r == Waiting(Some(map["buildId" := cfg.format(b.id)])))
              && (found == Found(b) && b.status == "FAILED" ==> r == Permanent)
              && (found == Found(b) && b.status == "SUCCESS" ==>
                    var art := up.artifact(cfg.prefix + b.name);
                    && (b.artifactId == None ==> r == Permanent)
                    && (b.artifactId.Some? && art == Missing ==>
                          r == Waiting(Some(map["buildId" := cfg.format(b.id)])))
                    && (b.artifactId.Some? && art == Broken(true) ==> r == Permanent)
                    && (b.artifactId.Some? && art == Broken(false) ==> r == Transient)
                    && (b.artifactId.Some? && art == Got(id) ==>
                          && (claim == StillDeleting ==> r == Waiting(Some(q.prior)))
                          && (claim == Refused(true) ==> r == Permanent) && (claim == Refused(false) ==> r == Transient)
                          && (claim == Claimed ==> r == Finished(map[
                                "buildId" := cfg.format(b.id), "name" := b.name, "artifactName" := cfg.prefix + b.name,
                                "artifactId" := cfg.format(id),
                                "version" := if b.artifactVersion.Some? then b.artifactVersion.value else b.version]))))
  {
  }

  // ---- one build over many reconciles ----

  /** What a reconcile's waitBuild step finds at the services. */
  datatype Poll = Poll(up: Upstream, claim: Claim)

  /** The answers to this instance are those of waitBuild, which finds this. */
  ghost predicate PollsAt(turn: Turn, in_: Instance, p: Poll, cfg: Settings) {
    forall q: Question :: q.instance == in_ ==> turn.reply(q) == StepReply(ForBuild(p.up, p.claim), q, turn.now, cfg)
  }

  /** The build the step's status names. */
  predicate Awaits(s: StepStatus, id: int, cfg: Settings) {
    FieldOf(s.outputs, "buildId") == cfg.format(id)
  }

  /** Forge still has the build, or cannot say. */
  ghost predicate Keeps(up: Upstream, id: int) {
    !up.build(id).Missing? && (up.build(id).Got? ==> up.build(id).value.id == id)
  }

  /** The remembered build is the one that is polled. */
  lemma {:induction false} PollsRemembered(up: Upstream, id: int, cfg: Settings, gw: Watcher, prior: Fields)
    requires FieldOf(prior, "buildId") == cfg.format(id) && ParseInt(cfg.format(id)) == Some(id) && Keeps(up, id)
    ensures FoundBuild(up, gw, FieldOf(prior, "buildId")) == NotFoundAsNil(up.build(id))
  {
  }

  /** Whatever the answer, the status still names the build. */
  lemma {:induction false} AnswerKeepsBuild(up: Upstream, claim: Claim, q: Question, now: int, cfg: Settings, id: int)
    requires FieldOf(q.prior, "buildId") == cfg.format(id) && ParseInt(cfg.format(id)) == Some(id) && Keeps(up, id)
    ensures match BuildReply(up, claim, q, now, cfg)
            case Finished(outputs) => FieldOf(outputs, "buildId") == cfg.format(id)
            case Waiting(progress) =>
              progress.Some? ==> FieldOf(progress.value, "buildId") == cfg.format(id)
            case _ => true
  {
    var w := up.watcher(FieldOf(q.params, "watcher"));
    if w.Got? {
      PollsRemembered(up, id, cfg, w.value, q.prior);
    }
  }

  lemma {:induction false} RunKeepsBuild(s: StepStatus, in_: Instance, turn: Turn, outputs: Outputs, p: Poll,
                                         cfg: Settings, id: int)
    requires Awaits(s, id, cfg) && ParseInt(cfg.format(id)) == Some(id) && Keeps(p.up, id)
    requires PollsAt(turn, in_, p, cfg)
    ensures Awaits(RunOne(s, in_, turn, outputs).0, id, cfg)
  {
    if Called(in_, turn, outputs) {
      var q := Question(in_, turn.resolve(in_, outputs).value, s.outputs, Begun(s, turn.now).startedAt.value);
      AnswerKeepsBuild(p.up, p.claim, q, turn.now, cfg, id);
    }
  }

  /** A walk leaves instance m alone, or runs it once. */
  lemma {:induction false} WalkRuns(steps: seq<StepStatus>, insts: seq<Instance>, i: nat, outputs: Outputs, turn: Turn,
                                    asked: seq<string>, m: nat) returns (outs: Outputs)
    requires |steps| == |insts| && i <= m < |insts|
    ensures var s := Walk(steps, insts, i, outputs, turn, asked).steps[m];
            s == steps[m] || s == RunOne(steps[m], insts[m], turn, outs).0
    decreases |insts| - i
  {
    outs := outputs;
    if steps[i].phase == StepSucceeded {
      if i < m {
        outs := WalkRuns(steps, insts, i + 1, WithOutputs(outputs, insts[i], steps[i]), turn, asked, m);
      } else {
        WalkLeaves(steps, insts, i + 1, WithOutputs(outputs, insts[i], steps[i]), turn, asked, m);
      }
    } else if steps[i].phase != StepFailed && turn.configured {
      var (s, outcome) := RunOne(steps[i], insts[i], turn, outputs);
      var asked2 := if Called(insts[i], turn, outputs) then asked + [insts[i].key] else asked;
      if outcome == Done {
        if i < m {
          outs := WalkRuns(steps[i := s], insts, i + 1, WithOutputs(outputs, insts[i], s), turn, asked2, m);
        } else {
          WalkLeaves(steps[i := s], insts, i + 1, WithOutputs(outputs, insts[i], s), turn, asked2, m);
        }
      }
    }
  }

  /** The status of the n-th of the planned steps names the build. */
  ghost predicate NamesBuild(st: Status, insts: seq<Instance>, n: nat, id: int, cfg: Settings) {
    KeysMatch(st.steps, insts) && n < |insts| && Awaits(st.steps[n], id, cfg)
  }

  lemma {:induction false} WalkKeys(steps: seq<StepStatus>, insts: seq<Instance>, i: nat, outputs: Outputs, turn: Turn,
                                    asked: seq<string>)
    requires KeysMatch(steps, insts) && i <= |insts|
    ensures KeysMatch(Walk(steps, insts, i, outputs, turn, asked).steps, insts)
    decreases |insts| - i
  {
    if i < |insts| && steps[i].phase == StepSucceeded {
      WalkKeys(steps, insts, i + 1, WithOutputs(outputs, insts[i], steps[i]), turn, asked);
    } else if i < |insts| && steps[i].phase != StepFailed && turn.configured {
      var (s, outcome) := RunOne(steps[i], insts[i], turn, outputs);
      var asked2 := if Called(insts[i], turn, outputs) then asked + [insts[i].key] else asked;
      if outcome == Done {
        WalkKeys(steps[i := s], insts, i + 1, WithOutputs(outputs, insts[i], s), turn, asked2);
      }
    }
  }

  lemma {:induction false} ReconcileKeepsBuild(st: Status, insts: seq<Instance>, n: nat, v: Visit, p: Poll,
                                               cfg: Settings, id: int)
    requires NamesBuild(st, insts, n, id, cfg) && KeysDiffer(insts) && ParseInt(cfg.format(id)) == Some(id)
    requires PollsAt(v.turn, insts[n], p, cfg) && Keeps(p.up, id)
    ensures NamesBuild(Advanced(st, insts, v.turn, v.retry), insts, n, id, cfg)
  {
    var start := Prepared(st, insts, v.retry);
    SyncedIsSame(st.steps, insts);
    WalkKeys(start, insts, 0, map[], v.turn, []);
    var outs := WalkRuns(start, insts, 0, map[], v.turn, [], n);
    RunKeepsBuild(start[n], insts[n], v.turn, outs, p, cfg, id);
  }

  /** Forge keeps the build over a history of reconciles. */
  ghost predicate PolledOver(insts: seq<Instance>, n: nat, visits: seq<Visit>, polls: seq<Poll>, cfg: Settings, id: int)
    requires n < |insts|
  {
    |polls| == |visits|
    && forall i :: 0 <= i < |visits| ==> PollsAt(visits[i].turn, insts[n], polls[i], cfg) && Keeps(polls[i].up, id)
  }

  lemma {:induction false} HistoryKeepsBuild(st: Status, insts: seq<Instance>, n: nat, visits: seq<Visit>,
                                             polls: seq<Poll>, cfg: Settings, id: int)
    requires NamesBuild(st, insts, n, id, cfg) && KeysDiffer(insts) && ParseInt(cfg.format(id)) == Some(id)
    requires PolledOver(insts, n, visits, polls, cfg, id)
    ensures NamesBuild(After(st, insts, visits), insts, n, id, cfg)
    decreases |visits|
  {
    if visits != [] {
      ReconcileKeepsBuild(st, insts, n, visits[0], polls[0], cfg, id);
      HistoryKeepsBuild(Advanced(st, insts, visits[0].turn, visits[0].retry), insts, n, visits[1..], polls[1..], cfg,
                        id);
    }
  }

  /**
   Once its status names a build, waitBuild polls that build and no other for as long as forge has it,
   over any number of reconciles, failed ones and retries included: the next reconcile comes to the
   same whatever else forge lists, or says of other builds.
   */
  lemma {:induction false} WaitsForOneBuild(st: Status, insts: seq<Instance>, n: nat, visits: seq<Visit>,
                                            polls: seq<Poll>, cfg: Settings, id: int, next: Visit, p: Poll,
                                            reply: Question -> Reply, other: Upstream)
    requires NamesBuild(st, insts, n, id, cfg) && KeysDiffer(insts) && ParseInt(cfg.format(id)) == Some(id)
    requires PolledOver(insts, n, visits, polls, cfg, id)
    requires PollsAt(next.turn, insts[n], p, cfg) && Keeps(p.up, id)
    requires PollsAt(next.turn.(reply := reply), insts[n], Poll(other, p.claim), cfg)
    requires forall q: Question :: q.instance != insts[n] ==> reply(q) == next.turn.reply(q)
    requires other.watcher == p.up.watcher && other.artifact == p.up.artifact && other.build(id) == p.up.build(id)
    ensures var now := After(st, insts, visits);
            && NamesBuild(now, insts, n, id, cfg)
            && Advanced(now, insts, next.turn.(reply := reply), next.retry)
                 == Advanced(now, insts, next.turn, next.retry)
  {
    var now := After(st, insts, visits);
    HistoryKeepsBuild(st, insts, n, visits, polls, cfg, id);
    FindUnique(now.steps, n);
    forall i, q | Asks(now, insts, next.turn, next.retry, i, q)
      ensures reply(q) == next.turn.reply(q)
    {
      if q.instance == insts[n] {
        assert i == n;
        SamePoll(p.up, other, p.claim, q, next.turn.now, cfg, id);
        assert next.turn.(reply := reply).reply(q) == reply(q);
      }
    }
    OnlyTheseQuestions(now, insts, next.turn, next.retry, reply);
  }

  lemma {:induction false} SamePoll(up: Upstream, other: Upstream, claim: Claim, q: Question, now: int, cfg: Settings,
                                    id: int)
    requires FieldOf(q.prior, "buildId") == cfg.format(id) && ParseInt(cfg.format(id)) == Some(id) && Keeps(up, id)
    requires other.watcher == up.watcher && other.artifact == up.artifact && other.build(id) == up.build(id)
    ensures BuildReply(other, claim, q, now, cfg) == BuildReply(up, claim, q, now, cfg)
  {
    var w := up.watcher(FieldOf(q.params, "watcher"));
    if w.Got? {
      PollsRemembered(up, id, cfg, w.value, q.prior);
      PollsRemembered(other, id, cfg, w.value, q.prior);
    }
  }
}
