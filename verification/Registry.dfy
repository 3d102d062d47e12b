/** The wizard's own step catalogue. */
module Registry {
  import opened Catalog
  import opened Reconciler
  import opened Builds
  import opened Parameters
  import opened Rendering
  import opened Plan
  import opened Provisioning

  const ORDER: seq<string> :=
    ["gitWatcher", "waitBuild", "tag", "app", "jobTemplate", "serviceTemplate", "chain", "trigger", "batchTrigger"]

  const CONFIG_KEYS: set<string> :=
    {"runnerImage", "tagName", "artifactPrefix", "chainStepName", "pollInterval", "buildTimeout", "forgeURL",
        "indexURL", "weaveURL"}

  const SPECS: map<string, StepSpec> := map[
    "gitWatcher" := StepSpec({"name", "repoUrl"}, {"repoRef", "projectDir", "autoPromote", "tag"}, {}, {"name"}),
    "waitBuild" := StepSpec({"watcher"}, {}, {}, {"buildId", "name", "artifactName", "artifactId", "version"}),
    "tag" := StepSpec({"artifactId", "artifactName", "version"}, {"tag"}, {}, {"tag", "version"}),
    "app" := StepSpec({"name", "type"},
        {"image", "artifactName", "tag", "port", "ingressName", "schedule", "entrypoints",
                                      "fireOnCreate", "externalAuthMode", "externalAuthName"}, {}, {"name"}),
    "jobTemplate" := StepSpec({"name"}, {"artifactName", "tag", "image"}, {}, {"name"}),
    "serviceTemplate" := StepSpec({"name", "port"}, {"artifactName", "tag", "image", "ingressName"}, {}, {"name"}),
    "chain" := StepSpec({"name"},
        {"jobTemplate", "serviceTemplate", "stepName", "externalAuthMode", "externalAuthName"}, {}, {"name"}),
    "trigger" := StepSpec({"name", "chain"},
        {"type", "schedule", "fireOnCreate", "externalAuthOverrideMode", "externalAuthOverrideName"},
                       {"override."}, {"name"}),
    "batchTrigger" := StepSpec({"name", "chain", "jobs"}, {}, {}, {"name"})]

  const REGISTRY: Catalogue := Catalogue(ORDER, SPECS, CONFIG_KEYS)

  /** Every step type has a place in the order, and nothing else has. */
  lemma EveryTypeHasOnePlace(typ: string)
    ensures typ in REGISTRY.specs <==> Position(typ, REGISTRY.order) >= 0
  {
    PlaceIffListed(typ, ORDER);
    assert typ in ORDER <==> typ in SPECS;
  }

  lemma {:induction false} PlaceIffListed(typ: string, order: seq<string>)
    ensures Position(typ, order) >= 0 <==> typ in order
  {
    if order != [] {
      assert order == [order[0]] + order[1..];
      PlaceIffListed(typ, order[1..]);
    }
  }

  /**
   In a definition the wizard accepts, of two steps of different types the earlier one has the type
   that stands earlier in the order; so no watcher follows the builds it causes.
   */
  lemma {:induction false} AcceptedRunsInOrder(def: Definition, re: Patterns, i: nat, j: nat) returns (a: nat, b: nat)
    requires Accepted(REGISTRY, def, re) && i < j < |def.steps|
    ensures a <= b < |ORDER| && ORDER[a] == def.steps[i].typ && ORDER[b] == def.steps[j].typ
  {
    AcceptedIff(REGISTRY, def, re);
    EveryTypeHasOnePlace(def.steps[i].typ);
    EveryTypeHasOnePlace(def.steps[j].typ);
    PositionIff(ORDER, def.steps[i].typ, def.steps[j].typ);
    a, b := Position(def.steps[i].typ, ORDER), Position(def.steps[j].typ, ORDER);
  }

  // ---- the outputs the wizard's steps report ----

  /** waitBuild reports all the outputs it declares. */
  lemma {:induction false} WaitBuildReportsItsOutputs(up: Upstream, claim: Claim, q: Question, now: int, cfg: Settings,
                                                      key: string)
    requires BuildReply(up, claim, q, now, cfg).Finished? && key in SPECS["waitBuild"].outputs
    ensures key in BuildReply(up, claim, q, now, cfg).outputs
  {
    DoneMeansBuilt(up, claim, q, now, cfg);
  }

  /** What a step other than waitBuild reports when its resource is ensured. */
  function OutputsOf(typ: string, params: Fields, tagName: string): Fields {
    if typ == "tag" then
      var tag := FieldOf(params, "tag");
      map["tag" := if tag != "" then tag else tagName, "version" := FieldOf(params, "version")]
    else map["name" := FieldOf(params, "name")]
  }

  /** The replies of one reconcile are those of the wizard's own steps. */
  ghost predicate WizardsAnswers(turn: Turn, views: Question -> View, cfg: Settings, tagName: string) {
    forall q ::
      && turn.reply(q) == StepReply(views(q), q, turn.now, cfg)
      && (if q.instance.step.typ == "waitBuild" then views(q).ForBuild?
          else views(q).ForOther? && views(q).outputs == OutputsOf(q.instance.step.typ, q.params, tagName))
  }

  /**
   A reconcile whose replies are those of the wizard's own steps meets what `Provisioning` asks of
   one: every step, when done, has reported each output its type declares.
   */
  lemma {:induction false} WizardRunsCatalogue(turn: Turn, views: Question -> View, cfg: Settings, tagName: string,
                                               values: Values, config: Fields, lib: Library)
    requires WizardsAnswers(turn, views, cfg, tagName)
    requires forall key :: key in CONFIG_KEYS ==> key in config
    requires forall typ :: turn.known(typ) <==> typ in SPECS
    requires forall in_, outputs ::
               turn.resolve(in_, outputs) == ParamsOf(in_, ContextFor(in_, values, config, outputs), lib)
    ensures RunsCatalogue(turn, REGISTRY, values, config, lib)
  {
    forall q, key | turn.reply(q).Finished? && q.instance.step.typ in SPECS && key in SPECS[q.instance.step.typ].outputs
      ensures key in turn.reply(q).outputs
    {
      assert turn.reply(q) == StepReply(views(q), q, turn.now, cfg);
      if q.instance.step.typ == "waitBuild" {
        WaitBuildReportsItsOutputs(views(q).up, views(q).claim, q, turn.now, cfg, key);
      } else {
        OthersDeclare(q.instance.step.typ, key);
      }
    }
  }

  lemma OthersDeclare(typ: string, key: string)
    requires typ in SPECS && typ != "waitBuild" && key in SPECS[typ].outputs
    ensures if typ == "tag" then key == "tag" || key == "version" else key == "name"
  {
  }
}
