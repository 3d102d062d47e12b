# A model of the fusion wizard

The wizard provisions resources on three upstream services (forge, index, weave) for runs of a
definition, lets runs share resources, and takes back exactly what nobody uses any more when a run
is rolled back. This project models its three hard parts in Dafny and proves what they promise.

**The shared-resource ledger** (internal/ledger, internal/steps/ensure.go, internal/steps/rollback.go).
`Protocol` is a state machine in which any number of runs and sweepers interleave one call at a time,
each call reading or writing one ledger entry or one upstream resource, and any actor may stop for
good after any call. `Safety` proves an inductive invariant, `LedgerTheorems` what follows from it over
whole schedules, `Necessity` that the one assumption about the surroundings is exactly what safety
needs, and `Leaks` the one way in which something of the wizard's escapes the ledger. `Ledger`, `Ensure` and
`Undo` are the same code as classes whose methods read, edit and write back through `Cluster.Api`, a
store with versioned updates in which a script says what other clients write before each call and which
calls fail; `Rollback` holds the specification of undoing a run, `UndoDeeds` what undoing one does whatever
others write between its calls. `Undisturbed` and `UndisturbedUndo` tie the classes to the protocol, and
`Serving` tells what others leave behind that blocks a step for good from what does not.

**The run controller** (internal/controller/run_controller.go). `System` puts the persisted and the
in-memory status of every run on top of the ledger protocol; `SystemTheorems` proves the promises that
need both. `Reconciler` is the apply side as a class (`advance`, `runInstance`, `syncSteps`,
`resetFailed`, `setRun`), `ReconcilerTheorems` its invariants over whole histories and its termination
measure, `Questions` what a reconcile asks its steps and makes of the answers, `Builds` the polling step that
bounds it; `Refinement` shows that every history of reconciles,
with what the steps' Ensures and everybody else did meanwhile, is one schedule of `System`, which leaves the
same status behind.

**The definition language** (internal/params, internal/plan, internal/steps/catalog.go and the early
checks). `Templates`, `Rendering`, `Parameters` and `Plan` give syntax and meaning; `Catalog` is the static
checker, `Registry` the wizard's own catalogue and what its steps report; `Soundness` proves that the checker
accepts what resolves, `Provisioning` carries that through whole histories of reconciles. `EarlyChecks` is the check at run
creation, `Identity` and `AppIdentity` are how a step recognises an object it finds upstream.

## Assumptions

- Reads of the ledger return the current object (cmd/main.go:76).
- One run is never reconciled concurrently with itself.
- From the moment an actor sees a tombstone that can be finished until it has finished it, nobody else
  finishes it (`Protocol.Exclusive`). `Finish` and the sweep check neither version nor flag
  (internal/ledger/ledger.go:278-287, internal/steps/rollback.go:82-104).
- Ledger keys and upstream objects correspond one to one, and object names and spec hashes are
  injective; entries are keyed by `Key` and hashes are compared as strings.
- Where a result says so, names and values contain no NUL, which the comment on `Hash` takes as its separator
  for that reason (internal/ledger/ledger.go:93-94). What it costs triggers is
  `Identity.StepTellsAllApartIff`: with NULs in values no two override names are safe.
- An upstream delete may fail, and deleting what is gone succeeds. It is not assumed to succeed ever: an
  index object whose numeric ID was never recorded cannot be deleted (internal/steps/ensure.go:187-198).

## What does not hold, and exactly when it does

- Two actors on one tombstone can destroy what a third run has just provisioned. No call harms
  anybody while the exclusion holds (`Necessity.NoHarmUnderExclusion`), and every call that breaks it can
  be continued to harm by the wizard's own calls (`Necessity.BreakingExclusionHarms`). Nothing in the code
  keeps it: a periodic sweep that lists the tombstone of a release in progress breaks it
  (`Necessity.ExclusionCanBeBroken`, `Necessity.HarmFromTheStart`).
- A managed entry of an index object whose ID was never recorded can become a tombstone
  (`Serving.IndexEntryGetsStuck`), and then it can never be finished (internal/steps/ensure.go:186-198): it stays
  for good (`LedgerTheorems.StuckForever`) and no step ever gets that resource again
  (`Serving.StuckBlocksForGood`). After a sweep without failing calls an ensure succeeds exactly if there is no
  such tombstone and what is then left upstream is as the step wants it (`Serving.EnsureAfterSweepIff`).
- A tag that a step found, recorded as somebody else's and re-points after it has been deleted is created
  by that call (internal/steps/ensure.go:107-111), and no rollback ever removes it: `Leaks.RepointLeaks`. In
  that case and in no other something of the wizard's is missing from the ledger
  (`LedgerTheorems.NothingLeaks`, `LedgerTheorems.StrayingLeaks`).
- Recreating a vanished resource keeps the old entry's hash (internal/steps/ensure.go:119-125), although the
  comment above says that the next attempt repairs such an entry: the step's own repetition then fails
  with a conflict. `Ensure.RepeatingIsIdempotentIff` gives the exact condition,
  `Ensure.RecreatedUnderOldHash` how a run gets there.
- An app whose port is not written in canonical decimal ("080", "+80") passes all checks, is created,
  and is taken for a different app ever after. `AppIdentity.AppRecognisesItselfIff` gives the exact condition,
  `AppIdentity.LeadingZeroIsNotRecognised` the example.
- Two triggers can be confused if an override name of one is an override name of the other followed by `=`
  and more (`Identity.EqualsSignsConfuse`); without NULs that is the only way (`Identity.StepTellsApartIff`), with
  them any two override names will do (`Identity.NulConfuses`).
- Two apps can be confused if a schedule of one is a schedule of the other followed by `|` and a rest, and
  that rest can stand in front of a script's path without changing the name derived from it
  (`AppIdentity.PipesConfuse`); without NULs that is the only way (`AppIdentity.StepTellsApartIff`,
  `AppIdentity.AppMatchesIff`).

## Model

| member | source | states |
|---|---|---|
| LedgerRules.WithRefFacts | internal/ledger/ledger.go:188-219 | adding a reference keeps an entry well formed, keeps its hash, marks it managed or notes an ID exactly if asked to, puts exactly that reference behind the others, and doing it again changes nothing |
| LedgerRules.WithoutRefFacts | internal/ledger/ledger.go:231-273 | dropping a reference keeps an entry well formed, cuts exactly that reference out and changes nothing else, and turns the entry into a tombstone exactly when it was the last |
| LedgerRules.CanDeleteIff | internal/steps/ensure.go:182-204 | which entries can be deleted upstream, service by service and kind by kind |
| Ledger.IndexOfRef | internal/ledger/ledger.go:298-309 | finds the first occurrence or reports that there is none |
| Ledger.Without | internal/ledger/ledger.go:239-258 | the in-place edit of a release cuts out the first occurrence and marks the entry when it was the last |
| Ledger.Ledger.Get | internal/ledger/ledger.go:129-138 | returns the entry as it is at the call, or that there is none |
| Ledger.Ledger.Register | internal/ledger/ledger.go:149-173 | creates the entry with the reference, or reports that it exists and changes nothing |
| Ledger.Ledger.AddRef | internal/ledger/ledger.go:186-221 | whatever others write during the retry loop, success is one atomic addition to the entry as it is at the committing call and any error leaves the world as the others made it; it starts over only after somebody else wrote the entry right before its update, gives up for that only after thirty rounds of two calls each, and fails otherwise only for a failing call, a missing or terminating entry, or one deleted right before the update |
| Ledger.Ledger.Release | internal/ledger/ledger.go:226-275 | success is one atomic drop at the committing call, with the outcome that drop calls for; an unmanaged entry is removed behind its own tombstone; it starts over and gives up as AddRef does, and fails otherwise only for a failing call or an entry deleted right before the update |
| Ledger.Ledger.Finish | internal/ledger/ledger.go:278-287 | removes the entry by name, and succeeds exactly if none of its calls fails; otherwise it has done nothing |
| Safety.StepKeepsInv | internal/steps/ensure.go:56-147 | every call of every actor keeps the protocol invariant, if tombstones are finished by one actor at a time |
| LedgerTheorems.PathKeepsInv | internal/steps/rollback.go:44-122 | the invariant holds after every schedule, with crashes and failing lists, gets, updates and deletes at any call |
| LedgerTheorems.DeletionSafety | internal/steps/rollback.go:82-122 | an upstream resource is deleted only while its entry is a managed tombstone without references |
| LedgerTheorems.OnlyTheOwnerReleases | internal/ledger/ledger.go:226-275 | a reference leaves the ledger only by its own run's release |
| LedgerTheorems.ReferencesProtect | internal/steps/rollback.go:39-122 | while a run does not release its reference, no rollback or sweep of anybody takes the entry's reference or the resource away |
| LedgerTheorems.NothingLeaks | internal/steps/ensure.go:48-55 | in every reachable state the ledger answers for everything the wizard put upstream and has not deleted, by a managed entry with a reference or a tombstone, unless the schedule re-points an alias recorded as somebody else's after it is gone |
| LedgerTheorems.StrayingLeaks | internal/steps/ensure.go:107-111 | and each such re-point leaves a resource the ledger does not answer for |
| Leaks.RepointLeaks | internal/steps/tagstep.go:24-59 | a schedule in which a run finds somebody else's tag, records it, re-points it after its deletion and rolls back with success, and the tag is still there with nothing in the ledger |
| LedgerTheorems.TombstoneInvariant | internal/ledger/ledger.go:149-273 | over every schedule: Terminating exactly without references, no duplicates, hash fixed, managed never taken back, and no tombstone gains a reference during a life |
| LedgerTheorems.StuckForever | internal/steps/rollback.go:94-99 | a managed tombstone whose resource cannot be deleted stays as it is over every schedule, and nobody holds the resource again |
| LedgerTheorems.StepRefines | internal/ledger/ledger.go:186-275 | every call changes the ledger as one atomic operation on its current content, or not at all |
| LedgerTheorems.LedgerIsReplay | internal/ledger/ledger.go:186-275 | after any schedule the ledger is what the committed operations make of the empty one, in order |
| LedgerTheorems.CommitsOnce | internal/ledger/ledger.go:188-273 | however often AddRef or Release starts over and whatever others do meanwhile, the whole retry loop commits exactly one operation of its run if it succeeds, in the call that ends it, and none otherwise |
| LedgerTheorems.NoUpdateIsLost | internal/ledger/ledger.go:188-273 | a step holds a reference exactly if the last successful operation on it was an add |
| Necessity.NoHarmUnderExclusion | internal/ledger/ledger.go:278-287 | with one finisher per tombstone no call of anybody takes a run's reference or the resource behind it |
| Necessity.BreakingExclusionHarms | internal/steps/rollback.go:82-104 | any call that breaks that assumption can be continued, by calls of the wizard alone, to a call that takes away what another run has just provisioned |
| Necessity.ExclusionCanBeBroken | internal/steps/rollback.go:44-104 | a schedule of the wizard's own calls from an empty ledger, exclusive so far, in which a periodic sweep can list the tombstone a rollback has just made and is about to finish |
| Necessity.HarmFromTheStart | internal/steps/rollback.go:82-122 | so from an empty ledger, with calls of the wizard alone, a run can lose what it has just provisioned |
| Ensure.EnsureContract | internal/steps/ensure.go:56-147 | which of its four results an undisturbed ensure has, exactly; on success the resource exists as wanted or found, the reference is in its entry once, hash, mark and ID of the entry are the specified ones, no reference is lost and no other key touched; on an error nothing has changed |
| Ensure.RepeatingIsIdempotentIff | internal/steps/ensure.go:73-125 | a repetition creates nothing and leaves the ledger alone exactly if the entry's hash agrees; otherwise it fails with a conflict |
| Ensure.RecreatedUnderOldHash | internal/steps/ensure.go:119-125 | from an empty world: provisioned, deleted by hand, provisioned again with other settings, and the same step asked once more reports a conflict |
| Ensure.Env.Ensure | internal/steps/ensure.go:56-147 | alone and without failing calls it does exactly what the specification says, with failing calls a part of it that never has a resource before its entry; whatever others write between its calls, it is at most five passes, all but the last overtaken by somebody else's write of that entry or resource, it gives up only if all five were, and on success the last is a complete one; each other error has its reason in a failing call or in what others wrote during the last pass |
| Ensure.Env.Attempt | internal/steps/ensure.go:60-145 | one pass of the loop, whatever others write: read, look, and then exactly the recording, creation, ID note or re-pointing that these two call for, each one atomic change of the world as its call meets it, and nothing else; success is a complete pass, a conflict is one between what it saw, and it starts over exactly where somebody else deleted the entry it adds to, wrote the one it registers, or made the resource it creates |
| Ensure.Env.CreateRecorded | internal/steps/ensure.go:130-144 | whatever others write, the resource is created if it is still missing and its ID noted in the entry as it then is; it starts over only if it has created nothing |
| Ensure.RecordedFirst | internal/steps/ensure.go:48-55 | whatever others do, a pass that puts the resource there, by creating or by re-pointing it, or succeeds has first made a live entry hold its reference, a managed one if the resource was missing when it looked |
| Undisturbed.OutcomeLeads | internal/steps/ensure.go:56-147 | what one undisturbed ensure does is a schedule of the protocol with only the step's own calls, to the same ledger, resources and result |
| Serving.EnsureCanComplete | internal/steps/ensure.go:56-147 | from every state that keeps the system invariant, wherever other runs have stopped, calls of the wizard alone complete an ensure whose key has no tombstone that cannot be finished and whose resource, if no sweep takes it away, is as the step wants it under an entry whose hash agrees |
| Serving.StuckBlocksForGood | internal/steps/ensure.go:66-68 | behind a tombstone that cannot be finished no run completes an ensure of that key, over any events of controllers, users, sweeps and others |
| Serving.IndexEntryGetsStuck | internal/steps/ensure.go:186-220 | such a tombstone comes about from an empty ledger: a run creates an index object, stops before its ID is noted, and rolls back |
| Serving.EnsureAfterSweepIff | internal/steps/rollback.go:82-104 | after a sweep that is alone and has no failing call, an ensure alone succeeds exactly if no unfinishable tombstone was in the way, the resource left is as the step wants it, and no live entry's hash says otherwise |
| Rollback.RollbackIsConfluent | internal/steps/rollback.go:39-77 | any attempts that failed or crashed anywhere, then one none of whose calls fails: that one succeeds exactly if all that had to go at the outset can be deleted, and ends in the ledger and upstream of a single failure-free rollback |
| Rollback.ProgressKeepsFinal | internal/steps/rollback.go:44-122 | how far an attempt got does not change the end result |
| Rollback.ProgressKeepsDeletable | internal/steps/rollback.go:44-122 | nor does it change whether the rest can be deleted |
| Rollback.RollbacksCommute | internal/steps/rollback.go:39-77 | rolling back two runs gives the same in either order |
| Undo.SortInOrder | internal/steps/rollback.go:60-66 | the entries are put in the order of undoing, apps, triggers, chains, templates, watchers, tags, artifacts and all else, by name within, none dropped or invented |
| Undo.SortIsStable | internal/steps/rollback.go:60-66 | entries the order does not tell apart stay in list order |
| Text.StringLessIff | internal/steps/rollback.go:60-66 | names are compared lexicographically |
| Undo.Undo.SweepTerminating | internal/steps/rollback.go:82-104 | whatever others write, it finishes, as far as it gets, what its one list showed as tombstones, managed ones with their resource, and reports an error exactly if something is left unfinished; alone only tombstones go, without an error none is left, and there is one exactly if a call fails or some tombstone's resource cannot be deleted |
| Undo.Undo.ReleaseAndDelete | internal/steps/rollback.go:106-122 | whatever others write, it is one atomic drop, and behind it the deletion and removal of what that drop left as a tombstone, complete exactly if it reports no error; alone it is progress of its own run, touches no other key, and fails only if a call fails or the resource cannot be deleted |
| Undo.Undo.ReleaseAll | internal/steps/rollback.go:68-76 | releases each listed entry's references of the run once, in order, going on after errors, each one whatever others write as ReleaseAndDelete does; alone and without an error the run holds nothing any more, and there is one only if a call fails or something that has to go cannot be deleted |
| Undo.Undo.Rollback | internal/steps/rollback.go:44-77 | releases what the run holds after the sweep, every app before every trigger, these before chains, then templates, watchers, tags, artifacts and everything else, by name within; whatever others write, what it does is the deeds of that sweep and these releases and nothing else, all of them complete exactly if it reports no error; alone it succeeds exactly if no call fails and everything that has to go can be deleted, and then ledger and upstream are the old ones without tombstones, the run's references and the managed resources only it used |
| UndoDeeds.DeletesBehindItsDrop | internal/steps/rollback.go:106-122 | whatever others do, the releases of a rollback delete a resource or clear an entry only right behind their own drop that left a tombstone of it, a resource only if that tombstone is managed and deletable |
| UndoDeeds.SweepsOnlyListed | internal/steps/rollback.go:82-104 | and a sweep only what it has listed as a tombstone, under the same condition |
| UndisturbedUndo.RollbackLeads | internal/steps/rollback.go:44-77 | what one undisturbed rollback does is a schedule of the protocol with only its own calls, to success and the specified ledger and resources |
| SystemTheorems.TraceKeepsInv | internal/controller/run_controller.go:76-388 | every event of controllers, users and ledger clients keeps the system invariant |
| SystemTheorems.ReadyIsNeverUndermined | internal/controller/run_controller.go:197-314 | until a run is undone, the entry behind each succeeded step holds its reference exactly once and is no tombstone, whatever other runs do; a Ready run has one for every step of its plan |
| SystemTheorems.SucceededResourcesStay | internal/controller/run_controller.go:197-314 | for as long as a run is not undone, no event of the wizard takes a succeeded step's reference or the upstream resource behind it away; only a deletion from outside can |
| SystemTheorems.NoDanglingOwnership | internal/controller/run_controller.go:82-92 | every reference names a run that carries the finalizer and is not RolledBack |
| SystemTheorems.RollbackIsAbsorbing | internal/controller/run_controller.go:94-116 | the rollback phases are never left, RolledBack is final, and the run gains no reference any more |
| SystemTheorems.NothingIsProvisionedAfterRollback | internal/controller/run_controller.go:110-116 | a run that is being undone never makes a provisioning call, even if desiredState flips back |
| Reconciler.Run.SyncSteps | internal/controller/run_controller.go:430-447 | the status lists exactly the planned instances, in order, with known progress kept |
| Reconciler.Run.ResetFailed | internal/controller/run_controller.go:459-466 | failed steps go back to pending, all others stay |
| Reconciler.Run.RunInstance | internal/controller/run_controller.go:259-314 | one step's new status and the outcome, for every kind of answer; the step is asked only if its params resolve |
| Reconciler.Run.Advance | internal/controller/run_controller.go:197-256 | the loop over the steps computes the specified next status and asks exactly the specified instances |
| Questions.OnlyTheseQuestions | internal/controller/run_controller.go:213-286 | what a reconcile comes to depends on the answers to one question per instance and to no others: its own params resolved with the outputs of the steps before it, the outputs its status has, and the time it first ran |
| Questions.AnswerIsRecorded | internal/controller/run_controller.go:287-314 | the answer to that question is what the next step's new status records, field by field, and what the run's phase follows |
| Questions.UnaskedStep | internal/controller/run_controller.go:221-277 | without a valid config nothing changes; an unknown type or params that do not resolve fail the step and the run |
| ReconcilerTheorems.AlwaysPrefix | internal/controller/run_controller.go:197-256 | after any reconciles: succeeded steps, at most one in progress or failed, then untouched ones; Ready exactly if all succeeded, Failed exactly if the next one failed |
| ReconcilerTheorems.CompletedSinceFinal | internal/controller/run_controller.go:406-417 | over any history of phases the completion time is there exactly while the phase is final, and is the time at which the run entered the final phases it is in now |
| ReconcilerTheorems.CompletedExactlyWhenFinal | internal/controller/run_controller.go:406-417 | over any history of reconciles the completion time is there exactly while the run is Ready or Failed, and dates from the reconcile that made it so; the start time is that of the first reconcile |
| ReconcilerTheorems.FailuresAreBounded | internal/controller/run_controller.go:291-298 | no step ever has more than nine failures on record |
| ReconcilerTheorems.SucceededStays | internal/controller/run_controller.go:214-256 | a succeeded step is not run again and keeps its status and outputs through a reconcile, a retry and a changed plan |
| ReconcilerTheorems.SucceededForever | internal/controller/run_controller.go:430-466 | the same over any further history |
| Questions.CountsConsecutiveFailures | internal/controller/run_controller.go:291-313 | over any reconciles in which the next step is asked and waits or fails, its status counts the transient failures in a row, any other answer starts the count again, and the run fails at the tenth, not before |
| Questions.ProgressComesBack | internal/controller/run_controller.go:284-308 | after any reconciles in which a step waited or failed, the next reconcile depends on its answers only to questions with the outputs the step last handed back |
| ReconcilerTheorems.ReconcileDecreases | internal/controller/run_controller.go:258-314 | with a valid config and a moving clock, a reconcile that does not settle the run lowers (steps left, time left, tries left) |
| ReconcilerTheorems.RunsSettle | internal/controller/run_controller.go:258-314 | so every run whose steps wait only for a bounded time reaches Ready or Failed, however calls fail |
| Refinement.WalkIsTrace | internal/controller/run_controller.go:213-256 | from any state that keeps the system invariant, the loop over the steps is a schedule of the system model, made of its own events and of what is given as having happened during each Ensure it called, to the point where it writes the same steps and phase |
| Refinement.ReconcileIsTrace | internal/controller/run_controller.go:143-256 | so is a whole reconcile, with the retry mark set before it and cleared after it, from the status as it was to the status as the controller leaves it |
| Refinement.HistoryIsTrace | internal/controller/run_controller.go:143-256 | so is every history of reconciles and retries, with anything others do between and during them |
| Refinement.LifeIsTrace | internal/controller/run_controller.go:76-256 | from a run's creation on, with any outcome of its reconciles and any events of others: one schedule of the system model with the same status, after which the entry of each succeeded step's resource holds the step's reference exactly once |
| Builds.FindBuild | internal/steps/forgesteps.go:172-189 | a remembered build is polled as long as forge has it, otherwise the one the list gives |
| Builds.FoundBuildIs | internal/steps/forgesteps.go:172-196 | a remembered build that forge has or cannot be asked about, otherwise the first listed app build of the watcher's repository and folder, asked about again |
| Text.ParseIntIff | internal/steps/forgesteps.go:173 | a remembered ID is read as decimal digits behind at most one sign, if the number has 64 bits |
| Builds.NewestIsFirst | internal/steps/forgesteps.go:183-188 | the list gives the first app build of the watcher's repository and folder |
| Builds.BuildVerdict | internal/steps/forgesteps.go:81-162 | waitBuild's answer in every case of watcher, time, build, artifact and claim |
| Builds.RepliesArePunctual | internal/steps/forgesteps.go:97-162 | without a tombstone in the way a step says it is waiting only within the build timeout |
| Builds.CatalogueRunsSettle | internal/controller/run_controller.go:258-314 | with a valid config, an advancing clock and no tombstone in the way, every run of the catalogue's steps reaches Ready or Failed |
| Builds.WaitsForOneBuild | internal/steps/forgesteps.go:112-129 | once its status names a build, after any reconciles and retries during which forge has it, waitBuild's status still names it, and the next reconcile comes to the same whatever else forge lists or says of other builds |
| Templates.Parse | internal/params/template.go:69-104 | the index loop with its buffer computes the specified template, or fails where that fails |
| Templates.PlaceholdersMean | internal/params/template.go:106-142 | the five placeholder texts, with any known filters, each parse to the one placeholder of that kind, name, output key and filters |
| Templates.HoleIff | internal/params/template.go:106-142 | an expression is read as a placeholder exactly if, the space around its parts aside, it is the path of what that names followed by its filters, all of them known; everything else is an error |
| Templates.RoundTrip | internal/params/template.go:68-132 | a template prints and parses back to itself exactly if Parse can return it, which is exactly if it has no empty or adjacent literals, none ending in `$` before a placeholder, and placeholders that read back |
| Templates.PlainTextSurvives | internal/params/template.go:68-104 | an escaped plain string parses to that string alone |
| Rendering.Render | internal/params/template.go:157-178 | the loop renders as specified: pieces in order, or the first problem |
| Rendering.FiltersInOrder | internal/params/template.go:172-174 | filters are applied left to right |
| Rendering.ParamRenders | internal/params/template.go:198-240 | what `${params.n}` with any filters resolves to, by the parameter's type, or that there is no value |
| Rendering.ItemRenders | internal/params/template.go:182-197 | the same of `${item}` and `${item.f}` |
| Rendering.LookupRenders | internal/params/template.go:204-220 | the same of `${config.n}` and `${steps.s.outputs.k}` |
| Rendering.RenderedJoins | internal/params/template.go:155-178 | rendering goes piece by piece: a template put together of two renders to both texts in that order, or to the first problem |
| Rendering.ResolveMap | internal/params/template.go:254-272 | every param is resolved or reported |
| Rendering.PlainTextResolves | internal/params/template.go:157-178 | any plain string, escaped, resolves to itself in every context |
| Rendering.ResolvedStays | internal/params/template.go:180-251 | what resolves in a partial context resolves to the same in every fuller one |
| Rendering.ListRefIff | internal/params/template.go:274-286 | a forEach source names a parameter exactly if it is one placeholder of it, without filters or text around it |
| Parameters.Decode | internal/params/parameters.go:69-148 | succeeds exactly if the document spells a value that fits the declaration, with that value |
| Parameters.SpelledIff | internal/params/parameters.go:69-148 | a document spells a value exactly if it is that value of the declared type written as JSON, null standing for an empty string or object inside a list |
| Parameters.FitsIff | internal/params/parameters.go:87-148 | a value fits exactly if it has the declared type, is not empty where required, matches the pattern throughout, and as an object list has its own keys |
| Parameters.CheckKeys | internal/params/parameters.go:121-134 | every entry has its own non-empty key matching the pattern |
| Parameters.ResolveParameters | internal/params/parameters.go:24-62 | no error exactly if all supplied names are declared and every parameter is in order; then each parameter has the value its supplied document writes, or else its default, or else none; the errors name exactly the undeclared, the missing required and the ill-fitting ones |
| Parameters.ResolutionIsUnique | internal/params/parameters.go:44-62 | declarations and input determine the values |
| Plan.Expand | internal/plan/plan.go:30-66 | succeeds exactly if every list resolves without empty items and no key repeats, with all instances in order; an error names something really wrong |
| Plan.InstancesAre | internal/plan/plan.go:37-66 | the instances of a step with no forEach, a list of strings or a list of objects: their keys, items and fields |
| Plan.ExecutableIff | internal/plan/plan.go:30-66 | with resolvable lists it succeeds exactly if each list's items are non-empty and pairwise different |
| Plan.InOrder | internal/plan/plan.go:44-65 | instances stand in definition order, then item order |
| Plan.KeySplits | internal/plan/plan.go:58-61 | a key splits at its first slash into its step and its item, whatever the item contains |
| Plan.ObjectListsAreOk | internal/params/parameters.go:112-134 | an objectList that parameter resolution accepted always expands |
| Catalog.ValidateDefinition | internal/steps/catalog.go:71-131 | reports nothing exactly if the definition is acceptable |
| Catalog.AcceptedIff | internal/steps/catalog.go:71-181 | acceptable means, of all parameters and of any two steps at once: different names, patterns and defaults that work, known types in catalogue order, all required params and no others, placeholders and lists that exist |
| Catalog.CheckDefaults | internal/steps/catalog.go:142-156 | passes exactly if each parameter is in order with the defaults supplied and nothing required, which for different names means that each default decodes under its own declaration |
| Catalog.CheckStep | internal/steps/catalog.go:91-128 | one step passes exactly if name, order, params, references and forEach are in order |
| Catalog.CheckRefs | internal/steps/catalog.go:179-219 | a param passes exactly if it parses and each placeholder refers to something that will exist |
| Registry.AcceptedRunsInOrder | internal/steps/catalog.go:23-57 | of any two steps of an accepted definition the earlier one has the type that stands earlier in the wizard's order |
| Registry.WizardRunsCatalogue | internal/steps/forgesteps.go:81-162 | a reconcile whose replies are those of the wizard's own steps reports, on completion, every output each step type declares |
| Soundness.AcceptedParamsResolve | internal/steps/catalog.go:71-131 | in an accepted definition, when an instance's turn comes each param resolves exactly if its parameters have values and its item has the fields it names; nothing else can fail |
| Soundness.ValueOkIff | internal/steps/catalog.go:183-219 | the checker lets a param pass exactly if it parses and each placeholder resolves in a context with everything the step can count on and nothing else, item fields aside; only filters on an objectList are refused beyond that |
| Soundness.AcceptedPlansExpandIff | internal/steps/catalog.go:158-171 | expanding an accepted definition succeeds exactly if its forEach parameters have values and its stringLists non-empty, different items |
| Provisioning.OnlyWantingStepsEverFailUnasked | internal/controller/run_controller.go:213-277 | in any history of reconciles of an accepted definition, a step fails before it is asked only for want of an optional value or an item field |
| EarlyChecks.ValidateAppParams | internal/steps/appstep.go:252-337 | accepts exactly the params whose known values satisfy the app rules |
| EarlyChecks.ImmutableIff | internal/steps/appstep.go:342-366 | an image is pinned exactly if it has a digest, or behind its last colon a tag that is not empty, not latest and has no slash in it |
| EarlyChecks.AuthOkIff | internal/steps/weavesteps.go:399-410 | an auth pair is left out, or given with one of the two modes |
| EarlyChecks.CheckEntries | internal/steps/appstep.go:321-336 | entrypoint types, schedules and distinct names |
| EarlyChecks.FailureIsFinal | internal/steps/appstep.go:252-337 | what fails with pending values fails for every completion of them |
| EarlyChecks.ValidateStepParams | internal/apiserver/runs.go:407-433 | reports nothing exactly if every instance is postponed or passes what is known of it |
| EarlyChecks.EarlyRejectionIsRight | internal/apiserver/runs.go:404-433 | run creation never rejects an instance whose step would pass its own auth and app checks |
| EarlyChecks.EarlyAcceptanceIsExact | internal/apiserver/runs.go:407-433 | for an app with nothing pending it accepts exactly what the step accepts |
| EarlyChecks.EarlyAuthIsExact | internal/apiserver/runs.go:407-433 | for a chain or trigger with known auth params it accepts exactly what the step accepts |
| Identity.CollectOverrides | internal/steps/weavesteps.go:344-349 | collects the params with the prefix, by name |
| Identity.ReadBack | internal/steps/weavesteps.go:453-464 | the overrides of a listed object by name, the last of a name winning |
| Identity.OverrideOrderIsForgotten | internal/steps/weavesteps.go:453-481 | the order in which weave lists overrides does not matter |
| Identity.TriggerRecognisesItself | internal/steps/weavesteps.go:330-393 | a trigger step recognises the trigger it builds |
| Identity.TriggerMatchesIff | internal/steps/weavesteps.go:330-393 | it accepts every trigger built from params that agree in chain, type, schedule, overrides and auth, and no other unless one override name of the two is another one followed by `=` or there is a NUL |
| Identity.NamesTellApartIff | internal/steps/weavesteps.go:475-481 | the sorted name=value pairs determine the overrides with names from a set exactly if no name is another one followed by `=` |
| Identity.StepTellsApartIff | internal/steps/weavesteps.go:330-393 | without NULs the trigger step tells all triggers with override names from a set apart exactly if no name is another one followed by `=` |
| Identity.StepTellsAllApartIff | internal/steps/weavesteps.go:475-481 | with NULs allowed, exactly if there is at most one name |
| Identity.EqualsSignsConfuse | internal/steps/weavesteps.go:475-481 | the example with `=` in an override name |
| AppIdentity.AppEntrypoints | internal/steps/appstep.go:176-200 | the loop builds the specified entrypoints |
| AppIdentity.AppRecognisesItselfIff | internal/steps/appstep.go:83-173 | an app step recognises the app it builds exactly if a service's port is canonical |
| AppIdentity.LeadingZeroIsNotRecognised | internal/steps/appstep.go:162-163 | a valid service on port "080" that is not recognised |
| AppIdentity.AppMatchesIff | internal/steps/appstep.go:83-173 | with its own port canonical it accepts every app built from params that agree in type, artifact, image, port number, ingress, entrypoints in any order and auth, and no other unless some entrypoint's schedule and value can be read as another's of the same name, or there is a NUL |
| AppIdentity.StepTellsApartIff | internal/steps/appstep.go:83-220 | the app step tells all apps with schedules from a set apart exactly if for no two of them, one being the other followed by a bar and a rest, some value with that rest in front has the name of the value itself |
| AppIdentity.PipesConfuse | internal/steps/appstep.go:211-220 | two jobs that differ in their schedules and files, and whose steps take the one for the other |

## Left out

- Ledger.Ledger.Finish: the model's failing calls have no effect; a call that took effect although its answer was lost is a crash right after the call in the protocol.
- Refinement.LifeIsTrace: which Ensures a step calls, and with what settings, is given with the history and not derived from the step's answer; a completed step must have completed one for its own resource, a step that was run to no completion none.
- Reconcile, reconcileDelete, rollback and takeSnapshot of the controller are events of `System`, not methods of `Reconciler.Run`; a status patch is one event that replaces the status, and its failure is a crash before it.
- The step types other than waitBuild, trigger and app: their Ensure is the recipe handed to `Ensure`; the readers of gitWatcher, template and chain objects would add the same comparisons again.
- Setting an index tag never conflicts, whereas creating a resource in the model may.
- Dispositions, labels, firing and label patching after a create, retry delays, status messages, conditions, and how errors are worded.
- HTTP clients, tokens, the informer cache, watches, leader election, REST routing, list queries and bulk selection.
- JSON text, regular expressions, hashing, number formatting, name filters and Unicode: decoded values, predicates and functions stand for them; strings are ASCII, parameter numbers are reals and times are integers.
- Edits of a run's spec or finalizer by hand while it runs; plans change only through `ReconcilerTheorems.SucceededStays`.
- Helm charts, CRD YAML, flags and configuration parsing.
