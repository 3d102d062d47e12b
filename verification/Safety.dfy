/**
 Safety of the ledger protocol over every schedule.  The proof is in rely/guarantee form:
 Rely(s, s2, b) is what a call of anybody else may change as far as actor b can tell.
 */
module Safety {
  import opened Types
  import opened LedgerRules
  import opened Protocol

  // ---- the invariant ----

  ghost predicate StoreOk(s: State) {
    forall k :: k in s.store ==>
      WellFormed(s.store[k].entry) && s.store[k].uid <= s.store[k].ver < s.clock
  }

  /** Whatever the wizard created and has not deleted has a managed entry. */
  ghost predicate NoLeak(s: State) {
    forall k :: WizardMade(s, k) ==> k in s.store && s.store[k].entry.managed
  }

  ghost predicate OneFinisher(s: State) {
    forall a, b, k :: a != b && k in Holds(PcOf(s, a)) ==> k !in Holds(PcOf(s, b))
  }

  ghost predicate HasRef(s: State, k: Key, ref: Ref) {
    k in s.store && ref in s.store[k].entry.refs
  }

  /** A snapshot is either outdated or exactly what is stored. */
  ghost predicate SnapshotOk(s: State, k: Key, snap: Stored) {
    && WellFormed(snap.entry) && snap.ver < s.clock
    && (k in s.store && s.store[k].ver == snap.ver ==> s.store[k] == snap)
  }

  /** Every reference the run still holds is listed in claims. */
  ghost predicate Covers(s: State, run: string, claims: seq<Claim>) {
    forall k, ref :: HasRef(s, k, ref) && ref.run == run ==> Claim(k, ref) in claims
  }

  ghost predicate HeldOk(s: State, listed: seq<Held>) {
    && NoDuplicates(listed)
    && forall h :: h in listed ==> IsTombstone(s, h.key) && s.store[h.key].entry == h.entry
  }

  ghost predicate ReleaseOk(s: State, run: string, ok: bool, todo: seq<Claim>, at: ReleaseStage) {
    && todo != []
    && (forall c :: c in todo ==> c.ref.run == run)
    && match at
       case Reading => ok ==> Covers(s, run, todo)
       case Updating(snap) =>
         (ok ==> Covers(s, run, todo)) && SnapshotOk(s, todo[0].key, snap) && todo[0].ref in snap.entry.refs
       case Dropping =>
         (ok ==> Covers(s, run, todo[1..])) && IsTombstone(s, todo[0].key) && !s.store[todo[0].key].entry.managed
       case Finishing(stage, e) =>
         && (ok ==> Covers(s, run, todo[1..]))
         && IsTombstone(s, todo[0].key) && s.store[todo[0].key].entry == e && e.managed
         && (stage != Deleting ==> !WizardMade(s, todo[0].key) && !Stuck(todo[0].key, e))
  }

  /** What holds of the shared state whenever actor a stands at pc. */
  ghost predicate PcOk(s: State, a: Actor, pc: Pc) {
    match pc
    case Idle => true
    case EnsureRead(w) => a == Run(w.ref.run)
    case EnsureProbe(w, _) => a == Run(w.ref.run)
    case EnsureRegister(w, managed, create) => a == Run(w.ref.run) && (create ==> managed)
    case AddRead(w, opts, next) =>
      && a == Run(w.ref.run) && (next == ThenCreate ==> opts.manage) && (next == Recorded ==> HasRef(s, w.key, w.ref))
    case AddUpdate(w, opts, next, snap) =>
      && a == Run(w.ref.run) && (next == ThenCreate ==> opts.manage) && (next == Recorded ==> HasRef(s, w.key, w.ref))
      && SnapshotOk(s, w.key, snap) && !snap.entry.terminating
    case EnsureCreate(w) =>
      a == Run(w.ref.run) && HasRef(s, w.key, w.ref) && s.store[w.key].entry.managed
    case EnsureRepoint(w) => a == Run(w.ref.run) && HasRef(s, w.key, w.ref)
    case EnsureDone(w) => a == Run(w.ref.run) && HasRef(s, w.key, w.ref)
    case SweepList(rollback) => rollback ==> a.Run?
    case Sweep(rollback, _, listed, stage) =>
      && (rollback ==> a.Run?) && listed != [] && HeldOk(s, listed)
      && (stage == Deleting ==> listed[0].entry.managed)
      && (stage != Deleting ==> !WizardMade(s, listed[0].key) && !Stuck(listed[0].key, listed[0].entry))
    case RollbackList(_) => a.Run?
    case Release(ok, todo, at) => a.Run? && ReleaseOk(s, a.name, ok, todo, at)
    case RollbackDone(ok) => a.Run? && (ok ==> Covers(s, a.name, []))
  }

  /** A tombstone whose resource cannot be deleted upstream. */
  ghost predicate StuckAt(s: State, k: Key) {
    IsTombstone(s, k) && Stuck(k, s.store[k].entry)
  }

  ghost predicate Inv(s: State) {
    && StoreOk(s) && NoLeak(s) && OneFinisher(s)
    && forall a :: PcOk(s, a, PcOf(s, a))
  }

  // ---- rely and guarantee ----

  ghost predicate Rely(s: State, s2: State, b: Actor) {
    && s.clock <= s2.clock
    && (forall k :: k in s2.store && s2.store[k].ver < s.clock ==> k in s.store && s2.store[k] == s.store[k])
    && (forall k, ref: Ref :: b == Run(ref.run) ==> (HasRef(s, k, ref) <==> HasRef(s2, k, ref)))
    && (forall k, ref: Ref :: b == Run(ref.run) && HasRef(s, k, ref) && s.store[k].entry.managed ==>
        s2.store[k].entry.managed)
    && (forall k :: k in Holds(PcOf(s, b)) && k in s.store ==> k in s2.store && s2.store[k] == s.store[k])
    && (forall k :: k in Holds(PcOf(s, b)) && WizardMade(s2, k) ==> WizardMade(s, k))
    && (forall k :: StuckAt(s, k) ==> k in s2.store && s2.store[k] == s.store[k])
  }

  lemma Stable(s: State, s2: State, b: Actor)
    requires PcOk(s, b, PcOf(s, b)) && Rely(s, s2, b)
    ensures PcOk(s2, b, PcOf(s, b))
  {
    var pc := PcOf(s, b);
    if pc.Sweep? {
      forall h | h in pc.listed
        ensures h.key in s2.store && s2.store[h.key] == s.store[h.key]
      {
        assert h.key in Holds(pc) || StuckAt(s, h.key);
      }
      assert pc.stage != Deleting ==> pc.listed[0].key in Holds(pc);
    }
    if pc.Release? {
      assert pc.at.Finishing? ==> pc.todo[0].key in Holds(pc) || StuckAt(s, pc.todo[0].key);
      forall claims | Covers(s, b.name, claims)
        ensures Covers(s2, b.name, claims)
      {
        forall k, ref | HasRef(s2, k, ref) && ref.run == b.name
          ensures Claim(k, ref) in claims
        {
          assert HasRef(s, k, ref);
        }
      }
    }
    if pc.RollbackDone? && pc.ok {
      forall k, ref: Ref | ref.run == b.name
        ensures !HasRef(s2, k, ref)
      {
        assert HasRef(s, k, ref) ==> Claim(k, ref) in [];
      }
    }
  }

  // ---- what one call does ----

  /** Calls that write neither the ledger nor the upstream. */
  ghost predicate Local(s: State, s2: State) {
    s2.store == s.store && s2.up == s.up && s2.clock == s.clock
  }

  lemma LocalRely(s: State, s2: State, b: Actor)
    requires StoreOk(s) && Local(s, s2)
    ensures Rely(s, s2, b)
  {
  }

  /** The calls that commit a change of the ledger. */
  ghost predicate Writes(s: State, a: Actor, act: Act)
    requires Can(s, a, act)
  {
    var pc := PcOf(s, a);
    match act
    case Register(_) => pc.w.key !in s.store
    case UpdateForAdd => pc.w.key in s.store && s.store[pc.w.key].ver == pc.snap.ver
    case UpdateForRelease => pc.todo[0].key in s.store && s.store[pc.todo[0].key].ver == pc.at.snap.ver
    case _ => false
  }

  /** A committed write replaces exactly one entry by what the rules make of the current one. */
  lemma WriteEffect(s: State, a: Actor, act: Act) returns (k: Key, e: Entry)
    requires Inv(s) && Can(s, a, act) && Writes(s, a, act)
    ensures var s2 := Do(s, a, act);
            && s2.store == Write(s, k, e).store && s2.up == s.up && s2.clock == s.clock + 1
            && WellFormed(e)
            && (k in s.store ==>
                 && !Tombstone(s.store[k].entry)
                 && e.hash == s.store[k].entry.hash && (s.store[k].entry.managed ==> e.managed))
            && (forall ref: Ref :: a != Run(ref.run) ==> (HasRef(s, k, ref) <==> ref in e.refs))
  {
    var pc := PcOf(s, a);
    assert PcOk(s, a, pc);
    match act
    case Register(externalId) =>
      k, e := pc.w.key, FreshEntry(pc.w.ref, pc.managed, pc.w.hash, if pc.create then "" else externalId);
    case UpdateForAdd =>
      WithRefFacts(pc.snap.entry, pc.w.ref, pc.opts);
      k, e := pc.w.key, WithRef(pc.snap.entry, pc.w.ref, pc.opts);
    case UpdateForRelease =>
      var c := pc.todo[0];
      WithoutRefFacts(pc.at.snap.entry, c.ref);
      k, e := c.key, WithoutRef(pc.at.snap.entry, c.ref);
  }

  lemma HeldIsTombstone(s: State, a: Actor, k: Key)
    requires PcOk(s, a, PcOf(s, a)) && k in Holds(PcOf(s, a))
    ensures IsTombstone(s, k)
  {
  }

  lemma WriteRely(s: State, s2: State, k: Key, e: Entry, b: Actor)
    requires StoreOk(s) && PcOk(s, b, PcOf(s, b))
    requires s2.store == Write(s, k, e).store && s2.up == s.up && s2.clock == s.clock + 1
    requires k in s.store ==> !Tombstone(s.store[k].entry) && (s.store[k].entry.managed ==> e.managed)
    requires forall ref: Ref :: b == Run(ref.run) ==> (HasRef(s, k, ref) <==> ref in e.refs)
    ensures Rely(s, s2, b)
  {
    if k in Holds(PcOf(s, b)) && k in s.store {
      HeldIsTombstone(s, b, k);
    }
  }

  lemma RemoveRely(s: State, s2: State, k: Key, b: Actor)
    requires StoreOk(s) && IsTombstone(s, k) && !StuckAt(s, k) && k !in Holds(PcOf(s, b))
    requires s2.store == s.store - {k} && s2.up == s.up && s2.clock == s.clock + 1
    ensures Rely(s, s2, b)
  {
  }

  /** Upstream calls: whoever is finishing a tombstone never sees the wizard create that resource. */
  lemma UpstreamRely(s: State, s2: State, b: Actor)
    requires StoreOk(s)
    requires s2.store == s.store && s2.clock == s.clock
    requires forall k :: WizardMade(s2, k) && k in Holds(PcOf(s, b)) ==> WizardMade(s, k)
    ensures Rely(s, s2, b)
  {
  }

  ghost predicate Outside(act: Act) {
    act.OutsiderCreates? || act.OutsiderDeletes?
  }

  ghost predicate Removes(act: Act) {
    act.FinishRemove? || act.DropEntry?
  }

  ghost predicate TouchesUpstream(act: Act) {
    act.DeleteUpstream? || act.Create? || act.Repoint? || Outside(act)
  }

  lemma OtherwiseLocal(s: State, a: Actor, act: Act)
    requires Can(s, a, act) && !Writes(s, a, act) && !Removes(act) && !TouchesUpstream(act)
    ensures Local(s, Do(s, a, act))
  {
  }

  lemma RemoveEffect(s: State, a: Actor, act: Act) returns (k: Key)
    requires Can(s, a, act) && Removes(act) && PcOk(s, a, PcOf(s, a)) && NoLeak(s)
    ensures var s2 := Do(s, a, act);
            s2.store == s.store - {k} && s2.up == s.up && s2.clock == s.clock + 1
    ensures IsTombstone(s, k) && !StuckAt(s, k) && k in Holds(PcOf(s, a)) && !WizardMade(s, k)
  {
    k := Current(PcOf(s, a));
    HeldIsTombstone(s, a, k);
  }

  lemma UpstreamGuarantee(s: State, a: Actor, act: Act, b: Actor)
    requires StoreOk(s) && Can(s, a, act) && TouchesUpstream(act) && PcOk(s, a, PcOf(s, a)) && PcOk(s, b, PcOf(s, b))
    ensures Rely(s, Do(s, a, act), b)
  {
    if (act.Create? || act.Repoint?) && PcOf(s, a).w.key in Holds(PcOf(s, b)) {
      HeldIsTombstone(s, b, PcOf(s, a).w.key);
    }
    UpstreamRely(s, Do(s, a, act), b);
  }

  lemma Guarantee(s: State, a: Actor, act: Act, b: Actor)
    requires Inv(s) && Can(s, a, act) && (b != a || Outside(act))
    ensures Rely(s, Do(s, a, act), b)
  {
    assert PcOk(s, a, PcOf(s, a)) && PcOk(s, b, PcOf(s, b));
    if Writes(s, a, act) {
      var k, e := WriteEffect(s, a, act);
      WriteRely(s, Do(s, a, act), k, e, b);
    } else if Removes(act) {
      var k := RemoveEffect(s, a, act);
      RemoveRely(s, Do(s, a, act), k, b);
    } else if TouchesUpstream(act) {
      UpstreamGuarantee(s, a, act, b);
    } else {
      OtherwiseLocal(s, a, act);
      LocalRely(s, Do(s, a, act), b);
    }
  }

  // ---- the actor's own side ----

  ghost predicate EnsureCall(act: Act) {
    || act.BeginEnsure? || act.GetEntry? || act.Probe? || act.Register?
    || act.GetForAdd? || act.UpdateForAdd? || act.Create? || act.CreateConflict? || act.Repoint?
  }

  ghost predicate ReleaseCall(act: Act) {
    act.GetForRelease? || act.UpdateForRelease? || act.DropEntry?
  }

  ghost predicate SweepCall(s: State, a: Actor, act: Act) {
    PcOf(s, a).Sweep? && (act.Skip? || act.DeleteUpstream? || act.FinishGet? || act.FinishRemove?)
  }

  lemma AddSelf(s: State, a: Actor, act: Act)
    requires StoreOk(s) && PcOk(s, a, PcOf(s, a)) && Can(s, a, act) && (act.GetForAdd? || act.UpdateForAdd?)
    ensures PcOk(Do(s, a, act), a, PcOf(Do(s, a, act), a))
  {
    var pc := PcOf(s, a);
    if act.UpdateForAdd? {
      WithRefFacts(pc.snap.entry, pc.w.ref, pc.opts);
    } else if pc.w.key in s.store && !s.store[pc.w.key].entry.terminating {
      WithRefFacts(s.store[pc.w.key].entry, pc.w.ref, pc.opts);
    }
  }

  lemma EnsureSelf(s: State, a: Actor, act: Act)
    requires StoreOk(s) && PcOk(s, a, PcOf(s, a)) && Can(s, a, act) && EnsureCall(act)
    ensures PcOk(Do(s, a, act), a, PcOf(Do(s, a, act), a))
  {
    if act.GetForAdd? || act.UpdateForAdd? {
      AddSelf(s, a, act);
    }
  }

  /** Dropping the head of the list is harmless once the run no longer holds that reference. */
  lemma CoversTail(s: State, run: string, todo: seq<Claim>)
    requires todo != [] && Covers(s, run, todo) && !HasRef(s, todo[0].key, todo[0].ref)
    ensures Covers(s, run, todo[1..])
  {
    forall k, ref | HasRef(s, k, ref) && ref.run == run
      ensures Claim(k, ref) in todo[1..]
    {
      var c := Claim(k, ref);
      assert c in todo && c != todo[0];
    }
  }

  lemma CoversMono(s: State, s2: State, run: string, todo: seq<Claim>)
    requires Covers(s, run, todo) && forall k, ref :: HasRef(s2, k, ref) ==> HasRef(s, k, ref)
    ensures Covers(s2, run, todo)
  {
  }

  /** Once its head reference is out of the entry, a release stands where PcOk wants it. */
  lemma AfterReleaseOk(s: State, run: string, ok: bool, todo: seq<Claim>, e: Entry)
    requires todo != [] && (forall c :: c in todo ==> c.ref.run == run) && (ok ==> Covers(s, run, todo))
    requires todo[0].key in s.store && s.store[todo[0].key].entry == e && WellFormed(e) && todo[0].ref !in e.refs
    ensures PcOk(s, Run(run), AfterRelease(ok, todo, e))
  {
    if ok {
      CoversTail(s, run, todo);
    }
  }

  lemma GetSelf(s: State, a: Actor, act: Act)
    requires StoreOk(s) && PcOk(s, a, PcOf(s, a)) && Can(s, a, act) && act.GetForRelease?
    ensures PcOk(Do(s, a, act), a, PcOf(Do(s, a, act), a))
  {
    var pc, s2 := PcOf(s, a), Do(s, a, act);
    var c := pc.todo[0];
    if c.key in s.store {
      var e := s.store[c.key].entry;
      WithoutRefFacts(e, c.ref);
      if pc.ok {
        CoversMono(s, s2, a.name, pc.todo);
      }
      if WithoutRef(e, c.ref) == e {
        AfterReleaseOk(s2, a.name, pc.ok, pc.todo, e);
      }
    } else if pc.ok {
      CoversMono(s, s2, a.name, pc.todo);
      CoversTail(s2, a.name, pc.todo);
    }
  }

  lemma CommitSelf(s: State, a: Actor, act: Act)
    requires StoreOk(s) && PcOk(s, a, PcOf(s, a)) && Can(s, a, act) && act.UpdateForRelease? && Writes(s, a, act)
    ensures PcOk(Do(s, a, act), a, PcOf(Do(s, a, act), a))
  {
    var pc, s2 := PcOf(s, a), Do(s, a, act);
    var c := pc.todo[0];
    WithoutRefFacts(pc.at.snap.entry, c.ref);
    var e := WithoutRef(pc.at.snap.entry, c.ref);
    assert s2.store == s.store[c.key := s2.store[c.key]] && s2.store[c.key].entry == e;
    if pc.ok {
      CoversMono(s, s2, a.name, pc.todo);
    }
    AfterReleaseOk(s2, a.name, pc.ok, pc.todo, e);
  }

  lemma RetrySelf(s: State, a: Actor, act: Act)
    requires StoreOk(s) && PcOk(s, a, PcOf(s, a)) && Can(s, a, act) && act.UpdateForRelease? && !Writes(s, a, act)
    ensures PcOk(Do(s, a, act), a, PcOf(Do(s, a, act), a))
  {
    if PcOf(s, a).ok {
      CoversMono(s, Do(s, a, act), a.name, PcOf(s, a).todo);
    }
  }

  lemma ReleaseSelf(s: State, a: Actor, act: Act)
    requires Inv(s) && Can(s, a, act) && ReleaseCall(act)
    ensures PcOk(Do(s, a, act), a, PcOf(Do(s, a, act), a))
  {
    assert PcOk(s, a, PcOf(s, a));
    if act.GetForRelease? {
      GetSelf(s, a, act);
    } else if act.UpdateForRelease? {
      if Writes(s, a, act) {
        CommitSelf(s, a, act);
      } else {
        RetrySelf(s, a, act);
      }
    } else if PcOf(s, a).ok {
      CoversMono(s, Do(s, a, act), a.name, PcOf(s, a).todo[1..]);
    }
  }

  lemma HeldTail(s: State, listed: seq<Held>)
    requires listed != [] && HeldOk(s, listed)
    ensures HeldOk(s, listed[1..]) && forall h :: h in listed[1..] ==> h.key != listed[0].key
  {
    forall h | h in listed[1..]
      ensures h.key != listed[0].key
    {
      var i :| 0 <= i < |listed| - 1 && listed[1..][i] == h;
      assert listed[i + 1] == h;
    }
  }

  lemma NextSweepOk(s: State, a: Actor, rollback: bool, ok: bool, listed: seq<Held>)
    requires HeldOk(s, listed) && NoLeak(s) && (rollback ==> a.Run?)
    ensures PcOk(s, a, NextSweep(rollback, ok, listed))
  {
    if listed != [] {
      assert listed[0] in listed;
    }
  }

  lemma SweepSelf(s: State, a: Actor, act: Act)
    requires Inv(s) && Can(s, a, act) && SweepCall(s, a, act) && NoLeak(Do(s, a, act))
    ensures PcOk(Do(s, a, act), a, PcOf(Do(s, a, act), a))
  {
    var pc, s2 := PcOf(s, a), Do(s, a, act);
    assert PcOk(s, a, pc);
    HeldTail(s, pc.listed);
    assert HeldOk(s2, pc.listed[1..]);
    if act.DeleteUpstream? || (act.FinishGet? && Current(pc) in s.store) {
    } else {
      NextSweepOk(s2, a, pc.rollback, pc.ok && !act.Skip?, pc.listed[1..]);
    }
  }

  /** The calls that finish a tombstone inside a rollback's releases. */
  ghost predicate FinishCall(s: State, a: Actor, act: Act) {
    PcOf(s, a).Release? && (act.Skip? || act.DeleteUpstream? || act.FinishGet? || act.FinishRemove?)
  }

  lemma FinishSelf(s: State, a: Actor, act: Act)
    requires PcOk(s, a, PcOf(s, a)) && Can(s, a, act) && FinishCall(s, a, act)
    ensures PcOk(Do(s, a, act), a, PcOf(Do(s, a, act), a))
  {
    var pc := PcOf(s, a);
    if pc.ok && !act.Skip? {
      CoversMono(s, Do(s, a, act), a.name, pc.todo[1..]);
    }
  }

  lemma OtherSelf(s: State, a: Actor, act: Act)
    requires PcOk(s, a, PcOf(s, a)) && NoLeak(s) && Can(s, a, act) && !EnsureCall(act) && !ReleaseCall(act)
             && !Outside(act)
    requires !SweepCall(s, a, act) && !FinishCall(s, a, act)
    ensures PcOk(Do(s, a, act), a, PcOf(Do(s, a, act), a))
  {
  }

  // ---- the invariant is kept ----

  lemma StoreOkWritten(s: State, s2: State, k: Key, e: Entry)
    requires StoreOk(s) && WellFormed(e)
    requires s2.store == Write(s, k, e).store && s2.clock == s.clock + 1
    ensures StoreOk(s2)
  {
  }

  lemma UpstreamOnly(s: State, a: Actor, act: Act)
    requires Can(s, a, act) && TouchesUpstream(act)
    ensures Do(s, a, act).store == s.store && Do(s, a, act).clock == s.clock
  {
  }

  lemma StoreOkKept(s: State, a: Actor, act: Act)
    requires Inv(s) && Can(s, a, act)
    ensures StoreOk(Do(s, a, act))
  {
    if Writes(s, a, act) {
      var k, e := WriteEffect(s, a, act);
      StoreOkWritten(s, Do(s, a, act), k, e);
    } else if Removes(act) {
      assert PcOk(s, a, PcOf(s, a));
      var k := RemoveEffect(s, a, act);
    } else if TouchesUpstream(act) {
      UpstreamOnly(s, a, act);
    } else {
      OtherwiseLocal(s, a, act);
    }
  }

  lemma NoLeakWritten(s: State, s2: State, k: Key, e: Entry)
    requires NoLeak(s) && s2.store == Write(s, k, e).store && s2.up == s.up
    requires k in s.store && s.store[k].entry.managed ==> e.managed
    ensures NoLeak(s2)
  {
  }

  lemma NoLeakUpstream(s: State, a: Actor, act: Act)
    requires NoLeak(s) && Can(s, a, act) && TouchesUpstream(act) && PcOk(s, a, PcOf(s, a))
    ensures NoLeak(Do(s, a, act))
  {
  }

  lemma NoLeakKept(s: State, a: Actor, act: Act)
    requires Inv(s) && Can(s, a, act)
    ensures NoLeak(Do(s, a, act))
  {
    assert PcOk(s, a, PcOf(s, a));
    if Writes(s, a, act) {
      var k, e := WriteEffect(s, a, act);
      NoLeakWritten(s, Do(s, a, act), k, e);
    } else if Removes(act) {
      var k := RemoveEffect(s, a, act);
    } else if TouchesUpstream(act) {
      NoLeakUpstream(s, a, act);
    } else {
      OtherwiseLocal(s, a, act);
    }
  }

  lemma WritersStay(s: State, a: Actor, act: Act, b: Actor)
    requires Can(s, a, act) && b != a && (EnsureCall(act) || ReleaseCall(act))
    ensures PcOf(Do(s, a, act), b) == PcOf(s, b)
  {
  }

  lemma OthersStay(s: State, a: Actor, act: Act, b: Actor)
    requires Can(s, a, act) && (b != a || Outside(act))
    ensures PcOf(Do(s, a, act), b) == PcOf(s, b)
  {
    if EnsureCall(act) || ReleaseCall(act) {
      WritersStay(s, a, act, b);
    }
  }

  lemma OneFinisherKept(s: State, a: Actor, act: Act)
    requires OneFinisher(s) && Can(s, a, act) && Exclusive(s, a, act)
    ensures OneFinisher(Do(s, a, act))
  {
    var s2 := Do(s, a, act);
    forall b | b != a || Outside(act)
      ensures PcOf(s2, b) == PcOf(s, b)
    {
      OthersStay(s, a, act, b);
    }
    forall k, b | b != a && k in Holds(PcOf(s2, a))
      ensures k !in Holds(PcOf(s2, b))
    {
    }
  }

  lemma PcKept(s: State, a: Actor, act: Act, b: Actor)
    requires Inv(s) && Can(s, a, act) && NoLeak(Do(s, a, act))
    ensures PcOk(Do(s, a, act), b, PcOf(Do(s, a, act), b))
  {
    if b != a || Outside(act) {
      OthersStay(s, a, act, b);
      assert PcOk(s, b, PcOf(s, b));
      Guarantee(s, a, act, b);
      Stable(s, Do(s, a, act), b);
    } else if EnsureCall(act) {
      assert PcOk(s, a, PcOf(s, a));
      EnsureSelf(s, a, act);
    } else if ReleaseCall(act) {
      ReleaseSelf(s, a, act);
    } else if SweepCall(s, a, act) {
      SweepSelf(s, a, act);
    } else {
      assert PcOk(s, a, PcOf(s, a));
      if FinishCall(s, a, act) {
        FinishSelf(s, a, act);
      } else {
        OtherSelf(s, a, act);
      }
    }
  }

  /** Every call keeps the invariant, as long as a tombstone is finished by one actor at a time. */
  lemma StepKeepsInv(s: State, a: Actor, act: Act)
    requires Inv(s) && Can(s, a, act) && Exclusive(s, a, act)
    ensures Inv(Do(s, a, act))
  {
    StoreOkKept(s, a, act);
    NoLeakKept(s, a, act);
    OneFinisherKept(s, a, act);
    forall b
      ensures PcOk(Do(s, a, act), b, PcOf(Do(s, a, act), b))
    {
      PcKept(s, a, act, b);
    }
  }
}
