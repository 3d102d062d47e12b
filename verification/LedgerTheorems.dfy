/** What the ledger protocol promises over whole schedules. */
module LedgerTheorems {
  import opened Types
  import opened LedgerRules
  import opened Protocol
  import opened Safety

  lemma InitialInv(s: State)
    requires Initial(s)
    ensures Inv(s)
  {
    forall a
      ensures PcOk(s, a, PcOf(s, a)) && PcOf(s, a) == Idle
    {
    }
  }

  lemma {:induction false} PathKeepsInv(s: State, moves: seq<Move>, s2: State)
    requires Inv(s) && ExclusivePath(s, moves, s2)
    ensures Inv(s2)
    decreases |moves|
  {
    if moves != [] {
      StepKeepsInv(s, moves[0].actor, moves[0].act);
      PathKeepsInv(Do(s, moves[0].actor, moves[0].act), moves[1..], s2);
    }
  }

  // ---- deletion safety ----

  /** Only DeleteUpstream takes a resource away, and only behind a managed tombstone. */
  lemma DeletionSafety(s: State, a: Actor, act: Act, k: Key)
    requires Inv(s) && Can(s, a, act) && !Outside(act)
    requires k in s.up && k !in Do(s, a, act).up
    ensures IsTombstone(s, k) && s.store[k].entry.managed
  {
    assert PcOk(s, a, PcOf(s, a));
    if Writes(s, a, act) {
      var k2, e := WriteEffect(s, a, act);
    } else if Removes(act) {
      var k2 := RemoveEffect(s, a, act);
    } else if !TouchesUpstream(act) {
      OtherwiseLocal(s, a, act);
    } else {
      assert act.DeleteUpstream?;
      var pc := PcOf(s, a);
      if pc.Sweep? {
        assert pc.listed[0] in pc.listed;
      }
    }
  }

  /** A reference goes away only by its own run's release. */
  lemma OnlyTheOwnerReleases(s: State, a: Actor, act: Act, k: Key, ref: Ref)
    requires Inv(s) && Can(s, a, act) && HasRef(s, k, ref) && !HasRef(Do(s, a, act), k, ref)
    ensures a == Run(ref.run) && act.UpdateForRelease?
  {
    var pc := PcOf(s, a);
    assert PcOk(s, a, pc);
    if a != Run(ref.run) || Outside(act) {
      Guarantee(s, a, act, Run(ref.run));
      assert false;
    } else if Writes(s, a, act) {
      var k2, e := WriteEffect(s, a, act);
      if act.UpdateForAdd? {
        WithRefFacts(pc.snap.entry, pc.w.ref, pc.opts);
      }
    } else if Removes(act) {
      var k2 := RemoveEffect(s, a, act);
    } else if !TouchesUpstream(act) {
      OtherwiseLocal(s, a, act);
    }
  }

  /**
   While a run does not release its own reference, the entry keeps it and the wizard does not
   delete the resource, whatever all other runs and sweepers do in the meantime.
   */
  lemma {:induction false} ReferencesProtect(s: State, moves: seq<Move>, s2: State, k: Key, ref: Ref)
    requires Inv(s) && ExclusivePath(s, moves, s2) && HasRef(s, k, ref)
    requires forall m :: m in moves ==> !(m.actor == Run(ref.run) && m.act.UpdateForRelease?)
    ensures HasRef(s2, k, ref)
    ensures k in s.up && (forall m :: m in moves ==> m.act != OutsiderDeletes(k)) ==> k in s2.up
    decreases |moves|
  {
    if moves != [] {
      var m := moves[0];
      var s1 := Do(s, m.actor, m.act);
      assert m in moves && forall m2 :: m2 in moves[1..] ==> m2 in moves;
      StepKeepsInv(s, m.actor, m.act);
      if !HasRef(s1, k, ref) {
        OnlyTheOwnerReleases(s, m.actor, m.act, k, ref);
      }
      if k in s.up && k !in s1.up && !Outside(m.act) {
        DeletionSafety(s, m.actor, m.act, k);
      }
      ReferencesProtect(s1, moves[1..], s2, k, ref);
    }
  }

  /** What the wizard put there and has not deleted. */
  ghost predicate Made(s: State, k: Key) {
    k in s.up && !s.up[k].Outsider?
  }

  /** The ledger answers for the resource: a managed entry that is held, or a tombstone. */
  ghost predicate Accounted(s: State, k: Key) {
    k in s.store && s.store[k].entry.managed && ((exists ref :: HasRef(s, k, ref)) || IsTombstone(s, k))
  }

  /** An alias that was found, and recorded as somebody else's, is gone when it is re-pointed. */
  ghost predicate Strays(s: State, a: Actor, act: Act, k: Key) {
    && Can(s, a, act) && act.Repoint? && PcOf(s, a).w.key == k && k !in s.up
    && (k in s.store ==> !s.store[k].entry.managed)
  }

  /** Somewhere in the schedule. */
  ghost predicate StraysOn(s: State, moves: seq<Move>, k: Key)
    decreases |moves|
  {
    && moves != [] && Can(s, moves[0].actor, moves[0].act)
    && (Strays(s, moves[0].actor, moves[0].act, k) || StraysOn(Do(s, moves[0].actor, moves[0].act), moves[1..], k))
  }

  lemma StrayStep(s: State, a: Actor, act: Act, k: Key)
    requires Can(s, a, act) && !Strays(s, a, act, k) && (k in s.up ==> !s.up[k].Stray?)
    ensures k in Do(s, a, act).up ==> !Do(s, a, act).up[k].Stray?
  {
    if !TouchesUpstream(act) && (act.Register? || act.UpdateForAdd? || act.UpdateForRelease? || Removes(act)) {
      assert Do(s, a, act).up == s.up;
    }
  }

  lemma {:induction false} StrayComesFromRepoint(s: State, moves: seq<Move>, s2: State, k: Key)
    requires ExclusivePath(s, moves, s2) && !StraysOn(s, moves, k) && (k in s.up ==> !s.up[k].Stray?)
    ensures k in s2.up ==> !s2.up[k].Stray?
    decreases |moves|
  {
    if moves != [] {
      StrayStep(s, moves[0].actor, moves[0].act, k);
      StrayComesFromRepoint(Do(s, moves[0].actor, moves[0].act), moves[1..], s2, k);
    }
  }

  /**
   At every point of every schedule, so after any crash, the ledger answers for everything the wizard
   made, unless the wizard re-pointed an alias of somebody else that was gone by then.
   */
  lemma NothingLeaks(s: State, moves: seq<Move>, s2: State, k: Key)
    requires Initial(s) && ExclusivePath(s, moves, s2) && Made(s2, k) && !StraysOn(s, moves, k)
    ensures Accounted(s2, k)
  {
    InitialInv(s);
    PathKeepsInv(s, moves, s2);
    StrayComesFromRepoint(s, moves, s2, k);
    if !IsTombstone(s2, k) {
      assert HasRef(s2, k, s2.store[k].entry.refs[0]);
    }
  }

  /** Such a re-point leaves a resource the ledger does not answer for. */
  lemma StrayingLeaks(s: State, a: Actor, act: Act, k: Key)
    requires Strays(s, a, act, k)
    ensures Made(Do(s, a, act), k) && !Accounted(Do(s, a, act), k)
  {
  }

  // ---- tombstones nobody can finish ----

  lemma StuckStep(s: State, a: Actor, act: Act, k: Key)
    requires Inv(s) && Can(s, a, act) && StuckAt(s, k)
    ensures k in Do(s, a, act).store && Do(s, a, act).store[k] == s.store[k]
  {
    assert PcOk(s, a, PcOf(s, a));
    if Writes(s, a, act) {
      var k2, e := WriteEffect(s, a, act);
    } else if Removes(act) {
      var k2 := RemoveEffect(s, a, act);
    } else if !TouchesUpstream(act) {
      OtherwiseLocal(s, a, act);
    }
  }

  /**
   A managed tombstone whose resource cannot be deleted stays for good, and with it nobody holds the
   resource again.
   */
  lemma {:induction false} StuckForever(s: State, moves: seq<Move>, s2: State, k: Key)
    requires Inv(s) && ExclusivePath(s, moves, s2) && StuckAt(s, k)
    ensures StuckAt(s2, k) && s2.store[k] == s.store[k] && forall ref :: !HasRef(s2, k, ref)
    decreases |moves|
  {
    if moves != [] {
      StepKeepsInv(s, moves[0].actor, moves[0].act);
      StuckStep(s, moves[0].actor, moves[0].act, k);
      StuckForever(Do(s, moves[0].actor, moves[0].act), moves[1..], s2, k);
    }
  }

  // ---- the life of an entry ----

  /** What stays true of an entry from one moment of its life to a later one. */
  ghost predicate Life(s: State, s2: State) {
    && s.clock <= s2.clock
    && forall k :: k in s2.store && s2.store[k].uid < s.clock ==>
         && k in s.store && s.store[k].uid == s2.store[k].uid
         && var e, e2 := s.store[k].entry, s2.store[k].entry;
            e2.hash == e.hash && (e.managed ==> e2.managed) && (Tombstone(e) ==> e2 == e)
  }

  lemma StepLife(s: State, a: Actor, act: Act)
    requires Inv(s) && Can(s, a, act)
    ensures Life(s, Do(s, a, act))
  {
    assert PcOk(s, a, PcOf(s, a));
    if Writes(s, a, act) {
      var k, e := WriteEffect(s, a, act);
    } else if Removes(act) {
      var k := RemoveEffect(s, a, act);
    } else if !TouchesUpstream(act) {
      OtherwiseLocal(s, a, act);
    }
  }

  /**
   During one life of an entry its hash never changes, its managed mark never goes back, and a
   tombstone takes no reference any more; in every state it is Terminating exactly when it has
   no references, and no reference is there twice.
   */
  lemma {:induction false} TombstoneInvariant(s: State, moves: seq<Move>, s2: State)
    requires Inv(s) && ExclusivePath(s, moves, s2)
    ensures Life(s, s2)
    ensures forall k :: k in s2.store ==> WellFormed(s2.store[k].entry)
    decreases |moves|
  {
    if moves == [] {
    } else {
      var s1 := Do(s, moves[0].actor, moves[0].act);
      StepKeepsInv(s, moves[0].actor, moves[0].act);
      StepLife(s, moves[0].actor, moves[0].act);
      TombstoneInvariant(s1, moves[1..], s2);
    }
  }

  // ---- the retry loops refine atomic operations ----

  function Ledger(s: State): map<Key, Entry> {
    map k | k in s.store :: s.store[k].entry
  }

  /** The atomic meaning of one operation. */
  function Apply(l: map<Key, Entry>, op: Op): map<Key, Entry> {
    match op
    case Registered(k, e) => l[k := e]
    case Added(k, ref, opts) => if k in l then l[k := WithRef(l[k], ref, opts)] else l
    case Released(k, ref) => if k in l then l[k := WithoutRef(l[k], ref)] else l
    case Removed(k) => l - {k}
  }

  function Replay(hist: seq<Op>): map<Key, Entry> {
    if hist == [] then map[] else Apply(Replay(hist[..|hist| - 1]), hist[|hist| - 1])
  }

  /** Whether a step holds the reference after op, given whether it did before. */
  predicate LastOr(op: Op, k: Key, ref: Ref, before: bool) {
    match op
    case Registered(k2, e) => (k2 == k && ref in e.refs) || before
    case Added(k2, ref2, _) => (k2 == k && ref2 == ref) || before
    case Released(k2, ref2) => !(k2 == k && ref2 == ref) && before
    case Removed(_) => before
  }

  /** Whether the latest successful operation on this very reference was an add. */
  predicate LastWasAdd(hist: seq<Op>, k: Key, ref: Ref) {
    hist != [] && LastOr(hist[|hist| - 1], k, ref, LastWasAdd(hist[..|hist| - 1], k, ref))
  }

  /** A committed write is the logged operation, applied to the entry as it is at that moment. */
  lemma WriteLogs(s: State, a: Actor, act: Act) returns (op: Op)
    requires Inv(s) && Can(s, a, act) && Writes(s, a, act)
    ensures Do(s, a, act).hist == s.hist + [op] && Ledger(Do(s, a, act)) == Apply(Ledger(s), op)
    ensures forall k, ref :: HasRef(Do(s, a, act), k, ref) <==> LastOr(op, k, ref, HasRef(s, k, ref))
  {
    assert PcOk(s, a, PcOf(s, a));
    if act.Register? {
      op := RegisterLogs(s, a, act);
    } else if act.UpdateForAdd? {
      op := AddLogs(s, a, act);
    } else {
      op := ReleaseLogs(s, a, act);
    }
  }

  lemma RegisterLogs(s: State, a: Actor, act: Act) returns (op: Op)
    requires Can(s, a, act) && Writes(s, a, act) && act.Register?
    ensures Do(s, a, act).hist == s.hist + [op] && Ledger(Do(s, a, act)) == Apply(Ledger(s), op)
    ensures forall k, ref :: HasRef(Do(s, a, act), k, ref) <==> LastOr(op, k, ref, HasRef(s, k, ref))
  {
    var w := PcOf(s, a).w;
    op := Registered(w.key, FreshEntry(w.ref, PcOf(s, a).managed, w.hash, if PcOf(s, a).create then ""
        else act.externalId));
  }

  lemma AddLogs(s: State, a: Actor, act: Act) returns (op: Op)
    requires Can(s, a, act) && Writes(s, a, act) && act.UpdateForAdd? && PcOk(s, a, PcOf(s, a))
    ensures Do(s, a, act).hist == s.hist + [op] && Ledger(Do(s, a, act)) == Apply(Ledger(s), op)
    ensures forall k, ref :: HasRef(Do(s, a, act), k, ref) <==> LastOr(op, k, ref, HasRef(s, k, ref))
  {
    var pc := PcOf(s, a);
    op := Added(pc.w.key, pc.w.ref, pc.opts);
    WithRefFacts(pc.snap.entry, pc.w.ref, pc.opts);
  }

  lemma ReleaseLogs(s: State, a: Actor, act: Act) returns (op: Op)
    requires Can(s, a, act) && Writes(s, a, act) && act.UpdateForRelease? && PcOk(s, a, PcOf(s, a))
    ensures Do(s, a, act).hist == s.hist + [op] && Ledger(Do(s, a, act)) == Apply(Ledger(s), op)
    ensures forall k, ref :: HasRef(Do(s, a, act), k, ref) <==> LastOr(op, k, ref, HasRef(s, k, ref))
  {
    var c := PcOf(s, a).todo[0];
    op := Released(c.key, c.ref);
    WithoutRefFacts(PcOf(s, a).at.snap.entry, c.ref);
  }

  lemma RemoveLogs(s: State, a: Actor, act: Act) returns (op: Op)
    requires Inv(s) && Can(s, a, act) && Removes(act)
    ensures Do(s, a, act).hist == s.hist + [op] && Ledger(Do(s, a, act)) == Apply(Ledger(s), op)
    ensures forall k, ref :: HasRef(Do(s, a, act), k, ref) <==> LastOr(op, k, ref, HasRef(s, k, ref))
  {
    assert PcOk(s, a, PcOf(s, a));
    var k := RemoveEffect(s, a, act);
    op := Removed(Current(PcOf(s, a)));
  }

  /** Calls that change nothing commit, if at all, an operation without effect. */
  lemma LocalLogs(s: State, a: Actor, act: Act) returns (op: Op)
    requires Inv(s) && Can(s, a, act) && !Writes(s, a, act) && !Removes(act)
    ensures Ledger(Do(s, a, act)) == Ledger(s)
    ensures var s2 := Do(s, a, act);
            s2.hist == s.hist
            || (s2.hist == s.hist + [op] && Ledger(s) == Apply(Ledger(s), op)
                && forall k, ref :: HasRef(s, k, ref) <==> LastOr(op, k, ref, HasRef(s, k, ref)))
  {
    var pc, s2 := PcOf(s, a), Do(s, a, act);
    assert PcOk(s, a, pc);
    if !TouchesUpstream(act) {
      OtherwiseLocal(s, a, act);
    }
    op := if |s2.hist| > |s.hist| then s2.hist[|s.hist|] else Removed(Key(Forge, "", ""));
    if act.GetForAdd? && pc.w.key in s.store && !s.store[pc.w.key].entry.terminating {
      WithRefFacts(s.store[pc.w.key].entry, pc.w.ref, pc.opts);
    } else if act.GetForRelease? && pc.todo[0].key in s.store {
      WithoutRefFacts(s.store[pc.todo[0].key].entry, pc.todo[0].ref);
    }
  }

  /** A call changes the ledger as one atomic operation on its current content, or not at all. */
  lemma StepRefines(s: State, a: Actor, act: Act) returns (op: Op)
    requires Inv(s) && Can(s, a, act)
    ensures var s2 := Do(s, a, act);
            || (s2.hist == s.hist && Ledger(s2) == Ledger(s))
            || (s2.hist == s.hist + [op] && Ledger(s2) == Apply(Ledger(s), op))
    ensures var s2 := Do(s, a, act);
            forall k, ref :: HasRef(s2, k, ref) <==>
              if s2.hist == s.hist then HasRef(s, k, ref) else LastOr(op, k, ref, HasRef(s, k, ref))
  {
    if Writes(s, a, act) {
      op := WriteLogs(s, a, act);
    } else if Removes(act) {
      op := RemoveLogs(s, a, act);
    } else {
      op := LocalLogs(s, a, act);
      var s2 := Do(s, a, act);
      forall k, ref
        ensures HasRef(s2, k, ref) <==> HasRef(s, k, ref)
      {
        assert HasRef(s2, k, ref) <==> k in Ledger(s2) && ref in Ledger(s2)[k].refs;
        assert HasRef(s, k, ref) <==> k in Ledger(s) && ref in Ledger(s)[k].refs;
      }
    }
  }

  /** The ledger is what the committed operations make of it, one after the other. */
  lemma {:induction false} LedgerIsReplay(s: State, moves: seq<Move>, s2: State)
    requires Inv(s) && ExclusivePath(s, moves, s2) && Ledger(s) == Replay(s.hist)
    ensures Ledger(s2) == Replay(s2.hist)
    decreases |moves|
  {
    if moves != [] {
      var s1 := Do(s, moves[0].actor, moves[0].act);
      StepKeepsInv(s, moves[0].actor, moves[0].act);
      var op := StepRefines(s, moves[0].actor, moves[0].act);
      assert s1.hist == s.hist || s1.hist[..|s1.hist| - 1] == s.hist;
      LedgerIsReplay(s1, moves[1..], s2);
    }
  }

  // ---- a retry loop commits once ----

  /** One call of a retry loop logs its operation exactly if it makes the loop succeed. */
  lemma CallCommits(s: State, a: Actor, act: Act)
    requires Inv(s) && Can(s, a, act)
    ensures act.GetForAdd? || act.UpdateForAdd? ==>
              var pc, s2 := PcOf(s, a), Do(s, a, act);
              var done := PcOf(s2, a).EnsureCreate? || PcOf(s2, a).EnsureRepoint? || PcOf(s2, a).EnsureDone?;
              s2.hist == if done then s.hist + [Added(pc.w.key, pc.w.ref, pc.opts)] else s.hist
    ensures act.GetForRelease? || act.UpdateForRelease? ==>
              var pc, s2 := PcOf(s, a), Do(s, a, act);
              var retry := PcOf(s2, a).Release? && PcOf(s2, a).todo == pc.todo
                  && (PcOf(s2, a).at.Reading? || PcOf(s2, a).at.Updating?);
              var failed := act.UpdateForRelease? && pc.todo[0].key !in s.store;
              s2.hist == if retry || failed then s.hist else s.hist + [Released(pc.todo[0].key, pc.todo[0].ref)]
  {
    var pc := PcOf(s, a);
    assert PcOk(s, a, pc);
    if act.UpdateForRelease? {
      WithoutRefFacts(pc.at.snap.entry, pc.todo[0].ref);
    }
  }

  /** Does the operation belong to this run? */
  predicate OfRun(op: Op, run: string) {
    match op
    case Registered(_, e) => e.refs != [] && e.refs[0].run == run
    case Added(_, ref, _) => ref.run == run
    case Released(_, ref) => ref.run == run
    case Removed(_) => false
  }

  /** How many operations of the run the history has. */
  function OpsOf(hist: seq<Op>, run: string): nat {
    if hist == [] then 0
    else OpsOf(hist[..|hist| - 1], run) + if OfRun(hist[|hist| - 1], run) then 1 else 0
  }

  lemma OneOpMore(hist: seq<Op>, op: Op, run: string)
    ensures OpsOf(hist + [op], run) == OpsOf(hist, run) + if OfRun(op, run) then 1 else 0
  {
    assert (hist + [op])[..|hist|] == hist;
  }

  lemma NotOfRun(hist: seq<Op>, hist2: seq<Op>, op: Op, run: string)
    requires (hist2 == hist || hist2 == hist + [op]) && !OfRun(op, run)
    ensures OpsOf(hist2, run) == OpsOf(hist, run)
  {
    OneOpMore(hist, op, run);
  }

  /** What a provisioning call or a release logs is an operation of its own run. */
  lemma LogsItsOwn(s: State, a: Actor, act: Act, run: string)
    requires Can(s, a, act) && PcOk(s, a, PcOf(s, a)) && (EnsureCall(act) || ReleaseCall(act)) && a != Run(run)
    ensures OpsOf(Do(s, a, act).hist, run) == OpsOf(s.hist, run)
  {
    var pc := PcOf(s, a);
    var op := if act.Register? then Registered(pc.w.key, FreshEntry(pc.w.ref, pc.managed, pc.w.hash,
                                                                    if pc.create then "" else act.externalId))
        else if act.GetForAdd? || act.UpdateForAdd? then Added(pc.w.key, pc.w.ref, pc.opts)
        else if act.GetForRelease? || act.UpdateForRelease? then Released(pc.todo[0].key, pc.todo[0].ref)
        else Removed(if act.DropEntry? then Current(pc) else Key(Forge, "", ""));
    NotOfRun(s.hist, Do(s, a, act).hist, op, run);
  }

  /** All other calls log removals at most. */
  lemma OthersLogRemovals(s: State, a: Actor, act: Act, run: string)
    requires Can(s, a, act) && !EnsureCall(act) && !ReleaseCall(act)
    ensures OpsOf(Do(s, a, act).hist, run) == OpsOf(s.hist, run)
  {
    var op := Removed(if act.FinishRemove? then Current(PcOf(s, a)) else Key(Forge, "", ""));
    NotOfRun(s.hist, Do(s, a, act).hist, op, run);
  }

  /** In the middle of the retry loop of AddRef or of Release. */
  predicate Retrying(pc: Pc) {
    pc.AddRead? || pc.AddUpdate? || (pc.Release? && pc.todo != [] && (pc.at.Reading? || pc.at.Updating?))
  }

  /** In the same call of the same loop. */
  predicate SameLoop(pc: Pc, pc2: Pc) {
    && Retrying(pc) && Retrying(pc2) && pc.Release? == pc2.Release?
    && if pc.Release? then pc2.todo == pc.todo else pc2.w == pc.w && pc2.opts == pc.opts && pc2.next == pc.next
  }

  /** All along the schedule a is in the loop it is in at its start. */
  ghost predicate StaysIn(s: State, moves: seq<Move>, a: Actor)
    decreases |moves|
  {
    && Retrying(PcOf(s, a))
    && (moves != [] ==>
          && Can(s, moves[0].actor, moves[0].act)
          && var s1 := Do(s, moves[0].actor, moves[0].act);
             SameLoop(PcOf(s, a), PcOf(s1, a)) && StaysIn(s1, moves[1..], a))
  }

  /** It succeeds where the reference is recorded, or dropped; the error for a vanished entry is no success. */
  ghost predicate Succeeds(s: State, a: Actor, act: Act)
    requires Can(s, a, act) && Retrying(PcOf(s, a))
  {
    var pc, pc2 := PcOf(s, a), PcOf(Do(s, a, act), a);
    if pc.Release? then !(act.UpdateForRelease? && pc.todo[0].key !in s.store)
    else pc2.EnsureCreate? || pc2.EnsureRepoint? || pc2.EnsureDone?
  }

  /** What it then has done. */
  function LoopOp(pc: Pc): Op
    requires Retrying(pc)
  {
    if pc.Release? then Released(pc.todo[0].key, pc.todo[0].ref) else Added(pc.w.key, pc.w.ref, pc.opts)
  }

  /** The calls of the two loops. */
  predicate LoopCall(act: Act) {
    act.GetForAdd? || act.UpdateForAdd? || act.GetForRelease? || act.UpdateForRelease?
  }

  lemma StayingCommitsNothing(s: State, a: Actor, act: Act, b: Actor)
    requires Inv(s) && Can(s, b, act) && a.Run? && SameLoop(PcOf(s, a), PcOf(Do(s, b, act), a))
    ensures OpsOf(Do(s, b, act).hist, a.name) == OpsOf(s.hist, a.name)
  {
    if a == b && LoopCall(act) {
      CallCommits(s, a, act);
    } else if a == b && !Outside(act) {
      assert act.Abort? || act.Skip?;
    } else {
      assert PcOk(s, b, PcOf(s, b));
      if EnsureCall(act) || ReleaseCall(act) {
        LogsItsOwn(s, b, act, a.name);
      } else {
        OthersLogRemovals(s, b, act, a.name);
      }
    }
  }

  lemma {:induction false} LoopCommitsNothing(s: State, moves: seq<Move>, s2: State, a: Actor)
    requires Inv(s) && ExclusivePath(s, moves, s2) && a.Run? && StaysIn(s, moves, a)
    ensures Inv(s2) && SameLoop(PcOf(s, a), PcOf(s2, a)) && OpsOf(s2.hist, a.name) == OpsOf(s.hist, a.name)
    decreases |moves|
  {
    if moves != [] {
      var s1 := Do(s, moves[0].actor, moves[0].act);
      StayingCommitsNothing(s, a, moves[0].act, moves[0].actor);
      StepKeepsInv(s, moves[0].actor, moves[0].act);
      LoopCommitsNothing(s1, moves[1..], s2, a);
    }
  }

  /** The call that ends a loop. */
  lemma LastCallCommits(s: State, a: Actor, act: Act)
    requires Inv(s) && Can(s, a, act) && Retrying(PcOf(s, a)) && LoopCall(act)
    requires !SameLoop(PcOf(s, a), PcOf(Do(s, a, act), a))
    ensures Do(s, a, act).hist == if Succeeds(s, a, act) then s.hist + [LoopOp(PcOf(s, a))] else s.hist
    ensures a.Run? ==> OfRun(LoopOp(PcOf(s, a)), a.name)
  {
    assert PcOk(s, a, PcOf(s, a));
    CallCommits(s, a, act);
  }

  /**
   However often AddRef or Release has to start over, and whatever others do meanwhile, the whole loop
   commits one operation if it succeeds, in the very call that ends it, and none if it does not.
   */
  lemma CommitsOnce(s: State, moves: seq<Move>, s1: State, a: Actor, act: Act)
    requires Inv(s) && ExclusivePath(s, moves, s1) && a.Run? && StaysIn(s, moves, a)
    requires Can(s1, a, act) && LoopCall(act) && !SameLoop(PcOf(s1, a), PcOf(Do(s1, a, act), a))
    ensures Retrying(PcOf(s1, a)) && LoopOp(PcOf(s1, a)) == LoopOp(PcOf(s, a))
    ensures Do(s1, a, act).hist == if Succeeds(s1, a, act) then s1.hist + [LoopOp(PcOf(s, a))] else s1.hist
    ensures OpsOf(Do(s1, a, act).hist, a.name) == OpsOf(s.hist, a.name) + if Succeeds(s1, a, act) then 1 else 0
  {
    LoopCommitsNothing(s, moves, s1, a);
    LastCallCommits(s1, a, act);
    OneOpMore(s1.hist, LoopOp(PcOf(s, a)), a.name);
  }

  ghost predicate RefsFollowHistory(s: State) {
    forall k, ref :: HasRef(s, k, ref) <==> LastWasAdd(s.hist, k, ref)
  }

  lemma StepFollowsHistory(s: State, a: Actor, act: Act)
    requires Inv(s) && Can(s, a, act) && RefsFollowHistory(s)
    ensures RefsFollowHistory(Do(s, a, act))
  {
    var s2 := Do(s, a, act);
    var op := StepRefines(s, a, act);
    if s2.hist != s.hist {
      assert s2.hist[..|s2.hist| - 1] == s.hist;
    }
  }

  /**
   No add and no release is ever lost to a concurrent one: a step holds a reference exactly
   when its own latest successful operation on it was an add.
   */
  lemma {:induction false} NoUpdateIsLost(s: State, moves: seq<Move>, s2: State)
    requires Inv(s) && ExclusivePath(s, moves, s2) && RefsFollowHistory(s)
    ensures RefsFollowHistory(s2)
    decreases |moves|
  {
    if moves != [] {
      StepKeepsInv(s, moves[0].actor, moves[0].act);
      StepFollowsHistory(s, moves[0].actor, moves[0].act);
      NoUpdateIsLost(Do(s, moves[0].actor, moves[0].act), moves[1..], s2);
    }
  }
}
