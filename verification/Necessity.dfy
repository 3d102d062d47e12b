/**
 Finish and the sweep check neither the version nor the Terminating flag of what they remove.
 This module shows that the assumption "one finisher at a time" is exactly what that costs:
 under it nothing is harmed, and the first call that breaks it can be continued to harm, by calls of
 the wizard alone.
 */
module Necessity {
  import opened Types
  import opened LedgerRules
  import opened Protocol
  import opened Safety
  import opened LedgerTheorems

  /** A call of somebody else that takes away a run's reference, or the resource behind it. */
  ghost predicate Harms(s: State, a: Actor, act: Act, k: Key, ref: Ref) {
    && Can(s, a, act) && !Outside(act) && a != Run(ref.run) && HasRef(s, k, ref)
    && (!HasRef(Do(s, a, act), k, ref) || (k in s.up && k !in Do(s, a, act).up))
  }

  lemma NoHarmUnderExclusion(s: State, moves: seq<Move>, s2: State, a: Actor, act: Act, k: Key, ref: Ref)
    requires Inv(s) && ExclusivePath(s, moves, s2)
    ensures !Harms(s2, a, act, k, ref)
  {
    PathKeepsInv(s, moves, s2);
    if Harms(s2, a, act, k, ref) {
      if !HasRef(Do(s2, a, act), k, ref) {
        OnlyTheOwnerReleases(s2, a, act, k, ref);
      } else {
        DeletionSafety(s2, a, act, k);
      }
    }
  }

  // ---- building schedules ----

  /** A schedule in which only the wizard makes calls. */
  ghost predicate OwnPath(s: State, moves: seq<Move>, s2: State) {
    Path(s, moves, s2) && forall m :: m in moves ==> !Outside(m.act)
  }

  lemma {:induction false} Extend(s: State, moves: seq<Move>, s2: State, a: Actor, act: Act)
    requires Path(s, moves, s2) && Can(s2, a, act)
    ensures Path(s, moves + [Move(a, act)], Do(s2, a, act))
    decreases |moves|
  {
    var all := moves + [Move(a, act)];
    if moves == [] {
      assert all[1..] == [];
      assert all[0] == Move(a, act);
      assert Path(Do(s2, a, act), all[1..], Do(s2, a, act));
    } else {
      Extend(Do(s, moves[0].actor, moves[0].act), moves[1..], s2, a, act);
      assert all[1..] == moves[1..] + [Move(a, act)];
    }
  }

  /** Where an actor stands that can still finish tombstone k. */
  ghost predicate About(s: State, a: Actor, k: Key) {
    var pc := PcOf(s, a);
    && HasItem(pc) && Current(pc) == k
    && (pc.Release? ==> pc.at.Dropping? || pc.at.Finishing?)
    && (pc.Sweep? || pc.at.Finishing? ==> !Stuck(k, RecordOf(pc)) && (IsAt(pc, Deleting) ==> RecordOf(pc).managed))
  }

  /** The shared ledger and upstream are untouched, and so is everybody but a. */
  ghost predicate OnlyMoved(s: State, s2: State, a: Actor) {
    s2.store == s.store && s2.up == s.up && s2.clock == s.clock && forall b :: b != a ==> PcOf(s2, b) == PcOf(s, b)
  }

  /** Everything an actor holds is as PcOk wants it. */
  ghost predicate Holder(s: State, a: Actor) {
    var pc := PcOf(s, a);
    && (pc.Sweep? ==> HeldOk(s, pc.listed) && (pc.stage == Deleting && pc.listed != [] ==> pc.listed[0].entry.managed))
    && (pc.Release? && pc.at.Finishing? ==> pc.at.entry.managed)
  }

  /** A sweep gets to any tombstone on its list once the calls for the earlier ones have failed. */
  lemma {:induction false} SkipTo(s: State, from: State, moves: seq<Move>, a: Actor, k: Key)
    returns (moves2: seq<Move>, s2: State)
    requires OwnPath(s, moves, from) && k in Holds(PcOf(from, a)) && Holder(from, a)
    ensures OwnPath(s, moves2, s2) && OnlyMoved(from, s2, a) && About(s2, a, k)
    decreases if PcOf(from, a).Sweep? then |PcOf(from, a).listed| else 0
  {
    var pc := PcOf(from, a);
    if pc.Release? {
      moves2, s2 := moves, from;
    } else {
      var h :| h in pc.listed && h.key == k && !Stuck(k, h.entry);
      if pc.listed[0].key == k {
        moves2, s2 := moves, from;
        assert pc.listed[0] in pc.listed;
      } else {
        HeldTail(from, pc.listed);
        var next := Do(from, a, Skip);
        moves2, s2 := Go(s, moves, from, a, Skip);
        assert h in pc.listed[1..];
        moves2, s2 := SkipTo(s, next, moves2, a, k);
      }
    }
  }

  /** One call more. */
  lemma Go(s: State, moves: seq<Move>, s1: State, a: Actor, act: Act) returns (moves2: seq<Move>, s2: State)
    requires OwnPath(s, moves, s1) && Can(s1, a, act) && !Outside(act)
    ensures OwnPath(s, moves2, s2) && s2 == Do(s1, a, act)
  {
    Extend(s, moves, s1, a, act);
    moves2, s2 := moves + [Move(a, act)], Do(s1, a, act);
  }

  // From each stage of a deletion, the calls that are left; others do not move.

  lemma FromFinishDelete(s: State, moves: seq<Move>, s1: State, b: Actor, k: Key) returns (moves2: seq<Move>, s2: State)
    requires OwnPath(s, moves, s1) && About(s1, b, k)
    requires IsAt(PcOf(s1, b), FinishDelete) || (PcOf(s1, b).Release? && PcOf(s1, b).at.Dropping?)
    ensures OwnPath(s, moves2, s2) && k !in s2.store
    ensures forall c :: c != b ==> PcOf(s2, c) == PcOf(s1, c)
  {
    var dropping := PcOf(s1, b).Release? && PcOf(s1, b).at.Dropping?;
    moves2, s2 := Go(s, moves, s1, b, if dropping then DropEntry else FinishRemove);
  }

  lemma FromFinishRead(s: State, moves: seq<Move>, s1: State, b: Actor, k: Key) returns (moves2: seq<Move>, s2: State)
    requires OwnPath(s, moves, s1) && About(s1, b, k) && k in s1.store && IsAt(PcOf(s1, b), FinishRead)
    ensures OwnPath(s, moves2, s2) && s2.store == s1.store && s2.up == s1.up
    ensures About(s2, b, k) && IsAt(PcOf(s2, b), FinishDelete)
    ensures forall c :: c != b ==> PcOf(s2, c) == PcOf(s1, c)
  {
    moves2, s2 := Go(s, moves, s1, b, FinishGet);
  }

  lemma FromDeleting(s: State, moves: seq<Move>, s1: State, b: Actor, k: Key) returns (moves2: seq<Move>, s2: State)
    requires OwnPath(s, moves, s1) && About(s1, b, k) && k in s1.store && IsAt(PcOf(s1, b), Deleting)
    ensures OwnPath(s, moves2, s2) && s2.store == s1.store
    ensures About(s2, b, k) && IsAt(PcOf(s2, b), FinishRead)
    ensures forall c :: c != b ==> PcOf(s2, c) == PcOf(s1, c)
  {
    moves2, s2 := Go(s, moves, s1, b, DeleteUpstream);
  }

  lemma StagesOf(s: State, b: Actor, k: Key)
    requires About(s, b, k)
    ensures var pc := PcOf(s, b);
            (pc.Release? && pc.at.Dropping?) || IsAt(pc, Deleting) || IsAt(pc, FinishRead) || IsAt(pc, FinishDelete)
  {
    var pc := PcOf(s, b);
    var stage := if pc.Sweep? then pc.stage else if pc.at.Finishing? then pc.at.stage else Deleting;
    assert stage.Deleting? || stage.FinishRead? || stage.FinishDelete?;
  }

  /** The other finisher b completes its work on k: the entry is gone. */
  lemma CompleteFinish(s: State, moves: seq<Move>, s1: State, b: Actor, k: Key) returns (moves2: seq<Move>, s2: State)
    requires OwnPath(s, moves, s1) && About(s1, b, k) && k in s1.store
    ensures OwnPath(s, moves2, s2) && k !in s2.store
    ensures forall c :: c != b ==> PcOf(s2, c) == PcOf(s1, c)
  {
    StagesOf(s1, b, k);
    moves2, s2 := moves, s1;
    if IsAt(PcOf(s1, b), Deleting) {
      moves2, s2 := FromDeleting(s, moves2, s2, b, k);
    }
    if IsAt(PcOf(s2, b), FinishRead) {
      moves2, s2 := FromFinishRead(s, moves2, s2, b, k);
    }
    moves2, s2 := FromFinishDelete(s, moves2, s2, b, k);
  }

  /** A fresh run provisions k: its entry is registered, and the resource adopted or created. */
  lemma Provision(s: State, moves: seq<Move>, s1: State, k: Key, ref: Ref) returns (moves2: seq<Move>, s2: State)
    requires OwnPath(s, moves, s1) && PcOf(s1, Run(ref.run)) == Idle && k !in s1.store
    ensures OwnPath(s, moves2, s2) && HasRef(s2, k, ref) && k in s2.up
    ensures forall b :: b != Run(ref.run) ==> PcOf(s2, b) == PcOf(s1, b)
  {
    var c, w := Run(ref.run), Want(k, ref, "", false, false);
    moves2, s2 := GoTo(s, moves, s1, c, BeginEnsure(w), EnsureRead(w));
    moves2, s2 := GoTo(s, moves2, s2, c, GetEntry, EnsureProbe(w, None));
    var there := k in s1.up;
    moves2, s2 := GoTo(s, moves2, s2, c, Probe(true), EnsureRegister(w, !there, !there));
    moves2, s2 := RegisterAndCreate(s, moves2, s2, w, there);
  }

  /** One call that only moves its actor. */
  lemma GoTo(s: State, moves: seq<Move>, s1: State, a: Actor, act: Act, pc: Pc) returns (moves2: seq<Move>, s2: State)
    requires OwnPath(s, moves, s1) && Can(s1, a, act) && !Outside(act) && Do(s1, a, act) == Goto(s1, a, pc)
    ensures OwnPath(s, moves2, s2) && OnlyMoved(s1, s2, a) && PcOf(s2, a) == pc
  {
    moves2, s2 := Go(s, moves, s1, a, act);
  }

  lemma RegisterAndCreate(s: State, moves: seq<Move>, s1: State, w: Want, there: bool)
    returns (moves2: seq<Move>, s2: State)
    requires OwnPath(s, moves, s1) && w.key !in s1.store && there == (w.key in s1.up)
    requires PcOf(s1, Run(w.ref.run)) == EnsureRegister(w, !there, !there)
    ensures OwnPath(s, moves2, s2) && HasRef(s2, w.key, w.ref) && w.key in s2.up
    ensures forall b :: b != Run(w.ref.run) ==> PcOf(s2, b) == PcOf(s1, b)
  {
    var c := Run(w.ref.run);
    moves2, s2 := Go(s, moves, s1, c, Register(""));
    assert HasRef(s2, w.key, w.ref) && s2.up == s1.up;
    if !there {
      assert PcOf(s2, c) == EnsureCreate(w);
      moves2, s2 := Go(s, moves2, s2, c, Create(""));
    }
  }

  /** Whoever still believes in the old tombstone destroys what a new run holds. */
  lemma StaleFinishHarms(s: State, moves: seq<Move>, s1: State, a: Actor, k: Key, ref: Ref)
    returns (moves2: seq<Move>, s2: State, act: Act)
    requires OwnPath(s, moves, s1) && About(s1, a, k) && HasRef(s1, k, ref) && k in s1.up && a != Run(ref.run)
    ensures OwnPath(s, moves2, s2) && Harms(s2, a, act, k, ref)
  {
    StagesOf(s1, a, k);
    moves2, s2 := moves, s1;
    if IsAt(PcOf(s1, a), FinishRead) {
      moves2, s2 := FromFinishRead(s, moves, s1, a, k);
    }
    StagesOf(s2, a, k);
    act := LastCallHarms(s2, a, k, ref);
  }

  lemma LastCallHarms(s: State, a: Actor, k: Key, ref: Ref) returns (act: Act)
    requires About(s, a, k) && HasRef(s, k, ref) && k in s.up && a != Run(ref.run)
    requires var pc := PcOf(s, a); (pc.Release? && pc.at.Dropping?) || IsAt(pc, Deleting) || IsAt(pc, FinishDelete)
    ensures Harms(s, a, act, k, ref)
  {
    var pc := PcOf(s, a);
    act := if pc.Release? && pc.at.Dropping? then DropEntry else if IsAt(pc, Deleting) then DeleteUpstream
        else FinishRemove;
  }

  /**
   Two actors about to act on the same tombstone: one finishes it, a third run provisions the
   resource afresh, and the other one then destroys what that run holds.
   */
  lemma SharedTombstoneHarms(s: State, moves: seq<Move>, s1: State, a: Actor, b: Actor, k: Key, ref: Ref)
    returns (moves2: seq<Move>, s2: State, act: Act)
    requires OwnPath(s, moves, s1) && a != b && About(s1, a, k) && About(s1, b, k) && k in s1.store
    requires PcOf(s1, Run(ref.run)) == Idle
    ensures OwnPath(s, moves2, s2) && Harms(s2, a, act, k, ref)
  {
    assert a != Run(ref.run) && b != Run(ref.run);
    moves2, s2 := CompleteFinish(s, moves, s1, b, k);
    moves2, s2 := Provision(s, moves2, s2, k, ref);
    moves2, s2, act := StaleFinishHarms(s, moves2, s2, a, k, ref);
  }

  /** The first call that starts to finish somebody else's tombstone can be continued to harm. */
  lemma BreakingExclusionHarms(s: State, a: Actor, act: Act, c: string, step: string)
    returns (moves: seq<Move>, s2: State, act2: Act, k: Key, ref: Ref)
    requires Inv(s) && Can(s, a, act) && !Exclusive(s, a, act) && PcOf(s, Run(c)) == Idle && a != Run(c)
    ensures OwnPath(Do(s, a, act), moves, s2) && Harms(s2, a, act2, k, ref) && ref.run == c
  {
    var b: Actor;
    k, b := Intruder(s, a, act);
    OthersStay(s, a, act, Run(c));
    moves, s2, act2 := TwoFinishersHarm(Do(s, a, act), a, b, k, Ref(c, step));
    ref := Ref(c, step);
  }

  /** Two actors that hold one tombstone, and a run that is free to provision. */
  lemma TwoFinishersHarm(s1: State, a: Actor, b: Actor, k: Key, ref: Ref)
    returns (moves: seq<Move>, s2: State, act2: Act)
    requires a != b && a != Run(ref.run) && PcOf(s1, Run(ref.run)) == Idle && k in s1.store
    requires k in Holds(PcOf(s1, a)) && k in Holds(PcOf(s1, b)) && Holder(s1, a) && Holder(s1, b)
    ensures OwnPath(s1, moves, s2) && Harms(s2, a, act2, k, ref)
  {
    var m1, t1 := SkipTo(s1, s1, [], a, k);
    assert PcOf(t1, b) == PcOf(s1, b) && PcOf(t1, Run(ref.run)) == Idle;
    var m2, t2 := SkipTo(s1, t1, m1, b, k);
    assert About(t2, a, k);
    moves, s2, act2 := SharedTombstoneHarms(s1, m2, t2, a, b, k, ref);
  }

  lemma HolderOk(s: State, a: Actor, k: Key)
    requires PcOk(s, a, PcOf(s, a)) && k in Holds(PcOf(s, a))
    ensures k in s.store && Holder(s, a)
  {
  }

  lemma BeginsToHold(s: State, a: Actor, act: Act, k: Key)
    requires Can(s, a, act) && k in Holds(PcOf(Do(s, a, act), a)) && k !in Holds(PcOf(s, a))
    ensures !Outside(act)
  {
  }

  /** After a call that breaks the exclusion, two actors are on one tombstone. */
  lemma Intruder(s: State, a: Actor, act: Act) returns (k: Key, b: Actor)
    requires Inv(s) && Can(s, a, act) && !Exclusive(s, a, act)
    ensures var s1 := Do(s, a, act);
            && a != b && k in s1.store && Holder(s1, a) && Holder(s1, b)
            && k in Holds(PcOf(s1, a)) && k in Holds(PcOf(s1, b))
  {
    var s1 := Do(s, a, act);
    k, b :| k in Holds(PcOf(s1, a)) && k !in Holds(PcOf(s, a)) && b != a && k in Holds(PcOf(s, b));
    BeginsToHold(s, a, act, k);
    OthersStay(s, a, act, b);
    NoLeakKept(s, a, act);
    PcKept(s, a, act, a);
    PcKept(s, a, act, b);
    HolderOk(s1, a, k);
    HolderOk(s1, b, k);
  }

  // ---- such a call does happen ----

  /** Everybody but a is at rest. */
  ghost predicate OnlyActive(s: State, a: Actor) {
    forall b :: b != a ==> PcOf(s, b) == Idle
  }

  /** A schedule of the wizard's calls that keeps the exclusion and leaves only a active. */
  ghost predicate Alone(s: State, moves: seq<Move>, s1: State, a: Actor) {
    ExclusivePath(s, moves, s1) && OnlyActive(s1, a) && forall m :: m in moves ==> !Outside(m.act)
  }

  /** One call more of the only active actor. */
  lemma GoAlone(s: State, moves: seq<Move>, s1: State, a: Actor, act: Act) returns (moves2: seq<Move>, s2: State)
    requires Alone(s, moves, s1, a) && Can(s1, a, act) && !Outside(act)
    ensures Alone(s, moves2, s2, a) && s2 == Do(s1, a, act)
  {
    ExtendExclusive(s, moves, s1, a, act);
    moves2, s2 := moves + [Move(a, act)], Do(s1, a, act);
    forall b | b != a
      ensures PcOf(s2, b) == Idle
    {
      OthersStay(s1, a, act, b);
    }
  }

  /** One call more that only takes its actor to pc. */
  lemma GoAloneTo(s: State, moves: seq<Move>, s1: State, a: Actor, act: Act, pc: Pc)
    returns (moves2: seq<Move>, s2: State)
    requires Alone(s, moves, s1, a) && Can(s1, a, act) && !Outside(act) && Do(s1, a, act) == Goto(s1, a, pc)
    ensures Alone(s, moves2, s2, a) && PcOf(s2, a) == pc && s2.store == s1.store && s2.up == s1.up
  {
    moves2, s2 := GoAlone(s, moves, s1, a, act);
  }

  /** From a state in which nobody knows the resource, a run is about to register it. */
  lemma AboutToRegister(s: State, w: Want) returns (moves: seq<Move>, s1: State)
    requires Initial(s) && w.key !in s.up
    ensures Alone(s, moves, s1, Run(w.ref.run)) && s1.store == map[] && s1.up == s.up
    ensures PcOf(s1, Run(w.ref.run)) == EnsureRegister(w, true, true)
  {
    var a := Run(w.ref.run);
    moves, s1 := GoAloneTo(s, [], s, a, BeginEnsure(w), EnsureRead(w));
    moves, s1 := GoAloneTo(s, moves, s1, a, GetEntry, EnsureProbe(w, None));
    moves, s1 := GoAloneTo(s, moves, s1, a, Probe(false), EnsureRegister(w, true, true));
  }

  /** It registers it. */
  lemma Registers(s: State, w: Want) returns (moves: seq<Move>, s1: State)
    requires Initial(s) && w.key !in s.up
    ensures Alone(s, moves, s1, Run(w.ref.run)) && PcOf(s1, Run(w.ref.run)) == EnsureCreate(w) && s1.up == s.up
    ensures s1.store.Keys == {w.key} && s1.store[w.key].entry == FreshEntry(w.ref, true, w.hash, "")
  {
    moves, s1 := AboutToRegister(s, w);
    moves, s1 := GoAlone(s, moves, s1, Run(w.ref.run), Register(""));
  }

  /** It creates it; the ID it may have been given is not noted, because it stops. */
  lemma CreatesAndStops(s: State, w: Want, id: string) returns (moves: seq<Move>, s1: State)
    requires Initial(s) && w.key !in s.up
    ensures Alone(s, moves, s1, Run(w.ref.run)) && PcOf(s1, Run(w.ref.run)) == Idle && WizardMade(s1, w.key)
    ensures s1.store.Keys == {w.key} && s1.store[w.key].entry == FreshEntry(w.ref, true, w.hash, "")
  {
    var a := Run(w.ref.run);
    moves, s1 := Registers(s, w);
    moves, s1 := GoAlone(s, moves, s1, a, Create(id));
    assert WizardMade(s1, w.key);
    moves, s1 := GoAlone(s, moves, s1, a, Abort);
  }

  /** A run that is the only one to hold anything begins to roll back. */
  lemma BeginsRollback(s: State, before: seq<Move>, s0: State, a: Actor) returns (moves: seq<Move>, s1: State)
    requires Alone(s, before, s0, a) && a.Run? && PcOf(s0, a) == Idle && forall k :: !IsTombstone(s0, k)
    ensures Alone(s, moves, s1, a) && s1.store == s0.store && s1.up == s0.up && PcOf(s1, a) == RollbackList(true)
  {
    moves, s1 := GoAloneTo(s, before, s0, a, BeginRollback, SweepList(true));
    assert forall k :: IsTombstone(s1, k) <==> IsTombstone(s0, k);
    assert ListsTombstones(s1, []);
    moves, s1 := GoAloneTo(s, moves, s1, a, ListTombstones([]), RollbackList(true));
  }

  /** It comes to the release of its one reference. */
  lemma ComesToRelease(s: State, before: seq<Move>, s0: State, k: Key, ref: Ref) returns (moves: seq<Move>, s1: State)
    requires Alone(s, before, s0, Run(ref.run)) && PcOf(s0, Run(ref.run)) == Idle
    requires s0.store.Keys == {k} && s0.store[k].entry.refs == [ref] && !s0.store[k].entry.terminating
    ensures Alone(s, moves, s1, Run(ref.run)) && s1.store == s0.store && s1.up == s0.up
    ensures PcOf(s1, Run(ref.run)) == Release(true, [Claim(k, ref)], Reading)
  {
    var a := Run(ref.run);
    moves, s1 := BeginsRollback(s, before, s0, a);
    assert ListsMine(s1, ref.run, [Claim(k, ref)]);
    moves, s1 := GoAloneTo(s, moves, s1, a, ListMine([Claim(k, ref)]), Release(true, [Claim(k, ref)], Reading));
  }

  /** It commits that release. */
  lemma ReleasesLast(s: State, before: seq<Move>, s0: State, k: Key, ref: Ref) returns (moves: seq<Move>, s1: State)
    requires Alone(s, before, s0, Run(ref.run)) && PcOf(s0, Run(ref.run)) == Release(true, [Claim(k, ref)], Reading)
    requires s0.store.Keys == {k} && s0.store[k].entry.refs == [ref] && !s0.store[k].entry.terminating
    ensures Alone(s, moves, s1, Run(ref.run)) && s1.up == s0.up && s1.store.Keys == {k}
    ensures var e := WithoutRef(s0.store[k].entry, ref);
            && s1.store[k].entry == e && Tombstone(e)
            && PcOf(s1, Run(ref.run)) ==
                 Release(true, [Claim(k, ref)], if e.managed then Finishing(Deleting, e) else Dropping)
  {
    var a := Run(ref.run);
    assert RemoveRef([ref], ref) == [];
    moves, s1 := GoAloneTo(s, before, s0, a, GetForRelease, Release(true, [Claim(k, ref)], Updating(s0.store[k])));
    moves, s1 := GoAlone(s, moves, s1, a, UpdateForRelease);
  }

  /** A run provisions a resource from an empty ledger, rolls back, and has just released its last reference. */
  lemma LastReference(s: State, k: Key, ref: Ref, id: string) returns (moves: seq<Move>, s1: State)
    requires Initial(s) && k !in s.up
    ensures Alone(s, moves, s1, Run(ref.run)) && s1.store.Keys == {k} && WizardMade(s1, k)
    ensures var e := WithoutRef(FreshEntry(ref, true, "", ""), ref);
            && s1.store[k].entry == e && Tombstone(e)
            && PcOf(s1, Run(ref.run)) == Release(true, [Claim(k, ref)], Finishing(Deleting, e))
  {
    var before, s0 := CreatesAndStops(s, Want(k, ref, "", false, false), id);
    var begun, s00 := ComesToRelease(s, before, s0, k, ref);
    moves, s1 := ReleasesLast(s, begun, s00, k, ref);
  }

  const EMPTY: State := State(map[], map[], 0, map[], [])

  /**
   From an empty ledger: a run provisions, rolls back and has just released its last reference when
   a periodic sweep lists the tombstone.  That call breaks the exclusion, and nothing prevents it.
   */
  lemma ExclusionCanBeBroken(k: Key, ref: Ref, id: nat) returns (moves: seq<Move>, s1: State, act: Act)
    requires CanDelete(k, FreshEntry(ref, true, "", ""))
    ensures Initial(EMPTY) && ExclusivePath(EMPTY, moves, s1) && Inv(s1) && forall m :: m in moves ==> !Outside(m.act)
    ensures forall b :: b != Run(ref.run) && b != Sweeper(id) ==> PcOf(s1, b) == Idle
    ensures !Outside(act) && Can(s1, Sweeper(id), act) && !Exclusive(s1, Sweeper(id), act)
  {
    var moves0, s0 := LastReference(EMPTY, k, ref, "");
    var a, b := Run(ref.run), Sweeper(id);
    assert PcOf(s0, b) == Idle;
    ExtendExclusive(EMPTY, moves0, s0, b, BeginSweep);
    moves, s1 := moves0 + [Move(b, BeginSweep)], Do(s0, b, BeginSweep);
    assert s1 == Goto(s0, b, SweepList(false)) && PcOf(s1, a) == PcOf(s0, a);
    var e := s1.store[k].entry;
    act := ListTombstones([Held(k, e)]);
    SweepIntrudes(s1, a, b, k, PcOf(s1, a).todo, e);
    forall c | c != a && c != b
      ensures PcOf(s1, c) == Idle
    {
      assert PcOf(s0, c) == Idle;
    }
    InitialInv(EMPTY);
    PathKeepsInv(EMPTY, moves, s1);
  }

  /** A sweep that lists a tombstone a rollback is about to finish. */
  lemma SweepIntrudes(s: State, a: Actor, b: Actor, k: Key, todo: seq<Claim>, e: Entry)
    requires a != b && PcOf(s, b) == SweepList(false) && PcOf(s, a) == Release(true, todo, Finishing(Deleting, e))
    requires |todo| == 1 && todo[0].key == k && s.store.Keys == {k} && s.store[k].entry == e
    requires Tombstone(e) && e.managed && CanDelete(k, e)
    ensures Can(s, b, ListTombstones([Held(k, e)])) && !Exclusive(s, b, ListTombstones([Held(k, e)]))
  {
    assert ListsTombstones(s, [Held(k, e)]);
    var pc := PcOf(Do(s, b, ListTombstones([Held(k, e)])), b);
    assert pc == Sweep(false, true, [Held(k, e)], Deleting) && Held(k, e) in pc.listed;
    assert k in Holds(pc) && k !in Holds(PcOf(s, b)) && k in Holds(PcOf(s, a));
  }

  /**
   So there is a schedule from an empty ledger, of the wizard's own calls alone, at whose end a third
   run loses what it has just provisioned.
   */
  lemma HarmFromTheStart(k: Key, ref: Ref, id: nat, c: string, step: string)
    returns (moves: seq<Move>, s1: State, more: seq<Move>, s2: State, act: Act, k2: Key, ref2: Ref)
    requires c != ref.run && CanDelete(k, FreshEntry(ref, true, "", ""))
    ensures Initial(EMPTY) && OwnPath(EMPTY, moves, s1) && OwnPath(s1, more, s2)
    ensures Harms(s2, Sweeper(id), act, k2, ref2) && ref2.run == c
  {
    var exclusive, s0, breaking := ExclusionCanBeBroken(k, ref, id);
    ExclusiveIsPath(EMPTY, exclusive, s0);
    moves, s1 := Go(EMPTY, exclusive, s0, Sweeper(id), breaking);
    assert Run(c) != Run(ref.run) && PcOf(s0, Run(c)) == Idle;
    more, s2, act, k2, ref2 := BreakingExclusionHarms(s0, Sweeper(id), breaking, c, step);
  }

  lemma {:induction false} ExclusiveIsPath(s: State, moves: seq<Move>, s2: State)
    requires ExclusivePath(s, moves, s2)
    ensures Path(s, moves, s2)
    decreases |moves|
  {
    if moves != [] {
      ExclusiveIsPath(Do(s, moves[0].actor, moves[0].act), moves[1..], s2);
    }
  }
}
