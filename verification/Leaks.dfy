/**
 The one way in which the wizard leaves something behind that no rollback knows about: it finds an
 alias of somebody else, records it as that, and re-points it after it has been deleted, which puts it
 there again.
 */
module Leaks {
  import opened Types
  import opened LedgerRules
  import opened Protocol
  import opened Safety
  import opened LedgerTheorems
  import opened Necessity

  lemma {:induction false} JoinPaths(s: State, first: seq<Move>, s1: State, more: seq<Move>, s2: State)
    requires ExclusivePath(s, first, s1) && ExclusivePath(s1, more, s2)
    ensures ExclusivePath(s, first + more, s2)
    decreases |first|
  {
    if first == [] {
      assert first + more == more;
    } else {
      JoinPaths(Do(s, first[0].actor, first[0].act), first[1..], s1, more, s2);
      assert (first + more)[1..] == first[1..] + more;
    }
  }

  /** A run finds somebody else's alias. */
  lemma FindsAlias(s: State, w: Want) returns (moves: seq<Move>, s1: State)
    requires Initial(s) && w.key in s.up && w.alias && !w.claim
    ensures Alone(s, moves, s1, Run(w.ref.run)) && PcOf(s1, Run(w.ref.run)) == EnsureRegister(w, false, false)
    ensures s1.up == s.up && s1.store == map[]
  {
    var a := Run(w.ref.run);
    moves, s1 := GoAloneTo(s, [], s, a, BeginEnsure(w), EnsureRead(w));
    moves, s1 := GoAloneTo(s, moves, s1, a, GetEntry, EnsureProbe(w, None));
    moves, s1 := GoAloneTo(s, moves, s1, a, Probe(true), EnsureRegister(w, false, false));
  }

  /** It records its reference. */
  lemma RecordsAlias(s: State, w: Want) returns (moves: seq<Move>, s1: State)
    requires Initial(s) && w.key in s.up && w.alias && !w.claim
    ensures Alone(s, moves, s1, Run(w.ref.run)) && PcOf(s1, Run(w.ref.run)) == EnsureRepoint(w) && s1.up == s.up
    ensures s1.store.Keys == {w.key} && s1.store[w.key].entry == FreshEntry(w.ref, false, w.hash, "")
  {
    moves, s1 := FindsAlias(s, w);
    moves, s1 := GoAlone(s, moves, s1, Run(w.ref.run), Register(""));
  }

  /** It re-points the alias, which is gone, and completes. */
  lemma Repoints(s: State, w: Want) returns (moves: seq<Move>, s1: State)
    requires OnlyActive(s, Run(w.ref.run)) && PcOf(s, Run(w.ref.run)) == EnsureRepoint(w) && w.key !in s.up
    requires s.store.Keys == {w.key} && s.store[w.key].entry == FreshEntry(w.ref, false, w.hash, "")
    ensures Alone(s, moves, s1, Run(w.ref.run)) && s1.store == s.store && s1.up == s.up[w.key := Stray]
    ensures PcOf(s1, Run(w.ref.run)) == Idle
  {
    var a := Run(w.ref.run);
    moves, s1 := GoAlone(s, [], s, a, Repoint);
    assert PcOf(s1, a) == EnsureDone(w) && s1.up == s.up[w.key := Stray];
    moves, s1 := GoAloneTo(s, moves, s1, a, Return, Idle);
  }

  /** And then it rolls back. */
  lemma RepointsAndRollsBack(s: State, w: Want) returns (moves: seq<Move>, s2: State)
    requires OnlyActive(s, Run(w.ref.run)) && PcOf(s, Run(w.ref.run)) == EnsureRepoint(w) && w.key !in s.up
    requires s.store.Keys == {w.key} && s.store[w.key].entry == FreshEntry(w.ref, false, w.hash, "")
    ensures Alone(s, moves, s2, Run(w.ref.run)) && s2.store == map[] && s2.up == s.up[w.key := Stray]
    ensures PcOf(s2, Run(w.ref.run)) == RollbackDone(true)
  {
    var a, k := Run(w.ref.run), w.key;
    var s1;
    moves, s1 := Repoints(s, w);
    moves, s1 := ComesToRelease(s, moves, s1, k, w.ref);
    moves, s1 := ReleasesLast(s, moves, s1, k, w.ref);
    moves, s2 := GoAlone(s, moves, s1, a, DropEntry);
  }

  /**
   From an empty ledger: somebody's alias is deleted by hand between a run's look at it and the
   re-point; the run completes and its rollback succeeds, and the alias that the wizard put there stays.
   */
  lemma RepointLeaks(k: Key, ref: Ref) returns (s: State, moves: seq<Move>, s2: State)
    ensures Initial(s) && ExclusivePath(s, moves, s2) && StraysOn(s, moves, k)
    ensures Made(s2, k) && s2.store == map[] && PcOf(s2, Run(ref.run)) == RollbackDone(true)
  {
    var a, w := Run(ref.run), Want(k, ref, "", false, true);
    s := State(map[], map[k := Outsider], 0, map[], []);
    var first, s1 := RecordsAlias(s, w);
    ExtendExclusive(s, first, s1, a, OutsiderDeletes(k));
    var gone := Do(s1, a, OutsiderDeletes(k));
    assert gone == s1.(up := map[]);
    forall b | b != a
      ensures PcOf(gone, b) == Idle
    {
      assert PcOf(s1, b) == Idle;
    }
    var more;
    more, s2 := RepointsAndRollsBack(gone, w);
    var deleted := first + [Move(a, OutsiderDeletes(k))];
    JoinPaths(s, deleted, gone, more, s2);
    moves := deleted + more;
    if !StraysOn(s, moves, k) {
      StrayComesFromRepoint(s, moves, s2, k);
    }
  }
}
