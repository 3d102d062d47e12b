/** Undoing a run: what it amounts to, and that every interrupted attempt leads to the same end. */
module Rollback {
  import opened Types
  import opened LedgerRules
  import opened Cluster
  import opened Text

  function Entries(w: World): map<Key, Entry> {
    map k | k in w.store :: w.store[k].entry
  }

  // ---- the end result ----

  /** Somebody else still uses the entry. */
  predicate Used(e: Entry, run: string) {
    OthersRefs(e.refs, run) != []
  }

  function Left(e: Entry, run: string): Entry {
    e.(refs := OthersRefs(e.refs, run))
  }

  /** The ledger without tombstones and without the run's references; emptied entries are dropped. */
  function FinalLedger(l: map<Key, Entry>, run: string): map<Key, Entry> {
    map k | k in l && Used(l[k], run) :: Left(l[k], run)
  }

  /** A managed resource nobody but the run was using. */
  predicate Doomed(l: map<Key, Entry>, k: Key, run: string) {
    k in l && l[k].managed && !Used(l[k], run)
  }

  function FinalUp(l: map<Key, Entry>, up: map<Key, Object>, run: string): map<Key, Object> {
    map k | k in up && !Doomed(l, k, run) :: up[k]
  }

  /** A resource that has to go but cannot be deleted upstream. */
  ghost predicate BlockedAt(w: World, k: Key, run: string) {
    k in w.store && Doomed(Entries(w), k, run) && !CanDelete(k, w.store[k].entry)
  }

  /** Everything that has to go can be deleted. */
  ghost predicate Deletable(w: World, run: string) {
    forall k :: !BlockedAt(w, k, run)
  }

  /** The entry may have lost references of the run, and have become a tombstone, but nothing else. */
  ghost predicate SameForOthers(e: Entry, e2: Entry, run: string) {
    OthersRefs(e2.refs, run) == OthersRefs(e.refs, run) && e2 == e.(refs := e2.refs, terminating := e2.terminating)
  }

  /** How far an attempt, finished or not, can have got with key k. */
  ghost predicate ProgressAt(w: World, now: World, run: string, k: Key) {
    && (k in now.store ==> k in w.store && SameForOthers(w.store[k].entry, now.store[k].entry, run))
    && (k in w.store && k !in now.store ==>
          !Used(w.store[k].entry, run) && (w.store[k].entry.managed ==> k !in now.up && CanDelete(k, w.store[k].entry)))
    && (k in now.up ==> k in w.up && now.up[k] == w.up[k])
    && (k in w.up && k !in now.up ==> k in w.store && w.store[k].entry.managed && !Used(w.store[k].entry, run))
  }

  ghost predicate Progress(w: World, now: World, run: string) {
    EntriesOk(now) && forall k :: ProgressAt(w, now, run, k)
  }

  lemma ProgressTransitive(w: World, w1: World, w2: World, run: string)
    requires Progress(w, w1, run) && Progress(w1, w2, run)
    ensures Progress(w, w2, run)
  {
    forall k
      ensures ProgressAt(w, w2, run, k)
    {
      assert ProgressAt(w, w1, run, k) && ProgressAt(w1, w2, run, k);
    }
  }

  /** Nothing of the run and no tombstone is left. */
  ghost predicate Completed(w: World, run: string) {
    forall k :: k in w.store ==> w.store[k].entry.refs != [] && forall r :: r in w.store[k].entry.refs ==> r.run != run
  }

  /** The end result does not depend on how far earlier attempts got. */
  lemma ProgressKeepsFinal(w: World, now: World, run: string)
    requires EntriesOk(w) && Progress(w, now, run)
    ensures FinalLedger(Entries(now), run) == FinalLedger(Entries(w), run)
    ensures FinalUp(Entries(now), now.up, run) == FinalUp(Entries(w), w.up, run)
  {
    SameLedger(w, now, run);
    SameUp(w, now, run);
  }

  lemma SameLedger(w: World, now: World, run: string)
    requires EntriesOk(w) && Progress(w, now, run)
    ensures FinalLedger(Entries(now), run) == FinalLedger(Entries(w), run)
  {
    forall k
      ensures k in now.store && Used(now.store[k].entry, run) <==> k in w.store && Used(w.store[k].entry, run)
      ensures k in now.store && Used(now.store[k].entry, run) ==>
              Left(now.store[k].entry, run) == Left(w.store[k].entry, run)
    {
      assert ProgressAt(w, now, run, k);
      if k in now.store && Used(now.store[k].entry, run) {
        UsedIsAlive(w.store[k].entry, run);
        UsedIsAlive(now.store[k].entry, run);
      }
    }
  }

  lemma UsedIsAlive(e: Entry, run: string)
    requires WellFormed(e) && Used(e, run)
    ensures !e.terminating
  {
    OthersRefsMembers(e.refs, run);
    assert OthersRefs(e.refs, run)[0] in e.refs;
  }

  lemma SameUp(w: World, now: World, run: string)
    requires Progress(w, now, run)
    ensures FinalUp(Entries(now), now.up, run) == FinalUp(Entries(w), w.up, run)
  {
    forall k
      ensures k in now.up && !Doomed(Entries(now), k, run) <==> k in w.up && !Doomed(Entries(w), k, run)
      ensures k in now.up ==> k in w.up && now.up[k] == w.up[k]
    {
      assert ProgressAt(w, now, run, k);
    }
  }

  lemma CompletedIsFinal(w: World, run: string)
    requires Completed(w, run)
    ensures Entries(w) == FinalLedger(Entries(w), run) && w.up == FinalUp(Entries(w), w.up, run)
  {
    forall k | k in w.store
      ensures OthersRefs(w.store[k].entry.refs, run) == w.store[k].entry.refs
    {
      OthersRefsMembers(w.store[k].entry.refs, run);
    }
  }

  /** How far an attempt gets does not change what can be deleted. */
  lemma ProgressKeepsDeletable(w: World, now: World, run: string)
    requires Progress(w, now, run)
    ensures Deletable(now, run) <==> Deletable(w, run)
  {
    forall k
      ensures BlockedAt(now, k, run) <==> BlockedAt(w, k, run)
    {
      assert ProgressAt(w, now, run, k);
    }
  }

  lemma CompletedWasDeletable(w: World, now: World, run: string)
    requires Progress(w, now, run) && Completed(now, run)
    ensures Deletable(w, run)
  {
    forall k
      ensures !BlockedAt(w, k, run)
    {
      assert ProgressAt(w, now, run, k);
      if k in now.store {
        OthersRefsMembers(now.store[k].entry.refs, run);
      }
    }
  }

  /**
   What one whole rollback does: it gets somewhere, and it succeeds exactly if no call fails and
   nothing is undeletable.
   */
  ghost predicate RollbackEffect(w: World, now: World, run: string, ok: bool, faulty: bool) {
    && Progress(w, now, run)
    && (ok <==> !faulty && Deletable(w, run))
    && (ok ==> Completed(now, run))
  }

  /** The i-th attempt got somewhere from where the one before it had stopped. */
  ghost predicate Attempted(w: World, attempts: seq<World>, run: string, i: nat)
    requires i < |attempts|
  {
    Progress(if i == 0 then w else attempts[i - 1], attempts[i], run)
  }

  function LastOf(w: World, attempts: seq<World>): World {
    if attempts == [] then w else attempts[|attempts| - 1]
  }

  /**
   Any attempts that failed or crashed at any call, followed by one none of whose calls fails: that
   one succeeds exactly if everything that had to go at the outset can be deleted, and then ledger
   and upstream are those of a single failure-free rollback.
   */
  lemma RollbackIsConfluent(w: World, attempts: seq<World>, last: World, run: string, ok: bool)
    requires EntriesOk(w) && forall i :: 0 <= i < |attempts| ==> Attempted(w, attempts, run, i)
    requires RollbackEffect(LastOf(w, attempts), last, run, ok, false)
    ensures ok <==> Deletable(w, run)
    ensures ok ==> Entries(last) == FinalLedger(Entries(w), run) && last.up == FinalUp(Entries(w), w.up, run)
  {
    if attempts != [] {
      AttemptsProgress(w, attempts, |attempts| - 1, run);
      ProgressKeepsDeletable(w, LastOf(w, attempts), run);
      ProgressTransitive(w, LastOf(w, attempts), last, run);
    }
    if ok {
      ProgressKeepsFinal(w, last, run);
      CompletedIsFinal(last, run);
    }
  }

  lemma {:induction false} AttemptsProgress(w: World, attempts: seq<World>, n: nat, run: string)
    requires n < |attempts|
    requires forall i :: 0 <= i < |attempts| ==> Attempted(w, attempts, run, i)
    ensures Progress(w, attempts[n], run)
  {
    assert Attempted(w, attempts, run, n);
    if n > 0 {
      AttemptsProgress(w, attempts, n - 1, run);
      ProgressTransitive(w, attempts[n - 1], attempts[n], run);
    }
  }

  /** Rolling back two runs gives the same in either order. */
  lemma RollbacksCommute(l: map<Key, Entry>, up: map<Key, Object>, a: string, b: string)
    ensures FinalLedger(FinalLedger(l, a), b) == FinalLedger(FinalLedger(l, b), a)
    ensures FinalUp(FinalLedger(l, a), FinalUp(l, up, a), b) == FinalUp(FinalLedger(l, b), FinalUp(l, up, b), a)
  {
    var la, lb := FinalLedger(l, a), FinalLedger(l, b);
    forall k
      ensures k in FinalLedger(la, b) <==> k in FinalLedger(lb, a)
      ensures k in FinalLedger(la, b) ==> FinalLedger(la, b)[k] == FinalLedger(lb, a)[k]
      ensures Doomed(l, k, a) || Doomed(la, k, b) <==> Doomed(l, k, b) || Doomed(lb, k, a)
    {
      if k in l {
        OthersCommute(l[k].refs, a, b);
      }
    }
    forall k
      ensures k in FinalUp(la, FinalUp(l, up, a), b) <==> k in FinalUp(lb, FinalUp(l, up, b), a)
    {
    }
  }

  lemma {:induction false} OthersCommute(refs: seq<Ref>, a: string, b: string)
    ensures OthersRefs(OthersRefs(refs, a), b) == OthersRefs(OthersRefs(refs, b), a)
    ensures OthersRefs(refs, a) == [] ==> OthersRefs(OthersRefs(refs, b), a) == []
    ensures OthersRefs(refs, b) == [] ==> OthersRefs(OthersRefs(refs, a), b) == []
  {
    if refs != [] {
      OthersCommute(refs[1..], a, b);
      OthersOfOthers(refs, a, b);
      OthersOfOthers(refs, b, a);
    }
  }

  lemma OthersOfOthers(refs: seq<Ref>, a: string, b: string)
    requires refs != []
    ensures OthersRefs(OthersRefs(refs, a), b) ==
              (if refs[0].run == a || refs[0].run == b then [] else [refs[0]]) + OthersRefs(OthersRefs(refs[1..], a), b)
  {
    if refs[0].run != a {
      assert OthersRefs(refs, a)[1..] == OthersRefs(refs[1..], a);
    } else {
      assert OthersRefs(refs, a) == OthersRefs(refs[1..], a);
    }
  }
}
