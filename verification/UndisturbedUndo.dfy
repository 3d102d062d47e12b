/**
 The class of `Undo` and the state machine of `Protocol` are the same code too: a rollback that nobody
 disturbs and whose calls do not fail is a schedule of the state machine with only that run's calls,
 and ends in the ledger and the upstream that `Rollback` specifies.
 */
module UndisturbedUndo {
  import opened Types
  import opened LedgerRules
  import opened Protocol
  import opened Safety
  import opened LedgerTheorems
  import C = Cluster
  import L = Ledger
  import RB = Rollback
  import U = Undo

  /** The state as the class sees it; what an upstream object contains does not matter here. */
  function WorldOf(s: State): C.World {
    C.World(s.store, s.clock, map k | k in s.up :: C.Object("", ""))
  }

  predicate UndoCall(act: Act) {
    || act.BeginRollback? || act.ListTombstones? || act.DeleteUpstream? || act.FinishGet? || act.FinishRemove?
    || act.ListMine? || act.GetForRelease? || act.UpdateForRelease? || act.DropEntry?
  }

  /** Nobody but a is finishing anything. */
  ghost predicate OnlyFinisher(s: State, a: Actor) {
    forall b :: b != a ==> Holds(PcOf(s, b)) == {}
  }

  /** Run r alone, by calls of its rollback, leads from s to s2. */
  ghost predicate Leads(s: State, r: string, moves: seq<Move>, s2: State) {
    && ExclusivePath(s, moves, s2) && Inv(s2) && OnlyFinisher(s2, Run(r))
    && RB.Progress(WorldOf(s), WorldOf(s2), r)
    && forall move :: move in moves ==> move.actor == Run(r) && UndoCall(move.act)
  }

  /** One call more, which gets the rollback on. */
  lemma Then(s: State, r: string, moves: seq<Move>, s1: State, act: Act) returns (moves2: seq<Move>, s2: State)
    requires Leads(s, r, moves, s1) && Can(s1, Run(r), act) && UndoCall(act)
    requires RB.Progress(WorldOf(s1), WorldOf(Do(s1, Run(r), act)), r)
    ensures Leads(s, r, moves2, s2) && s2 == Do(s1, Run(r), act)
  {
    s2 := Do(s1, Run(r), act);
    forall b | b != Run(r)
      ensures PcOf(s2, b) == PcOf(s1, b)
    {
      OthersStay(s1, Run(r), act, b);
    }
    assert Exclusive(s1, Run(r), act);
    StepKeepsInv(s1, Run(r), act);
    ExtendExclusive(s, moves, s1, Run(r), act);
    moves2 := moves + [Move(Run(r), act)];
    RB.ProgressTransitive(WorldOf(s), WorldOf(s1), WorldOf(s2), r);
  }

  lemma StandsStill(s: State, s2: State, r: string)
    requires StoreOk(s2) && s2.store == s.store && s2.up == s.up
    ensures RB.Progress(WorldOf(s), WorldOf(s2), r)
  {
    U.StandingStill(WorldOf(s), r);
    assert WorldOf(s2).store == WorldOf(s).store && WorldOf(s2).up == WorldOf(s).up;
    forall k
      ensures RB.ProgressAt(WorldOf(s), WorldOf(s2), r, k)
    {
      assert RB.ProgressAt(WorldOf(s), WorldOf(s), r, k);
    }
  }

  /** One call more that changes neither ledger nor upstream. */
  lemma ThenTo(s: State, r: string, moves: seq<Move>, s1: State, act: Act, pc: Pc)
    returns (moves2: seq<Move>, s2: State)
    requires Leads(s, r, moves, s1) && Can(s1, Run(r), act) && UndoCall(act)
    requires var s2 := Do(s1, Run(r), act); s2.store == s1.store && s2.up == s1.up && PcOf(s2, Run(r)) == pc
    ensures Leads(s, r, moves2, s2) && s2.store == s1.store && s2.up == s1.up && PcOf(s2, Run(r)) == pc
  {
    StandsStill(s1, Do(s1, Run(r), act), r);
    moves2, s2 := Then(s, r, moves, s1, act);
  }

  // ---- finishing a tombstone ----

  /** The entry goes, behind its resource if the wizard manages that. */
  lemma GoneIsProgress(s: State, s2: State, k: Key, r: string)
    requires StoreOk(s) && IsTombstone(s, k) && !StuckAt(s, k) && s2.up == s.up
    requires s2.store == s.store - {k} && (s.store[k].entry.managed ==> k !in s.up)
    ensures RB.Progress(WorldOf(s), WorldOf(s2), r)
  {
    assert U.SweptAt(WorldOf(s), WorldOf(s2), k) && U.SameElsewhere(WorldOf(s), WorldOf(s2), k);
    U.FinishIsProgress(WorldOf(s), WorldOf(s2), k, r);
  }

  lemma DeletedIsProgress(s: State, s2: State, k: Key, r: string)
    requires StoreOk(s) && IsTombstone(s, k) && !StuckAt(s, k) && s.store[k].entry.managed
    requires s2.store == s.store && s2.up == s.up - {k}
    ensures RB.Progress(WorldOf(s), WorldOf(s2), r)
  {
    assert U.SweptAt(WorldOf(s), WorldOf(s2), k) && U.SameElsewhere(WorldOf(s), WorldOf(s2), k);
    U.FinishIsProgress(WorldOf(s), WorldOf(s2), k, r);
  }

  /** Where a rollback stands before a tombstone it is going to finish. */
  ghost predicate Before(s: State, r: string, k: Key) {
    var pc := PcOf(s, Run(r));
    && HasItem(pc) && Current(pc) == k && IsTombstone(s, k) && !StuckAt(s, k) && (pc.Release? ==> pc.at.Finishing?)
    && RecordOf(pc) == s.store[k].entry && IsAt(pc, if s.store[k].entry.managed then Deleting else FinishRead)
  }

  lemma DeleteLeads(s: State, r: string, moves: seq<Move>, s1: State, k: Key) returns (moves2: seq<Move>, s2: State)
    requires Leads(s, r, moves, s1) && Before(s1, r, k) && s1.store[k].entry.managed
    ensures Leads(s, r, moves2, s2) && s2.store == s1.store && k !in s2.up
    ensures PcOf(s2, Run(r)) == AtStage(PcOf(s1, Run(r)), FinishRead)
  {
    DeletedIsProgress(s1, Do(s1, Run(r), DeleteUpstream), k, r);
    moves2, s2 := Then(s, r, moves, s1, DeleteUpstream);
  }

  lemma ClearLeads(s: State, r: string, moves: seq<Move>, s1: State, k: Key) returns (moves2: seq<Move>, s2: State)
    requires Leads(s, r, moves, s1) && IsTombstone(s1, k) && !StuckAt(s1, k)
             && (s1.store[k].entry.managed ==> k !in s1.up)
    requires var pc := PcOf(s1, Run(r)); HasItem(pc) && Current(pc) == k && IsAt(pc, FinishRead)
    ensures Leads(s, r, moves2, s2) && s2.store == s1.store - {k}
    ensures PcOf(s2, Run(r)) == Advance(PcOf(s1, Run(r)), true)
  {
    moves2, s2 := ThenTo(s, r, moves, s1, FinishGet, AtStage(PcOf(s1, Run(r)), FinishDelete));
    GoneIsProgress(s2, Do(s2, Run(r), FinishRemove), k, r);
    moves2, s2 := Then(s, r, moves2, s2, FinishRemove);
  }

  lemma FinishLeads(s: State, r: string, moves: seq<Move>, s1: State, k: Key) returns (moves2: seq<Move>, s2: State)
    requires Leads(s, r, moves, s1) && Before(s1, r, k)
    ensures Leads(s, r, moves2, s2) && s2.store == s1.store - {k}
    ensures PcOf(s2, Run(r)) == Advance(PcOf(s1, Run(r)), true)
  {
    moves2, s2 := moves, s1;
    if s1.store[k].entry.managed {
      moves2, s2 := DeleteLeads(s, r, moves, s1, k);
    }
    moves2, s2 := ClearLeads(s, r, moves2, s2, k);
  }

  // ---- the sweep ----

  ghost predicate NoTombstones(s: State) {
    forall k :: !IsTombstone(s, k)
  }

  /** What is left of a sweep's list is what is left of the tombstones. */
  ghost predicate ListsRest(s: State, listed: seq<Held>) {
    HeldOk(s, listed) && forall k :: IsTombstone(s, k) ==> Held(k, s.store[k].entry) in listed && !StuckAt(s, k)
  }

  lemma RestOf(s: State, s2: State, listed: seq<Held>)
    requires listed != [] && ListsRest(s, listed) && s2.store == s.store - {listed[0].key}
    ensures ListsRest(s2, listed[1..])
  {
    HeldTail(s, listed);
    forall k | IsTombstone(s2, k)
      ensures Held(k, s2.store[k].entry) in listed[1..]
    {
      assert Held(k, s.store[k].entry) in listed;
    }
  }

  lemma {:induction false} SweepLeads(s: State, r: string, moves: seq<Move>, s1: State, listed: seq<Held>)
    returns (moves2: seq<Move>, s2: State)
    requires Leads(s, r, moves, s1) && ListsRest(s1, listed) && PcOf(s1, Run(r)) == NextSweep(true, true, listed)
    ensures Leads(s, r, moves2, s2) && NoTombstones(s2) && PcOf(s2, Run(r)) == RollbackList(true)
    decreases |listed|
  {
    if listed == [] {
      moves2, s2 := moves, s1;
    } else {
      assert listed[0] in listed;
      moves2, s2 := FinishLeads(s, r, moves, s1, listed[0].key);
      RestOf(s1, s2, listed);
      moves2, s2 := SweepLeads(s, r, moves2, s2, listed[1..]);
    }
  }

  // ---- the releases ----

  lemma DropsAsRead(s: State, r: string, todo: seq<Claim>)
    requires Inv(s) && PcOf(s, Run(r)) == Release(true, todo, Reading) && todo != [] && todo[0].key in s.store
    requires WithoutRef(s.store[todo[0].key].entry, todo[0].ref) != s.store[todo[0].key].entry
    ensures PcOf(Do(s, Run(r), GetForRelease), Run(r)) == Release(true, todo, Updating(s.store[todo[0].key]))
  {
  }

  /** A drop that changes the entry: read and update. */
  lemma DropLeads(s: State, r: string, moves: seq<Move>, s1: State, todo: seq<Claim>)
    returns (moves2: seq<Move>, s2: State)
    requires Leads(s, r, moves, s1) && PcOf(s1, Run(r)) == Release(true, todo, Reading) && todo != []
             && todo[0].ref.run == r
    requires todo[0].key in s1.store
             && WithoutRef(s1.store[todo[0].key].entry, todo[0].ref) != s1.store[todo[0].key].entry
    ensures Leads(s, r, moves2, s2) && s2.up == s1.up
    ensures var k, e := todo[0].key, WithoutRef(s1.store[todo[0].key].entry, todo[0].ref);
            && k in s2.store && s2.store == s1.store[k := s2.store[k]] && s2.store[k].entry == e
            && PcOf(s2, Run(r)) == AfterRelease(true, todo, e)
  {
    var c := todo[0];
    DropsAsRead(s1, r, todo);
    moves2, s2 := ThenTo(s, r, moves, s1, GetForRelease, Release(true, todo, Updating(s1.store[c.key])));
    var next := Do(s2, Run(r), UpdateForRelease);
    DropIsDrop(s2, next, c.key, c.ref);
    moves2, s2 := Then(s, r, moves2, s2, UpdateForRelease);
  }

  lemma DropIsDrop(s: State, s2: State, k: Key, ref: Ref)
    requires StoreOk(s) && k in s.store && WithoutRef(s.store[k].entry, ref) != s.store[k].entry && s2.up == s.up
    requires s2.store == Write(s, k, WithoutRef(s.store[k].entry, ref)).store
    ensures RB.Progress(WorldOf(s), WorldOf(s2), ref.run)
  {
    U.DropIsProgress(WorldOf(s), k, ref);
    var now := L.AfterDrop(WorldOf(s), k, ref);
    assert now.store == WorldOf(s2).store && now.up == WorldOf(s2).up;
    forall k2
      ensures RB.ProgressAt(WorldOf(s), WorldOf(s2), ref.run, k2)
    {
      assert RB.ProgressAt(WorldOf(s), now, ref.run, k2);
    }
  }

  /** What a drop has left without references is finished. */
  lemma EmptiedLeads(s: State, r: string, moves: seq<Move>, s1: State, todo: seq<Claim>, e: Entry)
    returns (moves2: seq<Move>, s2: State)
    requires Leads(s, r, moves, s1) && todo != [] && e.refs == [] && PcOf(s1, Run(r)) == AfterRelease(true, todo, e)
    requires todo[0].key in s1.store && s1.store[todo[0].key].entry == e && !Stuck(todo[0].key, e)
    ensures Leads(s, r, moves2, s2) && s2.store == s1.store - {todo[0].key}
            && PcOf(s2, Run(r)) == NextRelease(true, todo[1..])
  {
    assert PcOk(s1, Run(r), PcOf(s1, Run(r)));
    if e.managed {
      moves2, s2 := FinishLeads(s, r, moves, s1, todo[0].key);
    } else {
      GoneIsProgress(s1, Do(s1, Run(r), DropEntry), todo[0].key, r);
      moves2, s2 := Then(s, r, moves, s1, DropEntry);
    }
  }

  lemma StillNone(s: State, s2: State, k: Key)
    requires NoTombstones(s) && (k in s2.store ==> s2.store[k].entry.refs != [])
    requires forall k2 :: k2 != k && k2 in s2.store ==> k2 in s.store && s2.store[k2] == s.store[k2]
    ensures NoTombstones(s2)
  {
    forall k2
      ensures !IsTombstone(s2, k2)
    {
      assert !IsTombstone(s, k2);
    }
  }

  /** A release that finds nothing to drop. */
  lemma PassLeads(s: State, r: string, moves: seq<Move>, s1: State, todo: seq<Claim>)
    returns (moves2: seq<Move>, s2: State)
    requires Leads(s, r, moves, s1) && PcOf(s1, Run(r)) == Release(true, todo, Reading) && todo != []
             && NoTombstones(s1)
    requires todo[0].key in s1.store ==>
             WithoutRef(s1.store[todo[0].key].entry, todo[0].ref) == s1.store[todo[0].key].entry
    ensures Leads(s, r, moves2, s2) && NoTombstones(s2) && PcOf(s2, Run(r)) == NextRelease(true, todo[1..])
  {
    if todo[0].key in s1.store {
      assert WellFormed(s1.store[todo[0].key].entry) && !IsTombstone(s1, todo[0].key);
    }
    moves2, s2 := ThenTo(s, r, moves, s1, GetForRelease, NextRelease(true, todo[1..]));
    assert forall k :: IsTombstone(s2, k) <==> IsTombstone(s1, k);
  }

  /** One that drops. */
  lemma DropAndFinishLeads(s: State, r: string, moves: seq<Move>, s1: State, todo: seq<Claim>)
    returns (moves2: seq<Move>, s2: State)
    requires Leads(s, r, moves, s1) && PcOf(s1, Run(r)) == Release(true, todo, Reading) && todo != []
             && todo[0].ref.run == r
    requires todo[0].key in s1.store
             && WithoutRef(s1.store[todo[0].key].entry, todo[0].ref) != s1.store[todo[0].key].entry
    requires NoTombstones(s1) && !RB.BlockedAt(WorldOf(s1), todo[0].key, r)
    ensures Leads(s, r, moves2, s2) && NoTombstones(s2) && PcOf(s2, Run(r)) == NextRelease(true, todo[1..])
  {
    var c := todo[0];
    var e := WithoutRef(s1.store[c.key].entry, c.ref);
    moves2, s2 := DropLeads(s, r, moves, s1, todo);
    if e.refs == [] {
      assert WellFormed(e);
      U.LastOneIsDoomed(WorldOf(s1), c.key, c.ref);
      moves2, s2 := EmptiedLeads(s, r, moves2, s2, todo, e);
    }
    StillNone(s1, s2, c.key);
  }

  /** One release, to its end. */
  lemma ReleaseLeads(s: State, r: string, moves: seq<Move>, s1: State, todo: seq<Claim>)
    returns (moves2: seq<Move>, s2: State)
    requires Leads(s, r, moves, s1) && PcOf(s1, Run(r)) == Release(true, todo, Reading) && todo != []
             && todo[0].ref.run == r
    requires NoTombstones(s1) && !RB.BlockedAt(WorldOf(s1), todo[0].key, r)
    ensures Leads(s, r, moves2, s2) && NoTombstones(s2) && PcOf(s2, Run(r)) == NextRelease(true, todo[1..])
  {
    var c := todo[0];
    if c.key in s1.store && WithoutRef(s1.store[c.key].entry, c.ref) != s1.store[c.key].entry {
      moves2, s2 := DropAndFinishLeads(s, r, moves, s1, todo);
    } else {
      moves2, s2 := PassLeads(s, r, moves, s1, todo);
    }
  }

  lemma {:induction false} ReleasesLead(s: State, r: string, moves: seq<Move>, s1: State, todo: seq<Claim>)
    returns (moves2: seq<Move>, s2: State)
    requires Leads(s, r, moves, s1) && PcOf(s1, Run(r)) == NextRelease(true, todo)
             && (forall c :: c in todo ==> c.ref.run == r)
    requires NoTombstones(s1) && RB.Deletable(WorldOf(s), r)
    ensures Leads(s, r, moves2, s2) && NoTombstones(s2) && PcOf(s2, Run(r)) == RollbackDone(true)
    decreases |todo|
  {
    if todo == [] {
      moves2, s2 := moves, s1;
    } else {
      assert todo[0] in todo && forall c :: c in todo[1..] ==> c in todo;
      RB.ProgressKeepsDeletable(WorldOf(s), WorldOf(s1), r);
      moves2, s2 := ReleaseLeads(s, r, moves, s1, todo);
      moves2, s2 := ReleasesLead(s, r, moves2, s2, todo[1..]);
    }
  }

  // ---- the lists ----

  lemma {:induction false} TombstonesOf(s: State, keys: set<Key>) returns (held: seq<Held>)
    requires keys <= s.store.Keys
    ensures NoDuplicates(held) && forall h :: h in held <==>
              h.key in keys && IsTombstone(s, h.key) && s.store[h.key].entry == h.entry
    decreases keys
  {
    if keys == {} {
      held := [];
    } else {
      var k :| k in keys;
      held := TombstonesOf(s, keys - {k});
      if IsTombstone(s, k) {
        held := [Held(k, s.store[k].entry)] + held;
      }
    }
  }

  lemma {:induction false} ClaimsOf(s: State, r: string, keys: set<Key>) returns (claims: seq<Claim>)
    requires keys <= s.store.Keys
    ensures forall c :: c in claims <==> c.key in keys && c.ref.run == r && c.ref in s.store[c.key].entry.refs
    decreases keys
  {
    if keys == {} {
      claims := [];
    } else {
      var k :| k in keys;
      var refs := RefsOf(s.store[k].entry.refs, r);
      RefsOfMembers(s.store[k].entry.refs, r);
      var mine := seq(|refs|, i requires 0 <= i < |refs| => Claim(k, refs[i]));
      assert forall c: Claim :: c in mine <==> c.key == k && c.ref in refs by {
        forall c: Claim | c.key == k && c.ref in refs
          ensures c in mine
        {
          var i :| 0 <= i < |refs| && refs[i] == c.ref;
          assert mine[i] == c;
        }
      }
      var rest := ClaimsOf(s, r, keys - {k});
      claims := mine + rest;
    }
  }

  /** A rollback begins and comes to its sweep. */
  lemma BeginsLeads(s: State, r: string) returns (moves: seq<Move>, s2: State, listed: seq<Held>)
    requires Inv(s) && OnlyFinisher(s, Run(r)) && PcOf(s, Run(r)) == Idle && RB.Deletable(WorldOf(s), r)
    ensures Leads(s, r, moves, s2) && ListsRest(s2, listed) && PcOf(s2, Run(r)) == NextSweep(true, true, listed)
  {
    StandsStill(s, s, r);
    moves, s2 := ThenTo(s, r, [], s, BeginRollback, SweepList(true));
    listed := TombstonesOf(s2, s2.store.Keys);
    moves, s2 := ThenTo(s, r, moves, s2, ListTombstones(listed), NextSweep(true, true, listed));
    U.StuckIsBlocked(WorldOf(s), r);
    forall k | IsTombstone(s2, k)
      ensures !StuckAt(s2, k)
    {
      assert !U.StuckAt(WorldOf(s), k);
    }
  }

  /**
   A rollback that is alone and can delete what has to go ends, by its own calls, with success and in
   the ledger and upstream that are specified for it.
   */
  lemma RollbackLeads(s: State, r: string) returns (moves: seq<Move>, s2: State)
    requires Inv(s) && OnlyFinisher(s, Run(r)) && PcOf(s, Run(r)) == Idle && RB.Deletable(WorldOf(s), r)
    ensures Leads(s, r, moves, s2) && PcOf(s2, Run(r)) == RollbackDone(true)
    ensures RB.Entries(WorldOf(s2)) == RB.FinalLedger(RB.Entries(WorldOf(s)), r)
    ensures WorldOf(s2).up == RB.FinalUp(RB.Entries(WorldOf(s)), WorldOf(s).up, r)
  {
    var listed;
    moves, s2, listed := BeginsLeads(s, r);
    moves, s2 := SweepLeads(s, r, moves, s2, listed);
    var claims := ClaimsOf(s2, r, s2.store.Keys);
    var s1 := s2;
    moves, s2 := ThenTo(s, r, moves, s2, ListMine(claims), NextRelease(true, claims));
    assert forall k :: IsTombstone(s2, k) <==> IsTombstone(s1, k);
    moves, s2 := ReleasesLead(s, r, moves, s2, claims);
    DoneIsCompleted(s2, r);
    RB.ProgressKeepsFinal(WorldOf(s), WorldOf(s2), r);
    RB.CompletedIsFinal(WorldOf(s2), r);
  }

  lemma DoneIsCompleted(s: State, r: string)
    requires Inv(s) && PcOf(s, Run(r)) == RollbackDone(true) && NoTombstones(s)
    ensures RB.Completed(WorldOf(s), r)
  {
    assert PcOk(s, Run(r), PcOf(s, Run(r)));
    forall k | k in s.store
      ensures s.store[k].entry.refs != [] && forall ref :: ref in s.store[k].entry.refs ==> ref.run != r
    {
      assert !IsTombstone(s, k) && WellFormed(s.store[k].entry);
      forall ref | ref in s.store[k].entry.refs
        ensures ref.run != r
      {
        assert HasRef(s, k, ref);
      }
    }
  }
}
