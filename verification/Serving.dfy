/**
 What can block an Ensure for good.  A tombstone whose resource cannot be deleted does, and it does
 come about; without one, and with a resource that is missing or as the step wants it, some schedule
 of ledger calls completes the Ensure, whatever else others have left behind wherever they stopped.
 */
module Serving {
  import opened Types
  import opened LedgerRules
  import opened Protocol
  import opened Safety
  import opened LedgerTheorems
  import opened System
  import opened SystemTheorems
  import C = Cluster
  import E = Ensure
  import U = Undisturbed
  import Un = Undo
  import N = Necessity

  lemma {:induction false} TraceOn(a: Sys, events: seq<Event>, b: Sys, more: seq<Event>, c: Sys)
    requires Trace(a, events, b) && Trace(b, more, c)
    ensures Trace(a, events + more, c)
    decreases |events|
  {
    if events == [] {
      assert events + more == more;
    } else {
      TraceOn(SysDo(a, events[0]), events[1..], b, more, c);
      assert (events + more)[1..] == events[1..] + more;
    }
  }

  lemma OneEvent(s: Sys, e: Event)
    requires SysCan(s, e)
    ensures Trace(s, [e], SysDo(s, e))
  {
    assert [e][1..] == [];
    assert Trace(SysDo(s, e), [], SysDo(s, e));
  }

  /** Ledger calls lead from s to s2, and none of them is run r's own. */
  ghost predicate OthersLead(s: Sys, r: string, events: seq<Event>, s2: Sys) {
    Trace(s, events, s2) && AsFound(events, false) && RunPc(s2, r) == RunPc(s, r)
  }

  /** One ledger call more. */
  lemma ThenCall(s: Sys, r: string, events: seq<Event>, s1: Sys, a: Actor, act: Act)
    returns (events2: seq<Event>, s2: Sys)
    requires OthersLead(s, r, events, s1) && a != Run(r) && SysCan(s1, Ledger(a, act)) && !Outside(act) && !act.Probe?
    ensures OthersLead(s, r, events2, s2) && s2 == SysDo(s1, Ledger(a, act))
    ensures forall b :: b != a ==> PcOf(s2.p, b) == PcOf(s1.p, b)
  {
    var e := Ledger(a, act);
    OneEvent(s1, e);
    TraceOn(s, events, s1, [e], SysDo(s1, e));
    events2, s2 := events + [e], SysDo(s1, e);
    forall b | b != a
      ensures PcOf(s2.p, b) == PcOf(s1.p, b)
    {
      OthersStay(s1.p, a, act, b);
    }
  }

  ghost predicate OthersIdle(s: Sys, r: string) {
    forall b :: b != Run(r) ==> PcOf(s.p, b) == Idle
  }

  /** Everybody else stops where they are. */
  lemma {:induction false} OthersStop(s: Sys, r: string, events: seq<Event>, s1: Sys, busy: set<Actor>)
    returns (events2: seq<Event>, s2: Sys)
    requires OthersLead(s, r, events, s1) && forall b :: b != Run(r) && b !in busy ==> PcOf(s1.p, b) == Idle
    ensures OthersLead(s, r, events2, s2) && OthersIdle(s2, r) && s2.p.store == s1.p.store && s2.p.up == s1.p.up
    decreases busy
  {
    if busy == {} {
      events2, s2 := events, s1;
    } else {
      var b :| b in busy;
      if b == Run(r) {
        events2, s2 := OthersStop(s, r, events, s1, busy - {b});
      } else {
        events2, s2 := ThenCall(s, r, events, s1, b, Abort);
        assert PcOf(s2.p, b) == Idle && s2.p.store == s1.p.store && s2.p.up == s1.p.up;
        events2, s2 := OthersStop(s, r, events2, s2, busy - {b});
      }
    }
  }

  lemma {:induction false} ListOf(s: State, keys: set<Key>) returns (held: seq<Held>)
    requires keys <= s.store.Keys && forall k :: k in keys ==> IsTombstone(s, k)
    ensures NoDuplicates(held) && forall h :: h in held <==> h.key in keys && s.store[h.key].entry == h.entry
    decreases keys
  {
    if keys == {} {
      held := [];
    } else {
      var k :| k in keys;
      var rest := ListOf(s, keys - {k});
      held := [Held(k, s.store[k].entry)] + rest;
    }
  }

  /** The tombstones of a ledger, k first. */
  lemma ListFrom(s: State, k: Key) returns (held: seq<Held>)
    requires IsTombstone(s, k)
    ensures held != [] && held[0] == Held(k, s.store[k].entry) && ListsTombstones(s, held)
  {
    var others := set k2 | k2 in s.store && Tombstone(s.store[k2].entry) && k2 != k;
    var rest := ListOf(s, others);
    held := [Held(k, s.store[k].entry)] + rest;
    assert held[1..] == rest;
    forall h
      ensures h in held <==> IsTombstone(s, h.key) && s.store[h.key].entry == h.entry
    {
      assert h in held <==> h == held[0] || h in rest;
    }
  }

  /** Nobody but run r and one sweeper is in the middle of anything, and r is finishing nothing. */
  ghost predicate OneSweeper(s: Sys, r: string, b: Actor) {
    && b.Sweeper? && Holds(RunPc(s, r)) == {}
    && forall c :: c != Run(r) && c != b ==> PcOf(s.p, c) == Idle
  }

  lemma SweeperGoesOn(s: Sys, r: string, events: seq<Event>, s1: Sys, b: Actor, act: Act)
    returns (events2: seq<Event>, s2: Sys)
    requires OthersLead(s, r, events, s1) && OneSweeper(s1, r, b) && Can(s1.p, b, act) && !Outside(act) && !act.Probe?
    ensures OthersLead(s, r, events2, s2) && OneSweeper(s2, r, b) && s2.p == Do(s1.p, b, act)
  {
    forall k, c | c != b
      ensures k !in Holds(PcOf(s1.p, c))
    {
    }
    events2, s2 := ThenCall(s, r, events, s1, b, act);
  }

  /** With the others stopped, a sweeper can start on a tombstone. */
  lemma SweepStarts(s: Sys, r: string, events: seq<Event>, s1: Sys, b: Actor, k: Key)
    returns (events2: seq<Event>, s2: Sys, held: seq<Held>)
    requires OthersLead(s, r, events, s1) && OneSweeper(s1, r, b) && PcOf(s1.p, b) == Idle && IsTombstone(s1.p, k)
    ensures OthersLead(s, r, events2, s2) && OneSweeper(s2, r, b) && s2.p.store == s1.p.store && s2.p.up == s1.p.up
    ensures held != [] && held[0] == Held(k, s1.p.store[k].entry)
    ensures PcOf(s2.p, b) == Sweep(false, true, held, if held[0].entry.managed then Deleting else FinishRead)
  {
    held := ListFrom(s1.p, k);
    events2, s2 := SweeperGoesOn(s, r, events, s1, b, BeginSweep);
    assert PcOf(s2.p, b) == SweepList(false) && s2.p.store == s1.p.store && s2.p.up == s1.p.up;
    assert ListsTombstones(s2.p, held);
    events2, s2 := SweeperGoesOn(s, r, events2, s2, b, ListTombstones(held));
  }

  /** It finishes what needs no deletion upstream any more. */
  lemma SweepFinishes(s: Sys, r: string, events: seq<Event>, s1: Sys, b: Actor, held: seq<Held>)
    returns (events2: seq<Event>, s2: Sys)
    requires OthersLead(s, r, events, s1) && OneSweeper(s1, r, b) && held != [] && held[0].key in s1.p.store
    requires PcOf(s1.p, b) == Sweep(false, true, held, FinishRead)
    ensures OthersLead(s, r, events2, s2) && held[0].key !in s2.p.store && s2.p.up == s1.p.up
  {
    events2, s2 := SweeperGoesOn(s, r, events, s1, b, FinishGet);
    assert PcOf(s2.p, b) == Sweep(false, true, held, FinishDelete);
    events2, s2 := SweeperGoesOn(s, r, events2, s2, b, FinishRemove);
  }

  /** And takes it away, unless its resource would have to be deleted and cannot be. */
  lemma SweepTakes(s: Sys, r: string, events: seq<Event>, s1: Sys, k: Key) returns (events2: seq<Event>, s2: Sys)
    requires OthersLead(s, r, events, s1) && OthersIdle(s1, r) && Holds(RunPc(s1, r)) == {}
    requires IsTombstone(s1.p, k) && !StuckAt(s1.p, k)
    ensures OthersLead(s, r, events2, s2) && k !in s2.p.store
    ensures s2.p.up == if s1.p.store[k].entry.managed then s1.p.up - {k} else s1.p.up
  {
    var b, held := Sweeper(0), [];
    events2, s2, held := SweepStarts(s, r, events, s1, b, k);
    if held[0].entry.managed {
      assert IsAt(PcOf(s2.p, b), Deleting) && Current(PcOf(s2.p, b)) == k && RecordOf(PcOf(s2.p, b)) == held[0].entry;
      events2, s2 := SweeperGoesOn(s, r, events2, s2, b, DeleteUpstream);
    }
    events2, s2 := SweepFinishes(s, r, events2, s2, b, held);
  }

  /** The step's own calls are events. */
  lemma {:induction false} OwnCallsLead(s: Sys, r: string, fits: bool, moves: seq<Move>, p2: State)
    returns (events: seq<Event>, s2: Sys)
    requires U.Leads(s.p, Run(r), fits, moves, p2)
    ensures Trace(s, events, s2) && s2.p == p2 && AsFound(events, fits)
    decreases |moves|
  {
    if moves == [] {
      events, s2 := [], s;
    } else {
      var e := Ledger(Run(r), moves[0].act);
      assert moves[0] in moves && forall move :: move in moves[1..] ==> move in moves;
      assert SysCan(s, e);
      var rest;
      rest, s2 := OwnCallsLead(SysDo(s, e), r, fits, moves[1..], p2);
      events := [e] + rest;
      assert events[1..] == rest;
    }
  }

  /** Calls of the wizard alone, which find the resource as the step wants it only if it is. */
  ghost predicate AsFound(events: seq<Event>, fits: bool) {
    forall e :: e in events ==> e.Ledger? && !Outside(e.act) && (e.act.Probe? && e.act.matches ==> fits)
  }

  /** A sweep would take the resource behind this key away. */
  ghost predicate SweptAway(s: State, k: Key) {
    IsTombstone(s, k) && s.store[k].entry.managed
  }

  /**
   Nothing stands in the way of a step that wants this: no tombstone that cannot be finished, no
   resource with other settings, and no live entry whose hash says so.
   */
  ghost predicate Servable(s: State, w: Want, fits: bool) {
    && !StuckAt(s, w.key)
    && (w.key in s.up && !SweptAway(s, w.key) ==> fits && NoClash(s, w))
  }

  /** Nothing in the ledger contradicts what the step wants. */
  ghost predicate NoClash(s: State, w: Want) {
    w.key in s.store && !s.store[w.key].entry.terminating ==> !E.HashesClash(s.store[w.key].entry.hash, w.hash)
  }

  lemma AliveIsServed(s: Sys, r: string, w: Want, fits: bool) returns (events: seq<Event>, s2: Sys)
    requires RunPc(s, r) == EnsureRead(w) && w.ref.run == r
    requires w.key in s.p.store ==> !s.p.store[w.key].entry.terminating
    requires w.key in s.p.up ==> fits && NoClash(s.p, w)
    ensures Trace(s, events, s2) && AsFound(events, fits) && RunPc(s2, r) == EnsureDone(w)
  {
    var o := C.Object("", "");
    var m := E.Recipe(w.key, w.hash, w.claim, x => fits, o, if w.alias then Some("") else None);
    var world := C.World(s.p.store, s.p.clock, map k | k in s.p.up :: o);
    var moves, p2 := U.OutcomeLeads(s.p, world, w.ref, m);
    events, s2 := OwnCallsLead(s, r, U.Fits(world, m), moves, p2);
  }

  /** Where nothing stands in its way, an Ensure can complete, whoever else has stopped where. */
  lemma EnsureCanComplete(s: Sys, r: string, w: Want, fits: bool) returns (events: seq<Event>, s2: Sys)
    requires SysInv(s) && RunPc(s, r) == EnsureRead(w) && w.ref.run == r && Servable(s.p, w, fits)
    ensures Trace(s, events, s2) && AsFound(events, fits) && RunPc(s2, r) == EnsureDone(w)
  {
    if w.key in s.p.store && s.p.store[w.key].entry.terminating {
      assert WellFormed(s.p.store[w.key].entry);
      var stop, swept, s1, own;
      stop, s1 := OthersStop(s, r, [], s, s.p.pcs.Keys);
      swept, s1 := SweepTakes(s, r, stop, s1, w.key);
      own, s2 := AliveIsServed(s1, r, w, fits);
      TraceOn(s, swept, s1, own, s2);
      events := swept + own;
    } else {
      events, s2 := AliveIsServed(s, r, w, fits);
    }
  }

  /**
   Behind a tombstone that cannot be finished no step ever gets the resource again, over any events of
   controllers, users, sweeps and of others outside.
   */
  lemma {:induction false} StuckBlocksForGood(s: Sys, events: seq<Event>, s2: Sys, k: Key)
    requires SysInv(s) && StuckAt(s.p, k) && Trace(s, events, s2)
    ensures StuckAt(s2.p, k) && s2.p.store[k] == s.p.store[k]
    ensures forall r :: !(RunPc(s2, r).EnsureDone? && RunPc(s2, r).w.key == k)
    decreases |events|
  {
    if events != [] {
      SystemKeepsInv(s, events[0]);
      if events[0].Ledger? {
        StuckStep(s.p, events[0].a, events[0].act, k);
      } else {
        CallsAreBoundaries(s, events[0]);
      }
      StuckBlocksForGood(SysDo(s, events[0]), events[1..], s2, k);
    } else {
      forall r | RunPc(s, r).EnsureDone?
        ensures RunPc(s, r).w.key != k
      {
        assert PcOk(s.p, Run(r), RunPc(s, r));
      }
    }
  }

  /**
   Such a tombstone does come about: a run makes an index object, stops before the ID it was given is
   in the entry, and rolls back.
   */
  lemma IndexEntryGetsStuck(k: Key, ref: Ref, id: string) returns (moves: seq<Move>, s: State)
    requires k.service.Index?
    ensures Initial(N.EMPTY) && ExclusivePath(N.EMPTY, moves, s) && (forall m :: m in moves ==> !Outside(m.act))
    ensures StuckAt(s, k) && WizardMade(s, k)
  {
    moves, s := N.LastReference(N.EMPTY, k, ref, id);
  }

  // ---- the same of the classes, exactly ----

  /** Nothing in this world stands in the way of the recipe. */
  ghost predicate Unblocked(w: C.World, m: E.Recipe) {
    && !Un.StuckAt(w, m.key)
    && (m.key in w.up && !(Un.Finishable(w, m.key) && w.store[m.key].entry.managed) ==>
          && m.matches(w.up[m.key])
          && (m.key in w.store && !w.store[m.key].entry.terminating ==>
              !E.HashesClash(w.store[m.key].entry.hash, m.hash)))
  }

  /**
   After a sweep that is alone and has no failing call, such an ensure succeeds exactly if nothing
   stands in its way.
   */
  lemma {:induction false} EnsureAfterSweepIff(w: C.World, swept: C.World, ref: Ref, m: E.Recipe)
    requires C.EntriesOk(w) && Un.WholeSweep(w, swept)
    ensures E.Outcome(swept, ref, m).1.Ok? <==> Unblocked(w, m)
  {
    if m.key in w.store {
      assert WellFormed(w.store[m.key].entry);
    }
  }
}
