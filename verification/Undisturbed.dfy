/**
 The class of `Ensure` and the state machine of `Protocol` are the same code: what the class does in
 one undisturbed pass is a schedule of the state machine in which only that step makes calls.
 */
module Undisturbed {
  import opened Types
  import opened LedgerRules
  import opened Protocol
  import C = Cluster
  import E = Ensure

  /** The ledger and the set of upstream resources are the same in both. */
  ghost predicate Agree(s: State, w: C.World) {
    s.store == w.store && s.clock == w.clock && s.up.Keys == w.up.Keys
  }

  function WantOf(ref: Ref, m: E.Recipe): Want {
    Want(m.key, ref, m.hash, m.claim, m.update.Some?)
  }

  /** A call of an Ensure that would find the resource, if it looks at it, as it wants it, or not. */
  predicate EnsureCall(act: Act, fits: bool) {
    || act.GetEntry? || (act.Probe? && act.matches == fits) || act.Register?
    || act.GetForAdd? || act.UpdateForAdd? || act.Create? || act.Repoint?
  }

  /** Actor a alone, by calls of Ensure, leads from s to s2. */
  ghost predicate Leads(s: State, a: Actor, fits: bool, moves: seq<Move>, s2: State) {
    && ExclusivePath(s, moves, s2)
    && forall move :: move in moves ==> move.actor == a && EnsureCall(move.act, fits)
  }

  /** The resource is there as the recipe wants it. */
  predicate Fits(w: C.World, m: E.Recipe) {
    m.key in w.up && m.matches(w.up[m.key])
  }

  /** One call more. */
  lemma Then(s: State, a: Actor, fits: bool, moves: seq<Move>, s1: State, act: Act)
    returns (moves2: seq<Move>, s2: State)
    requires Leads(s, a, fits, moves, s1) && Can(s1, a, act) && EnsureCall(act, fits)
    ensures Leads(s, a, fits, moves2, s2) && s2 == Do(s1, a, act)
  {
    assert Holds(PcOf(Do(s1, a, act), a)) == {};
    ExtendExclusive(s, moves, s1, a, act);
    moves2, s2 := moves + [Move(a, act)], Do(s1, a, act);
  }

  /** AddRef's read and, where it changes anything, its update. */
  lemma AddLeads(s: State, a: Actor, fits: bool, moves: seq<Move>, s1: State, w: C.World, want: Want, opts: AddOptions,
                 next: AfterAdd)
    returns (moves2: seq<Move>, s2: State)
    requires Leads(s, a, fits, moves, s1) && Agree(s1, w) && PcOf(s1, a) == AddRead(want, opts, next)
    requires want.key in w.store && !w.store[want.key].entry.terminating
    ensures Leads(s, a, fits, moves2, s2) && PcOf(s2, a) == AfterAddRef(want, next)
    ensures Agree(s2, E.WithEntry(w, want.key, WithRef(w.store[want.key].entry, want.ref, opts)))
  {
    moves2, s2 := Then(s, a, fits, moves, s1, GetForAdd);
    if PcOf(s2, a).AddUpdate? {
      moves2, s2 := Then(s, a, fits, moves2, s2, UpdateForAdd);
    }
  }

  /** The read of the entry and the look at the resource. */
  lemma {:induction false} LookLeads(s: State, w: C.World, ref: Ref, m: E.Recipe) returns (moves: seq<Move>, s2: State)
    requires Agree(s, w) && PcOf(s, Run(ref.run)) == EnsureRead(WantOf(ref, m))
    requires m.key in w.store ==> !w.store[m.key].entry.terminating
    ensures Leads(s, Run(ref.run), Fits(w, m), moves, s2) && Agree(s2, w)
    ensures var seen := if m.key in w.store then Some(w.store[m.key].entry) else None;
            PcOf(s2, Run(ref.run)) == AfterProbe(WantOf(ref, m), seen, m.key in w.up, Fits(w, m))
  {
    moves, s2 := Then(s, Run(ref.run), Fits(w, m), [], s, GetEntry);
    moves, s2 := Then(s, Run(ref.run), Fits(w, m), moves, s2, Probe(Fits(w, m)));
  }

  /** The resource is there and fits: its reference is recorded. */
  lemma {:induction false} AdoptLeads(s: State, moves: seq<Move>, s1: State, w: C.World, ref: Ref, m: E.Recipe)
    returns (moves2: seq<Move>, s2: State)
    requires Leads(s, Run(ref.run), Fits(w, m), moves, s1) && Agree(s1, w) && m.key in w.up
    requires m.key in w.store ==> !w.store[m.key].entry.terminating
    requires PcOf(s1, Run(ref.run)) == if m.key in w.store then AddRead(WantOf(ref, m), AddOptions(false, ""), Adopted)
                                       else EnsureRegister(WantOf(ref, m), m.claim, false)
    ensures Leads(s, Run(ref.run), Fits(w, m), moves2, s2) && Agree(s2, E.Adopt(w, ref, m))
            && PcOf(s2, Run(ref.run)) == EnsureDone(WantOf(ref, m))
  {
    if m.key in w.store {
      moves2, s2 := AddLeads(s, Run(ref.run), Fits(w, m), moves, s1, w, WantOf(ref, m), AddOptions(false, ""), Adopted);
    } else {
      moves2, s2 := Then(s, Run(ref.run), Fits(w, m), moves, s1, Register(w.up[m.key].id));
    }
    if m.update.Some? {
      moves2, s2 := Then(s, Run(ref.run), Fits(w, m), moves2, s2, Repoint);
    }
  }

  /** The resource is missing: its reference is recorded, it is created, and its ID noted. */
  lemma {:induction false} MakeLeads(s: State, moves: seq<Move>, s1: State, w: C.World, ref: Ref, m: E.Recipe)
    returns (moves2: seq<Move>, s2: State)
    requires Leads(s, Run(ref.run), Fits(w, m), moves, s1) && Agree(s1, w) && m.key !in w.up
    requires m.key in w.store ==> !w.store[m.key].entry.terminating
    requires PcOf(s1, Run(ref.run)) == if m.key in w.store
             then AddRead(WantOf(ref, m), AddOptions(true, ""), ThenCreate)
                                       else EnsureRegister(WantOf(ref, m), true, true)
    ensures Leads(s, Run(ref.run), Fits(w, m), moves2, s2) && Agree(s2, E.Make(w, ref, m))
            && PcOf(s2, Run(ref.run)) == EnsureDone(WantOf(ref, m))
  {
    var a, fits, want := Run(ref.run), Fits(w, m), WantOf(ref, m);
    if m.key in w.store {
      moves2, s2 := AddLeads(s, a, fits, moves, s1, w, want, AddOptions(true, ""), ThenCreate);
    } else {
      moves2, s2 := Then(s, a, fits, moves, s1, Register(""));
    }
    var w1 := E.WithEntry(w, m.key, E.Recorded(w, ref, m, true));
    var w2 := w1.(up := w1.up[m.key := m.built]);
    moves2, s2 := Then(s, a, fits, moves2, s2, Create(m.built.id));
    if m.built.id != "" {
      moves2, s2 := AddLeads(s, a, fits, moves2, s2, w2, want, AddOptions(false, m.built.id), Recorded);
    }
  }

  /** The undisturbed outcome of Ensure is reached by the step's own calls, and its result is where they end. */
  lemma {:induction false} OutcomeLeads(s: State, w: C.World, ref: Ref, m: E.Recipe)
    returns (moves: seq<Move>, s2: State)
    requires Agree(s, w) && PcOf(s, Run(ref.run)) == EnsureRead(WantOf(ref, m))
    ensures Leads(s, Run(ref.run), Fits(w, m), moves, s2) && Agree(s2, E.Outcome(w, ref, m).0)
    ensures PcOf(s2, Run(ref.run)) == if E.Outcome(w, ref, m).1.Ok? then EnsureDone(WantOf(ref, m)) else Idle
  {
    if m.key in w.store && w.store[m.key].entry.terminating {
      moves, s2 := Then(s, Run(ref.run), Fits(w, m), [], s, GetEntry);
    } else {
      moves, s2 := LookLeads(s, w, ref, m);
      if m.key !in w.up {
        moves, s2 := MakeLeads(s, moves, s2, w, ref, m);
      } else if E.Outcome(w, ref, m).1.Ok? {
        moves, s2 := AdoptLeads(s, moves, s2, w, ref, m);
      }
    }
  }
}
