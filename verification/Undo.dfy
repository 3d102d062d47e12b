/** Rolling a run back: sweep, list, order, release (Env.Rollback and Env.SweepTerminating). */
module Undo {
  import opened Types
  import opened LedgerRules
  import opened Cluster
  import opened Text
  import opened Rollback
  import opened UndoDeeds
  import L = Ledger

  // ---- the order of undoing ----

  function RankOf(kind: string): nat {
    if kind == "app" then 5
    else if kind == "trigger" || kind == "batchtrigger" then 10
    else if kind == "chain" then 20
    else if kind == "jobtemplate" || kind == "servicetemplate" then 30
    else if kind == "gitwatcher" then 40
    else if kind == "tag" then 50
    else if kind == "artifact" then 60
    else 100
  }

  predicate Before(a: Listed, b: Listed) {
    if RankOf(a.key.kind) != RankOf(b.key.kind) then RankOf(a.key.kind) < RankOf(b.key.kind)
    else StringLess(a.key.name, b.key.name)
  }

  function Insert(x: Listed, s: seq<Listed>): seq<Listed> {
    if s == [] || !Before(s[0], x) then [x] + s else [s[0]] + Insert(x, s[1..])
  }

  /** A stable sort by (undo rank, name). */
  function Sort(s: seq<Listed>): seq<Listed> {
    if s == [] then [] else Insert(s[0], Sort(s[1..]))
  }

  ghost predicate InOrder(s: seq<Listed>) {
    forall i, j :: 0 <= i < j < |s| ==> !Before(s[j], s[i])
  }

  /** A resource of the first kind has to be gone before one of the second. */
  predicate Sooner(a: string, b: string) {
    || (a == "app" && b != "app")
    || (a in {"trigger", "batchtrigger"} && b !in {"app", "trigger", "batchtrigger"})
    || (a == "chain" && b !in {"app", "trigger", "batchtrigger", "chain"})
    || (a in {"jobtemplate", "servicetemplate"}
        && b !in {"app", "trigger", "batchtrigger", "chain", "jobtemplate", "servicetemplate"})
    || (a == "gitwatcher"
        && b !in {"app", "trigger", "batchtrigger", "chain", "jobtemplate", "servicetemplate", "gitwatcher"})
    || (a == "tag"
        && b !in {"app", "trigger", "batchtrigger", "chain", "jobtemplate", "servicetemplate", "gitwatcher", "tag"})
    || (a == "artifact"
        && b !in {"app", "trigger", "batchtrigger", "chain", "jobtemplate", "servicetemplate", "gitwatcher", "tag",
                  "artifact"})
  }

  /** By kind, and by name where the kinds do not matter. */
  predicate SoonerKey(a: Key, b: Key) {
    Sooner(a.kind, b.kind) || (!Sooner(b.kind, a.kind) && StringLess(a.name, b.name))
  }

  lemma BeforeIsSooner(a: Listed, b: Listed)
    ensures Before(a, b) <==> SoonerKey(a.key, b.key)
  {
  }

  lemma BeforeTransitive(a: Listed, b: Listed, c: Listed)
    requires !Before(b, a) && !Before(c, b)
    ensures !Before(c, a)
  {
    StringLessTotal(a.key.name, b.key.name);
    StringLessTotal(b.key.name, c.key.name);
    StringLessTotal(a.key.name, c.key.name);
    if StringLess(a.key.name, b.key.name) && StringLess(b.key.name, c.key.name) {
      StringLessTransitive(a.key.name, b.key.name, c.key.name);
    }
  }

  lemma {:induction false} InsertInOrder(x: Listed, s: seq<Listed>)
    requires InOrder(s)
    ensures InOrder(Insert(x, s)) && multiset(Insert(x, s)) == multiset(s) + multiset{x}
  {
    if s == [] || !Before(s[0], x) {
      forall j | 0 <= j < |s|
        ensures !Before(s[j], x)
      {
        if j > 0 {
          BeforeTransitive(x, s[0], s[j]);
        }
      }
    } else {
      assert s == [s[0]] + s[1..];
      InsertInOrder(x, s[1..]);
      var rest := Insert(x, s[1..]);
      StringLessTotal(s[0].key.name, x.key.name);
      forall j | 0 <= j < |rest|
        ensures !Before(rest[j], s[0])
      {
        assert rest[j] in multiset(rest);
        if rest[j] != x {
          assert rest[j] in s[1..];
        }
      }
    }
  }

  lemma {:induction false} SortIsInOrder(s: seq<Listed>)
    ensures InOrder(Sort(s)) && multiset(Sort(s)) == multiset(s)
  {
    if s != [] {
      assert s == [s[0]] + s[1..];
      SortIsInOrder(s[1..]);
      InsertInOrder(s[0], Sort(s[1..]));
    }
  }

  /** The sort really sorts, by kind and name, and neither drops nor invents an entry. */
  lemma SortInOrder(s: seq<Listed>)
    ensures InOrder(Sort(s)) && multiset(Sort(s)) == multiset(s)
    ensures var t := Sort(s);
            forall i, j :: 0 <= i < |t| && 0 <= j < |t| && SoonerKey(t[i].key, t[j].key) ==> i < j
  {
    SortIsInOrder(s);
    NoneSooner(Sort(s));
  }

  lemma NoneSooner(t: seq<Listed>)
    requires InOrder(t)
    ensures forall i, j :: 0 <= i < |t| && 0 <= j < |t| && SoonerKey(t[i].key, t[j].key) ==> i < j
  {
    forall i, j | 0 <= j <= i < |t|
      ensures !SoonerKey(t[i].key, t[j].key)
    {
      NotSooner(t[j], t[i]);
    }
  }

  lemma NotSooner(a: Listed, b: Listed)
    requires a == b || !Before(b, a)
    ensures !SoonerKey(b.key, a.key)
  {
    StringLessIrreflexive(a.key.name);
    BeforeIsSooner(b, a);
  }

  /** The entries of a list that the order does not tell apart from x. */
  function TiedWith(x: Listed, s: seq<Listed>): seq<Listed> {
    if s == [] then []
    else (if !Before(s[0], x) && !Before(x, s[0]) then [s[0]] else []) + TiedWith(x, s[1..])
  }

  lemma {:induction false} InsertIsStable(x: Listed, y: Listed, s: seq<Listed>)
    ensures TiedWith(x, Insert(y, s)) == TiedWith(x, [y] + s)
  {
    if s != [] && Before(s[0], y) {
      InsertIsStable(x, y, s[1..]);
      assert Insert(y, s)[1..] == Insert(y, s[1..]) && ([y] + s)[1..] == s && ([y] + s[1..])[1..] == s[1..];
      if !Before(s[0], x) && !Before(x, y) {
        BeforeTransitive(y, x, s[0]);
      }
    }
  }

  /** The sort is stable: entries it does not tell apart stay in list order. */
  lemma {:induction false} SortIsStable(x: Listed, s: seq<Listed>)
    ensures TiedWith(x, Sort(s)) == TiedWith(x, s)
  {
    if s != [] {
      SortIsStable(x, s[1..]);
      InsertIsStable(x, s[0], Sort(s[1..]));
      assert ([s[0]] + Sort(s[1..]))[1..] == Sort(s[1..]);
    }
  }

  /** What is released for a list of entries: each one's references of the run, in list order. */
  function Releases(mine: seq<Listed>, run: string): seq<(Key, Ref)> {
    if mine == [] then []
    else Releases(mine[..|mine| - 1], run) + Paired(mine[|mine| - 1].key, RefsOf(mine[|mine| - 1].entry.refs, run))
  }

  function Paired(k: Key, refs: seq<Ref>): seq<(Key, Ref)> {
    seq(|refs|, i requires 0 <= i < |refs| => (k, refs[i]))
  }

  lemma ReleasesStep(mine: seq<Listed>, i: nat, run: string)
    requires i < |mine|
    ensures Releases(mine[..i + 1], run) == Releases(mine[..i], run)
            + Paired(mine[i].key, RefsOf(mine[i].entry.refs, run))
  {
    assert mine[..i + 1][..i] == mine[..i];
  }

  // ---- the order of the releases ----

  /** Whatever has to go sooner is released sooner. */
  ghost predicate ReleasedInOrder(log: seq<(Key, Ref)>) {
    forall i, j :: 0 <= i < |log| && 0 <= j < |log| && SoonerKey(log[i].0, log[j].0) ==> i < j
  }

  lemma {:induction false} ReleasedFrom(mine: seq<Listed>, run: string, x: (Key, Ref)) returns (i: nat)
    requires x in Releases(mine, run)
    ensures i < |mine| && x.0 == mine[i].key
  {
    var n := |mine| - 1;
    if x in Releases(mine[..n], run) {
      i := ReleasedFrom(mine[..n], run, x);
    } else {
      i := n;
    }
  }

  lemma {:induction false} ReleasesInOrder(mine: seq<Listed>, run: string)
    requires InOrder(mine)
    ensures ReleasedInOrder(Releases(mine, run))
  {
    if mine != [] {
      var n, log := |mine| - 1, Releases(mine, run);
      var front := Releases(mine[..n], run);
      ReleasesInOrder(mine[..n], run);
      forall i, j | 0 <= j <= i < |log|
        ensures !SoonerKey(log[i].0, log[j].0)
      {
        if i < |front| {
          assert log[i] == front[i] && log[j] == front[j];
        } else {
          var k := n;
          if j < |front| {
            assert log[j] == front[j];
            k := ReleasedFrom(mine[..n], run, front[j]);
          }
          StringLessIrreflexive(mine[n].key.name);
          BeforeIsSooner(mine[n], mine[k]);
        }
      }
    }
  }

  lemma LogStep(log: seq<(Key, Ref)>, mine: seq<Listed>, i: nat, run: string)
    requires i < |mine|
    ensures log + Releases(mine[..i], run) + Paired(mine[i].key, RefsOf(mine[i].entry.refs, run)) == log
            + Releases(mine[..i + 1], run)
  {
    ReleasesStep(mine, i, run);
  }

  lemma PairedStep(log: seq<(Key, Ref)>, k: Key, refs: seq<Ref>, j: nat)
    requires j < |refs|
    ensures Paired(k, refs[..j]) + [(k, refs[j])] == Paired(k, refs[..j + 1])
    ensures log + Paired(k, refs[..j]) + [(k, refs[j])] == log + Paired(k, refs[..j + 1])
  {
    assert Paired(k, refs[..j + 1]) == Paired(k, refs[..j]) + [(k, refs[j])];
  }

  // ---- the methods ----

  ghost predicate KeysDiffer(listed: seq<Listed>) {
    forall i, j :: 0 <= i < j < |listed| ==> listed[i].key != listed[j].key
  }

  ghost predicate Lists(w: World, listed: seq<Listed>) {
    && (forall i :: 0 <= i < |listed| ==> listed[i].key in w.store && w.store[listed[i].key].entry == listed[i].entry)
    && KeysDiffer(listed)
    && (forall k :: k in w.store ==> Listed(k, w.store[k].entry) in listed)
  }

  /** The entries of a store, in some order. */
  method Items(store: map<Key, Stored>) returns (listed: seq<Listed>)
    ensures Lists(World(store, 0, map[]), listed)
  {
    listed := [];
    var rest := store.Keys;
    while rest != {}
      invariant rest <= store.Keys
      invariant forall i :: 0 <= i < |listed| ==>
                  listed[i].key in store && listed[i].key !in rest && store[listed[i].key].entry == listed[i].entry
      invariant forall i, j :: 0 <= i < j < |listed| ==> listed[i].key != listed[j].key
      invariant forall k :: k in store && k !in rest ==> Listed(k, store[k].entry) in listed
      decreases rest
    {
      var k :| k in rest;
      rest := rest - {k};
      listed := listed + [Listed(k, store[k].entry)];
    }
  }

  /** What a sweep may have done to key k. */
  ghost predicate SweptAt(w: World, now: World, k: Key) {
    && (k in now.store ==> k in w.store && now.store[k] == w.store[k])
    && (k in w.store && k !in now.store ==>
          Tombstone(w.store[k].entry) && (w.store[k].entry.managed ==> k !in now.up && CanDelete(k, w.store[k].entry)))
    && (k in now.up ==> k in w.up && now.up[k] == w.up[k])
    && (k in w.up && k !in now.up ==>
          k in w.store && Tombstone(w.store[k].entry) && w.store[k].entry.managed && CanDelete(k, w.store[k].entry))
  }

  ghost predicate Swept(w: World, now: World) {
    forall k :: SweptAt(w, now, k)
  }

  /** A tombstone whose resource cannot be deleted upstream. */
  ghost predicate StuckAt(w: World, k: Key) {
    k in w.store && Tombstone(w.store[k].entry) && Stuck(k, w.store[k].entry)
  }

  ghost predicate Sweepable(w: World) {
    forall k :: !StuckAt(w, k)
  }

  /** A sweep with no failing call: the tombstones that can be finished are gone, managed ones with their resource. */
  ghost predicate WholeSweep(w: World, now: World) {
    now.store == SweptStore(w) && now.up == SweptUp(w)
  }

  predicate Finishable(w: World, k: Key) {
    k in w.store && w.store[k].entry.terminating && w.store[k].entry.refs == [] && !Stuck(k, w.store[k].entry)
  }

  function SweptStore(w: World): map<Key, Stored> {
    map k | k in w.store && !Finishable(w, k) :: w.store[k]
  }

  function SweptUp(w: World): map<Key, Object> {
    map k | k in w.up && !(Finishable(w, k) && w.store[k].entry.managed) :: w.up[k]
  }

  /** What a sweep saw, and what it did about each entry. */
  datatype Sweep = Sweep(seen: seq<Deed>, listed: seq<Listed>, parts: seq<seq<Deed>>)

  function DeedsOf(sweep: Sweep): seq<Deed> {
    sweep.seen + Flat(sweep.parts)
  }

  /** A sweep that lists the entries once and then goes through that list, complete exactly if ok. */
  ghost predicate SweepOf(sweep: Sweep, ok: bool) {
    if sweep.seen == [] then sweep.listed == [] && sweep.parts == [] && !ok
    else
      && |sweep.seen| == 1 && sweep.seen[0].Sees? && Lists(World(sweep.seen[0].store, 0, map[]), sweep.listed)
      && |sweep.parts| == |sweep.listed| && SweepsEach(sweep.parts, sweep.listed)
      && (ok <==> SweptAll(sweep.parts, sweep.listed))
  }

  ghost predicate NoneStuck(listed: seq<Listed>, n: nat)
    requires n <= |listed|
  {
    forall j :: 0 <= j < n ==> !(Tombstone(listed[j].entry) && Stuck(listed[j].key, listed[j].entry))
  }

  /** A sweep that is alone has gone through the first n entries. */
  ghost predicate Halfswept(w: World, now: World, listed: seq<Listed>, n: nat, faultless: bool)
    requires n <= |listed|
  {
    && Lists(w, listed) && Swept(w, now)
    && (forall j :: n <= j < |listed| ==> listed[j].key in now.store)
    && (faultless ==> forall j :: 0 <= j < n && Finishable(w, listed[j].key) ==> listed[j].key !in now.store)
  }

  lemma SweepBegins(w: World, listed: seq<Listed>)
    requires Lists(w, listed)
    ensures Halfswept(w, w, listed, 0, true)
  {
    forall k
      ensures SweptAt(w, w, k)
    {
    }
  }

  lemma NextListed(w: World, now: World, listed: seq<Listed>, n: nat, faultless: bool)
    requires n < |listed| && Halfswept(w, now, listed, n, faultless)
    ensures listed[n].key in now.store && now.store[listed[n].key].entry == listed[n].entry
  {
    assert SweptAt(w, now, listed[n].key);
  }

  lemma {:induction false} HalfsweptOn(w: World, before: World, now: World, listed: seq<Listed>, n: nat,
                                       script: seq<Turn>, lo: nat, mid: nat, hi: nat, ok: bool)
    requires lo <= mid <= hi && n < |listed| && Halfswept(w, before, listed, n, NoFault(script, lo, mid))
    requires SweptAt(before, now, listed[n].key) && SameElsewhere(before, now, listed[n].key)
    requires ok && Tombstone(listed[n].entry) ==> listed[n].key !in now.store
    requires ok <==> NoFault(script, mid, hi) && !(Tombstone(listed[n].entry) && Stuck(listed[n].key, listed[n].entry))
    ensures Halfswept(w, now, listed, n + 1, NoFault(script, lo, hi))
  {
    SweptMore(w, before, now, listed[n].key);
  }

  /** A sweep is progress for every run. */
  lemma SweptIsProgress(w: World, now: World, run: string)
    requires EntriesOk(w) && Swept(w, now)
    ensures Progress(w, now, run)
  {
    forall k
      ensures ProgressAt(w, now, run, k) && (k in now.store ==> WellFormed(now.store[k].entry))
    {
      assert SweptAt(w, now, k);
    }
  }

  ghost predicate SameElsewhere(w: World, now: World, k: Key) {
    && (forall k2 :: k2 != k ==> (k2 in now.store <==> k2 in w.store) && (k2 in now.up <==> k2 in w.up))
    && (forall k2 :: k2 != k && k2 in w.store ==> now.store[k2] == w.store[k2])
    && (forall k2 :: k2 != k && k2 in w.up ==> now.up[k2] == w.up[k2])
  }

  /** Errors are reported exactly if a call failed, unless something has to go that cannot be deleted. */
  ghost predicate Honest(script: seq<Turn>, lo: nat, hi: nat, w: World, run: string, clean: bool) {
    && (clean ==> NoFault(script, lo, hi))
    && (!clean ==> !NoFault(script, lo, hi) || !Deletable(w, run))
  }

  lemma StandingStill(w: World, run: string)
    requires EntriesOk(w)
    ensures Progress(w, w, run)
  {
    forall k
      ensures ProgressAt(w, w, run, k)
    {
    }
  }

  lemma {:induction false} HonestOn(script: seq<Turn>, lo: nat, mid: nat, hi: nat, w: World, before: World, run: string,
                                    clean: bool, ok: bool)
    requires lo <= mid <= hi && Progress(w, before, run)
    requires Honest(script, lo, mid, w, run, clean) && Honest(script, mid, hi, before, run, ok)
    ensures Honest(script, lo, hi, w, run, clean && ok)
  {
    ProgressKeepsDeletable(w, before, run);
  }

  class Undo {
    const ledger: L.Ledger
    const api: Api
    /** Every release that was attempted, in order. */
    var log: seq<(Key, Ref)>

    constructor (api: Api, ledger: L.Ledger)
      requires ledger.api == api
      ensures this.api == api && this.ledger == ledger && log == []
    {
      this.api, this.ledger, log := api, ledger, [];
    }

    /** Delete the resource behind a tombstone if the wizard manages it, then drop the tombstone. */
    method FinishOne(k: Key, e: Entry) returns (r: Result<()>, ghost deeds: seq<Deed>)
      requires ledger.api == api && api.Valid()
      modifies api
      ensures api.Valid() && old(api.pos) <= api.pos
      ensures r.Ok? <==> NoFault(api.script, old(api.pos), api.pos) && (e.managed ==> CanDelete(k, e))
      ensures var w, now := old(api.Now()), api.Now();
              Quiet(api.script) && k in w.store && w.store[k].entry == e && Tombstone(e) ==>
                && SweptAt(w, now, k) && SameElsewhere(w, now, k) && (r.Ok? ==> k !in now.store)
      ensures Did(old(api.Now()), api.script, old(api.pos), deeds, api.pos, api.Now())
      ensures FinishBegun(deeds, k, e) && (r.Ok? <==> FinishEnded(deeds, k, e))
    {
      ghost var w, p := api.Now(), api.pos;
      r, deeds := DeleteManaged(k, e);
      if r.Err? {
        return;
      }
      ghost var w1, p1, last := api.Now(), api.pos, [];
      r, last := ClearEntry(k);
      DidThen(w, api.script, p, deeds, p1, w1, last, api.pos, api.Now());
      deeds := deeds + last;
    }

    /** The upstream half. */
    method DeleteManaged(k: Key, e: Entry) returns (r: Result<()>, ghost deeds: seq<Deed>)
      requires ledger.api == api && api.Valid()
      modifies api
      ensures api.Valid() && old(api.pos) <= api.pos
      ensures r.Ok? <==> NoFault(api.script, old(api.pos), api.pos) && (e.managed ==> CanDelete(k, e))
      ensures var w, now := old(api.Now()), api.Now();
              Quiet(api.script) ==> now == if r.Ok? && e.managed then w.(up := w.up - {k}) else w
      ensures Did(old(api.Now()), api.script, old(api.pos), deeds, api.pos, api.Now())
      ensures deeds == if r.Ok? && e.managed then [Deletes(api.pos, k)] else []
    {
      ghost var w, p := api.Now(), api.pos;
      deeds := [];
      ServedStep(w, api.script, p, p);
      r := Ok(());
      if e.managed {
        if !CanDelete(k, e) {
          return Err(Undeletable), deeds;
        }
        r := api.RemoveObject(k);
        if r.Ok? {
          deeds := [Deletes(api.pos, k)];
          DidOne(w, api.script, p, deeds[0], api.Now());
        }
      }
    }

    /** The ledger's half. */
    method ClearEntry(k: Key) returns (r: Result<()>, ghost deeds: seq<Deed>)
      requires ledger.api == api && api.Valid()
      modifies api
      ensures api.Valid() && old(api.pos) <= api.pos
      ensures r.Ok? <==> NoFault(api.script, old(api.pos), api.pos)
      ensures var w, now := old(api.Now()), api.Now();
              Quiet(api.script) ==> now == if r.Ok? then w.(store := w.store - {k}) else w
      ensures Did(old(api.Now()), api.script, old(api.pos), deeds, api.pos, api.Now())
      ensures deeds == if r.Ok? then [Clears(api.pos, k)] else []
    {
      ghost var w, p := api.Now(), api.pos;
      deeds := [];
      r := ledger.Finish(k);
      if Quiet(api.script) {
        QuietServed(w, api.script, p, api.pos);
      }
      if r.Ok? {
        deeds := [Clears(api.pos, k)];
        DidOne(w, api.script, p, deeds[0], api.Now());
      }
    }

    /** An entry of the list: tombstones are finished, everything else is left alone. */
    method SweepOne(en: Listed) returns (r: Result<()>, ghost deeds: seq<Deed>)
      requires ledger.api == api && api.Valid()
      modifies api
      ensures api.Valid() && old(api.pos) <= api.pos
      ensures r.Ok? <==> NoFault(api.script, old(api.pos), api.pos) && !(Tombstone(en.entry) && Stuck(en.key, en.entry))
      ensures var w, now := old(api.Now()), api.Now();
              Quiet(api.script) && (en.key in w.store ==> w.store[en.key].entry == en.entry)
                  && (Tombstone(en.entry) ==> en.key in w.store) ==>
                && SweptAt(w, now, en.key) && SameElsewhere(w, now, en.key)
                && (r.Ok? && Tombstone(en.entry) ==> en.key !in now.store)
      ensures Did(old(api.Now()), api.script, old(api.pos), deeds, api.pos, api.Now()) && SweepBegun(deeds, en)
      ensures r.Ok? <==> SweepEnded(deeds, en)
    {
      if en.entry.terminating && en.entry.refs == [] {
        r, deeds := FinishOne(en.key, en.entry);
      } else {
        r, deeds := Ok(()), [];
        ServedStep(api.Now(), api.script, api.pos, api.pos);
      }
    }

    /**
     Finish the deletions that a crash or a failed call interrupted.  Alone, it reports errors exactly
     if a call fails or some resource cannot be deleted, and without a failing call takes away exactly
     the tombstones that can be finished.  Whatever others write, all it does is to finish tombstones
     as it has listed them, and it reports errors exactly if it did not get to the end with one.
     */
    method SweepTerminating() returns (errs: seq<Error>, ghost sweep: Sweep)
      requires ledger.api == api && api.Valid()
      modifies api
      ensures api.Valid() && old(api.pos) <= api.pos
      ensures Quiet(api.script) ==> Swept(old(api.Now()), api.Now())
      ensures Quiet(api.script) && errs == [] ==> NoTombstones(api.Now())
      ensures Quiet(api.script) ==>
              (errs == [] <==> NoFault(api.script, old(api.pos), api.pos) && Sweepable(old(api.Now())))
      ensures Quiet(api.script) && NoFault(api.script, old(api.pos), api.pos) ==> WholeSweep(old(api.Now()), api.Now())
      ensures Did(old(api.Now()), api.script, old(api.pos), DeedsOf(sweep), api.pos, api.Now())
              && SweepOf(sweep, errs == [])
    {
      ghost var w, p := api.Now(), api.pos;
      errs, sweep := [], Sweep([], [], []);
      ServedStep(w, api.script, p, p);
      var got := api.List();
      if got.Err? {
        assert TurnAt(api.script, p).fails;
        return [got.error], sweep;
      }
      var listed := Items(got.value);
      ghost var seen, parts, w1, p1 := Sees(api.pos, got.value), [], api.Now(), api.pos;
      DidOne(w, api.script, p, seen, w1);
      errs, parts := SweepListed(listed);
      sweep := Sweep([seen], listed, parts);
      DidThen(w, api.script, p, [seen], p1, w1, Flat(parts), api.pos, api.Now());
    }

    /** Go through the list. */
    method SweepListed(listed: seq<Listed>) returns (errs: seq<Error>, ghost parts: seq<seq<Deed>>)
      requires ledger.api == api && api.Valid()
      modifies api
      ensures api.Valid() && old(api.pos) <= api.pos
      ensures var w, now, faultless := old(api.Now()), api.Now(), NoFault(api.script, old(api.pos), api.pos);
              Quiet(api.script) && Lists(w, listed) ==>
                && Swept(w, now) && (errs == [] <==> faultless && Sweepable(w))
                && (faultless ==> WholeSweep(w, now)) && (errs == [] ==> NoTombstones(now))
      ensures |parts| == |listed|
      ensures SweepAccount(old(api.Now()), api.script, old(api.pos), parts, api.pos, api.Now(), listed, errs == [])
    {
      ghost var w, p := api.Now(), api.pos;
      errs, parts := [], [];
      ServedStep(w, api.script, p, p);
      var i := 0;
      if Quiet(api.script) && Lists(w, listed) {
        SweepBegins(w, listed);
      }
      while i < |listed|
        invariant i <= |listed| && Sweeping(listed, i, w, p, parts, errs == [])
      {
        var done;
        done, parts := SweepNext(listed, i, w, p, parts, errs == []);
        if done.Err? {
          errs := errs + [done.error];
        }
        i := i + 1;
      }
      if Quiet(api.script) && Lists(w, listed) {
        SweepDone(w, api.Now(), listed, NoFault(api.script, p, api.pos));
      }
    }

    /** How the sweep, which began in world w before call lo, stands before entry i of the list. */
    ghost predicate Sweeping(listed: seq<Listed>, i: nat, w: World, lo: nat, parts: seq<seq<Deed>>, ok: bool)
      reads api
    {
      && api.Valid() && lo <= api.pos && i <= |listed| && |parts| == i
      && (Quiet(api.script) && Lists(w, listed) ==>
            && Halfswept(w, api.Now(), listed, i, NoFault(api.script, lo, api.pos))
            && (ok <==> NoFault(api.script, lo, api.pos) && NoneStuck(listed, i)))
      && SweepAccount(w, api.script, lo, parts, api.pos, api.Now(), listed, ok)
    }

    /** The next entry of the list. */
    method SweepNext(listed: seq<Listed>, i: nat, ghost w: World, ghost lo: nat, ghost parts: seq<seq<Deed>>,
                     ghost ok: bool)
      returns (done: Result<()>, ghost parts2: seq<seq<Deed>>)
      requires ledger.api == api && i < |listed| && Sweeping(listed, i, w, lo, parts, ok)
      modifies api
      ensures old(api.pos) <= api.pos && Sweeping(listed, i + 1, w, lo, parts2, ok && done.Ok?)
    {
      ghost var before, mid, part := api.Now(), api.pos, [];
      if Quiet(api.script) && Lists(w, listed) {
        NextListed(w, before, listed, i, NoFault(api.script, lo, mid));
      }
      done, part := SweepOne(listed[i]);
      SweepAccountOn(w, api.script, lo, parts, mid, before, listed, ok, part, api.pos, api.Now(), done.Ok?);
      if Quiet(api.script) && Lists(w, listed) {
        HalfsweptOn(w, before, api.Now(), listed, i, api.script, lo, mid, api.pos, done.Ok?);
      }
      parts2 := parts + [part];
    }

    /** Release one reference; if it was the last of a managed resource, delete it and finish. */
    method ReleaseAndDelete(k: Key, ref: Ref) returns (r: Result<()>, ghost deeds: seq<Deed>)
      requires ledger.api == api && api.Valid()
      modifies api, this
      ensures api.Valid() && old(api.pos) <= api.pos && log == old(log) + [(k, ref)]
      ensures Quiet(api.script) && EntriesOk(old(api.Now())) ==> Released(old(api.Now()), api.Now(), k, ref, r.Ok?)
      ensures Quiet(api.script) && EntriesOk(old(api.Now())) ==>
                Honest(api.script, old(api.pos), api.pos, old(api.Now()), ref.run, r.Ok?)
      ensures Did(old(api.Now()), api.script, old(api.pos), deeds, api.pos, api.Now())
      ensures ReleaseBegun(deeds, k, ref) && (r.Ok? <==> ReleaseEnded(deeds, k, ref))
    {
      log := log + [(k, ref)];
      ghost var w, p0 := api.Now(), api.pos;
      var outcome, at := ledger.Release(k, ref);
      if Quiet(api.script) && EntriesOk(w) {
        QuietServed(w, api.script, p0, at);
        ReleaseReleased(w, api.Now(), api.script, at, api.pos, k, ref, outcome);
      }
      deeds := ReleaseDid(w, api.script, p0, at, api.Now(), api.pos, k, ref, outcome);
      if outcome.Err? {
        return Err(outcome.error), deeds;
      }
      if !outcome.value.MustDelete? {
        return Ok(()), deeds;
      }
      ghost var mid, p1, last := api.Now(), api.pos, [];
      r, last := FinishOne(k, outcome.value.entry);
      DidThen(w, api.script, p0, deeds, p1, mid, last, api.pos, api.Now());
      deeds := deeds + last;
      assert deeds[1..] == last;
      if Quiet(api.script) && EntriesOk(w) {
        DropIsProgress(w, k, ref);
        FinishIsProgress(mid, api.Now(), k, ref.run);
        ProgressTransitive(w, mid, api.Now(), ref.run);
        LastOneIsDoomed(w, k, ref);
      }
    }

    /** One release more, accounted for. */
    method ReleaseNext(k: Key, ref: Ref, ghost w: World, ghost lo: nat, ghost parts: seq<seq<Deed>>,
                       ghost todo: seq<(Key, Ref)>, ghost ok: bool)
      returns (r: Result<()>, ghost parts2: seq<seq<Deed>>)
      requires ledger.api == api && api.Valid()
      requires Account(w, api.script, lo, parts, api.pos, api.Now(), todo, ok)
      modifies api, this
      ensures api.Valid() && old(api.pos) <= api.pos && log == old(log) + [(k, ref)]
      ensures Quiet(api.script) && EntriesOk(old(api.Now())) ==> Released(old(api.Now()), api.Now(), k, ref, r.Ok?)
      ensures Quiet(api.script) && EntriesOk(old(api.Now())) ==>
                Honest(api.script, old(api.pos), api.pos, old(api.Now()), ref.run, r.Ok?)
      ensures Account(w, api.script, lo, parts2, api.pos, api.Now(), todo + [(k, ref)], ok && r.Ok?)
    {
      ghost var before, mid, part := api.Now(), api.pos, [];
      r, part := ReleaseAndDelete(k, ref);
      AccountOne(before, api.script, mid, part, api.pos, api.Now(), k, ref, r.Ok?);
      AccountOn(w, api.script, lo, parts, mid, before, todo, ok, [part], api.pos, api.Now(), [(k, ref)], r.Ok?);
      parts2 := parts + [part];
    }

    /** Release every reference of the run to one entry, going on after errors. */
    method ReleaseEntry(en: Listed, run: string) returns (errs: seq<Error>, ghost parts: seq<seq<Deed>>)
      requires ledger.api == api && api.Valid()
      modifies api, this
      ensures api.Valid() && old(api.pos) <= api.pos
      ensures log == old(log) + Paired(en.key, RefsOf(en.entry.refs, run))
      ensures Quiet(api.script) ==> EntryReleased(old(api.Now()), api.Now(), en, run, errs == [])
      ensures Quiet(api.script) && EntriesOk(old(api.Now())) ==>
                Honest(api.script, old(api.pos), api.pos, old(api.Now()), run, errs == [])
      ensures Account(old(api.Now()), api.script, old(api.pos), parts, api.pos, api.Now(),
                      Paired(en.key, RefsOf(en.entry.refs, run)), errs == [])
    {
      ghost var w := api.Now();
      ghost var alone := Quiet(api.script) && EntriesOk(w);
      var refs := RefsOf(en.entry.refs, run);
      errs, parts := [], [];
      AccountStarts(w, api.script, api.pos);
      var j := 0;
      if alone {
        HalfwayStarts(w, en, run, refs);
      }
      while j < |refs|
        invariant api.Valid() && old(api.pos) <= api.pos && 0 <= j <= |refs|
        invariant log == old(log) + Paired(en.key, refs[..j])
        invariant Account(w, api.script, old(api.pos), parts, api.pos, api.Now(), Paired(en.key, refs[..j]), errs == [])
        invariant alone ==>
                    && Halfway(w, api.Now(), en, run, refs[j..], j > 0, errs == [])
                    && Honest(api.script, old(api.pos), api.pos, w, run, errs == [])
      {
        ghost var before, mid := api.Now(), api.pos;
        var done;
        done, parts := ReleaseNext(en.key, refs[j], w, old(api.pos), parts, Paired(en.key, refs[..j]), errs == []);
        if alone {
          NextHalf(w, before, api.Now(), en, run, refs, j, errs == [], done.Ok?);
          HonestOn(api.script, old(api.pos), mid, api.pos, w, before, run, errs == [], done.Ok?);
        }
        if done.Err? {
          errs := errs + [done.error];
        }
        PairedStep(old(log), en.key, refs, j);
        j := j + 1;
      }
      assert refs[..j] == refs && refs[j..] == [];
      if alone {
        HalfwayEnds(w, api.Now(), en, run, errs == []);
      }
    }

    /** The first i entries are released: the log, the account of it, and how far that is when nobody else writes. */
    ghost predicate Midway(mine: seq<Listed>, i: nat, run: string, w: World, lo: nat, parts: seq<seq<Deed>>,
                           before: seq<(Key, Ref)>, ok: bool)
      reads this, api
    {
      && ledger.api == api && api.Valid() && lo <= api.pos && i <= |mine| && log == before + Releases(mine[..i], run)
      && Account(w, api.script, lo, parts, api.pos, api.Now(), Releases(mine[..i], run), ok)
      && (Quiet(api.script) && EntriesOk(w) && ListsRun(w, mine, run) ==>
            Underway(api.script, lo, api.pos, w, api.Now(), mine[i..], run, ok))
    }

    /** One entry more. */
    method ReleaseNextEntry(mine: seq<Listed>, i: nat, run: string, ghost w: World, ghost lo: nat,
                            ghost parts: seq<seq<Deed>>, ghost before: seq<(Key, Ref)>, ghost ok: bool)
      returns (errs: seq<Error>, ghost parts2: seq<seq<Deed>>)
      requires i < |mine| && Midway(mine, i, run, w, lo, parts, before, ok)
      modifies api, this
      ensures Midway(mine, i + 1, run, w, lo, parts2, before, ok && errs == [])
    {
      ghost var mid, p, some := api.Now(), api.pos, [];
      errs, some := ReleaseEntry(mine[i], run);
      AccountEntry(w, api.script, lo, parts, p, mid, mine, i, run, ok, some, api.pos, api.Now(), errs == []);
      parts2 := parts + some;
      LogStep(before, mine, i, run);
      if Quiet(api.script) && EntriesOk(w) && ListsRun(w, mine, run) {
        NextEntry(api.script, lo, p, api.pos, w, mid, api.Now(), mine, i, run, ok, errs == []);
      }
    }

    /** Release the run's references, entry by entry. */
    method ReleaseAll(mine: seq<Listed>, run: string) returns (errs: seq<Error>, ghost parts: seq<seq<Deed>>)
      requires ledger.api == api && api.Valid()
      modifies api, this
      ensures api.Valid() && old(api.pos) <= api.pos
      ensures log == old(log) + Releases(mine, run)
      ensures var w, now := old(api.Now()), api.Now();
              Quiet(api.script) && EntriesOk(w) && ListsRun(w, mine, run) ==>
                && Progress(w, now, run)
                && (errs == [] && NoTombstones(w) ==> Completed(now, run))
                && Honest(api.script, old(api.pos), api.pos, w, run, errs == [])
      ensures Account(old(api.Now()), api.script, old(api.pos), parts, api.pos, api.Now(), Releases(mine, run),
              errs == [])
    {
      ghost var w, p := api.Now(), api.pos;
      errs, parts := [], [];
      var i := 0;
      AccountStarts(w, api.script, p);
      if Quiet(api.script) && EntriesOk(w) && ListsRun(w, mine, run) {
        PartwayStarts(w, mine, run);
        assert mine[0..] == mine;
      }
      while i < |mine|
        invariant i <= |mine| && Midway(mine, i, run, w, p, parts, old(log), errs == [])
      {
        var more;
        more, parts := ReleaseNextEntry(mine, i, run, w, p, parts, old(log), errs == []);
        errs := errs + more;
        i := i + 1;
      }
      assert mine[..i] == mine;
    }

    /**
     Release everything the run holds.  Alone, it succeeds exactly if no call fails and everything
     that has to go can be deleted; then ledger and upstream are the specified end result.  Whatever
     fails, it gets somewhere towards that result.  The releases are those of what the run holds after the
     sweep, by kind and name: each entry's references of the run once, in the entry's order.
     Whatever others write, all it does is to finish tombstones as it has listed them, to drop the
     references of the run it has listed, and to finish what a drop of its own left without references.
     */
    method Rollback(run: string) returns (errs: seq<Error>, ghost met: World, ghost sweep: Sweep, ghost held: Holding)
      requires ledger.api == api && api.Valid()
      modifies api, this
      ensures api.Valid() && old(api.pos) <= api.pos
      ensures log == old(log) + Releases(held.mine, run) && ReleasedInOrder(Releases(held.mine, run))
      ensures Quiet(api.script) ==>
                && Swept(old(api.Now()), met)
                && (ListsRun(met, held.mine, run) || (held.mine == [] && errs != [] && api.Now() == met))
      ensures Quiet(api.script) && EntriesOk(old(api.Now())) ==>
                RollbackEffect(old(api.Now()), api.Now(), run, errs == [], !NoFault(api.script, old(api.pos), api.pos))
      ensures Quiet(api.script) && EntriesOk(old(api.Now())) && errs == [] ==>
                && Entries(api.Now()) == FinalLedger(Entries(old(api.Now())), run)
                && api.Now().up == FinalUp(Entries(old(api.Now())), old(api.Now()).up, run)
      ensures Did(old(api.Now()), api.script, old(api.pos), DeedsOf(sweep) + held.Deeds(), api.pos, api.Now())
      ensures exists swept, released ::
                SweepOf(sweep, swept) && HoldingOf(held, run, released) && (errs == [] <==> swept && released)
    {
      ghost var w, p0 := api.Now(), api.pos;
      errs, sweep := SweepTerminating();
      met := api.Now();
      ghost var swept, p1 := errs == [], api.pos;
      var more;
      more, held := ReleaseHeld(run);
      DidThen(w, api.script, p0, DeedsOf(sweep), p1, met, held.Deeds(), api.pos, api.Now());
      if Quiet(api.script) && EntriesOk(w) {
        SweptIsProgress(w, met, run);
        StuckIsBlocked(w, run);
        HonestOn(api.script, p0, p1, api.pos, w, met, run, swept, more == []);
        RolledBack(w, met, api.Now(), run, api.script, p0, api.pos, swept && more == []);
      }
      assert SweepOf(sweep, swept) && HoldingOf(held, run, more == []);
      ReleasesInOrder(held.mine, run);
      errs := errs + more;
    }

    /** List what the run holds, and release it. */
    method ReleaseHeld(run: string) returns (errs: seq<Error>, ghost held: Holding)
      requires ledger.api == api && api.Valid()
      modifies api, this
      ensures api.Valid() && old(api.pos) <= api.pos
      ensures log == old(log) + Releases(held.mine, run) && InOrder(held.mine)
      ensures var w, now := old(api.Now()), api.Now();
              Quiet(api.script) ==>
                && (ListsRun(w, held.mine, run) || (held.mine == [] && errs != [] && now == w))
                && (EntriesOk(w) ==>
                      && Progress(w, now, run) && Honest(api.script, old(api.pos), api.pos, w, run, errs == [])
                      && (errs == [] && NoTombstones(w) ==> Completed(now, run)))
      ensures Did(old(api.Now()), api.script, old(api.pos), held.Deeds(), api.pos, api.Now())
      ensures HoldingOf(held, run, errs == [])
    {
      ghost var w, p0 := api.Now(), api.pos;
      var got;
      ghost var seen := [];
      got, seen := ListHeld(run);
      held := Holding(seen, [], []);
      if Quiet(api.script) && EntriesOk(w) {
        StandingStill(w, run);
      }
      if got.Err? {
        return [got.error], held;
      }
      ghost var p1, w1, parts := api.pos, api.Now(), [];
      errs, parts := ReleaseAll(got.value, run);
      held := Holding(seen, got.value, parts);
      DidThen(w, api.script, p0, seen, p1, w1, Flat(parts), api.pos, api.Now());
      if Quiet(api.script) && EntriesOk(w) {
        HonestOn(api.script, p0, p1, api.pos, w, w, run, true, errs == []);
      }
    }

    /** What the run holds, in the order in which it is undone. */
    method ListHeld(run: string) returns (r: Result<seq<Listed>>, ghost seen: seq<Deed>)
      requires ledger.api == api && api.Valid()
      modifies api
      ensures api.Valid() && old(api.pos) <= api.pos
      ensures r.Ok? <==> NoFault(api.script, old(api.pos), api.pos)
      ensures Quiet(api.script) ==> api.Now() == old(api.Now())
      ensures Did(old(api.Now()), api.script, old(api.pos), seen, api.pos, api.Now())
      ensures match r
              case Ok(mine) =>
                && |seen| == 1 && seen[0].Sees? && seen[0].store == api.store
                && ListsRun(World(seen[0].store, 0, map[]), mine, run) && InOrder(mine)
              case Err(_) => seen == []
    {
      ghost var w, p := api.Now(), api.pos;
      seen := [];
      ServedStep(w, api.script, p, p);
      var got := api.List();
      if got.Err? {
        assert TurnAt(api.script, p).fails;
        return Err(got.error), seen;
      }
      seen := [Sees(api.pos, got.value)];
      DidOne(w, api.script, p, seen[0], api.Now());
      var listed := Items(got.value);
      var kept := OfRun(listed, run);
      var sorted := Sort(kept);
      SortInOrder(kept);
      SortedLists(World(got.value, 0, map[]), kept, sorted, run);
      r := Ok(sorted);
    }
  }

  /** What the second half of a rollback saw, took for its own, and did about each of its references. */
  datatype Holding = Holding(seen: seq<Deed>, mine: seq<Listed>, parts: seq<seq<Deed>>) {
    function Deeds(): seq<Deed> {
      seen + Flat(parts)
    }
  }

  /** It lists the entries once and releases each reference of the run it has seen, once, complete exactly if ok. */
  ghost predicate HoldingOf(held: Holding, run: string, ok: bool) {
    if held.seen == [] then held.mine == [] && held.parts == [] && !ok
    else
      && |held.seen| == 1 && held.seen[0].Sees? && ListsRun(World(held.seen[0].store, 0, map[]), held.mine, run)
      && ReleasesEach(held.parts, Releases(held.mine, run))
          && (ok <==> ReleasedAll(held.parts, Releases(held.mine, run)))
  }

  lemma {:induction false} AccountEntry(w: World, script: seq<Turn>, lo: nat, parts: seq<seq<Deed>>, mid: nat,
                                        w1: World, mine: seq<Listed>, i: nat, run: string, ok: bool,
                                        some: seq<seq<Deed>>, hi: nat, w2: World, ok2: bool)
    requires i < |mine| && Account(w, script, lo, parts, mid, w1, Releases(mine[..i], run), ok)
    requires Account(w1, script, mid, some, hi, w2, Paired(mine[i].key, RefsOf(mine[i].entry.refs, run)), ok2)
    ensures Account(w, script, lo, parts + some, hi, w2, Releases(mine[..i + 1], run), ok && ok2)
  {
    var todo := Paired(mine[i].key, RefsOf(mine[i].entry.refs, run));
    AccountOn(w, script, lo, parts, mid, w1, Releases(mine[..i], run), ok, some, hi, w2, todo, ok2);
    ReleasesStep(mine, i, run);
  }

  /** What Rollback has done once its two parts are known. */
  lemma {:induction false} RolledBack(w: World, met: World, now: World, run: string, script: seq<Turn>, lo: nat,
                                      hi: nat, ok: bool)
    requires EntriesOk(w) && Progress(w, met, run) && Progress(met, now, run) && (ok ==> Completed(now, run))
    requires Honest(script, lo, hi, w, run, ok)
    ensures RollbackEffect(w, now, run, ok, !NoFault(script, lo, hi))
    ensures ok ==> Entries(now) == FinalLedger(Entries(w), run) && now.up == FinalUp(Entries(w), w.up, run)
  {
    ProgressTransitive(w, met, now, run);
    if ok {
      CompletedWasDeletable(w, now, run);
      ProgressKeepsFinal(w, now, run);
      CompletedIsFinal(now, run);
    }
  }

  /** Releasing the last reference of a managed entry dooms its resource. */
  lemma LastOneIsDoomed(w: World, k: Key, ref: Ref)
    requires k in w.store
    ensures var e := WithoutRef(w.store[k].entry, ref);
            Tombstone(e) && e.managed && !CanDelete(k, e) ==> BlockedAt(w, k, ref.run)
  {
    OthersRefsAfterRemove(w.store[k].entry.refs, ref, ref.run);
  }

  /** What stops a sweep stops every rollback. */
  lemma StuckIsBlocked(w: World, run: string)
    ensures Deletable(w, run) ==> Sweepable(w)
  {
    forall k | StuckAt(w, k)
      ensures BlockedAt(w, k, run)
    {
    }
  }

  lemma SweepDone(w: World, now: World, listed: seq<Listed>, faultless: bool)
    requires Halfswept(w, now, listed, |listed|, faultless)
    ensures NoneStuck(listed, |listed|) <==> Sweepable(w)
    ensures faultless ==> WholeSweep(w, now)
    ensures faultless && Sweepable(w) ==> NoTombstones(now)
  {
    NoneStuckIff(w, listed);
    if faultless {
      SweptWhole(w, now, listed);
    }
  }

  lemma NoneStuckIff(w: World, listed: seq<Listed>)
    requires Lists(w, listed)
    ensures NoneStuck(listed, |listed|) <==> Sweepable(w)
  {
    forall k | StuckAt(w, k)
      ensures !NoneStuck(listed, |listed|)
    {
      assert Listed(k, w.store[k].entry) in listed;
    }
    forall j | 0 <= j < |listed| && Tombstone(listed[j].entry) && Stuck(listed[j].key, listed[j].entry)
      ensures !Sweepable(w)
    {
      assert StuckAt(w, listed[j].key);
    }
  }

  lemma SweptWhole(w: World, now: World, listed: seq<Listed>)
    requires Halfswept(w, now, listed, |listed|, true)
    ensures WholeSweep(w, now) && (Sweepable(w) ==> NoTombstones(now))
  {
    forall k
      ensures k in now.store <==> k in w.store && !Finishable(w, k)
      ensures k in now.store ==> now.store[k] == w.store[k]
      ensures k in now.up <==> k in w.up && !(Finishable(w, k) && w.store[k].entry.managed)
      ensures k in now.up ==> now.up[k] == w.up[k]
    {
      assert SweptAt(w, now, k);
      if k in w.store {
        assert Listed(k, w.store[k].entry) in listed;
      }
    }
    forall k | Sweepable(w) && k in now.store
      ensures !Tombstone(now.store[k].entry)
    {
      assert !StuckAt(w, k);
    }
  }

  lemma SweptMore(w: World, before: World, now: World, k: Key)
    requires Swept(w, before) && SweptAt(before, now, k) && SameElsewhere(before, now, k)
    ensures Swept(w, now)
  {
    forall k2
      ensures SweptAt(w, now, k2)
    {
      assert SweptAt(w, before, k2);
    }
  }

  /** The entries that hold a reference of the run, in list order. */
  method OfRun(listed: seq<Listed>, run: string) returns (mine: seq<Listed>)
    ensures forall en :: en in mine <==> en in listed && RefsOf(en.entry.refs, run) != []
    ensures KeysDiffer(listed) ==> KeysDiffer(mine)
  {
    mine := [];
    var i := 0;
    while i < |listed|
      invariant 0 <= i <= |listed|
      invariant forall en :: en in mine <==> en in listed[..i] && RefsOf(en.entry.refs, run) != []
      invariant KeysDiffer(listed) ==> KeysDiffer(mine)
    {
      if RefsOf(listed[i].entry.refs, run) != [] {
        mine := mine + [listed[i]];
      }
      i := i + 1;
    }
  }

  /** mine lists exactly the entries that hold references of the run. */
  ghost predicate ListsRun(w: World, mine: seq<Listed>, run: string) {
    && KeysDiffer(mine)
    && (forall en :: en in mine <==>
          en.key in w.store && en.entry == w.store[en.key].entry && RefsOf(en.entry.refs, run) != [])
  }

  lemma SortedLists(w: World, held: seq<Listed>, sorted: seq<Listed>, run: string)
    requires ListsRun(w, held, run) && multiset(sorted) == multiset(held)
    ensures ListsRun(w, sorted, run)
  {
    forall en
      ensures en in sorted <==> en in held
    {
      assert en in sorted <==> en in multiset(sorted);
    }
    forall i, j | 0 <= i < j < |sorted|
      ensures sorted[i].key != sorted[j].key
    {
      if sorted[i] == sorted[j] {
        TwiceInBoth(sorted, held, i, j);
      }
    }
  }

  lemma TwiceInBoth(sorted: seq<Listed>, held: seq<Listed>, i: nat, j: nat)
    requires multiset(sorted) == multiset(held) && i < j < |sorted| && sorted[i] == sorted[j]
    ensures !KeysDiffer(held)
  {
    assert sorted == sorted[..i] + [sorted[i]] + sorted[i + 1..j] + [sorted[j]] + sorted[j + 1..];
    assert multiset(held)[sorted[i]] >= 2;
    if KeysDiffer(held) {
      AtMostOnce(held, sorted[i]);
    }
  }

  lemma {:induction false} AtMostOnce(held: seq<Listed>, en: Listed)
    requires KeysDiffer(held)
    ensures multiset(held)[en] <= 1
  {
    if held != [] {
      assert held == [held[0]] + held[1..];
      AtMostOnce(held[1..], en);
      assert held[0] !in held[1..];
    }
  }

  ghost predicate NoTombstones(w: World) {
    forall k :: k in w.store ==> !Tombstone(w.store[k].entry)
  }

  /** The entry is in use, by others only. */
  ghost predicate Clear(e: Entry, run: string) {
    e.refs != [] && forall r :: r in e.refs ==> r.run != run
  }

  /** The run holds at most the references in left, and somebody uses the entry if `used`. */
  ghost predicate OnlyOf(e: Entry, run: string, left: seq<Ref>, used: bool) {
    (forall r :: r in e.refs && r.run == run ==> r in left) && (used ==> e.refs != [])
  }

  ghost predicate Waiting(w: World, now: World, left: seq<Listed>) {
    forall en :: en in left ==> en.key in now.store && en.key in w.store && now.store[en.key] == w.store[en.key]
  }

  ghost predicate KeyAmong(k: Key, left: seq<Listed>) {
    exists en :: en in left && en.key == k
  }

  ghost predicate ClearExcept(now: World, left: seq<Listed>, run: string) {
    forall k :: k in now.store ==> KeyAmong(k, left) || Clear(now.store[k].entry, run)
  }

  /** Inside one entry: the references in left are still to be released. */
  ghost predicate Halfway(w: World, now: World, en: Listed, run: string, left: seq<Ref>, used: bool, clean: bool) {
    && Progress(w, now, run) && SameElsewhere(w, now, en.key)
    && (clean && en.key in w.store && w.store[en.key].entry == en.entry ==>
          en.key !in now.store || OnlyOf(now.store[en.key].entry, run, left, used))
  }

  lemma HalfwayStarts(w: World, en: Listed, run: string, refs: seq<Ref>)
    requires EntriesOk(w) && refs == RefsOf(en.entry.refs, run)
    ensures Halfway(w, w, en, run, refs, false, true)
  {
    RefsOfMembers(en.entry.refs, run);
    forall k
      ensures ProgressAt(w, w, run, k)
    {
    }
  }

  lemma HalfwayOn(w: World, before: World, now: World, en: Listed, run: string, left: seq<Ref>, used: bool, clean: bool,
                  ok: bool)
    requires left != [] && left[0].run == run
    requires Halfway(w, before, en, run, left, used, clean) && Released(before, now, en.key, left[0], ok)
    ensures Halfway(w, now, en, run, left[1..], true, clean && ok)
  {
    ProgressTransitive(w, before, now, run);
    assert left == [left[0]] + left[1..];
    if en.key in now.store {
      assert ProgressAt(before, now, run, en.key);
      RemoveRefMembers(before.store[en.key].entry.refs, left[0]);
    }
  }

  lemma NextHalf(w: World, before: World, now: World, en: Listed, run: string, refs: seq<Ref>, j: nat, clean: bool,
                 ok: bool)
    requires j < |refs| && refs == RefsOf(en.entry.refs, run)
    requires Halfway(w, before, en, run, refs[j..], j > 0, clean)
             && (EntriesOk(before) ==> Released(before, now, en.key, refs[j], ok))
    ensures Halfway(w, now, en, run, refs[j + 1..], true, clean && ok) && refs[j].run == run
  {
    RefsOfMembers(en.entry.refs, run);
    assert refs[j] in refs && refs[j..][1..] == refs[j + 1..];
    HalfwayOn(w, before, now, en, run, refs[j..], j > 0, clean, ok);
  }

  lemma HalfwayEnds(w: World, now: World, en: Listed, run: string, ok: bool)
    requires EntriesOk(w) && Halfway(w, now, en, run, [], RefsOf(en.entry.refs, run) != [], ok)
    ensures EntryReleased(w, now, en, run, ok)
  {
  }

  /** What ReleaseEntry may have done to an entry that is as it was listed. */
  ghost predicate EntryReleased(w: World, now: World, en: Listed, run: string, ok: bool) {
    EntriesOk(w) && en.key in w.store && w.store[en.key].entry == en.entry ==> (
      && Progress(w, now, run) && SameElsewhere(w, now, en.key)
      && (ok && RefsOf(en.entry.refs, run) != [] ==> en.key !in now.store || Clear(now.store[en.key].entry, run)))
  }

  /** Between entries: those in left are still as they were. */
  ghost predicate Partway(w: World, now: World, left: seq<Listed>, run: string, clean: bool) {
    && Progress(w, now, run) && KeysDiffer(left) && Waiting(w, now, left)
    && (forall en :: en in left ==> en.entry == w.store[en.key].entry && RefsOf(en.entry.refs, run) != [])
    && (clean && NoTombstones(w) ==> ClearExcept(now, left, run))
  }

  lemma PartwayStarts(w: World, mine: seq<Listed>, run: string)
    requires EntriesOk(w) && ListsRun(w, mine, run)
    ensures Partway(w, w, mine, run, true)
  {
    forall k
      ensures ProgressAt(w, w, run, k)
      ensures k in w.store && NoTombstones(w) && !KeyAmong(k, mine) ==> Clear(w.store[k].entry, run)
    {
      if k in w.store && NoTombstones(w) && !KeyAmong(k, mine) {
        assert Listed(k, w.store[k].entry) !in mine;
        RefsOfMembers(w.store[k].entry.refs, run);
      }
    }
  }

  /** Between entries, with an honest account of the calls made so far. */
  ghost predicate Underway(script: seq<Turn>, lo: nat, hi: nat, w: World, now: World, left: seq<Listed>, run: string,
                           clean: bool) {
    Partway(w, now, left, run, clean) && Honest(script, lo, hi, w, run, clean)
  }

  lemma {:induction false} NextEntry(script: seq<Turn>, lo: nat, mid: nat, hi: nat, w: World, before: World, now: World,
                                     mine: seq<Listed>, i: nat, run: string, clean: bool, ok: bool)
    requires lo <= mid <= hi && i < |mine| && Underway(script, lo, mid, w, before, mine[i..], run, clean)
    requires EntryReleased(before, now, mine[i], run, ok)
             && (EntriesOk(before) ==> Honest(script, mid, hi, before, run, ok))
    ensures Underway(script, lo, hi, w, now, mine[i + 1..], run, clean && ok)
  {
    assert mine[i..][0] == mine[i] && mine[i..][1..] == mine[i + 1..];
    PartwayOn(w, before, now, mine[i..], run, clean, ok);
    HonestOn(script, lo, mid, hi, w, before, run, clean, ok);
  }

  /** ReleaseEntry took the world from before to now. */
  lemma PartwayOn(w: World, before: World, now: World, left: seq<Listed>, run: string, clean: bool, ok: bool)
    requires left != [] && Partway(w, before, left, run, clean)
    requires EntryReleased(before, now, left[0], run, ok)
    ensures Partway(w, now, left[1..], run, clean && ok)
  {
    assert left[0] in left;
    ProgressTransitive(w, before, now, run);
    assert left == [left[0]] + left[1..];
    forall k | KeyAmong(k, left)
      ensures k == left[0].key || KeyAmong(k, left[1..])
    {
      var en :| en in left && en.key == k;
      assert en == left[0] || en in left[1..];
    }
  }

  /** Dropping one reference of the run is progress. */
  lemma DropIsProgress(w: World, k: Key, ref: Ref)
    requires EntriesOk(w) && k in w.store
    ensures Progress(w, L.AfterDrop(w, k, ref), ref.run) && SameElsewhere(w, L.AfterDrop(w, k, ref), k)
    ensures var e := L.AfterDrop(w, k, ref).store[k].entry; e == WithoutRef(w.store[k].entry, ref)
  {
    var now := L.AfterDrop(w, k, ref);
    WithoutRefFacts(w.store[k].entry, ref);
    OthersRefsAfterRemove(w.store[k].entry.refs, ref, ref.run);
    forall k2
      ensures ProgressAt(w, now, ref.run, k2)
    {
    }
  }

  /** Finishing a tombstone is progress. */
  lemma FinishIsProgress(w: World, now: World, k: Key, run: string)
    requires EntriesOk(w) && SweptAt(w, now, k) && SameElsewhere(w, now, k)
    ensures Progress(w, now, run)
  {
    SweptMore(w, w, now, k);
    SweptIsProgress(w, now, run);
  }

  /** What one ReleaseAndDelete may have done. */
  ghost predicate Released(w: World, now: World, k: Key, ref: Ref, ok: bool) {
    && Progress(w, now, ref.run) && SameElsewhere(w, now, k)
    && (ok && k in now.store ==>
          k in w.store && now.store[k].entry.refs == RemoveRef(w.store[k].entry.refs, ref)
              && now.store[k].entry.refs != [])
  }

  lemma {:induction false} ReleaseReleased(w: World, now: World, script: seq<Turn>, at: nat, pos: nat, k: Key, ref: Ref,
                                           r: Result<L.Outcome>)
    requires at <= pos && Quiet(script) && EntriesOk(w) && L.ReleaseEffect(script, w, at, now, pos, k, ref, r)
    ensures !(r.Ok? && r.value.MustDelete?) ==> Released(w, now, k, ref, r.Ok?)
  {
    if k in w.store {
      DropIsProgress(w, k, ref);
      var mid := L.AfterDrop(w, k, ref);
      QuietServed(mid, script, at, pos);
      if L.LastUnmanaged(w, k, ref) {
        var gone := mid.(store := mid.store - {k});
        assert SweptAt(mid, gone, k);
        FinishIsProgress(mid, gone, k, ref.run);
        ProgressTransitive(w, mid, gone, ref.run);
      }
    }
    assert Progress(w, w, ref.run) by {
      forall k2
        ensures ProgressAt(w, w, ref.run, k2)
      {
      }
    }
  }
}
