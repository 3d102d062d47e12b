/**
 The ledger client.  Each contract names the world `met`: what the others had made of the world
 when the call took effect.  The call's own effect is one atomic change of exactly that world.
 */
module Ledger {
  import opened Types
  import opened LedgerRules
  import opened Cluster

  /** How often a lost version check is retried (conflictBackoff.Steps). */
  const MAX_TRIES: nat := 30

  datatype Outcome = Gone | Shared | ReleasedUnmanaged | MustDelete(entry: Entry)

  /** The index of the first occurrence of ref, or -1. */
  method IndexOfRef(refs: seq<Ref>, ref: Ref) returns (i: int)
    ensures -1 <= i < |refs|
    ensures i >= 0 ==> refs[i] == ref && ref !in refs[..i]
    ensures i < 0 ==> ref !in refs
  {
    i := 0;
    while i < |refs|
      invariant 0 <= i <= |refs| && ref !in refs[..i]
    {
      if refs[i] == ref {
        return;
      }
      i := i + 1;
    }
    i := -1;
  }

  lemma {:induction false} CutsOut(refs: seq<Ref>, ref: Ref, i: nat)
    requires i < |refs| && refs[i] == ref && ref !in refs[..i]
    ensures refs[..i] + refs[i + 1..] == RemoveRef(refs, ref)
  {
    if i > 0 {
      assert refs[0] in refs[..i];
      assert refs[1..][..i - 1] == refs[..i][1..];
      CutsOut(refs[1..], ref, i - 1);
      assert refs[..i] == [refs[0]] + refs[1..][..i - 1];
    }
  }

  class Ledger {
    const api: Api

    constructor (api: Api)
      ensures this.api == api
    {
      this.api := api;
    }

    /** The world as the others have left it after `upTo` calls, given no change of ours in between. */
    ghost function Met(w: World, from: nat, upTo: nat): World
      requires from <= upTo
    {
      Served(w, api.script, from, upTo)
    }

    method Get(k: Key) returns (r: Result<Option<Stored>>)
      requires api.Valid()
      modifies api
      ensures api.Valid() && api.pos == old(api.pos) + 1 && api.Now() == Met(old(api.Now()), old(api.pos), api.pos)
      ensures r == Err(Unavailable) || r == Ok(if k in api.store then Some(api.store[k]) else None)
      ensures r.Err? <==> TurnAt(api.script, old(api.pos)).fails
    {
      ServedStep(api.Now(), api.script, api.pos, api.pos);
      r := api.Get(k);
    }

    /** Create the entry with ref as its first reference; ErrExists when somebody else was first. */
    method Register(k: Key, ref: Ref, managed: bool, hash: string, externalId: string) returns (r: Result<Entry>)
      requires api.Valid()
      modifies api
      ensures api.Valid() && api.pos == old(api.pos) + 1
      ensures var met := Met(old(api.Now()), old(api.pos), api.pos);
              match r
              case Ok(e) => k !in met.store && e == Entry(managed, hash, externalId, false, [ref])
                  && api.Now() == Put(met, k, e)
              case Err(err) =>
                api.Now() == met && err in {ErrExists, Unavailable} && (err == ErrExists ==> k in met.store)
      ensures r == Err(Unavailable) <==> TurnAt(api.script, old(api.pos)).fails
    {
      ServedStep(api.Now(), api.script, api.pos, api.pos);
      var e := FreshEntry(ref, managed, hash, externalId);
      r := api.Create(k, e);
      if r == Err(AlreadyExists) {
        r := Err(ErrExists);
      }
    }

    /**
     Add ref to an existing entry.  On success the whole effect is WithRef on the entry as it is
     when the call commits, whatever others wrote before: nobody's change is lost.  It starts over
     whenever somebody else wrote the entry first, and gives up only after the thirtieth time.
     */
    method AddRef(k: Key, ref: Ref, opts: AddOptions) returns (r: Result<Entry>)
      requires api.Valid()
      modifies api
      ensures api.Valid() && api.pos > old(api.pos)
      ensures AddEffect(Met(old(api.Now()), old(api.pos), api.pos), api.Now(), k, ref, opts, r)
      ensures r == Err(Unavailable) <==> !NoFault(api.script, old(api.pos), api.pos)
      ensures r == Err(NotFound) ==> Drops(TurnAt(api.script, api.pos - 1), k)
      ensures LostRaces(api.script, old(api.pos), api.pos, k)
      ensures r == Err(VersionConflict) ==> LostThirty(api.script, old(api.pos), api.pos, k)
    {
      ghost var w0, p0 := api.Now(), api.pos;
      var tries := 0;
      r := Err(VersionConflict);
      ServedStep(w0, api.script, p0, p0);
      while tries < MAX_TRIES && r == Err(VersionConflict)
        invariant api.Valid() && tries <= MAX_TRIES && (if tries > 0 then p0 < api.pos else p0 == api.pos)
        invariant tries == 0 ==> r == Err(VersionConflict)
        invariant AddEffect(Met(w0, p0, api.pos), api.Now(), k, ref, opts, r)
        invariant r == Err(Unavailable) <==> !NoFault(api.script, p0, api.pos)
        invariant r == Err(NotFound) ==> Drops(TurnAt(api.script, api.pos - 1), k)
        invariant LostRaces(api.script, p0, api.pos, k)
        invariant r == Err(VersionConflict) ==> AllLost(api.script, p0, api.pos, tries, k)
      {
        ghost var mid := api.pos;
        r := TryAddRef(k, ref, opts);
        RaceOn(api.script, p0, mid, tries, api.pos, k);
        tries := tries + 1;
        ServedInParts(w0, api.script, p0, mid, api.pos);
      }
    }

    /** One round of AddRef: read, edit, write back if anything changed. */
    method TryAddRef(k: Key, ref: Ref, opts: AddOptions) returns (r: Result<Entry>)
      requires api.Valid()
      modifies api
      ensures api.Valid() && api.pos > old(api.pos)
      ensures AddEffect(Met(old(api.Now()), old(api.pos), api.pos), api.Now(), k, ref, opts, r)
      ensures r == Err(Unavailable) <==> !NoFault(api.script, old(api.pos), api.pos)
      ensures api.pos <= old(api.pos) + 2
      ensures r == Err(NotFound) ==> Drops(TurnAt(api.script, api.pos - 1), k)
      ensures r == Err(VersionConflict) ==> api.pos == old(api.pos) + 2 && Puts(TurnAt(api.script, api.pos - 1), k)
    {
      ghost var w0, p0 := api.Now(), api.pos;
      ServedStep(w0, api.script, p0, p0);
      ServedStep(w0, api.script, p0, p0 + 1);
      var got := api.Get(k);
      if got.Err? {
        assert TurnAt(api.script, p0).fails;
        return Err(got.error);
      }
      if got.value.None? {
        return Err(ErrNotFound);
      }
      var s := got.value.value;
      if s.entry.terminating {
        return Err(ErrTerminating);
      }
      var i := IndexOfRef(s.entry.refs, ref);
      var e := s.entry;
      if i < 0 {
        e := e.(refs := e.refs + [ref]);
      }
      if opts.manage {
        e := e.(managed := true);
      }
      if opts.externalId != "" {
        e := e.(externalId := opts.externalId);
      }
      assert e == WithRef(s.entry, ref, opts);
      if e == s.entry {
        return Ok(e);
      }
      ghost var read := api.Now();
      r := api.Update(k, s.ver, e);
      AllLater(read, TurnAt(api.script, p0 + 1).writes);
      SomebodyDid(read, TurnAt(api.script, p0 + 1).writes, TurnAt(api.script, p0 + 1).fails, k);
    }

    /** Remove a finished tombstone: Get, then Delete by name. */
    method Finish(k: Key) returns (r: Result<()>)
      requires api.Valid()
      modifies api
      ensures api.Valid() && api.pos > old(api.pos)
      ensures r.Ok? <==> NoFault(api.script, old(api.pos), api.pos)
      ensures var met := Met(old(api.Now()), old(api.pos), api.pos);
              if r.Ok? then api.Now() == met.(store := met.store - {k}) else api.Now() == met && r.error == Unavailable
    {
      ghost var w0, p0 := api.Now(), api.pos;
      ServedStep(w0, api.script, p0, p0);
      ServedStep(w0, api.script, p0, p0 + 1);
      var got := api.Get(k);
      if got.Err? {
        return Err(got.error);
      }
      if got.value.None? {
        assert api.store - {k} == api.store;
        return Ok(());
      }
      r := api.Delete(k);
    }

    /**
     Drop ref from the entry.  `at` counts the calls up to the one at which the drop took effect
     (the read, when nothing changes); ReleaseEffect says what it did and what is left to do.  It
     starts over whenever somebody else wrote the entry first, and gives up only after the thirtieth
     time.
     */
    method Release(k: Key, ref: Ref) returns (r: Result<Outcome>, ghost at: nat)
      requires api.Valid()
      modifies api
      ensures api.Valid() && old(api.pos) < at <= api.pos
      ensures ReleaseEffect(api.script, Met(old(api.Now()), old(api.pos), at), at, api.Now(), api.pos, k, ref, r)
      ensures r == Err(Unavailable) <==> !NoFault(api.script, old(api.pos), api.pos)
      ensures r.Err? ==> r.error in {Unavailable, NotFound, VersionConflict}
      ensures r == Err(NotFound) ==> Drops(TurnAt(api.script, api.pos - 1), k)
      ensures LostRaces(api.script, old(api.pos), at, k)
      ensures r == Err(VersionConflict) ==> LostThirty(api.script, old(api.pos), api.pos, k)
    {
      ghost var w0, p0 := api.Now(), api.pos;
      var tries := 0;
      at := api.pos;
      r := Err(VersionConflict);
      ServedStep(w0, api.script, p0, p0);
      while tries < MAX_TRIES && r == Err(VersionConflict)
        invariant api.Valid() && tries <= MAX_TRIES && p0 <= at <= api.pos && (tries > 0 <==> p0 < at)
        invariant r == Err(VersionConflict) ==> at == api.pos && api.Now() == Met(w0, p0, at)
        invariant tries == 0 ==> r == Err(VersionConflict)
        invariant ReleaseEffect(api.script, Met(w0, p0, at), at, api.Now(), api.pos, k, ref, r)
        invariant r == Err(Unavailable) <==> !NoFault(api.script, p0, api.pos)
        invariant r.Err? ==> r.error in {Unavailable, NotFound, VersionConflict}
        invariant r == Err(NotFound) ==> Drops(TurnAt(api.script, api.pos - 1), k)
        invariant LostRaces(api.script, p0, at, k)
        invariant r == Err(VersionConflict) ==> AllLost(api.script, p0, at, tries, k)
      {
        ghost var mid := at;
        r, at := TryRelease(k, ref);
        RaceOn(api.script, p0, mid, tries, at, k);
        tries := tries + 1;
        ServedInParts(w0, api.script, p0, mid, at);
      }
    }

    /** One round of Release: read, drop, write back if anything changed. */
    method TryRelease(k: Key, ref: Ref) returns (r: Result<Outcome>, ghost at: nat)
      requires api.Valid()
      modifies api
      ensures api.Valid() && old(api.pos) < at <= api.pos
      ensures ReleaseEffect(api.script, Met(old(api.Now()), old(api.pos), at), at, api.Now(), api.pos, k, ref, r)
      ensures r == Err(Unavailable) <==> !NoFault(api.script, old(api.pos), api.pos)
      ensures at <= old(api.pos) + 2 && (r.Err? ==> r.error in {Unavailable, NotFound, VersionConflict})
      ensures r == Err(NotFound) ==> Drops(TurnAt(api.script, api.pos - 1), k)
      ensures r == Err(VersionConflict) ==>
                && at == api.pos == old(api.pos) + 2 && api.Now() == Met(old(api.Now()), old(api.pos), at)
                && Puts(TurnAt(api.script, api.pos - 1), k)
    {
      ghost var w0, p0 := api.Now(), api.pos;
      ServedStep(w0, api.script, p0, p0);
      ServedStep(w0, api.script, p0, p0 + 1);
      var got := api.Get(k);
      at := api.pos;
      if got.Err? {
        assert TurnAt(api.script, p0).fails;
        return Err(got.error), at;
      }
      if got.value.None? {
        return Ok(Gone), at;
      }
      var s := got.value.value;
      ghost var read := api.Now();
      var e := Without(s.entry, ref);
      if e != s.entry {
        var written := api.Update(k, s.ver, e);
        AllLater(read, TurnAt(api.script, p0 + 1).writes);
        SomebodyDid(read, TurnAt(api.script, p0 + 1).writes, TurnAt(api.script, p0 + 1).fails, k);
        at := api.pos;
        if written.Err? {
          return Err(written.error), at;
        }
      }
      r := Conclude(k, e);
    }

    /**
     What is left to do once the entry is e: nothing, the deletion by the caller, or to remove an
     unmanaged tombstone.
     */
    method Conclude(k: Key, e: Entry) returns (r: Result<Outcome>)
      requires api.Valid()
      modifies api
      ensures api.Valid() && api.pos == old(api.pos) + (if e.refs == [] && !e.managed then 1 else 0)
      ensures r.Ok? <==> NoFault(api.script, old(api.pos), api.pos)
      ensures var met := Met(old(api.Now()), old(api.pos), api.pos);
              if e.refs != [] then r == Ok(Shared) && api.Now() == met
              else if e.managed then r == Ok(MustDelete(e)) && api.Now() == met
              else if r.Ok? then r == Ok(ReleasedUnmanaged) && api.Now() == met.(store := met.store - {k})
              else api.Now() == met && r.error == Unavailable
    {
      ServedStep(api.Now(), api.script, api.pos, api.pos);
      if e.refs != [] {
        return Ok(Shared);
      }
      if e.managed {
        return Ok(MustDelete(e));
      }
      var dropped := api.Delete(k);
      r := if dropped.Ok? then Ok(ReleasedUnmanaged) else Err(dropped.error);
    }
  }

  /** The edit of a release: cut the reference out, and mark the entry when it was the last. */
  method Without(e: Entry, ref: Ref) returns (e2: Entry)
    ensures e2 == WithoutRef(e, ref)
  {
    e2 := e;
    var i := IndexOfRef(e.refs, ref);
    if i >= 0 {
      CutsOut(e.refs, ref, i);
      e2 := e2.(refs := e.refs[..i] + e.refs[i + 1..]);
    } else {
      RemoveRefMembers(e.refs, ref);
    }
    if e2.refs == [] && !e2.terminating {
      e2 := e2.(terminating := true);
    }
  }

  /** AddRef found world met when it took effect and returned r with the world now. */
  ghost predicate AddEffect(met: World, now: World, k: Key, ref: Ref, opts: AddOptions, r: Result<Entry>) {
    match r
    case Ok(e) =>
      && k in met.store && !met.store[k].entry.terminating && e == WithRef(met.store[k].entry, ref, opts)
      && now == if e == met.store[k].entry then met else Put(met, k, e)
    case Err(err) =>
      && now == met && err in {ErrNotFound, ErrTerminating, NotFound, VersionConflict, Unavailable}
      && (err == ErrNotFound ==> k !in met.store)
      && (err == ErrTerminating ==> k in met.store && met.store[k].entry.terminating)
  }

  /** The world with ref dropped from entry k; nothing is written when nothing changes. */
  ghost function AfterDrop(w: World, k: Key, ref: Ref): World
    requires k in w.store
  {
    var e := WithoutRef(w.store[k].entry, ref);
    if e == w.store[k].entry then w else Put(w, k, e)
  }

  /**
   Release found world met, dropped ref after call number at, and returned r with the world now.
   An unmanaged entry is removed by one more call, behind its own tombstone; that call alone may
   be what failed.
   */
  ghost predicate ReleaseEffect(script: seq<Turn>, met: World, at: nat, now: World, pos: nat, k: Key, ref: Ref,
                                r: Result<Outcome>)
    requires at <= pos
  {
    match r
    case Ok(Gone) => at == pos && k !in met.store && now == met
    case Ok(Shared) =>
      at == pos && k in met.store && WithoutRef(met.store[k].entry, ref).refs != [] && now == AfterDrop(met, k, ref)
    case Ok(MustDelete(e)) =>
      && at == pos && k in met.store && e == WithoutRef(met.store[k].entry, ref)
      && Tombstone(e) && e.managed && now == AfterDrop(met, k, ref)
    case Ok(ReleasedUnmanaged) =>
      && LastUnmanaged(met, k, ref)
      && var w := Served(AfterDrop(met, k, ref), script, at, pos); now == w.(store := w.store - {k})
    case Err(_) =>
      || (at == pos && now == met)
      || (LastUnmanaged(met, k, ref) && now == Served(AfterDrop(met, k, ref), script, at, pos))
  }

  ghost predicate LastUnmanaged(w: World, k: Key, ref: Ref) {
    k in w.store && Tombstone(WithoutRef(w.store[k].entry, ref)) && !w.store[k].entry.managed
  }
}
