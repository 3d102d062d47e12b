/**
 The ledger's object store and the upstream services as one client sees them: each of its calls
 is preceded by whatever others did meanwhile, and may fail.  Both come from a script, so a
 method's outcome is a function of its inputs.
 */
module Cluster {
  import opened Types
  import opened LedgerRules

  datatype Error =
    | Unavailable
    | NotFound | AlreadyExists | VersionConflict
    | ErrNotFound | ErrExists | ErrTerminating
    | Mismatch | HashConflict | Unsettled | Undeletable

  datatype Result<+T> = Ok(value: T) | Err(error: Error)

  /** An upstream object: its content, and the ID the upstream gave it ("" when the name is the identity). */
  datatype Object = Object(content: string, id: string)

  datatype World = World(store: map<Key, Stored>, clock: nat, up: map<Key, Object>)

  ghost predicate EntriesOk(w: World) {
    forall k :: k in w.store ==> WellFormed(w.store[k].entry)
  }

  datatype Write = PutEntry(key: Key, entry: Entry) | DeleteEntry(key: Key) | PutObject(key: Key, object: Object)
      | DeleteObject(key: Key)

  /** What happens around one call: the writes of others before it, and whether the call itself fails. */
  datatype Turn = Turn(writes: seq<Write>, fails: bool)

  function TurnAt(script: seq<Turn>, i: nat): Turn {
    if i < |script| then script[i] else Turn([], false)
  }

  /** Every write gives the entry a version nothing had before; a new entry also starts a new life. */
  function Put(w: World, k: Key, e: Entry): World {
    var uid := if k in w.store then w.store[k].uid else w.clock;
    w.(store := w.store[k := Stored(uid, w.clock, e)], clock := w.clock + 1)
  }

  function Apply(w: World, write: Write): World {
    match write
    case PutEntry(k, e) => Put(w, k, e)
    case DeleteEntry(k) => w.(store := w.store - {k})
    case PutObject(k, o) => w.(up := w.up[k := o])
    case DeleteObject(k) => w.(up := w.up - {k})
  }

  function ApplyAll(w: World, writes: seq<Write>): World
    decreases |writes|
  {
    if writes == [] then w else ApplyAll(Apply(w, writes[0]), writes[1..])
  }

  /** The world after the others' writes of turns lo..hi. */
  function Served(w: World, script: seq<Turn>, lo: nat, hi: nat): World
    requires lo <= hi
    decreases hi
  {
    if lo == hi then w else ApplyAll(Served(w, script, lo, hi - 1), TurnAt(script, hi - 1).writes)
  }

  lemma {:induction false} ServedStep(w: World, script: seq<Turn>, lo: nat, hi: nat)
    requires lo <= hi
    ensures Served(w, script, lo, lo) == w
    ensures Served(w, script, lo, hi + 1) == ApplyAll(Served(w, script, lo, hi), TurnAt(script, hi).writes)
  {
  }

  lemma {:induction false} ServedInParts(w: World, script: seq<Turn>, lo: nat, mid: nat, hi: nat)
    requires lo <= mid <= hi
    ensures Served(Served(w, script, lo, mid), script, mid, hi) == Served(w, script, lo, hi)
    decreases hi
  {
    if mid < hi {
      ServedInParts(w, script, lo, mid, hi - 1);
    }
  }

  /** Nobody else writes anything. */
  ghost predicate Quiet(script: seq<Turn>) {
    forall i :: 0 <= i < |script| ==> script[i].writes == []
  }

  /** None of calls lo..hi fails. */
  ghost predicate NoFault(script: seq<Turn>, lo: nat, hi: nat) {
    forall i :: lo <= i < hi ==> !TurnAt(script, i).fails
  }

  ghost predicate Versioned(w: World) {
    forall k :: k in w.store ==> w.store[k].ver < w.clock
  }

  /** From an earlier world to a later one, an unchanged version means an unchanged entry. */
  ghost predicate Later(w: World, w2: World) {
    && Versioned(w2) && w.clock <= w2.clock
    && forall k :: k in w2.store && w2.store[k].ver < w.clock ==> k in w.store && w2.store[k] == w.store[k]
  }

  lemma {:induction false} AllLater(w: World, writes: seq<Write>)
    requires Versioned(w)
    ensures Later(w, ApplyAll(w, writes))
    decreases |writes|
  {
    if writes != [] {
      AllLater(Apply(w, writes[0]), writes[1..]);
    }
  }

  // ---- who else writes what ----

  /** Somebody else writes the entry right before this call. */
  ghost predicate Puts(turn: Turn, k: Key) {
    exists i :: 0 <= i < |turn.writes| && turn.writes[i].PutEntry? && turn.writes[i].key == k
  }

  /** Somebody else deletes it. */
  ghost predicate Drops(turn: Turn, k: Key) {
    exists i :: 0 <= i < |turn.writes| && turn.writes[i] == DeleteEntry(k)
  }

  /** Somebody else makes the resource. */
  ghost predicate MakesObject(turn: Turn, k: Key) {
    exists i :: 0 <= i < |turn.writes| && turn.writes[i].PutObject? && turn.writes[i].key == k
  }

  /** Whatever differs after the others' writes, one of them has written. */
  lemma {:induction false} SomebodyDid(w: World, writes: seq<Write>, fails: bool, k: Key)
    ensures var now, turn := ApplyAll(w, writes), Turn(writes, fails);
            && (k in now.store && !(k in w.store && now.store[k] == w.store[k]) ==> Puts(turn, k))
            && (k in w.store && k !in now.store ==> Drops(turn, k))
            && (k in now.up && k !in w.up ==> MakesObject(turn, k))
    decreases |writes|
  {
    if writes != [] {
      SomebodyDid(Apply(w, writes[0]), writes[1..], fails, k);
      var turn, rest := Turn(writes, fails), Turn(writes[1..], fails);
      if Puts(rest, k) {
        var i :| 0 <= i < |rest.writes| && rest.writes[i].PutEntry? && rest.writes[i].key == k;
        assert turn.writes[i + 1] == rest.writes[i];
      }
      if Drops(rest, k) {
        var i :| 0 <= i < |rest.writes| && rest.writes[i] == DeleteEntry(k);
        assert turn.writes[i + 1] == rest.writes[i];
      }
      if MakesObject(rest, k) {
        var i :| 0 <= i < |rest.writes| && rest.writes[i].PutObject? && rest.writes[i].key == k;
        assert turn.writes[i + 1] == rest.writes[i];
      }
      assert turn.writes[0] == writes[0];
    }
  }

  /** The same, before one of calls lo..hi. */
  ghost predicate PutBetween(script: seq<Turn>, lo: nat, hi: nat, k: Key) {
    exists i: nat :: lo <= i < hi && Puts(TurnAt(script, i), k)
  }

  ghost predicate DroppedBetween(script: seq<Turn>, lo: nat, hi: nat, k: Key) {
    exists i: nat :: lo <= i < hi && Drops(TurnAt(script, i), k)
  }

  ghost predicate MadeBetween(script: seq<Turn>, lo: nat, hi: nat, k: Key) {
    exists i: nat :: lo <= i < hi && MakesObject(TurnAt(script, i), k)
  }

  lemma {:induction false} SomebodyBetween(w: World, script: seq<Turn>, lo: nat, hi: nat, k: Key)
    requires lo <= hi
    ensures var now := Served(w, script, lo, hi);
            && (k in now.store && !(k in w.store && now.store[k] == w.store[k]) ==> PutBetween(script, lo, hi, k))
            && (k in w.store && k !in now.store ==> DroppedBetween(script, lo, hi, k))
            && (k in now.up && k !in w.up ==> MadeBetween(script, lo, hi, k))
    decreases hi
  {
    if lo < hi {
      SomebodyBetween(w, script, lo, hi - 1, k);
      var turn := TurnAt(script, hi - 1);
      SomebodyDid(Served(w, script, lo, hi - 1), turn.writes, turn.fails, k);
    }
  }

  /**
   Every second one of calls lo..hi, the last perhaps excepted, comes right after somebody else's
   write of the entry: these are the updates of rounds that lost the race.
   */
  ghost predicate LostRaces(script: seq<Turn>, lo: nat, hi: nat, k: Key) {
    forall p: nat :: lo < p && p + 1 < hi && (p - lo) % 2 == 1 ==> Puts(TurnAt(script, p), k)
  }

  /** Each of thirty rounds lost it, the last one included. */
  ghost predicate LostThirty(script: seq<Turn>, lo: nat, hi: nat, k: Key) {
    hi == lo + 60 && forall p: nat :: lo < p < hi && (p - lo) % 2 == 1 ==> Puts(TurnAt(script, p), k)
  }

  /** Rounds of two calls each, all of which lost the race. */
  ghost predicate AllLost(script: seq<Turn>, lo: nat, hi: nat, rounds: nat, k: Key) {
    hi == lo + 2 * rounds && forall p: nat :: lo < p < hi && (p - lo) % 2 == 1 ==> Puts(TurnAt(script, p), k)
  }

  /** One round more. */
  lemma {:induction false} RaceOn(script: seq<Turn>, lo: nat, mid: nat, rounds: nat, hi: nat, k: Key)
    requires AllLost(script, lo, mid, rounds, k) && mid < hi <= mid + 2
    ensures LostRaces(script, lo, hi, k)
    ensures hi == mid + 2 && Puts(TurnAt(script, hi - 1), k) ==> AllLost(script, lo, hi, rounds + 1, k)
  {
  }

  lemma {:induction false} QuietServed(w: World, script: seq<Turn>, lo: nat, hi: nat)
    requires Quiet(script) && lo <= hi
    ensures Served(w, script, lo, hi) == w
    decreases hi
  {
    if lo < hi {
      QuietServed(w, script, lo, hi - 1);
    }
  }

  /** The store and the upstream services behind the client. */
  class Api {
    var store: map<Key, Stored>
    var clock: nat
    var up: map<Key, Object>
    const script: seq<Turn>
    var pos: nat

    ghost predicate Valid()
      reads this
    {
      Versioned(Now())
    }

    function Now(): World
      reads this
    {
      World(store, clock, up)
    }

    constructor (w: World, script: seq<Turn>)
      requires Versioned(w)
      ensures Valid() && Now() == w && this.script == script && pos == 0
    {
      store, clock, up := w.store, w.clock, w.up;
      this.script := script;
      pos := 0;
    }

    /** The others' writes, then this call: it may fail before having any effect. */
    method Begin() returns (fails: bool)
      requires Valid()
      modifies this
      ensures Valid() && pos == old(pos) + 1
      ensures Now() == ApplyAll(old(Now()), TurnAt(script, old(pos)).writes)
      ensures fails == TurnAt(script, old(pos)).fails
    {
      var turn := TurnAt(script, pos);
      AllLater(Now(), turn.writes);
      var w := ApplyAll(Now(), turn.writes);
      store, clock, up := w.store, w.clock, w.up;
      pos := pos + 1;
      fails := turn.fails;
    }

    /** The world this call meets. */
    function Met(w: World, at: nat): World {
      ApplyAll(w, TurnAt(script, at).writes)
    }

    method Get(k: Key) returns (r: Result<Option<Stored>>)
      requires Valid()
      modifies this
      ensures Valid() && pos == old(pos) + 1 && Now() == Met(old(Now()), old(pos))
      ensures r == if TurnAt(script, old(pos)).fails then Err(Unavailable)
              else Ok(if k in store then Some(store[k]) else None)
    {
      var fails := Begin();
      r := if fails then Err(Unavailable) else Ok(if k in store then Some(store[k]) else None);
    }

    method Create(k: Key, e: Entry) returns (r: Result<Entry>)
      requires Valid()
      modifies this
      ensures Valid() && pos == old(pos) + 1
      ensures var w := Met(old(Now()), old(pos));
              if TurnAt(script, old(pos)).fails then r == Err(Unavailable) && Now() == w
              else if k in w.store then r == Err(AlreadyExists) && Now() == w
              else r == Ok(e) && Now() == Put(w, k, e)
    {
      var fails := Begin();
      if fails {
        return Err(Unavailable);
      }
      if k in store {
        return Err(AlreadyExists);
      }
      store, clock := store[k := Stored(clock, clock, e)], clock + 1;
      r := Ok(e);
    }

    /** A version-checked update. */
    method Update(k: Key, ver: nat, e: Entry) returns (r: Result<Entry>)
      requires Valid()
      modifies this
      ensures Valid() && pos == old(pos) + 1
      ensures var w := Met(old(Now()), old(pos));
              if TurnAt(script, old(pos)).fails then r == Err(Unavailable) && Now() == w
              else if k !in w.store then r == Err(NotFound) && Now() == w
              else if w.store[k].ver != ver then r == Err(VersionConflict) && Now() == w
              else r == Ok(e) && Now() == Put(w, k, e)
    {
      var fails := Begin();
      if fails {
        return Err(Unavailable);
      }
      if k !in store {
        return Err(NotFound);
      }
      if store[k].ver != ver {
        return Err(VersionConflict);
      }
      store, clock := store[k := Stored(store[k].uid, clock, e)], clock + 1;
      r := Ok(e);
    }

    /** Deletes by name, whatever the version; a missing object is no error to its callers. */
    method Delete(k: Key) returns (r: Result<()>)
      requires Valid()
      modifies this
      ensures Valid() && pos == old(pos) + 1
      ensures var w := Met(old(Now()), old(pos));
              if TurnAt(script, old(pos)).fails then r == Err(Unavailable) && Now() == w
              else r == Ok(()) && Now() == w.(store := w.store - {k})
    {
      var fails := Begin();
      if fails {
        return Err(Unavailable);
      }
      store := store - {k};
      r := Ok(());
    }

    method List() returns (r: Result<map<Key, Stored>>)
      requires Valid()
      modifies this
      ensures Valid() && pos == old(pos) + 1 && Now() == Met(old(Now()), old(pos))
      ensures r == if TurnAt(script, old(pos)).fails then Err(Unavailable) else Ok(store)
    {
      var fails := Begin();
      r := if fails then Err(Unavailable) else Ok(store);
    }

    method GetObject(k: Key) returns (r: Result<Option<Object>>)
      requires Valid()
      modifies this
      ensures Valid() && pos == old(pos) + 1 && Now() == Met(old(Now()), old(pos))
      ensures r == if TurnAt(script, old(pos)).fails then Err(Unavailable)
              else Ok(if k in up then Some(up[k]) else None)
    {
      var fails := Begin();
      r := if fails then Err(Unavailable) else Ok(if k in up then Some(up[k]) else None);
    }

    method CreateObject(k: Key, o: Object) returns (r: Result<string>)
      requires Valid()
      modifies this
      ensures Valid() && pos == old(pos) + 1
      ensures var w := Met(old(Now()), old(pos));
              if TurnAt(script, old(pos)).fails then r == Err(Unavailable) && Now() == w
              else if k in w.up then r == Err(AlreadyExists) && Now() == w
              else r == Ok(o.id) && Now() == w.(up := w.up[k := o])
    {
      var fails := Begin();
      if fails {
        return Err(Unavailable);
      }
      if k in up {
        return Err(AlreadyExists);
      }
      up := up[k := o];
      r := Ok(o.id);
    }

    method UpdateObject(k: Key, o: Object) returns (r: Result<()>)
      requires Valid()
      modifies this
      ensures Valid() && pos == old(pos) + 1
      ensures var w := Met(old(Now()), old(pos));
              if TurnAt(script, old(pos)).fails then r == Err(Unavailable) && Now() == w
              else r == Ok(()) && Now() == w.(up := w.up[k := o])
    {
      var fails := Begin();
      if fails {
        return Err(Unavailable);
      }
      up := up[k := o];
      r := Ok(());
    }

    method RemoveObject(k: Key) returns (r: Result<()>)
      requires Valid()
      modifies this
      ensures Valid() && pos == old(pos) + 1
      ensures var w := Met(old(Now()), old(pos));
              if TurnAt(script, old(pos)).fails then r == Err(Unavailable) && Now() == w
              else r == Ok(()) && Now() == w.(up := w.up - {k})
    {
      var fails := Begin();
      if fails {
        return Err(Unavailable);
      }
      up := up - {k};
      r := Ok(());
    }
  }
}
