/** Making one upstream resource exist through the ledger (Env.ensure). */
module Ensure {
  import opened Types
  import opened LedgerRules
  import opened Cluster
  import Ledger

  const MAX_ATTEMPTS: nat := 5

  /** The recipe for one resource (struct managed). */
  datatype Recipe = Recipe(
    key: Key,
    hash: string,
    claim: bool,
    matches: Object -> bool,
    built: Object,
    update: Option<string>)

  predicate HashesClash(a: string, b: string) {
    a != "" && b != "" && a != b
  }

  // ---- what ensure does when it is alone and no call fails ----

  function WithEntry(w: World, k: Key, e: Entry): World {
    if k in w.store && w.store[k].entry == e then w else Put(w, k, e)
  }

  /** The entry once ensure has recorded ref; made tells whether the resource has to be created. */
  function Recorded(w: World, ref: Ref, m: Recipe, made: bool): Entry {
    if m.key in w.store then WithRef(w.store[m.key].entry, ref, AddOptions(made, ""))
    else FreshEntry(ref, made || m.claim, m.hash, if made then "" else if m.key in w.up then w.up[m.key].id else "")
  }

  function Adopt(w: World, ref: Ref, m: Recipe): World
    requires m.key in w.up
  {
    var w1 := WithEntry(w, m.key, Recorded(w, ref, m, false));
    if m.update.Some? then w1.(up := w1.up[m.key := w.up[m.key].(content := m.update.value)]) else w1
  }

  function Make(w: World, ref: Ref, m: Recipe): World {
    var e := Recorded(w, ref, m, true);
    var w1 := WithEntry(w, m.key, e);
    var w2 := w1.(up := w1.up[m.key := m.built]);
    if m.built.id == "" then w2 else WithEntry(w2, m.key, WithRef(e, ref, AddOptions(false, m.built.id)))
  }

  /** The undisturbed outcome of ensure. */
  function Outcome(w: World, ref: Ref, m: Recipe): (World, Result<string>) {
    if m.key in w.store && w.store[m.key].entry.terminating then (w, Err(ErrTerminating))
    else if m.key !in w.up then (Make(w, ref, m), Ok(m.built.id))
    else if !m.matches(w.up[m.key]) then (w, Err(Mismatch))
    else if m.key in w.store && HashesClash(w.store[m.key].entry.hash, m.hash) then (w, Err(HashConflict))
    else (Adopt(w, ref, m), Ok(w.up[m.key].id))
  }

  /** The entry and the object a successful ensure leaves behind. */
  function EntryAfter(w: World, ref: Ref, m: Recipe): Entry {
    if m.key in w.up then Recorded(w, ref, m, false)
    else if m.built.id == "" then Recorded(w, ref, m, true)
    else WithRef(Recorded(w, ref, m, true), ref, AddOptions(false, m.built.id))
  }

  function ObjectAfter(w: World, m: Recipe): Object {
    if m.key !in w.up then m.built
    else if m.update.Some? then w.up[m.key].(content := m.update.value)
    else w.up[m.key]
  }

  /** From w to w2 only key k changed, to entry e and object o. */
  ghost predicate OnlyKey(w: World, w2: World, k: Key, e: Entry, o: Object) {
    && k in w2.store && w2.store[k].entry == e
    && (forall k2 :: k2 != k ==> (k2 in w2.store <==> k2 in w.store))
    && (forall k2 :: k2 != k && k2 in w.store ==> w2.store[k2] == w.store[k2])
    && w2.up == w.up[k := o]
  }

  lemma {:induction false} OutcomeShape(w: World, ref: Ref, m: Recipe)
    ensures var (w2, r) := Outcome(w, ref, m);
            if r.Ok? then OnlyKey(w, w2, m.key, EntryAfter(w, ref, m), ObjectAfter(w, m)) else w2 == w
  {
    if m.key in w.up {
      var w1 := WithEntry(w, m.key, Recorded(w, ref, m, false));
      assert w1.up == w.up == w.up[m.key := w.up[m.key]];
    }
  }

  lemma {:induction false} EntryAfterFacts(w: World, ref: Ref, m: Recipe)
    requires EntriesOk(w) && (m.key in w.store ==> !w.store[m.key].entry.terminating)
    ensures var e := EntryAfter(w, ref, m);
            && WellFormed(e) && !e.terminating && ref in e.refs
            && (m.key !in w.up ==> e.managed)
            && e.hash == (if m.key in w.store then w.store[m.key].entry.hash else m.hash)
            && (forall other :: m.key in w.store && other in w.store[m.key].entry.refs ==> other in e.refs)
            && WithRef(e, ref, AddOptions(false, "")) == e
  {
    var made := m.key !in w.up;
    if m.key in w.store {
      WithRefFacts(w.store[m.key].entry, ref, AddOptions(made, ""));
    }
    WithRefFacts(Recorded(w, ref, m, made), ref, AddOptions(false, m.built.id));
  }

  /** Which result an undisturbed ensure has. */
  ghost predicate ResultFits(w: World, m: Recipe, r: Result<string>) {
    var entry := if m.key in w.store then Some(w.store[m.key].entry) else None;
    var found := if m.key in w.up then Some(w.up[m.key]) else None;
    var dead := entry.Some? && entry.value.terminating;
    var differs := found.Some? && !m.matches(found.value);
    var clash := found.Some? && entry.Some? && entry.value.hash != "" && m.hash != "" && entry.value.hash != m.hash;
    && (r == Err(ErrTerminating) <==> dead)
    && (r == Err(Mismatch) <==> !dead && differs)
    && (r == Err(HashConflict) <==> !dead && !differs && clash)
    && (r.Ok? <==> !dead && !differs && !clash)
    && (r.Ok? ==> r.value == if found.Some? then found.value.id else m.built.id)
  }

  /** What it leaves of the entry and the resource. */
  ghost predicate LeavesBehind(w: World, m: Recipe, e: Entry, o: Object) {
    var found := m.key in w.up;
    && (if m.key in w.store then
          var was := w.store[m.key].entry;
          && e.hash == was.hash && (e.managed <==> was.managed || !found)
          && e.externalId == (if found || m.built.id == "" then was.externalId else m.built.id)
        else
          && e.hash == m.hash && (e.managed <==> m.claim || !found)
          && e.externalId == (if found then w.up[m.key].id else m.built.id))
    && o == (if !found then m.built
             else if m.update.Some? then Object(m.update.value, w.up[m.key].id)
             else w.up[m.key])
  }

  /**
   On success the resource exists, the reference is in its entry exactly once, nobody else's
   reference is lost and every other key is untouched; on a conflict nothing has changed at all.
   */
  lemma {:induction false} EnsureContract(w: World, ref: Ref, m: Recipe)
    requires EntriesOk(w)
    ensures ResultFits(w, m, Outcome(w, ref, m).1)
    ensures var (w2, r) := Outcome(w, ref, m);
            r.Ok? ==> m.key in w2.up && m.key in w2.store && LeavesBehind(w, m, w2.store[m.key].entry, w2.up[m.key])
    ensures var (w2, r) := Outcome(w, ref, m);
            && EntriesOk(w2)
            && (r.Err? ==> w2 == w)
            && (r.Ok? ==>
                  && m.key in w2.up && m.key in w2.store && OnlyKey(w, w2, m.key, w2.store[m.key].entry, w2.up[m.key])
                  && var e := w2.store[m.key].entry;
                     && !e.terminating && multiset(e.refs)[ref] == 1 && (m.key !in w.up ==> e.managed)
                     && (forall other :: m.key in w.store && other in w.store[m.key].entry.refs ==> other in e.refs))
  {
    OutcomeShape(w, ref, m);
    if Outcome(w, ref, m).1.Ok? {
      EntryAfterFacts(w, ref, m);
      OncePerEntry(EntryAfter(w, ref, m).refs, ref);
    }
  }

  /** The step recognises the resource it leaves behind. */
  ghost predicate RecognisesItsOwn(w: World, m: Recipe) {
    m.matches(ObjectAfter(w, m))
  }

  /**
   Repeating a successful ensure creates nothing and leaves the ledger as it is, exactly if the
   entry's recorded hash agrees with the step's.  It fails to for one reason only: recreating a
   resource that vanished keeps the old entry's hash.
   */
  lemma {:induction false} RepeatingIsIdempotentIff(w: World, ref: Ref, m: Recipe)
    requires EntriesOk(w) && Outcome(w, ref, m).1.Ok? && RecognisesItsOwn(w, m)
    ensures var w1 := Outcome(w, ref, m).0;
            var (w2, r2) := Outcome(w1, ref, m);
            var stale := m.key in w.store && m.key !in w.up && HashesClash(w.store[m.key].entry.hash, m.hash);
            if stale then w2 == w1 && r2 == Err(HashConflict)
            else r2.Ok? && w2.store == w1.store && w2.clock == w1.clock && w2.up.Keys == w1.up.Keys
  {
    var w1 := Outcome(w, ref, m).0;
    OutcomeShape(w, ref, m);
    EntryAfterFacts(w, ref, m);
    assert w1.up[m.key] == ObjectAfter(w, m);
    assert Recorded(w1, ref, m, false) == w1.store[m.key].entry;
  }

  /**
   How that comes about: one run makes the resource, somebody deletes it by hand, and another run
   that wants it with different settings makes it again under the old entry.  That succeeds; the same
   step asked once more reports a conflict with the resource it has just made.
   */
  lemma {:induction false} RecreatedUnderOldHash(first: Ref, second: Ref, m: Recipe, hash: string)
    requires m.matches(m.built) && m.hash != "" && hash != "" && hash != m.hash && m.built.id == ""
    ensures var empty := World(map[], 0, map[]);
            var (made, r1) := Outcome(empty, first, m.(hash := hash));
            var gone := made.(up := made.up - {m.key});
            var (again, r2) := Outcome(gone, second, m);
            r1.Ok? && EntriesOk(gone) && r2.Ok? && Outcome(again, second, m) == (again, Err(HashConflict))
  {
    var empty := World(map[], 0, map[]);
    var made := Outcome(empty, first, m.(hash := hash)).0;
    var gone := made.(up := made.up - {m.key});
    OutcomeShape(empty, first, m.(hash := hash));
    assert gone.store.Keys == {m.key} && gone.store[m.key].entry == FreshEntry(first, true, hash, "");
    OutcomeShape(gone, second, m);
    assert RecognisesItsOwn(gone, m) && Outcome(gone, second, m).1.Ok?;
    RepeatingIsIdempotentIff(gone, second, m);
  }

  // ---- what one pass does whatever others write in between ----

  /** One call of a pass that told it something or changed something; at counts the calls up to it. */
  datatype Deed =
    | Reads(at: nat, entry: Option<Stored>)
    | Looks(at: nat, found: Option<Object>)
    | Registers(at: nat, managed: bool, id: string)
    | Adds(at: nat, opts: AddOptions)
    | Creates(at: nat)
    | Repoints(at: nat, was: Object)

  /** The world a deed's call meets is one in which it can be done. */
  ghost predicate Lawful(w: World, d: Deed, m: Recipe) {
    match d
    case Reads(_, entry) => entry == if m.key in w.store then Some(w.store[m.key]) else None
    case Looks(_, found) => found == if m.key in w.up then Some(w.up[m.key]) else None
    case Registers(_, _, _) => m.key !in w.store
    case Adds(_, _) => m.key in w.store && !w.store[m.key].entry.terminating
    case Creates(_) => m.key !in w.up
    case Repoints(_, _) => m.update.Some?
  }

  /** What it makes of that world, in one atomic change. */
  ghost function Effect(w: World, d: Deed, ref: Ref, m: Recipe): World
    requires Lawful(w, d, m)
  {
    match d
    case Registers(_, managed, id) => Put(w, m.key, FreshEntry(ref, managed, m.hash, id))
    case Adds(_, opts) => WithEntry(w, m.key, WithRef(w.store[m.key].entry, ref, opts))
    case Creates(_) => w.(up := w.up[m.key := m.built])
    case Repoints(_, o) => w.(up := w.up[m.key := o.(content := m.update.value)])
    case _ => w
  }

  /** From w, calls lo..hi lead to now by what the others write before each of them and by these deeds, nothing else. */
  ghost predicate Did(w: World, script: seq<Turn>, lo: nat, deeds: seq<Deed>, hi: nat, now: World, ref: Ref, m: Recipe)
    decreases |deeds|
  {
    if deeds == [] then lo <= hi && now == Served(w, script, lo, hi)
    else
      && lo <= deeds[0].at <= hi
      && var met := Served(w, script, lo, deeds[0].at);
         Lawful(met, deeds[0], m)
             && Did(Effect(met, deeds[0], ref, m), script, deeds[0].at, deeds[1..], hi, now, ref, m)
  }

  lemma {:induction false} DidThen(w: World, script: seq<Turn>, lo: nat, first: seq<Deed>, mid: nat, w1: World,
                                   rest: seq<Deed>, hi: nat, w2: World, ref: Ref, m: Recipe)
    requires Did(w, script, lo, first, mid, w1, ref, m) && Did(w1, script, mid, rest, hi, w2, ref, m)
    ensures Did(w, script, lo, first + rest, hi, w2, ref, m)
    decreases |first|
  {
    if first != [] {
      DidThen(Effect(Served(w, script, lo, first[0].at), first[0], ref, m), script, first[0].at, first[1..], mid, w1,
          rest, hi, w2, ref, m);
      DidEnds(Effect(Served(w, script, lo, first[0].at), first[0], ref, m), script, first[0].at, first[1..], mid, w1,
          ref, m);
      DidEnds(w1, script, mid, rest, hi, w2, ref, m);
      assert (first + rest)[1..] == first[1..] + rest;
    } else {
      assert first + rest == rest;
      if rest == [] {
        ServedInParts(w, script, lo, mid, hi);
      } else {
        ServedInParts(w, script, lo, mid, rest[0].at);
      }
    }
  }

  lemma {:induction false} DidEnds(w: World, script: seq<Turn>, lo: nat, deeds: seq<Deed>, hi: nat, now: World,
                                   ref: Ref, m: Recipe)
    requires Did(w, script, lo, deeds, hi, now, ref, m)
    ensures lo <= hi
    decreases |deeds|
  {
  }

  lemma {:induction false} DidOne(w: World, script: seq<Turn>, lo: nat, d: Deed, now: World, ref: Ref, m: Recipe)
    requires lo <= d.at && Lawful(Served(w, script, lo, d.at), d, m)
             && now == Effect(Served(w, script, lo, d.at), d, ref, m)
    ensures Did(w, script, lo, [d], d.at, now, ref, m)
  {
    assert [d][1..] == [];
  }

  /** The deeds up to number i lead to a world of their own. */
  lemma {:induction false} DidFirst(w: World, script: seq<Turn>, lo: nat, deeds: seq<Deed>, hi: nat, now: World,
                                    ref: Ref, m: Recipe, i: nat)
    returns (met: World)
    requires Did(w, script, lo, deeds, hi, now, ref, m) && i < |deeds|
    ensures Lawful(met, deeds[i], m) && lo <= deeds[i].at <= hi
    ensures Did(w, script, lo, deeds[..i + 1], deeds[i].at, Effect(met, deeds[i], ref, m), ref, m)
    decreases i
  {
    var first := Served(w, script, lo, deeds[0].at);
    DidEnds(Effect(first, deeds[0], ref, m), script, deeds[0].at, deeds[1..], hi, now, ref, m);
    if i == 0 {
      met := first;
      assert deeds[..1] == [deeds[0]];
    } else {
      met := DidFirst(Effect(first, deeds[0], ref, m), script, deeds[0].at, deeds[1..], hi, now, ref, m, i - 1);
      assert deeds[1..][i - 1] == deeds[i] && deeds[..i + 1][1..] == deeds[1..][..i];
    }
  }

  /** The deed that records the reference. */
  ghost predicate Records(d: Deed, m: Recipe, known: bool, made: bool, id: string) {
    if known then d.Adds? && d.opts == AddOptions(made, "")
        else d.Registers? && d.managed == (made || m.claim) && d.id == id
  }

  /** A found resource is adopted by these deeds, or by the first of them. */
  ghost predicate Adopting(deeds: seq<Deed>, m: Recipe, entry: Option<Stored>, o: Object) {
    && |deeds| <= (if m.update.Some? then 2 else 1)
    && (|deeds| >= 1 ==>
          m.matches(o) && (entry.Some? ==> !HashesClash(entry.value.entry.hash, m.hash))
              && Records(deeds[0], m, entry.Some?, false, o.id))
    && (|deeds| == 2 ==> deeds[1].Repoints? && deeds[1].was == o)
  }

  /** A missing one is made by these deeds, or by the first of them. */
  ghost predicate Making(deeds: seq<Deed>, m: Recipe, known: bool) {
    && |deeds| <= (if m.built.id != "" then 3 else 2)
    && (|deeds| >= 1 ==> Records(deeds[0], m, known, true, ""))
    && (|deeds| >= 2 ==> deeds[1].Creates?)
    && (|deeds| == 3 ==> deeds[2].Adds? && deeds[2].opts == AddOptions(false, m.built.id))
  }

  ghost predicate AdoptResult(deeds: seq<Deed>, m: Recipe, entry: Option<Stored>, o: Object, r: Result<string>) {
    match r
    case Ok(id) => id == o.id && |deeds| == (if m.update.Some? then 2 else 1)
    case Err(error) =>
      && (error == Mismatch ==> deeds == [] && !m.matches(o))
      && (error == HashConflict ==>
            deeds == [] && m.matches(o) && entry.Some? && HashesClash(entry.value.entry.hash, m.hash))
  }

  ghost predicate MakeResult(deeds: seq<Deed>, m: Recipe, r: Result<string>) {
    match r
    case Ok(id) => id == m.built.id && |deeds| == (if m.built.id != "" then 3 else 2)
    case Err(error) => error !in {Mismatch, HashConflict}
  }

  /** A pass from its look at the resource on, as far as it got. */
  ghost predicate LookedOn(deeds: seq<Deed>, m: Recipe, entry: Option<Stored>) {
    deeds != [] ==>
      && deeds[0].Looks?
      && match deeds[0].found
         case Some(o) => Adopting(deeds[1..], m, entry, o)
         case None => Making(deeds[1..], m, entry.Some?)
  }

  /** Its result: it went to the end on success, and a conflict is one between what it saw. */
  ghost predicate LookResult(deeds: seq<Deed>, m: Recipe, entry: Option<Stored>, r: Result<string>) {
    if deeds == [] then r == Err(Unavailable)
    else
      && deeds[0].Looks?
      && match deeds[0].found
         case Some(o) => AdoptResult(deeds[1..], m, entry, o, r)
         case None => MakeResult(deeds[1..], m, r)
  }

  /**
   Where it starts over it has changed nothing, or has recorded its reference for a resource
   somebody else then made.
   */
  ghost predicate Stopped(deeds: seq<Deed>, m: Recipe) {
    1 <= |deeds| <= 2 && deeds[0].Looks? && (|deeds| == 2 ==> deeds[0].found.None?)
  }

  /** A whole pass with result r: the entry is read first. */
  ghost predicate PassOf(deeds: seq<Deed>, m: Recipe, r: Result<string>) {
    if deeds == [] then r == Err(Unavailable)
    else
      && deeds[0].Reads?
      && if deeds[0].entry.Some? && deeds[0].entry.value.entry.terminating then |deeds| == 1 && r == Err(ErrTerminating)
         else LookedOn(deeds[1..], m, deeds[0].entry) && LookResult(deeds[1..], m, deeds[0].entry, r)
  }

  /** A pass that starts over. */
  ghost predicate Interrupted(deeds: seq<Deed>, m: Recipe) {
    && deeds != [] && deeds[0].Reads? && (deeds[0].entry.Some? ==> !deeds[0].entry.value.entry.terminating)
    && LookedOn(deeds[1..], m, deeds[0].entry) && Stopped(deeds[1..], m)
  }

  /**
   Why it starts over: after it had read the entry, and before it ended with call hi, somebody else
   made the resource it was about to make, deleted the entry it was about to add to, or wrote the one
   it was about to register.
   */
  ghost predicate Overtaken(deeds: seq<Deed>, script: seq<Turn>, hi: nat, k: Key)
    requires deeds != [] && deeds[0].Reads?
  {
    if |deeds| == 3 then MadeBetween(script, deeds[0].at, hi, k)
    else if deeds[0].entry.Some? then DroppedBetween(script, deeds[0].at, hi, k)
    else PutBetween(script, deeds[0].at, hi, k)
  }

  /**
   Why calls lo..hi of a pass that does not start over can fail: one of them fails, thirty rounds of
   AddRef lose the race, or somebody else deletes the entry or makes it a tombstone just then.
   */
  ghost predicate Excused(deeds: seq<Deed>, script: seq<Turn>, lo: nat, hi: nat, k: Key, r: Result<string>) {
    && (r == Err(Unavailable) <==> !NoFault(script, lo, hi))
    && (r.Err? && r.error !in {Unavailable, Mismatch, HashConflict} ==>
          && deeds != []
          && ((Doomed(deeds) && r.error == ErrTerminating) || Reason(deeds, script, deeds[0].at, hi, k, r.error)))
  }

  ghost predicate Reason(deeds: seq<Deed>, script: seq<Turn>, lo: nat, hi: nat, k: Key, error: Error) {
    match error
    case ErrTerminating => PutBetween(script, lo, hi, k)
    case NotFound => DroppedBetween(script, lo, hi, k)
    case ErrNotFound => deeds != [] && deeds[|deeds| - 1].Creates? && DroppedBetween(script, lo, hi, k)
    case VersionConflict => hi >= 60 && LostThirty(script, hi - 60, hi, k)
    case _ => false
  }

  lemma {:induction false} ReasonEarlier(deeds: seq<Deed>, all: seq<Deed>, script: seq<Turn>, lo: nat, mid: nat,
                                         hi: nat, k: Key, error: Error)
    requires lo <= mid && Reason(deeds, script, mid, hi, k, error)
    requires deeds != [] ==> all != [] && all[|all| - 1] == deeds[|deeds| - 1]
    ensures Reason(all, script, lo, hi, k, error)
  {
  }

  /** It has read a tombstone. */
  predicate Doomed(deeds: seq<Deed>) {
    deeds != [] && deeds[0].Reads? && deeds[0].entry.Some? && deeds[0].entry.value.entry.terminating
  }

  lemma {:induction false} ReadFirst(at: nat, entry: Option<Stored>, rest: seq<Deed>, m: Recipe, r: Result<string>)
    requires LookedOn(rest, m, entry) && (entry.Some? ==> !entry.value.entry.terminating)
    ensures LookResult(rest, m, entry, r) ==> PassOf([Reads(at, entry)] + rest, m, r)
    ensures Stopped(rest, m) ==> Interrupted([Reads(at, entry)] + rest, m)
  {
    assert ([Reads(at, entry)] + rest)[1..] == rest;
  }

  /** The calls that can put the resource there. */
  predicate PutsThere(d: Deed) {
    d.Creates? || d.Repoints?
  }

  /** What a pass that puts the resource there or succeeds has done first. */
  lemma {:induction false} RecordsThird(deeds: seq<Deed>, m: Recipe, r: Result<string>)
    requires PassOf(deeds, m, r) && (r.Ok? || exists i :: 0 <= i < |deeds| && PutsThere(deeds[i]))
    ensures |deeds| >= 3 && deeds[0].Reads? && deeds[1].Looks?
    ensures Records(deeds[2], m, deeds[0].entry.Some?, deeds[1].found.None?, if deeds[1].found.Some?
            then deeds[1].found.value.id else "")
  {
    if deeds == [] {
    } else {
      var looked := deeds[1..];
      if |deeds| > 1 {
        assert looked[0] == deeds[1];
      }
      if r.Err? {
        var i :| 0 <= i < |deeds| && PutsThere(deeds[i]);
        assert i >= 2 ==> looked[1..][i - 2] == deeds[i];
      }
      assert |deeds| >= 3 && looked[1..][0] == deeds[2];
    }
  }

  /**
   Whatever others do: a pass that creates or re-points the resource, or succeeds, has before that made the entry
   hold its reference, alive, at one atomic call; an entry it recorded for a creation is managed.
   */
  lemma {:induction false} RecordedFirst(w: World, script: seq<Turn>, lo: nat, deeds: seq<Deed>, hi: nat, now: World,
                                         ref: Ref, m: Recipe, r: Result<string>)
    returns (recorded: World)
    requires Did(w, script, lo, deeds, hi, now, ref, m) && PassOf(deeds, m, r)
    requires r.Ok? || exists i :: 0 <= i < |deeds| && PutsThere(deeds[i])
    ensures |deeds| >= 3 && deeds[0].Reads? && deeds[1].Looks? && !PutsThere(deeds[2])
    ensures Did(w, script, lo, deeds[..3], deeds[2].at, recorded, ref, m) && m.key in recorded.store
    ensures var e := recorded.store[m.key].entry;
            !e.terminating && ref in e.refs && (deeds[1].found.None? ==> e.managed)
  {
    RecordsThird(deeds, m, r);
    var met := DidFirst(w, script, lo, deeds, hi, now, ref, m, 2);
    recorded := Effect(met, deeds[2], ref, m);
  }

  /** Each pass was overtaken before the next one began. */
  ghost predicate Unfinished(passes: seq<seq<Deed>>, ends: seq<nat>, m: Recipe, script: seq<Turn>) {
    && |ends| == |passes|
    && (forall i :: 0 <= i < |passes| ==>
          Interrupted(passes[i], m) && Overtaken(passes[i], script, ends[i], m.key))
    && (forall i :: 0 < i < |passes| ==> ends[i - 1] < passes[i][0].at)
  }

  function AllDeeds(passes: seq<seq<Deed>>): seq<Deed> {
    if passes == [] then [] else AllDeeds(passes[..|passes| - 1]) + passes[|passes| - 1]
  }

  /**
   The passes of an ensure with result r, and the calls with which they ended: all but the last were
   overtaken, or all five were and it gave up.
   */
  ghost predicate PassesOf(passes: seq<seq<Deed>>, ends: seq<nat>, m: Recipe, r: Result<string>, script: seq<Turn>,
                           lo: nat, hi: nat) {
    var n := |passes|;
    || (0 < n <= 5 && |ends| == n && ends[n - 1] == hi && Unfinished(passes[..n - 1], ends[..n - 1], m, script)
        && PassOf(passes[n - 1], m, r)
        && Excused(passes[n - 1], script, if n == 1 then lo else ends[n - 2], hi, m.key, r))
    || (n == 5 && Unfinished(passes, ends, m, script) && ends[4] == hi && r == Err(Unsettled))
  }

  // ---- the loop ----

  /** What may have happened to a world by the time ensure gives up on a failed call. */
  ghost predicate Partial(w: World, now: World, ref: Ref, m: Recipe) {
    && (forall k :: k != m.key ==> (k in now.store <==> k in w.store) && (k in now.up <==> k in w.up))
    && (forall k :: k != m.key && k in w.store ==> now.store[k] == w.store[k])
    && (forall k :: k != m.key && k in w.up ==> now.up[k] == w.up[k])
    && (m.key in w.store ==> m.key in now.store && now.store[m.key].entry.hash == w.store[m.key].entry.hash)
    && (m.key in w.up ==> m.key in now.up)
    && (m.key !in w.up && m.key in now.up ==>
          m.key in now.store && now.store[m.key].entry.managed && ref in now.store[m.key].entry.refs)
  }

  /** The created object, and the entry once the object's ID is noted. */
  ghost function Created(w: World, ref: Ref, m: Recipe): World
    requires m.key in w.store
  {
    var w1 := w.(up := w.up[m.key := m.built]);
    if m.built.id == "" then w1
        else WithEntry(w1, m.key, WithRef(w.store[m.key].entry, ref, AddOptions(false, m.built.id)))
  }

  /** What a client that is alone gets: Outcome, or less of it where a call failed. */
  ghost predicate AsWhenAlone(w: World, now: World, script: seq<Turn>, lo: nat, hi: nat, ref: Ref, m: Recipe,
                              r: Result<string>) {
    && (NoFault(script, lo, hi) ==> (now, r) == Outcome(w, ref, m))
    && Partial(w, now, ref, m)
    && (r.Err? && r.error in {Mismatch, HashConflict} ==> now == w)
  }

  lemma {:induction false} RecordedIsAlive(w: World, ref: Ref, m: Recipe)
    requires m.key in w.store ==> !w.store[m.key].entry.terminating
    ensures var w1 := WithEntry(w, m.key, Recorded(w, ref, m, true));
            m.key in w1.store && !w1.store[m.key].entry.terminating
  {
  }

  lemma {:induction false} MissingMade(w: World, w1: World, now: World, ref: Ref, m: Recipe, r: Result<string>)
    requires m.key !in w.up && (m.key in w.store ==> !w.store[m.key].entry.terminating)
    requires w1 == WithEntry(w, m.key, Recorded(w, ref, m, true))
    requires match r
             case Ok(id) => id == m.built.id && now == Created(w1, ref, m)
             case Err(_) => now == w1 || now == w1.(up := w1.up[m.key := m.built])
    ensures Partial(w, now, ref, m) && (r.Ok? ==> (now, r) == Outcome(w, ref, m))
  {
  }

  lemma {:induction false} FoundAdopted(w: World, w1: World, now: World, ref: Ref, m: Recipe, r: Result<string>)
    requires m.key in w.up && m.matches(w.up[m.key])
    requires m.key in w.store ==> !w.store[m.key].entry.terminating && !HashesClash(w.store[m.key].entry.hash, m.hash)
    requires w1 == WithEntry(w, m.key, Recorded(w, ref, m, false))
    requires match r
             case Ok(id) => id == w.up[m.key].id && now == Adopt(w, ref, m)
             case Err(_) => now == w1
    ensures Partial(w, now, ref, m) && (r.Ok? ==> (now, r) == Outcome(w, ref, m))
  {
  }

  /** What Get and the Terminating check have established. */
  ghost predicate Saw(w: World, k: Key, entry: Option<Stored>) {
    && entry == (if k in w.store then Some(w.store[k]) else None)
    && (entry.Some? ==> !entry.value.entry.terminating)
  }

  /** Why recording the reference, by calls lo..hi, did not succeed. */
  ghost predicate RecordReason(script: seq<Turn>, lo: nat, hi: nat, k: Key, now: World, known: bool, r: Result<Entry>,
                               again: bool) {
    && (r == Err(Unavailable) <==> !NoFault(script, lo, hi))
    && (again ==> r.Err? && r.error in {ErrNotFound, ErrExists} && (known <==> k !in now.store))
    && (r.Ok? ==> k in now.store && !now.store[k].entry.terminating)
    && (r.Err? && !again && r.error != Unavailable ==>
          if r.error == ErrTerminating then known && k in now.store && now.store[k].entry.terminating
          else r.error in {NotFound, VersionConflict} && Reason([], script, lo, hi, k, r.error))
  }

  /** Why making the recorded resource, by calls lo..hi from world w, did not succeed. */
  ghost predicate MakeReason(deeds: seq<Deed>, script: seq<Turn>, lo: nat, hi: nat, k: Key, w: World, r: Result<string>,
                             settled: bool) {
    && (r == Err(Unavailable) <==> !NoFault(script, lo, hi))
    && (!settled && k !in w.up ==> MadeBetween(script, lo, hi, k))
    && (r.Err? && settled && r.error != Unavailable && k in w.store && !w.store[k].entry.terminating ==>
          Reason(deeds, script, lo, hi, k, r.error))
  }

  /** Why noting an ID, by calls lo..hi from world w, did not succeed. */
  ghost predicate NoteReason(script: seq<Turn>, lo: nat, hi: nat, k: Key, w: World, r: Result<Entry>) {
    && (r == Err(Unavailable) <==> !NoFault(script, lo, hi))
    && (r.Err? && r.error != Unavailable ==>
          match r.error
          case ErrNotFound => k !in w.store || DroppedBetween(script, lo, hi, k)
          case ErrTerminating => (k in w.store && w.store[k].entry.terminating) || PutBetween(script, lo, hi, k)
          case _ => r.error in {NotFound, VersionConflict} && Reason([], script, lo, hi, k, r.error))
  }

  /** Noting it right after the creation. */
  lemma {:induction false} NotingWhy(w: World, script: seq<Turn>, lo: nat, w1: World, mid: nat, hi: nat, k: Key,
                                     r: Result<Entry>)
    requires lo <= mid <= hi && w1.store == Served(w, script, lo, mid).store && NoFault(script, lo, mid)
    requires NoteReason(script, mid, hi, k, w1, r)
    ensures r == Err(Unavailable) <==> !NoFault(script, lo, hi)
    ensures r.Err? && r.error != Unavailable && k in w.store && !w.store[k].entry.terminating ==>
              Reason([Creates(mid)], script, lo, hi, k, r.error)
  {
    SomebodyBetween(w, script, lo, mid, k);
  }

  /** Why a pass, from its look at the resource on, did not succeed. */
  ghost predicate LookReason(deeds: seq<Deed>, script: seq<Turn>, lo: nat, hi: nat, k: Key, now: World, known: bool,
                             r: Result<string>, settled: bool) {
    && (r == Err(Unavailable) <==> !NoFault(script, lo, hi))
    && (!settled ==> if |deeds| == 2 then MadeBetween(script, lo, hi, k) else known <==> k !in now.store)
    && (r.Err? && settled && r.error !in {Unavailable, Mismatch, HashConflict} ==>
          || (r.error == ErrTerminating && |deeds| == 1 && known && k in now.store && now.store[k].entry.terminating)
          || Reason(deeds, script, lo, hi, k, r.error))
  }

  lemma {:induction false} LookReasonEarlier(deeds: seq<Deed>, script: seq<Turn>, lo: nat, mid: nat, hi: nat, k: Key,
                                             now: World, known: bool, r: Result<string>, settled: bool)
    requires LookReason(deeds, script, mid, hi, k, now, known, r, settled)
    requires lo <= mid <= hi && NoFault(script, lo, mid)
    ensures LookReason(deeds, script, lo, hi, k, now, known, r, settled)
  {
  }

  lemma {:induction false} AloneEarlier(w: World, now: World, script: seq<Turn>, lo: nat, mid: nat, hi: nat, ref: Ref,
                                        m: Recipe, r: Result<string>)
    requires AsWhenAlone(w, now, script, mid, hi, ref, m, r) && lo <= mid
    ensures AsWhenAlone(w, now, script, lo, hi, ref, m, r)
  {
  }

  /** A pass from its look at the resource on, put together. */
  lemma {:induction false} LooksThen(w: World, script: seq<Turn>, lo: nat, look: Deed, mid: nat, w1: World,
                                     rest: seq<Deed>, hi: nat, now: World, ref: Ref, m: Recipe, entry: Option<Stored>,
                                     r: Result<string>, settled: bool)
    requires look.Looks? && Did(w, script, lo, [look], mid, w1, ref, m) && Did(w1, script, mid, rest, hi, now, ref, m)
    requires lo <= mid <= hi && NoFault(script, lo, mid)
    requires match look.found
             case Some(o) =>
               Adopting(rest, m, entry, o) && AdoptResult(rest, m, entry, o, r) && (!settled ==> rest == [])
             case None => Making(rest, m, entry.Some?) && MakeResult(rest, m, r) && (!settled ==> |rest| <= 1)
    requires LookReason([look] + rest, script, mid, hi, m.key, now, entry.Some?, r, settled)
    ensures Did(w, script, lo, [look] + rest, hi, now, ref, m)
    ensures LookedOn([look] + rest, m, entry) && LookResult([look] + rest, m, entry, r)
    ensures !settled ==> Stopped([look] + rest, m)
    ensures LookReason([look] + rest, script, lo, hi, m.key, now, entry.Some?, r, settled)
  {
    DidThen(w, script, lo, [look], mid, w1, rest, hi, now, ref, m);
    assert ([look] + rest)[1..] == rest;
    LookReasonEarlier([look] + rest, script, lo, mid, hi, m.key, now, entry.Some?, r, settled);
  }

  /** Recording the reference makes no resource; if there is one afterwards, somebody else made it. */
  lemma {:induction false} RecordingMakesNothing(w: World, script: seq<Turn>, lo: nat, d: Deed, hi: nat, now: World,
                                                 ref: Ref, m: Recipe)
    requires Did(w, script, lo, [d], hi, now, ref, m) && (d.Adds? || d.Registers?)
    ensures m.key in now.up && m.key !in w.up ==> MadeBetween(script, lo, hi, m.key)
  {
    assert [d][1..] == [];
    var met := Served(w, script, lo, d.at);
    SomebodyBetween(w, script, lo, d.at, m.key);
    SomebodyBetween(Effect(met, d, ref, m), script, d.at, hi, m.key);
  }

  /** A recorded resource that was not made. */
  lemma {:induction false} MakingWhy(w: World, script: seq<Turn>, lo: nat, d: Deed, mid: nat, w1: World,
                                     deeds: seq<Deed>, hi: nat, now: World, known: bool, ref: Ref, m: Recipe,
                                     r: Result<string>, settled: bool)
    requires Did(w, script, lo, [d], mid, w1, ref, m) && (d.Adds? || d.Registers?) && m.key !in w.up
    requires NoFault(script, lo, mid) && lo <= mid <= hi && m.key in w1.store && !w1.store[m.key].entry.terminating
    requires MakeReason(deeds, script, mid, hi, m.key, w1, r, settled) && (!settled ==> deeds == [])
    requires r.Err? && settled ==> r.error !in {Mismatch, HashConflict}
    ensures LookReason([Looks(lo, None), d] + deeds, script, lo, hi, m.key, now, known, r, settled)
  {
    RecordingMakesNothing(w, script, lo, d, mid, w1, ref, m);
    if r.Err? && settled && r.error != Unavailable {
      ReasonEarlier(deeds, [Looks(lo, None), d] + deeds, script, lo, mid, hi, m.key, r.error);
    }
  }

  /** Recording and making, put together. */
  lemma {:induction false} RecordsThen(w: World, script: seq<Turn>, lo: nat, d: Deed, mid: nat, w1: World,
                                       rest: seq<Deed>, hi: nat, now: World, known: bool, ref: Ref, m: Recipe,
                                       r: Result<string>, settled: bool)
    requires Did(w, script, lo, [d], mid, w1, ref, m) && Did(w1, script, mid, rest, hi, now, ref, m)
    requires Records(d, m, known, true, "") && NoFault(script, lo, mid) && lo <= mid <= hi
    requires m.key in w1.store && !w1.store[m.key].entry.terminating && (!settled ==> r.Err? && rest == [])
    requires |rest| <= (if m.built.id != "" then 2 else 1) && (|rest| >= 1 ==> rest[0].Creates?)
    requires |rest| == 2 ==> rest[1].Adds? && rest[1].opts == AddOptions(false, m.built.id)
    requires if r.Ok? then r.value == m.built.id && |rest| == (if m.built.id != "" then 2 else 1)
             else r.error !in {Mismatch, HashConflict}
    requires MakeReason(rest, script, mid, hi, m.key, w1, r, settled)
    ensures Did(w, script, lo, [d] + rest, hi, now, ref, m)
    ensures Making([d] + rest, m, known) && MakeResult([d] + rest, m, r)
    ensures m.key !in w.up ==>
              LookReason([Looks(lo, None)] + ([d] + rest), script, lo, hi, m.key, now, known, r, settled)
  {
    DidThen(w, script, lo, [d], mid, w1, rest, hi, now, ref, m);
    if m.key !in w.up {
      MakingWhy(w, script, lo, d, mid, w1, rest, hi, now, known, ref, m, r, settled);
      assert [Looks(lo, None)] + ([d] + rest) == [Looks(lo, None), d] + rest;
    }
  }

  /** The passes of an ensure that is not settled yet. */
  ghost predicate SoFar(passes: seq<seq<Deed>>, ends: seq<nat>, m: Recipe, script: seq<Turn>, lo: nat, pos: nat) {
    Unfinished(passes, ends, m, script) && pos == if passes == [] then lo else ends[|ends| - 1]
  }

  lemma {:induction false} OnePassMore(passes: seq<seq<Deed>>, ends: seq<nat>, m: Recipe, script: seq<Turn>, lo: nat,
                                       pos: nat, deeds: seq<Deed>, hi: nat)
    requires SoFar(passes, ends, m, script, lo, pos) && Interrupted(deeds, m) && Overtaken(deeds, script, hi, m.key)
    requires deeds[0].at > pos
    ensures SoFar(passes + [deeds], ends + [hi], m, script, lo, hi)
  {
  }

  lemma {:induction false} LastPass(passes: seq<seq<Deed>>, ends: seq<nat>, m: Recipe, script: seq<Turn>, lo: nat,
                                    pos: nat, deeds: seq<Deed>, hi: nat, r: Result<string>)
    requires SoFar(passes, ends, m, script, lo, pos) && |passes| < 5 && PassOf(deeds, m, r)
    requires Excused(deeds, script, pos, hi, m.key, r)
    ensures PassesOf(passes + [deeds], ends + [hi], m, r, script, lo, hi)
  {
    assert (passes + [deeds])[..|passes|] == passes && (ends + [hi])[..|ends|] == ends;
  }

  /** What happened between the read and such an end. */
  lemma {:induction false} LookedWhy(read: World, script: seq<Turn>, lo: nat, deeds: seq<Deed>, hi: nat, now: World,
                                     ref: Ref, m: Recipe, entry: Option<Stored>, r: Result<string>, settled: bool)
    requires Saw(read, m.key, entry) && Did(read, script, lo, deeds, hi, now, ref, m)
    requires LookReason(deeds, script, lo, hi, m.key, now, entry.Some?, r, settled)
    requires !settled ==> Stopped(deeds, m)
    requires |deeds| == 1 ==> deeds[0].Looks?
    ensures var all := [Reads(lo, entry)] + deeds;
            && (!settled ==> Overtaken(all, script, hi, m.key))
            && (r.Err? && settled && r.error !in {Unavailable, Mismatch, HashConflict} ==>
                  Reason(all, script, lo, hi, m.key, r.error))
  {
    if |deeds| == 1 {
      assert deeds[1..] == [];
      ServedInParts(read, script, lo, deeds[0].at, hi);
      SomebodyBetween(read, script, lo, hi, m.key);
    }
  }

  class Env {
    const ledger: Ledger.Ledger
    const api: Api

    constructor (api: Api, ledger: Ledger.Ledger)
      requires ledger.api == api
      ensures this.api == api && this.ledger == ledger
    {
      this.api, this.ledger := api, ledger;
    }

    /**
     Alone and undisturbed, Ensure does what Outcome says.  Alone with failing calls it still
     touches no other key, and never leaves a resource it made without a managed entry that
     names the step (the entry is written first).  Whatever others write meanwhile, all it does
     is a few passes of which only the last can be complete, and on success is.
     */
    method Ensure(ref: Ref, m: Recipe)
      returns (r: Result<string>, ghost passes: seq<seq<Deed>>, ghost ends: seq<nat>)
      requires ledger.api == api && api.Valid()
      modifies api
      ensures api.Valid()
      ensures Quiet(api.script) ==> AsWhenAlone(old(api.Now()), api.Now(), api.script, old(api.pos), api.pos, ref, m, r)
      ensures Did(old(api.Now()), api.script, old(api.pos), AllDeeds(passes), api.pos, api.Now(), ref, m)
      ensures PassesOf(passes, ends, m, r, api.script, old(api.pos), api.pos)
    {
      var attempt := 0;
      passes, ends := [], [];
      ServedStep(api.Now(), api.script, api.pos, api.pos);
      while attempt < MAX_ATTEMPTS
        invariant api.Valid() && attempt <= MAX_ATTEMPTS && old(api.pos) <= api.pos
        invariant Quiet(api.script) ==> attempt == 0 && api.Now() == old(api.Now()) && api.pos == old(api.pos)
        invariant |passes| == attempt && SoFar(passes, ends, m, api.script, old(api.pos), api.pos)
        invariant Did(old(api.Now()), api.script, old(api.pos), AllDeeds(passes), api.pos, api.Now(), ref, m)
      {
        ghost var w, p, deeds := api.Now(), api.pos, [];
        var settled;
        r, settled, deeds := Attempt(ref, m);
        DidThen(old(api.Now()), api.script, old(api.pos), AllDeeds(passes), p, w, deeds, api.pos, api.Now(), ref, m);
        if settled {
          LastPass(passes, ends, m, api.script, old(api.pos), p, deeds, api.pos, r);
          passes, ends := passes + [deeds], ends + [api.pos];
          return;
        }
        OnePassMore(passes, ends, m, api.script, old(api.pos), p, deeds, api.pos);
        passes, ends := passes + [deeds], ends + [api.pos];
        attempt := attempt + 1;
      }
      r := Err(Unsettled);
    }

    /** One pass of the loop; not settled means somebody else got in between and the pass starts over. */
    method Attempt(ref: Ref, m: Recipe) returns (r: Result<string>, settled: bool, ghost deeds: seq<Deed>)
      requires ledger.api == api && api.Valid()
      modifies api
      ensures api.Valid() && old(api.pos) <= api.pos
      ensures Quiet(api.script) ==>
                settled && AsWhenAlone(old(api.Now()), api.Now(), api.script, old(api.pos), api.pos, ref, m, r)
      ensures Did(old(api.Now()), api.script, old(api.pos), deeds, api.pos, api.Now(), ref, m)
      ensures if settled then PassOf(deeds, m, r) && Excused(deeds, api.script, old(api.pos), api.pos, m.key, r)
              else Interrupted(deeds, m) && Overtaken(deeds, api.script, api.pos, m.key)
      ensures deeds != [] ==> deeds[0].at > old(api.pos)
    {
      ghost var w, p := api.Now(), api.pos;
      deeds := [];
      var got := ledger.Get(m.key);
      if Quiet(api.script) {
        QuietServed(w, api.script, p, api.pos);
      }
      if got.Err? {
        assert TurnAt(api.script, p).fails;
        return Err(got.error), true, deeds;
      }
      var entry := got.value;
      deeds := [Reads(api.pos, entry)];
      ServedStep(w, api.script, p, p);
      DidOne(w, api.script, p, deeds[0], api.Now(), ref, m);
      if entry.Some? && entry.value.entry.terminating {
        return Err(ErrTerminating), true, deeds;
      }
      ghost var w1, p1, rest := api.Now(), api.pos, [];
      r, settled, rest := Proceed(ref, m, entry);
      DidThen(w, api.script, p, deeds, p1, w1, rest, api.pos, api.Now(), ref, m);
      ReadFirst(p1, entry, rest, m, r);
      LookedWhy(w1, api.script, p1, rest, api.pos, api.Now(), ref, m, entry, r, settled);
      deeds := deeds + rest;
    }

    /** Is the resource there? */
    method LookUp(ref: Ref, m: Recipe) returns (found: Result<Option<Object>>, ghost deeds: seq<Deed>)
      requires api.Valid()
      modifies api
      ensures api.Valid() && api.pos == old(api.pos) + 1
      ensures Quiet(api.script) ==> api.Now() == old(api.Now())
      ensures Did(old(api.Now()), api.script, old(api.pos), deeds, api.pos, api.Now(), ref, m)
      ensures match found
              case Ok(o) =>
                && NoFault(api.script, old(api.pos), api.pos) && deeds == [Looks(api.pos, o)]
                && o == if m.key in api.up then Some(api.up[m.key]) else None
              case Err(error) => error == Unavailable && !NoFault(api.script, old(api.pos), api.pos) && deeds == []
    {
      ghost var w, p := api.Now(), api.pos;
      deeds := [];
      ServedStep(w, api.script, p, p);
      found := api.GetObject(m.key);
      if found.Err? {
        assert TurnAt(api.script, p).fails;
      } else {
        deeds := [Looks(api.pos, found.value)];
        DidOne(w, api.script, p, deeds[0], api.Now(), ref, m);
      }
    }

    /** The entry is read and alive: look for the resource, and adopt or make it. */
    method Proceed(ref: Ref, m: Recipe, entry: Option<Stored>)
      returns (r: Result<string>, settled: bool, ghost deeds: seq<Deed>)
      requires ledger.api == api && api.Valid()
      modifies api
      ensures api.Valid() && old(api.pos) <= api.pos
      ensures Quiet(api.script) && Saw(old(api.Now()), m.key, entry) ==>
                settled && AsWhenAlone(old(api.Now()), api.Now(), api.script, old(api.pos), api.pos, ref, m, r)
      ensures Did(old(api.Now()), api.script, old(api.pos), deeds, api.pos, api.Now(), ref, m)
      ensures LookedOn(deeds, m, entry) && LookResult(deeds, m, entry, r) && (!settled ==> Stopped(deeds, m) && r.Err?)
      ensures LookReason(deeds, api.script, old(api.pos), api.pos, m.key, api.Now(), entry.Some?, r, settled)
    {
      ghost var w, p := api.Now(), api.pos;
      var found;
      found, deeds := LookUp(ref, m);
      if found.Err? {
        return Err(found.error), true, deeds;
      }
      ghost var w1, p1, rest := api.Now(), api.pos, [];
      if found.value.Some? {
        r, settled, rest := AdoptFound(ref, m, entry, found.value.value);
        LooksThen(w, api.script, p, deeds[0], p1, w1, rest, api.pos, api.Now(), ref, m, entry, r, settled);
      } else {
        r, settled, rest := MakeMissing(ref, m, entry.Some?);
        LooksThen(w, api.script, p, deeds[0], p1, w1, rest, api.pos, api.Now(), ref, m, entry, r, settled);
      }
      if Quiet(api.script) && Saw(w, m.key, entry) {
        AloneEarlier(w, api.Now(), api.script, p, p1, api.pos, ref, m, r);
      }
      deeds := deeds + rest;
    }

    /** The resource is there: check it, record the reference, and re-point it if it is an alias. */
    method AdoptFound(ref: Ref, m: Recipe, entry: Option<Stored>, o: Object)
      returns (r: Result<string>, settled: bool, ghost deeds: seq<Deed>)
      requires ledger.api == api && api.Valid()
      modifies api
      ensures api.Valid() && old(api.pos) <= api.pos
      ensures var w, now := old(api.Now()), api.Now();
              Quiet(api.script) && Saw(w, m.key, entry) && m.key in w.up && w.up[m.key] == o ==>
                settled && AsWhenAlone(w, now, api.script, old(api.pos), api.pos, ref, m, r)
      ensures Did(old(api.Now()), api.script, old(api.pos), deeds, api.pos, api.Now(), ref, m)
      ensures Adopting(deeds, m, entry, o) && AdoptResult(deeds, m, entry, o, r) && (!settled ==> r.Err? && deeds == [])
      ensures LookReason([Looks(old(api.pos), Some(o))] + deeds, api.script, old(api.pos), api.pos, m.key, api.Now(),
                         entry.Some?, r, settled)
    {
      deeds := [];
      ServedStep(api.Now(), api.script, api.pos, api.pos);
      if !m.matches(o) {
        return Err(Mismatch), true, deeds;
      }
      if entry.Some? && HashesClash(entry.value.entry.hash, m.hash) {
        return Err(HashConflict), true, deeds;
      }
      var recorded, again;
      recorded, again, deeds := Record(ref, m, entry.Some?, false, o.id);
      if again {
        return Err(Unsettled), false, deeds;
      }
      if recorded.Err? {
        return Err(recorded.error), true, deeds;
      }
      ghost var w, w1, p1 := old(api.Now()), api.Now(), api.pos;
      var repointed;
      ghost var last := [];
      repointed, last := Repoint(ref, m, o);
      r, settled := if repointed.Ok? then Ok(o.id) else Err(repointed.error), true;
      DidThen(w, api.script, old(api.pos), deeds, p1, w1, last, api.pos, api.Now(), ref, m);
      deeds := deeds + last;
      if Quiet(api.script) && Saw(w, m.key, entry) && m.key in w.up && w.up[m.key] == o {
        FoundAdopted(w, w1, api.Now(), ref, m, r);
      }
    }

    /** An alias is pointed at its new target, whatever it points at by now. */
    method Repoint(ref: Ref, m: Recipe, o: Object) returns (r: Result<()>, ghost deeds: seq<Deed>)
      requires api.Valid()
      modifies api
      ensures api.Valid() && old(api.pos) <= api.pos
      ensures Did(old(api.Now()), api.script, old(api.pos), deeds, api.pos, api.Now(), ref, m)
      ensures if r.Ok? && m.update.Some? then |deeds| == 1 && deeds[0].Repoints? && deeds[0].was == o else deeds == []
      ensures r.Err? ==> m.update.Some? && r.error == Unavailable
      ensures r.Err? <==> !NoFault(api.script, old(api.pos), api.pos)
      ensures Quiet(api.script) ==>
                api.Now() == if deeds == [] then old(api.Now()) else Effect(old(api.Now()), deeds[0], ref, m)
    {
      r, deeds := Ok(()), [];
      ServedStep(api.Now(), api.script, api.pos, api.pos);
      if m.update.Some? {
        ghost var w, p := api.Now(), api.pos;
        r := api.UpdateObject(m.key, o.(content := m.update.value));
        if r.Ok? {
          deeds := [Repoints(api.pos, o)];
          DidOne(w, api.script, p, deeds[0], api.Now(), ref, m);
        } else {
          assert TurnAt(api.script, p).fails;
        }
      }
    }

    /** The resource is not there: record the reference first, then create it. */
    method MakeMissing(ref: Ref, m: Recipe, known: bool)
      returns (r: Result<string>, settled: bool, ghost deeds: seq<Deed>)
      requires ledger.api == api && api.Valid()
      modifies api
      ensures api.Valid() && old(api.pos) <= api.pos
      ensures var w, now := old(api.Now()), api.Now();
              Quiet(api.script) && known == (m.key in w.store) && (known ==> !w.store[m.key].entry.terminating)
                  && m.key !in w.up ==>
                settled && AsWhenAlone(w, now, api.script, old(api.pos), api.pos, ref, m, r)
      ensures Did(old(api.Now()), api.script, old(api.pos), deeds, api.pos, api.Now(), ref, m)
      ensures Making(deeds, m, known) && MakeResult(deeds, m, r) && (!settled ==> r.Err? && |deeds| <= 1)
      ensures m.key !in old(api.up) ==>
                LookReason([Looks(old(api.pos), None)] + deeds, api.script, old(api.pos), api.pos, m.key, api.Now(),
                           known, r, settled)
    {
      var recorded, again;
      recorded, again, deeds := Record(ref, m, known, true, "");
      if again {
        return Err(Unsettled), false, deeds;
      }
      if recorded.Err? {
        return Err(recorded.error), true, deeds;
      }
      ghost var w, w1, p1, rest := old(api.Now()), api.Now(), api.pos, [];
      r, settled, rest := CreateRecorded(ref, m);
      if Quiet(api.script) && known == (m.key in w.store) && (known ==> !w.store[m.key].entry.terminating)
          && m.key !in w.up {
        RecordedIsAlive(w, ref, m);
        MissingMade(w, w1, api.Now(), ref, m, r);
      }
      RecordsThen(w, api.script, old(api.pos), deeds[0], p1, w1, rest, api.pos, api.Now(), known, ref, m, r, settled);
      deeds := deeds + rest;
    }

    /** Write the entry or add to it, before anything is created; again means the read was outdated. */
    method Record(ref: Ref, m: Recipe, known: bool, made: bool, id: string)
      returns (r: Result<Entry>, again: bool, ghost deeds: seq<Deed>)
      requires ledger.api == api && api.Valid()
      modifies api
      ensures api.Valid() && old(api.pos) <= api.pos
      ensures var w := old(api.Now());
              Quiet(api.script) && known == (m.key in w.store) && (known ==> !w.store[m.key].entry.terminating)
              && (m.key in w.up <==> !made) && id == (if made then "" else w.up[m.key].id) ==>
                && !again
                && (r.Ok? ==> r.value == Recorded(w, ref, m, made) && api.Now() == WithEntry(w, m.key, r.value))
                && (r.Err? ==> api.Now() == w && !NoFault(api.script, old(api.pos), api.pos))
      ensures Did(old(api.Now()), api.script, old(api.pos), deeds, api.pos, api.Now(), ref, m)
      ensures if r.Ok? then !again && |deeds| == 1 && Records(deeds[0], m, known, made, id)
              else deeds == [] && r.error !in {Mismatch, HashConflict}
      ensures RecordReason(api.script, old(api.pos), api.pos, m.key, api.Now(), known, r, again)
    {
      ghost var w, p := api.Now(), api.pos;
      deeds := [];
      if known {
        r := ledger.AddRef(m.key, ref, AddOptions(made, ""));
        again := r == Err(ErrNotFound);
        if r.Ok? {
          deeds := [Adds(api.pos, AddOptions(made, ""))];
        }
      } else {
        r := ledger.Register(m.key, ref, made || m.claim, m.hash, id);
        again := r == Err(ErrExists);
        if r.Ok? {
          deeds := [Registers(api.pos, made || m.claim, id)];
        }
      }
      if r.Ok? {
        DidOne(w, api.script, p, deeds[0], api.Now(), ref, m);
      }
      if Quiet(api.script) {
        QuietServed(w, api.script, p, api.pos);
      }
    }

    /** The entry is recorded: create the resource, and note the ID it was given. */
    method CreateRecorded(ref: Ref, m: Recipe) returns (r: Result<string>, settled: bool, ghost deeds: seq<Deed>)
      requires ledger.api == api && api.Valid()
      modifies api
      ensures api.Valid() && old(api.pos) <= api.pos
      ensures var w, now := old(api.Now()), api.Now();
              Quiet(api.script) && m.key !in w.up && m.key in w.store && !w.store[m.key].entry.terminating ==>
                && settled
                && (r.Ok? ==> r.value == m.built.id && now == Created(w, ref, m))
                && (r.Err? ==>
                      && (now == w || now == w.(up := w.up[m.key := m.built]))
                      && !NoFault(api.script, old(api.pos), api.pos))
      ensures Did(old(api.Now()), api.script, old(api.pos), deeds, api.pos, api.Now(), ref, m)
      ensures |deeds| <= (if m.built.id != "" then 2 else 1) && (|deeds| >= 1 ==> deeds[0].Creates?)
      ensures |deeds| == 2 ==> deeds[1].Adds? && deeds[1].opts == AddOptions(false, m.built.id)
      ensures if r.Ok? then r.value == m.built.id && |deeds| == (if m.built.id != "" then 2 else 1)
              else r.error !in {Mismatch, HashConflict}
      ensures !settled ==> r.Err? && deeds == []
      ensures MakeReason(deeds, api.script, old(api.pos), api.pos, m.key, old(api.Now()), r, settled)
    {
      ghost var w, p := api.Now(), api.pos;
      deeds := [];
      ServedStep(w, api.script, p, p);
      SomebodyBetween(w, api.script, p, p + 1, m.key);
      var created := api.CreateObject(m.key, m.built);
      if created == Err(AlreadyExists) {
        return Err(Unsettled), false, deeds;
      }
      if created.Err? {
        assert TurnAt(api.script, p).fails;
        return Err(created.error), true, deeds;
      }
      deeds := [Creates(api.pos)];
      DidOne(w, api.script, p, deeds[0], api.Now(), ref, m);
      if created.value != "" {
        ghost var w1, p1, last := api.Now(), api.pos, [];
        var noted;
        noted, last := NoteId(ref, m, created.value);
        NotingWhy(w, api.script, p, w1, p1, api.pos, m.key, noted);
        DidThen(w, api.script, p, deeds, p1, w1, last, api.pos, api.Now(), ref, m);
        deeds := deeds + last;
        if noted.Err? {
          return Err(noted.error), true, deeds;
        }
      }
      return Ok(created.value), true, deeds;
    }

    /** Note the ID of the created resource in the entry. */
    method NoteId(ref: Ref, m: Recipe, id: string) returns (r: Result<Entry>, ghost deeds: seq<Deed>)
      requires ledger.api == api && api.Valid()
      modifies api
      ensures api.Valid() && old(api.pos) <= api.pos
      ensures var w, now := old(api.Now()), api.Now();
              Quiet(api.script) && m.key in w.store && !w.store[m.key].entry.terminating ==>
                if r.Ok? then now == WithEntry(w, m.key, WithRef(w.store[m.key].entry, ref, AddOptions(false, id)))
                else now == w && !NoFault(api.script, old(api.pos), api.pos)
      ensures Did(old(api.Now()), api.script, old(api.pos), deeds, api.pos, api.Now(), ref, m)
      ensures if r.Ok? then |deeds| == 1 && deeds[0].Adds? && deeds[0].opts == AddOptions(false, id) else deeds == []
      ensures NoteReason(api.script, old(api.pos), api.pos, m.key, old(api.Now()), r)
    {
      ghost var w, p := api.Now(), api.pos;
      deeds := [];
      r := ledger.AddRef(m.key, ref, AddOptions(false, id));
      SomebodyBetween(w, api.script, p, api.pos, m.key);
      if r.Ok? {
        deeds := [Adds(api.pos, AddOptions(false, id))];
        DidOne(w, api.script, p, deeds[0], api.Now(), ref, m);
      }
      if Quiet(api.script) {
        QuietServed(w, api.script, p, api.pos);
      }
    }
  }
}
