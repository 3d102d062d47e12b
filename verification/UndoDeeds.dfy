/** What undoing a run does whatever others write between its calls. */
module UndoDeeds {
  import opened Types
  import opened LedgerRules
  import opened Cluster
  import L = Ledger

  /** An entry as a list call returns it. */
  datatype Listed = Listed(key: Key, entry: Entry)

  /**
   One call that told a rollback something or changed something; at counts the calls up to it.  A drop
   tells what it left of the entry, if there still was one.
   */
  datatype Deed =
    | Sees(at: nat, store: map<Key, Stored>)
    | Drops(at: nat, key: Key, ref: Ref, left: Option<Entry>)
    | Deletes(at: nat, key: Key)
    | Clears(at: nat, key: Key)

  /** What a deed says of the world its call meets is so. */
  ghost predicate Lawful(w: World, d: Deed) {
    match d
    case Sees(_, store) => store == w.store
    case Drops(_, k, ref, left) => left == if k in w.store then Some(WithoutRef(w.store[k].entry, ref)) else None
    case _ => true
  }

  /** What it makes of that world, in one atomic change. */
  ghost function Effect(w: World, d: Deed): World {
    match d
    case Sees(_, _) => w
    case Drops(_, k, ref, _) => if k in w.store then L.AfterDrop(w, k, ref) else w
    case Deletes(_, k) => w.(up := w.up - {k})
    case Clears(_, k) => w.(store := w.store - {k})
  }

  /** From w, calls lo..hi lead to now by what the others write before each of them and by these deeds, nothing else. */
  ghost predicate Did(w: World, script: seq<Turn>, lo: nat, deeds: seq<Deed>, hi: nat, now: World)
    decreases |deeds|
  {
    if deeds == [] then lo <= hi && now == Served(w, script, lo, hi)
    else
      && lo <= deeds[0].at <= hi
      && var met := Served(w, script, lo, deeds[0].at);
         Lawful(met, deeds[0]) && Did(Effect(met, deeds[0]), script, deeds[0].at, deeds[1..], hi, now)
  }

  lemma {:induction false} DidEnds(w: World, script: seq<Turn>, lo: nat, deeds: seq<Deed>, hi: nat, now: World)
    requires Did(w, script, lo, deeds, hi, now)
    ensures lo <= hi
    decreases |deeds|
  {
  }

  lemma {:induction false} DidThen(w: World, script: seq<Turn>, lo: nat, first: seq<Deed>, mid: nat, w1: World,
                                   rest: seq<Deed>, hi: nat, w2: World)
    requires Did(w, script, lo, first, mid, w1) && Did(w1, script, mid, rest, hi, w2)
    ensures Did(w, script, lo, first + rest, hi, w2)
    decreases |first|
  {
    DidEnds(w1, script, mid, rest, hi, w2);
    if first != [] {
      var w0 := Effect(Served(w, script, lo, first[0].at), first[0]);
      DidThen(w0, script, first[0].at, first[1..], mid, w1, rest, hi, w2);
      DidEnds(w0, script, first[0].at, first[1..], mid, w1);
      assert (first + rest)[1..] == first[1..] + rest;
    } else {
      assert first + rest == rest;
      if rest == [] {
        ServedInParts(w, script, lo, mid, hi);
      } else {
        ServedInParts(w, script, lo, mid, rest[0].at);
      }
    }
  }

  lemma {:induction false} DidOne(w: World, script: seq<Turn>, lo: nat, d: Deed, now: World)
    requires lo <= d.at && Lawful(Served(w, script, lo, d.at), d) && now == Effect(Served(w, script, lo, d.at), d)
    ensures Did(w, script, lo, [d], d.at, now)
  {
    assert [d][1..] == [];
  }

  // ---- which deeds belong together ----

  /** Finishing a tombstone, as far as it got: delete the resource if the wizard manages it, then clear the entry. */
  ghost predicate FinishBegun(deeds: seq<Deed>, k: Key, e: Entry) {
    if e.managed then
      && |deeds| <= 2 && (deeds != [] ==> CanDelete(k, e) && deeds[0].Deletes? && deeds[0].key == k)
      && (|deeds| == 2 ==> deeds[1].Clears? && deeds[1].key == k)
    else
      |deeds| <= 1 && (deeds != [] ==> deeds[0].Clears? && deeds[0].key == k)
  }

  /** To the end. */
  ghost predicate FinishEnded(deeds: seq<Deed>, k: Key, e: Entry) {
    FinishBegun(deeds, k, e) && |deeds| == if e.managed then 2 else 1
  }

  /** Releasing a reference, as far as it got: drop it, and finish what that leaves without references. */
  ghost predicate ReleaseBegun(deeds: seq<Deed>, k: Key, ref: Ref) {
    deeds != [] ==>
      && deeds[0].Drops? && deeds[0].key == k && deeds[0].ref == ref
      && (if LeavesTombstone(deeds[0]) then FinishBegun(deeds[1..], k, deeds[0].left.value) else |deeds| == 1)
  }

  predicate LeavesTombstone(d: Deed)
    requires d.Drops?
  {
    d.left.Some? && d.left.value.refs == []
  }

  /** To the end. */
  ghost predicate ReleaseEnded(deeds: seq<Deed>, k: Key, ref: Ref) {
    && deeds != [] && ReleaseBegun(deeds, k, ref)
    && (LeavesTombstone(deeds[0]) ==> FinishEnded(deeds[1..], k, deeds[0].left.value))
  }

  /** A listed entry in a sweep: tombstones are finished, everything else is left alone. */
  ghost predicate SweepBegun(deeds: seq<Deed>, en: Listed) {
    if Tombstone(en.entry) then FinishBegun(deeds, en.key, en.entry) else deeds == []
  }

  ghost predicate SweepEnded(deeds: seq<Deed>, en: Listed) {
    if Tombstone(en.entry) then FinishEnded(deeds, en.key, en.entry) else deeds == []
  }

  /** The first entries of a list, each as far as the sweep got with it. */
  ghost predicate SweepsEach(parts: seq<seq<Deed>>, listed: seq<Listed>)
    decreases |parts|
  {
    var n := |parts| - 1;
    && |parts| <= |listed|
    && (parts != [] ==> SweepBegun(parts[n], listed[n]) && SweepsEach(parts[..n], listed))
  }

  /** Each to the end. */
  ghost predicate SweptAll(parts: seq<seq<Deed>>, listed: seq<Listed>)
    decreases |parts|
  {
    var n := |parts| - 1;
    && |parts| <= |listed|
    && (parts != [] ==> SweepEnded(parts[n], listed[n]) && SweptAll(parts[..n], listed))
  }

  /** A list of releases, each as far as it got. */
  ghost predicate ReleasesEach(parts: seq<seq<Deed>>, todo: seq<(Key, Ref)>)
    decreases |parts|
  {
    var n := |parts| - 1;
    && |parts| == |todo|
    && (parts != [] ==> ReleaseBegun(parts[n], todo[n].0, todo[n].1) && ReleasesEach(parts[..n], todo[..n]))
  }

  /** Each to the end. */
  ghost predicate ReleasedAll(parts: seq<seq<Deed>>, todo: seq<(Key, Ref)>)
    decreases |parts|
  {
    var n := |parts| - 1;
    && |parts| == |todo|
    && (parts != [] ==> ReleaseEnded(parts[n], todo[n].0, todo[n].1) && ReleasedAll(parts[..n], todo[..n]))
  }

  lemma {:induction false} EachJoins(a: seq<seq<Deed>>, todo: seq<(Key, Ref)>, b: seq<seq<Deed>>, more: seq<(Key, Ref)>)
    requires |a| == |todo| && |b| == |more|
    ensures ReleasesEach(a + b, todo + more) <==> ReleasesEach(a, todo) && ReleasesEach(b, more)
    ensures ReleasedAll(a + b, todo + more) <==> ReleasedAll(a, todo) && ReleasedAll(b, more)
    decreases |b|
  {
    if b == [] {
      assert a + b == a && todo + more == todo;
    } else {
      var n := |b| - 1;
      EachJoins(a, todo, b[..n], more[..n]);
      assert (a + b)[..|a + b| - 1] == a + b[..n] && (todo + more)[..|a + b| - 1] == todo + more[..n];
    }
  }

  function Flat(parts: seq<seq<Deed>>): seq<Deed> {
    if parts == [] then [] else Flat(parts[..|parts| - 1]) + parts[|parts| - 1]
  }

  lemma {:induction false} FlatJoins(a: seq<seq<Deed>>, b: seq<seq<Deed>>)
    ensures Flat(a + b) == Flat(a) + Flat(b)
    decreases |b|
  {
    if b == [] {
      assert a + b == a;
    } else {
      var n := |b| - 1;
      FlatJoins(a, b[..n]);
      assert (a + b)[..|a + b| - 1] == a + b[..n];
    }
  }

  /**
   Whatever others do, a rollback deletes a resource, and clears an entry, only right behind its own
   drop that left a tombstone of it; a resource only if that is a managed one that can be deleted.
   */
  lemma {:induction false} DeletesBehindItsDrop(parts: seq<seq<Deed>>, todo: seq<(Key, Ref)>, d: Deed) returns (i: nat)
    requires ReleasesEach(parts, todo) && d in Flat(parts) && (d.Deletes? || d.Clears?)
    ensures i < |parts| && d in parts[i] && parts[i][0].Drops? && parts[i][0].key == d.key
            && parts[i][0].ref == todo[i].1
    ensures LeavesTombstone(parts[i][0])
    ensures d.Deletes? ==> parts[i][0].left.value.managed && CanDelete(d.key, parts[i][0].left.value)
    decreases |parts|
  {
    var n := |parts| - 1;
    if d in parts[n] {
      i := n;
      assert d == parts[n][0] || d in parts[n][1..];
    } else {
      i := DeletesBehindItsDrop(parts[..n], todo[..n], d);
    }
  }

  /** And a sweep only what it has listed as a tombstone. */
  lemma {:induction false} SweepsOnlyListed(parts: seq<seq<Deed>>, listed: seq<Listed>, d: Deed) returns (i: nat)
    requires SweepsEach(parts, listed) && d in Flat(parts)
    ensures i < |parts| && d in parts[i] && Tombstone(listed[i].entry) && (d.Deletes? || d.Clears?)
            && d.key == listed[i].key
    ensures d.Deletes? ==> listed[i].entry.managed && CanDelete(d.key, listed[i].entry)
    decreases |parts|
  {
    var n := |parts| - 1;
    if d in parts[n] {
      i := n;
    } else {
      i := SweepsOnlyListed(parts[..n], listed, d);
    }
  }

  // ---- accounts of sweeps and of many releases ----

  /** From w to now, these are the deeds for the first entries listed, complete exactly if ok. */
  ghost predicate SweepAccount(w: World, script: seq<Turn>, lo: nat, parts: seq<seq<Deed>>, hi: nat, now: World,
                               listed: seq<Listed>, ok: bool)
  {
    Did(w, script, lo, Flat(parts), hi, now) && SweepsEach(parts, listed) && (ok <==> SweptAll(parts, listed))
  }

  lemma {:induction false} SweepAccountOn(w: World, script: seq<Turn>, lo: nat, parts: seq<seq<Deed>>, mid: nat,
                                          w1: World, listed: seq<Listed>, ok: bool, part: seq<Deed>, hi: nat, w2: World,
                                          ok2: bool)
    requires SweepAccount(w, script, lo, parts, mid, w1, listed, ok) && |parts| < |listed|
    requires Did(w1, script, mid, part, hi, w2) && SweepBegun(part, listed[|parts|])
    requires ok2 <==> SweepEnded(part, listed[|parts|])
    ensures SweepAccount(w, script, lo, parts + [part], hi, w2, listed, ok && ok2)
  {
    assert (parts + [part])[..|parts|] == parts;
    DidThen(w, script, lo, Flat(parts), mid, w1, part, hi, w2);
  }

  /** From w to now, these are the deeds for what was to be released, complete exactly if ok. */
  ghost predicate Account(w: World, script: seq<Turn>, lo: nat, parts: seq<seq<Deed>>, hi: nat, now: World,
                          todo: seq<(Key, Ref)>, ok: bool)
  {
    && Did(w, script, lo, Flat(parts), hi, now) && ReleasesEach(parts, todo)
    && (ok <==> ReleasedAll(parts, todo))
  }

  lemma {:induction false} AccountStarts(w: World, script: seq<Turn>, lo: nat)
    ensures Account(w, script, lo, [], lo, w, [], true)
  {
    ServedStep(w, script, lo, lo);
  }

  lemma {:induction false} AccountOn(w: World, script: seq<Turn>, lo: nat, parts: seq<seq<Deed>>, mid: nat, w1: World,
                                     todo: seq<(Key, Ref)>, ok: bool, more: seq<seq<Deed>>, hi: nat, w2: World,
                                     rest: seq<(Key, Ref)>, ok2: bool)
    requires Account(w, script, lo, parts, mid, w1, todo, ok) && Account(w1, script, mid, more, hi, w2, rest, ok2)
    ensures Account(w, script, lo, parts + more, hi, w2, todo + rest, ok && ok2)
  {
    FlatJoins(parts, more);
    DidThen(w, script, lo, Flat(parts), mid, w1, Flat(more), hi, w2);
    EachJoins(parts, todo, more, rest);
  }

  lemma {:induction false} AccountOne(w: World, script: seq<Turn>, lo: nat, part: seq<Deed>, hi: nat, now: World,
                                      k: Key, ref: Ref, ok: bool)
    requires Did(w, script, lo, part, hi, now) && ReleaseBegun(part, k, ref) && (ok <==> ReleaseEnded(part, k, ref))
    ensures Account(w, script, lo, [part], hi, now, [(k, ref)], ok)
  {
    var todo := [(k, ref)];
    assert [part][..0] == [] && todo[..0] == [] && Flat([part]) == part;
  }

  /** What one call of Release amounts to, in deeds. */
  lemma {:induction false} ReleaseDid(w: World, script: seq<Turn>, lo: nat, at: nat, now: World, hi: nat, k: Key,
                                      ref: Ref, r: Result<L.Outcome>)
    returns (deeds: seq<Deed>)
    requires lo < at <= hi && L.ReleaseEffect(script, Served(w, script, lo, at), at, now, hi, k, ref, r)
    ensures Did(w, script, lo, deeds, hi, now) && ReleaseBegun(deeds, k, ref)
    ensures match r
            case Ok(MustDelete(e)) => |deeds| == 1 && LeavesTombstone(deeds[0]) && deeds[0].left.value == e
            case Ok(_) => ReleaseEnded(deeds, k, ref)
            case Err(_) => !ReleaseEnded(deeds, k, ref)
  {
    var met := Served(w, script, lo, at);
    var drop := Drops(at, k, ref, if k in met.store then Some(WithoutRef(met.store[k].entry, ref)) else None);
    if r.Err? && at == hi && now == met {
      deeds := [];
    } else {
      DidOne(w, script, lo, drop, Effect(met, drop));
      deeds := [drop];
      ServedStep(Effect(met, drop), script, at, at);
      if r.Err? || r.value.ReleasedUnmanaged? {
        var last := if r.Err? then [] else [Clears(hi, k)];
        if r.Ok? {
          DidOne(Effect(met, drop), script, at, Clears(hi, k), now);
        }
        DidThen(w, script, lo, [drop], at, Effect(met, drop), last, hi, now);
        deeds := [drop] + last;
        assert deeds[1..] == last;
      }
    }
  }
}
