/**
 What one ledger call makes of one entry, as values.  The class in Ledger.dfy and the
 interleaving model in Protocol.dfy are both stated in terms of these functions.
 */
module LedgerRules {
  import opened Types
  import opened Text

  /** Which entries can be deleted upstream at all: index objects need a recorded numeric ID. */
  predicate CanDelete(k: Key, e: Entry) {
    match k.service
    case Forge => k.kind == "gitwatcher"
    case Index => (k.kind == "artifact" || (k.kind == "tag" && ':' in k.name)) && ParseInt(e.externalId).Some?
    case Weave => k.kind in {"jobtemplate", "servicetemplate", "chain", "trigger", "app", "batchtrigger"}
  }

  /** A managed entry whose resource cannot be deleted upstream. */
  predicate Stuck(k: Key, e: Entry) {
    e.managed && !CanDelete(k, e)
  }

  /** A reference list without the first occurrence of ref. */
  function RemoveRef(refs: seq<Ref>, ref: Ref): seq<Ref> {
    if refs == [] then []
    else if refs[0] == ref then refs[1..]
    else [refs[0]] + RemoveRef(refs[1..], ref)
  }

  /** The entry a first registration writes. */
  function FreshEntry(ref: Ref, managed: bool, hash: string, externalId: string): Entry {
    Entry(managed, hash, externalId, false, [ref])
  }

  /** The entry AddRef leaves behind. */
  function WithRef(e: Entry, ref: Ref, opts: AddOptions): Entry {
    e.(refs := if ref in e.refs then e.refs else e.refs + [ref],
       managed := e.managed || opts.manage,
       externalId := if opts.externalId != "" then opts.externalId else e.externalId)
  }

  /** The entry Release leaves behind; without references it becomes a tombstone. */
  function WithoutRef(e: Entry, ref: Ref): Entry {
    var refs := RemoveRef(e.refs, ref);
    e.(refs := refs, terminating := e.terminating || refs == [])
  }

  /** The references of a list that belong to other runs, in order. */
  function OthersRefs(refs: seq<Ref>, run: string): seq<Ref> {
    if refs == [] then []
    else (if refs[0].run == run then [] else [refs[0]]) + OthersRefs(refs[1..], run)
  }

  /** The references of a list that belong to run, in order (refsOf). */
  function RefsOf(refs: seq<Ref>, run: string): seq<Ref> {
    if refs == [] then []
    else (if refs[0].run == run then [refs[0]] else []) + RefsOf(refs[1..], run)
  }

  /** Terminating exactly when nobody holds it, and nobody holds it twice. */
  ghost predicate WellFormed(e: Entry) {
    && (e.terminating <==> e.refs == [])
    && NoDuplicates(e.refs)
  }

  ghost predicate Tombstone(e: Entry) {
    e.terminating && e.refs == []
  }

  lemma {:induction false} RemoveRefMembers(refs: seq<Ref>, ref: Ref)
    ensures forall r :: r != ref ==> (r in RemoveRef(refs, ref) <==> r in refs)
    ensures ref !in refs ==> RemoveRef(refs, ref) == refs
    ensures ref in refs ==> |RemoveRef(refs, ref)| == |refs| - 1
    ensures NoDuplicates(refs) ==> NoDuplicates(RemoveRef(refs, ref)) && ref !in RemoveRef(refs, ref)
  {
    if refs == [] {
    } else if refs[0] == ref {
      assert refs == [refs[0]] + refs[1..];
    } else {
      assert refs == [refs[0]] + refs[1..];
      RemoveRefMembers(refs[1..], ref);
      if NoDuplicates(refs) {
        assert NoDuplicates(refs[1..]);
        assert refs[0] !in refs[1..];
      }
    }
  }

  lemma {:induction false} OthersRefsMembers(refs: seq<Ref>, run: string)
    ensures forall r :: r in OthersRefs(refs, run) <==> r in refs && r.run != run
    ensures (forall r :: r in refs ==> r.run != run) ==> OthersRefs(refs, run) == refs
  {
    if refs != [] {
      assert refs == [refs[0]] + refs[1..];
      OthersRefsMembers(refs[1..], run);
    }
  }

  lemma {:induction false} RefsOfMembers(refs: seq<Ref>, run: string)
    ensures forall r :: r in RefsOf(refs, run) <==> r in refs && r.run == run
    ensures NoDuplicates(refs) ==> NoDuplicates(RefsOf(refs, run))
  {
    if refs != [] {
      assert refs == [refs[0]] + refs[1..];
      RefsOfMembers(refs[1..], run);
      if NoDuplicates(refs) {
        assert NoDuplicates(refs[1..]) && refs[0] !in refs[1..];
      }
    }
  }

  /** Dropping one of the run's own references does not change what the other runs keep. */
  lemma {:induction false} OthersRefsAfterRemove(refs: seq<Ref>, ref: Ref, run: string)
    requires ref.run == run
    ensures OthersRefs(RemoveRef(refs, ref), run) == OthersRefs(refs, run)
  {
    if refs != [] && refs[0] != ref {
      OthersRefsAfterRemove(refs[1..], ref, run);
      assert RemoveRef(refs, ref)[1..] == RemoveRef(refs[1..], ref);
    }
  }

  /**
   Adding keeps an entry well formed, keeps its hash, marks it managed or notes an ID exactly if asked
   to, and puts the reference behind the others unless it is among them.
   */
  lemma WithRefFacts(e: Entry, ref: Ref, opts: AddOptions)
    requires WellFormed(e) && !e.terminating
    ensures var e' := WithRef(e, ref, opts);
            && WellFormed(e') && !e'.terminating
            && e'.hash == e.hash && (e'.managed <==> e.managed || opts.manage)
            && e'.externalId == (if opts.externalId == "" then e.externalId else opts.externalId)
            && (e'.refs == e.refs || e'.refs == e.refs + [ref])
            && (forall r :: r in e'.refs <==> r in e.refs || r == ref)
            && WithRef(e', ref, opts) == e'
  {
  }

  /**
   Releasing keeps an entry well formed, cuts exactly the named reference out, and makes a tombstone of
   the entry exactly if that was the last one.
   */
  lemma WithoutRefFacts(e: Entry, ref: Ref)
    requires WellFormed(e)
    ensures var e' := WithoutRef(e, ref);
            && WellFormed(e')
            && e' == e.(refs := e'.refs, terminating := e'.terminating) && (e.terminating ==> e' == e)
            && (forall r :: r in e'.refs <==> r in e.refs && r != ref)
            && (ref !in e.refs ==> e' == e) && CutOut(e.refs, e'.refs, ref)
  {
    RemoveRefMembers(e.refs, ref);
    RemoveRefCuts(e.refs, ref);
  }

  /** less is refs without an occurrence of ref, if there is one, the others in their order. */
  ghost predicate CutOut(refs: seq<Ref>, less: seq<Ref>, ref: Ref) {
    if ref in refs then exists i :: 0 <= i < |refs| && refs[i] == ref && less == refs[..i] + refs[i + 1..]
    else less == refs
  }

  lemma CutOutFurther(first: Ref, refs: seq<Ref>, less: seq<Ref>, ref: Ref)
    requires first != ref && CutOut(refs, less, ref)
    ensures CutOut([first] + refs, [first] + less, ref)
  {
    var all := [first] + refs;
    if ref in refs {
      var i :| 0 <= i < |refs| && refs[i] == ref && less == refs[..i] + refs[i + 1..];
      assert all[i + 1] == ref && all[..i + 1] == [first] + refs[..i] && all[i + 2..] == refs[i + 1..];
      assert [first] + less == all[..i + 1] + all[i + 1 + 1..];
    }
  }

  lemma {:induction false} RemoveRefCuts(refs: seq<Ref>, ref: Ref)
    ensures CutOut(refs, RemoveRef(refs, ref), ref)
  {
    if refs != [] && refs[0] != ref {
      RemoveRefCuts(refs[1..], ref);
      CutOutFurther(refs[0], refs[1..], RemoveRef(refs[1..], ref), ref);
      assert refs == [refs[0]] + refs[1..];
    } else if refs != [] {
      assert RemoveRef(refs, ref) == refs[..0] + refs[1..];
    }
  }

  /**
   Which entries can be deleted upstream, kind by kind: everything weave or forge makes for the wizard,
   and an index object with a numeric ID, a tag only if its name says of which artifact.
   */
  lemma CanDeleteIff(k: Key, e: Entry)
    ensures CanDelete(k, e) <==>
            || k == Key(Forge, "gitwatcher", k.name)
            || (k == Key(Index, "artifact", k.name) && ParseInt(e.externalId).Some?)
            || (k == Key(Index, "tag", k.name) && ParseInt(e.externalId).Some?
                && exists artifact, tag :: k.name == artifact + ":" + tag)
            || k == Key(Weave, "jobtemplate", k.name) || k == Key(Weave, "servicetemplate", k.name)
            || k == Key(Weave, "chain", k.name) || k == Key(Weave, "trigger", k.name)
            || k == Key(Weave, "app", k.name) || k == Key(Weave, "batchtrigger", k.name)
  {
    if ':' in k.name {
      var i :| 0 <= i < |k.name| && k.name[i] == ':';
      assert k.name == k.name[..i] + ":" + k.name[i + 1..];
    }
    forall artifact: string, tag: string | k.name == artifact + ":" + tag
      ensures ':' in k.name
    {
      assert k.name[|artifact|] == ':';
    }
  }

  /** In a list without duplicates a reference occurs once or not at all. */
  lemma {:induction false} OncePerEntry(refs: seq<Ref>, ref: Ref)
    requires NoDuplicates(refs)
    ensures multiset(refs)[ref] == if ref in refs then 1 else 0
  {
    if refs != [] {
      assert refs == [refs[0]] + refs[1..];
      OncePerEntry(refs[1..], ref);
    }
  }
}
