/**
 The ledger protocol as a state machine: any number of runs and sweepers whose calls to the
 ledger store and to the upstream services interleave one call at a time.  Do gives the effect
 of one call; between any two calls an actor may stop for good (Abort).
 */
module Protocol {
  import opened Types
  import opened LedgerRules

  /** Who put an upstream resource there; Stray is the wizard's work under an entry that does not say so. */
  datatype Maker = Wizard | Stray | Outsider

  datatype Actor = Run(name: string) | Sweeper(id: nat)

  /**
   What one Ensure call asks for.  A hash of "" switches the hash comparison off; an alias is pointed
   at its new target when it is found, which puts it there when it is gone by then.
   */
  datatype Want = Want(key: Key, ref: Ref, hash: string, claim: bool, alias: bool)

  /** A tombstone an actor has listed, and a reference a rollback has listed. */
  datatype Held = Held(key: Key, entry: Entry)
  datatype Claim = Claim(key: Key, ref: Ref)

  /** Where the completion of a deletion stands: upstream delete, Finish's Get, Finish's Delete. */
  datatype Stage = Deleting | FinishRead | FinishDelete

  datatype ReleaseStage = Reading | Updating(snap: Stored) | Dropping | Finishing(stage: Stage, entry: Entry)

  /** What follows a successful AddRef inside ensure. */
  datatype AfterAdd = Adopted | ThenCreate | Recorded

  datatype Pc =
    | Idle
    | EnsureRead(w: Want)
    | EnsureProbe(w: Want, seen: Option<Entry>)
    | EnsureRegister(w: Want, managed: bool, create: bool)
    | AddRead(w: Want, opts: AddOptions, next: AfterAdd)
    | AddUpdate(w: Want, opts: AddOptions, next: AfterAdd, snap: Stored)
    | EnsureCreate(w: Want)
    | EnsureRepoint(w: Want)
    | EnsureDone(w: Want)
    | SweepList(rollback: bool)
    | Sweep(rollback: bool, ok: bool, listed: seq<Held>, stage: Stage)
    | RollbackList(ok: bool)
    | Release(ok: bool, todo: seq<Claim>, at: ReleaseStage)
    | RollbackDone(ok: bool)

  /** The one atomic ledger operation a successful call amounts to. */
  datatype Op =
    | Registered(key: Key, entry: Entry)
    | Added(key: Key, ref: Ref, opts: AddOptions)
    | Released(key: Key, ref: Ref)
    | Removed(key: Key)

  datatype State = State(
    store: map<Key, Stored>,
    up: map<Key, Maker>,
    clock: nat,
    pcs: map<Actor, Pc>,
    hist: seq<Op>)

  datatype Act =
    | BeginEnsure(w: Want) | BeginSweep | BeginRollback | Return | Abort | Skip
    | GetEntry | Probe(matches: bool) | Register(externalId: string)
    | GetForAdd | UpdateForAdd | Create(newId: string) | CreateConflict | Repoint
    | ListFails | ListTombstones(held: seq<Held>) | DeleteUpstream | FinishGet | FinishRemove
    | ListMine(claims: seq<Claim>) | GetForRelease | UpdateForRelease | DropEntry
    | OutsiderCreates(key: Key) | OutsiderDeletes(key: Key)

  function PcOf(s: State, a: Actor): Pc {
    if a in s.pcs then s.pcs[a] else Idle
  }

  ghost predicate IsTombstone(s: State, k: Key) {
    k in s.store && Tombstone(s.store[k].entry)
  }

  ghost predicate WizardMade(s: State, k: Key) {
    k in s.up && s.up[k].Wizard?
  }

  /** The tombstones an actor is in the middle of finishing; it gets nowhere with one that cannot be deleted. */
  function Holds(pc: Pc): set<Key> {
    match pc
    case Sweep(_, _, listed, _) => set h | h in listed && !Stuck(h.key, h.entry) :: h.key
    case Release(_, todo, at) =>
      if |todo| > 0 && (at.Dropping? || (at.Finishing? && !Stuck(todo[0].key, at.entry))) then {todo[0].key} else {}
    case _ => {}
  }

  // ---- the calls ----

  function NextSweep(rollback: bool, ok: bool, listed: seq<Held>): Pc {
    if listed != [] then Sweep(rollback, ok, listed, if listed[0].entry.managed then Deleting else FinishRead)
    else if rollback then RollbackList(ok) else Idle
  }

  function NextRelease(ok: bool, todo: seq<Claim>): Pc {
    if todo == [] then RollbackDone(ok) else Release(ok, todo, Reading)
  }

  /** Once the reference to a found resource is recorded. */
  function AfterAdoption(w: Want): Pc {
    if w.alias then EnsureRepoint(w) else EnsureDone(w)
  }

  function AfterAddRef(w: Want, next: AfterAdd): Pc {
    match next
    case ThenCreate => EnsureCreate(w)
    case Adopted => AfterAdoption(w)
    case Recorded => EnsureDone(w)
  }

  /** What Release does once its result is known for entry e (the entry as it now stands). */
  function AfterRelease(ok: bool, todo: seq<Claim>, e: Entry): Pc
    requires todo != []
  {
    if e.refs != [] then NextRelease(ok, todo[1..])
    else if e.managed then Release(ok, todo, Finishing(Deleting, e))
    else Release(ok, todo, Dropping)
  }

  ghost predicate ListsTombstones(s: State, held: seq<Held>) {
    && NoDuplicates(held)
    && forall h :: h in held <==> IsTombstone(s, h.key) && s.store[h.key].entry == h.entry
  }

  ghost predicate ListsMine(s: State, run: string, claims: seq<Claim>) {
    forall c :: c in claims <==> c.ref.run == run && c.key in s.store && c.ref in s.store[c.key].entry.refs
  }

  /** In the middle of a sweep or of a rollback's releases. */
  predicate HasItem(pc: Pc) {
    (pc.Sweep? && pc.listed != []) || (pc.Release? && pc.todo != [])
  }

  /** Which calls an actor can make from where it stands. */
  ghost predicate Can(s: State, a: Actor, act: Act) {
    var pc := PcOf(s, a);
    match act
    case BeginEnsure(w) => pc.Idle? && a == Run(w.ref.run)
    case BeginSweep => pc.Idle?
    case BeginRollback => pc.Idle? && a.Run?
    case Return => pc.EnsureDone? || pc.RollbackDone?
    case Abort => true
    case Skip => HasItem(pc)
    case GetEntry => pc.EnsureRead?
    case Probe(matches) => pc.EnsureProbe?
    case Register(_) => pc.EnsureRegister?
    case GetForAdd => pc.AddRead?
    case UpdateForAdd => pc.AddUpdate?
    case Create(_) => pc.EnsureCreate?
    case CreateConflict => pc.EnsureCreate? && pc.w.key in s.up
    case Repoint => pc.EnsureRepoint?
    case ListFails => pc.SweepList?
    case ListTombstones(held) => pc.SweepList? && ListsTombstones(s, held)
    case DeleteUpstream => HasItem(pc) && IsAt(pc, Deleting) && CanDelete(Current(pc), RecordOf(pc))
    case FinishGet => HasItem(pc) && IsAt(pc, FinishRead)
    case FinishRemove => HasItem(pc) && IsAt(pc, FinishDelete)
    case ListMine(claims) => pc.RollbackList? && a.Run? && ListsMine(s, a.name, claims)
    case GetForRelease => pc.Release? && pc.todo != [] && pc.at.Reading?
    case UpdateForRelease => pc.Release? && pc.todo != [] && pc.at.Updating?
    case DropEntry => pc.Release? && pc.todo != [] && pc.at.Dropping?
    case OutsiderCreates(k) => k !in s.up
    case OutsiderDeletes(k) => true
  }

  function Goto(s: State, a: Actor, pc: Pc): State {
    s.(pcs := s.pcs[a := pc])
  }

  function Write(s: State, k: Key, e: Entry): State {
    var uid := if k in s.store then s.store[k].uid else s.clock;
    s.(store := s.store[k := Stored(uid, s.clock, e)], clock := s.clock + 1)
  }

  function Remove(s: State, k: Key): State {
    s.(store := s.store - {k}, clock := s.clock + 1)
  }

  function Log(s: State, op: Op): State {
    s.(hist := s.hist + [op])
  }

  /** The tombstone an actor is finishing right now. */
  function Current(pc: Pc): Key
    requires HasItem(pc)
  {
    if pc.Sweep? then pc.listed[0].key else pc.todo[0].key
  }

  /** What the ledger said of it. */
  function RecordOf(pc: Pc): Entry
    requires HasItem(pc) && (pc.Release? ==> pc.at.Finishing?)
  {
    if pc.Sweep? then pc.listed[0].entry else pc.at.entry
  }

  function AtStage(pc: Pc, stage: Stage): Pc
    requires pc.Sweep? || (pc.Release? && pc.at.Finishing?)
  {
    if pc.Sweep? then pc.(stage := stage) else pc.(at := pc.at.(stage := stage))
  }

  predicate IsAt(pc: Pc, stage: Stage) {
    (pc.Sweep? && pc.stage == stage) || (pc.Release? && pc.at.Finishing? && pc.at.stage == stage)
  }

  /** Done with the current item, successfully or not. */
  function Advance(pc: Pc, ok: bool): Pc
    requires HasItem(pc)
  {
    if pc.Sweep? then NextSweep(pc.rollback, pc.ok && ok, pc.listed[1..])
    else NextRelease(pc.ok && ok, pc.todo[1..])
  }

  /** ensure, once the upstream answer is known (Env.ensure after its m.Get). */
  function AfterProbe(w: Want, seen: Option<Entry>, exists_: bool, matches: bool): Pc {
    if exists_ then
      if !matches then Idle
      else if seen.Some? && seen.value.hash != "" && w.hash != "" && seen.value.hash != w.hash then Idle
      else if seen.None? then EnsureRegister(w, w.claim, false)
      else AddRead(w, AddOptions(false, ""), Adopted)
    else if seen.None? then EnsureRegister(w, true, true)
    else AddRead(w, AddOptions(true, ""), ThenCreate)
  }

  /** The effect of one call. */
  function Do(s: State, a: Actor, act: Act): State
    requires Can(s, a, act)
  {
    var pc := PcOf(s, a);
    match act
    case BeginEnsure(w) => Goto(s, a, EnsureRead(w))
    case BeginSweep => Goto(s, a, SweepList(false))
    case BeginRollback => Goto(s, a, SweepList(true))
    case Return => Goto(s, a, Idle)
    case Abort => Goto(s, a, Idle)
    case Skip => Goto(s, a, Advance(pc, false))
    case GetEntry =>
      var k := pc.w.key;
      if k !in s.store then Goto(s, a, EnsureProbe(pc.w, None))
      else if s.store[k].entry.terminating then Goto(s, a, Idle)
      else Goto(s, a, EnsureProbe(pc.w, Some(s.store[k].entry)))
    case Probe(matches) => Goto(s, a, AfterProbe(pc.w, pc.seen, pc.w.key in s.up, matches))
    case Register(externalId) =>
      var k := pc.w.key;
      var e := FreshEntry(pc.w.ref, pc.managed, pc.w.hash, if pc.create then "" else externalId);
      if k in s.store then Goto(s, a, EnsureRead(pc.w))
      else Goto(Log(Write(s, k, e), Registered(k, e)), a, if pc.create then EnsureCreate(pc.w) else AfterAdoption(pc.w))
    case GetForAdd =>
      var k := pc.w.key;
      if k !in s.store then Goto(s, a, if pc.next == Recorded then Idle else EnsureRead(pc.w))
      else if s.store[k].entry.terminating then Goto(s, a, Idle)
      else if WithRef(s.store[k].entry, pc.w.ref, pc.opts) == s.store[k].entry then
        Goto(Log(s, Added(k, pc.w.ref, pc.opts)), a, AfterAddRef(pc.w, pc.next))
      else Goto(s, a, AddUpdate(pc.w, pc.opts, pc.next, s.store[k]))
    case UpdateForAdd =>
      var k := pc.w.key;
      if k !in s.store then Goto(s, a, Idle)
      else if s.store[k].ver != pc.snap.ver then Goto(s, a, AddRead(pc.w, pc.opts, pc.next))
      else Goto(Log(Write(s, k, WithRef(pc.snap.entry, pc.w.ref, pc.opts)), Added(k, pc.w.ref, pc.opts)),
                a, AfterAddRef(pc.w, pc.next))
    case Create(id) =>
      var s1 := s.(up := s.up[pc.w.key := Wizard]);
      Goto(s1, a, if id == "" then EnsureDone(pc.w) else AddRead(pc.w, AddOptions(false, id), Recorded))
    case CreateConflict => Goto(s, a, EnsureRead(pc.w))
    case Repoint =>
      var k := pc.w.key;
      var maker := if k in s.up then s.up[k] else if k in s.store && s.store[k].entry.managed then Wizard else Stray;
      Goto(s.(up := s.up[k := maker]), a, EnsureDone(pc.w))
    case ListFails => Goto(s, a, if pc.rollback then RollbackList(false) else Idle)
    case ListTombstones(held) => Goto(s, a, NextSweep(pc.rollback, true, held))
    case DeleteUpstream => Goto(s.(up := s.up - {Current(pc)}), a, AtStage(pc, FinishRead))
    case FinishGet =>
      if Current(pc) !in s.store then Goto(s, a, Advance(pc, true)) else Goto(s, a, AtStage(pc, FinishDelete))
    case FinishRemove => Goto(Log(Remove(s, Current(pc)), Removed(Current(pc))), a, Advance(pc, true))
    case ListMine(claims) => Goto(s, a, NextRelease(pc.ok, claims))
    case GetForRelease =>
      var c := pc.todo[0];
      if c.key !in s.store then Goto(Log(s, Released(c.key, c.ref)), a, Advance(pc, true))
      else
        var e := WithoutRef(s.store[c.key].entry, c.ref);
        if e != s.store[c.key].entry then Goto(s, a, pc.(at := Updating(s.store[c.key])))
        else Goto(Log(s, Released(c.key, c.ref)), a, AfterRelease(pc.ok, pc.todo, e))
    case UpdateForRelease =>
      var c := pc.todo[0];
      if c.key !in s.store then Goto(s, a, Advance(pc, false))
      else if s.store[c.key].ver != pc.at.snap.ver then Goto(s, a, pc.(at := Reading))
      else
        var e := WithoutRef(pc.at.snap.entry, c.ref);
        Goto(Log(Write(s, c.key, e), Released(c.key, c.ref)), a, AfterRelease(pc.ok, pc.todo, e))
    case DropEntry => Goto(Log(Remove(s, Current(pc)), Removed(Current(pc))), a, Advance(pc, true))
    case OutsiderCreates(k) => s.(up := s.up[k := Outsider])
    case OutsiderDeletes(k) => s.(up := s.up - {k})
  }

  /**
   The assumption the code makes of its surroundings: an actor starts to finish a tombstone
   only while nobody else is finishing it.
   */
  ghost predicate Exclusive(s: State, a: Actor, act: Act)
    requires Can(s, a, act)
  {
    forall k, b :: k in Holds(PcOf(Do(s, a, act), a)) && k !in Holds(PcOf(s, a)) && b != a ==> k !in Holds(PcOf(s, b))
  }

  // ---- whole schedules ----

  datatype Move = Move(actor: Actor, act: Act)

  /** s2 is reached from s1 by this schedule. */
  ghost predicate Path(s1: State, moves: seq<Move>, s2: State)
    decreases |moves|
  {
    if moves == [] then s1 == s2
    else Can(s1, moves[0].actor, moves[0].act) && Path(Do(s1, moves[0].actor, moves[0].act), moves[1..], s2)
  }

  /** The same, with every tombstone finished by one actor at a time. */
  ghost predicate ExclusivePath(s1: State, moves: seq<Move>, s2: State)
    decreases |moves|
  {
    if moves == [] then s1 == s2
    else
      && Can(s1, moves[0].actor, moves[0].act)
      && Exclusive(s1, moves[0].actor, moves[0].act)
      && ExclusivePath(Do(s1, moves[0].actor, moves[0].act), moves[1..], s2)
  }

  lemma {:induction false} ExtendExclusive(s: State, moves: seq<Move>, s2: State, a: Actor, act: Act)
    requires ExclusivePath(s, moves, s2) && Can(s2, a, act) && Exclusive(s2, a, act)
    ensures ExclusivePath(s, moves + [Move(a, act)], Do(s2, a, act))
    decreases |moves|
  {
    var all := moves + [Move(a, act)];
    if moves == [] {
      assert all[0] == Move(a, act) && all[1..] == [];
      assert ExclusivePath(Do(s, a, act), all[1..], Do(s2, a, act));
    } else {
      ExtendExclusive(Do(s, moves[0].actor, moves[0].act), moves[1..], s2, a, act);
      assert all[1..] == moves[1..] + [Move(a, act)];
    }
  }

  /** An empty ledger; whatever exists upstream was put there by others. */
  ghost predicate Initial(s: State) {
    s.store == map[] && s.pcs == map[] && s.hist == [] && forall k :: k in s.up ==> s.up[k].Outsider?
  }
}
