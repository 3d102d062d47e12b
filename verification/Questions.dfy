/**
 What a reconcile asks its steps, and what it makes of the answers.  The question put to a step is
 known by what depends on it: changing the answers to all others changes nothing.
 */
module Questions {
  import opened Types
  import opened Phases
  import opened Plan
  import opened Reconciler
  import opened ReconcilerTheorems

  // ---- the question ----

  /** The outputs of the steps before instance i that run once, by step name. */
  function OutputsBefore(steps: seq<StepStatus>, insts: seq<Instance>, i: nat): Outputs
    requires i <= |steps| == |insts|
  {
    if i == 0 then map[]
    else
      var before := OutputsBefore(steps, insts, i - 1);
      if insts[i - 1].item == None then before[insts[i - 1].step.name := steps[i - 1].outputs] else before
  }

  lemma {:induction false} SameOutputsBefore(a: seq<StepStatus>, b: seq<StepStatus>, insts: seq<Instance>, i: nat)
    requires i <= |a| == |b| == |insts| && forall j :: 0 <= j < i ==> a[j] == b[j]
    ensures OutputsBefore(a, insts, i) == OutputsBefore(b, insts, i)
  {
    if i > 0 {
      SameOutputsBefore(a, b, insts, i - 1);
    }
  }

  /**
   The question for instance i of a walk that starts from these steps and ends with those: its own
   params, resolved with the outputs of the steps before it, the outputs its status has, and the time it
   first ran.
   */
  ghost predicate AskedOf(start: seq<StepStatus>, end: seq<StepStatus>, insts: seq<Instance>, turn: Turn, i: nat,
                          q: Question)
    requires |start| == |end| == |insts|
  {
    && i < |insts| && q.instance == insts[i] && q.prior == start[i].outputs
    && q.startedAt == (if start[i].startedAt.Some? then start[i].startedAt.value else turn.now)
    && turn.resolve(insts[i], OutputsBefore(end, insts, i)) == Some(q.params)
  }

  /** The answers to all these questions are the same. */
  ghost predicate SameAnswers(start: seq<StepStatus>, end: seq<StepStatus>, insts: seq<Instance>, turn: Turn,
                              reply: Question -> Reply)
    requires |start| == |end| == |insts|
  {
    forall i, q :: AskedOf(start, end, insts, turn, i, q) ==> reply(q) == turn.reply(q)
  }

  lemma {:induction false} WalkAsks(start: seq<StepStatus>, steps: seq<StepStatus>, insts: seq<Instance>, i: nat,
                                    outputs: Outputs, turn: Turn, asked: seq<string>, reply: Question -> Reply)
    requires |start| == |steps| == |insts| && i <= |insts| && forall j :: i <= j < |insts| ==> steps[j] == start[j]
    requires outputs == OutputsBefore(steps, insts, i)
    requires SameAnswers(start, Walk(steps, insts, i, outputs, turn, asked).steps, insts, turn, reply)
    ensures Walk(steps, insts, i, outputs, turn.(reply := reply), asked) == Walk(steps, insts, i, outputs, turn, asked)
    decreases |insts| - i
  {
    if i < |insts| && steps[i].phase == StepSucceeded {
      WalkAsks(start, steps, insts, i + 1, WithOutputs(outputs, insts[i], steps[i]), turn, asked, reply);
    } else if i < |insts| && steps[i].phase != StepFailed && turn.configured {
      var end := Walk(steps, insts, i, outputs, turn, asked).steps;
      var (s, outcome) := RunOne(steps[i], insts[i], turn, outputs);
      var asked2 := if Called(insts[i], turn, outputs) then asked + [insts[i].key] else asked;
      WalkBefore(steps, insts, i, outputs, turn, asked);
      SameOutputsBefore(steps, end, insts, i);
      SameQuestion(start[i], end, insts, turn, i, outputs, reply, start);
      if outcome == Done {
        SameOutputsBefore(steps, steps[i := s], insts, i);
        WalkAsks(start, steps[i := s], insts, i + 1, WithOutputs(outputs, insts[i], s), turn, asked2, reply);
      }
    }
  }

  /** A walk leaves the steps before its start alone. */
  lemma {:induction false} WalkBefore(steps: seq<StepStatus>, insts: seq<Instance>, i: nat, outputs: Outputs,
                                      turn: Turn, asked: seq<string>)
    requires |steps| == |insts| && i <= |insts|
    ensures forall j :: 0 <= j < i ==> Walk(steps, insts, i, outputs, turn, asked).steps[j] == steps[j]
  {
    forall j | 0 <= j < i
      ensures Walk(steps, insts, i, outputs, turn, asked).steps[j] == steps[j]
    {
      WalkLeaves(steps, insts, i, outputs, turn, asked, j);
    }
  }

  lemma {:induction false} SameQuestion(s: StepStatus, end: seq<StepStatus>, insts: seq<Instance>, turn: Turn, i: nat,
                                        outputs: Outputs, reply: Question -> Reply, start: seq<StepStatus>)
    requires i < |insts| == |end| == |start| && s == start[i] && outputs == OutputsBefore(end, insts, i)
    requires SameAnswers(start, end, insts, turn, reply)
    ensures RunOne(s, insts[i], turn.(reply := reply), outputs) == RunOne(s, insts[i], turn, outputs)
  {
    if Called(insts[i], turn, outputs) {
      var q := Question(insts[i], turn.resolve(insts[i], outputs).value, s.outputs,
                        if s.startedAt.Some? then s.startedAt.value else turn.now);
      assert AskedOf(start, end, insts, turn, i, q);
    }
  }

  // ---- the question, from the status as it is persisted ----

  /** The outputs the status has of a step. */
  function PriorOf(st: Status, key: string): Fields {
    match Find(st.steps, key)
    case Some(s) => s.outputs
    case None => map[]
  }

  /** When it first ran; a retry of a failed step starts anew. */
  function StartOf(st: Status, key: string, retry: bool, now: int): int {
    match Find(st.steps, key)
    case Some(s) => if (retry && s.phase == StepFailed) || s.startedAt.None? then now else s.startedAt.value
    case None => now
  }

  /** What a reconcile may ask instance i. */
  ghost predicate Asks(st: Status, insts: seq<Instance>, turn: Turn, retry: bool, i: nat, q: Question) {
    && i < |insts| && q.instance == insts[i] && q.prior == PriorOf(st, insts[i].key)
    && q.startedAt == StartOf(st, insts[i].key, retry, turn.now)
    && var end := PassFrom(st, insts, turn, retry).steps;
       turn.resolve(insts[i], OutputsBefore(end, insts, i)) == Some(q.params)
  }

  lemma {:induction false} PreparedFrom(st: Status, insts: seq<Instance>, retry: bool, i: nat, now: int)
    requires i < |insts|
    ensures var s := Prepared(st, insts, retry)[i];
            && s.outputs == PriorOf(st, insts[i].key)
            && (if s.startedAt.Some? then s.startedAt.value else now) == StartOf(st, insts[i].key, retry, now)
  {
  }

  /**
   What a reconcile comes to depends on the answers to these questions and to no others: a step is
   asked with the outputs its status has, never with anything else.
   */
  lemma {:induction false} OnlyTheseQuestions(st: Status, insts: seq<Instance>, turn: Turn, retry: bool,
                                              reply: Question -> Reply)
    requires forall i, q :: Asks(st, insts, turn, retry, i, q) ==> reply(q) == turn.reply(q)
    ensures PassFrom(st, insts, turn.(reply := reply), retry) == PassFrom(st, insts, turn, retry)
    ensures Advanced(st, insts, turn.(reply := reply), retry) == Advanced(st, insts, turn, retry)
  {
    var start := Prepared(st, insts, retry);
    var end := PassFrom(st, insts, turn, retry).steps;
    forall i, q | AskedOf(start, end, insts, turn, i, q)
      ensures reply(q) == turn.reply(q)
    {
      PreparedFrom(st, insts, retry, i, turn.now);
      assert Asks(st, insts, turn, retry, i, q);
    }
    WalkAsks(start, start, insts, 0, map[], turn, [], reply);
  }

  // ---- the answer ----

  /** Instance n is the next one: all before it have succeeded, and it may be run. */
  ghost predicate NextIs(st: Status, insts: seq<Instance>, n: nat) {
    && KeysMatch(st.steps, insts) && n < |insts| && st.steps[n].phase in {StepPending, StepRunning}
    && forall j :: 0 <= j < n ==> st.steps[j].phase == StepSucceeded
  }

  /** What the answer makes of the step's status. */
  ghost predicate AnswerShows(s: StepStatus, reply: Reply, now: int, s2: StepStatus) {
    && s2.key == s.key && s2.startedAt == Some(if s.startedAt.Some? then s.startedAt.value else now)
    && match reply
       case Permanent =>
         s2.phase == StepFailed && s2.failures == 0 && s2.outputs == s.outputs && s2.completedAt == Some(now)
       case Transient =>
         && s2.outputs == s.outputs
         && (if s.failures < 9 then s2.phase == StepRunning && s2.failures == s.failures + 1
             else s2.phase == StepFailed && s2.failures == 0 && s2.completedAt == Some(now))
       case Finished(outputs) =>
         s2.phase == StepSucceeded && s2.failures == 0 && s2.outputs == outputs && s2.completedAt == Some(now)
       case Waiting(progress) =>
         && s2.phase == StepRunning && s2.failures == 0
         && s2.outputs == if progress.Some? then progress.value else s.outputs
  }

  lemma {:induction false} WalkReaches(steps: seq<StepStatus>, insts: seq<Instance>, i: nat, outputs: Outputs,
                                       turn: Turn, asked: seq<string>, n: nat)
    requires i <= n < |steps| == |insts| && forall j :: i <= j < n ==> steps[j].phase == StepSucceeded
    requires outputs == OutputsBefore(steps, insts, i)
    ensures Walk(steps, insts, i, outputs, turn, asked) ==
              Walk(steps, insts, n, OutputsBefore(steps, insts, n), turn, asked)
    decreases n - i
  {
    if i < n {
      WalkReaches(steps, insts, i + 1, WithOutputs(outputs, insts[i], steps[i]), turn, asked, n);
    }
  }

  /** The instance at the head of a walk, run with the answer to its question. */
  lemma {:induction false} HeadAnswered(steps: seq<StepStatus>, insts: seq<Instance>, n: nat, outputs: Outputs,
                                        turn: Turn, q: Question)
    requires n < |steps| == |insts| && steps[n].phase in {StepPending, StepRunning}
    requires turn.configured && turn.known(insts[n].step.typ) && turn.resolve(insts[n], outputs) == Some(q.params)
    requires q.instance == insts[n] && q.prior == steps[n].outputs
    requires q.startedAt == if steps[n].startedAt.Some? then steps[n].startedAt.value else turn.now
    ensures var p, reply := Walk(steps, insts, n, outputs, turn, []), turn.reply(q);
            && AnswerShows(steps[n], reply, turn.now, p.steps[n])
            && (p.steps[n].phase == StepFailed ==> p.phase == Failed)
            && (p.steps[n].phase == StepRunning ==> p.phase == Running)
            && (p.steps[n].phase != StepSucceeded ==> p.steps == steps[n := p.steps[n]])
  {
    var (s, outcome) := RunOne(steps[n], insts[n], turn, outputs);
    assert Question(insts[n], q.params, steps[n].outputs, Begun(steps[n], turn.now).startedAt.value) == q;
    assert RunOne(steps[n], insts[n], turn, outputs) == Recorded(Begun(steps[n], turn.now), turn.reply(q), turn.now);
    if outcome == Done {
      WalkLeaves(steps[n := s], insts, n + 1, WithOutputs(outputs, insts[n], s), turn, [] + [insts[n].key], n);
    }
  }

  /** From st to st2 instance n was answered so. */
  ghost predicate AnsweredSo(st: Status, st2: Status, n: nat, reply: Reply, now: int) {
    && n < |st.steps| == |st2.steps| && AnswerShows(st.steps[n], reply, now, st2.steps[n])
    && (st2.steps[n].phase == StepFailed ==> st2.phase == Failed)
    && (st2.steps[n].phase == StepRunning ==> st2.phase == Running)
    && (st2.steps[n].phase != StepSucceeded ==> st2.steps == st.steps[n := st2.steps[n]])
  }

  /**
   The answer to that question is what the next step's new status records; unless it is done, the
   reconcile ends there, Failed or Running.
   */
  lemma {:induction false} AnswerIsRecorded(st: Status, insts: seq<Instance>, turn: Turn, n: nat, q: Question)
    requires NextIs(st, insts, n) && KeysDiffer(insts) && turn.configured && turn.known(insts[n].step.typ)
    requires Asks(st, insts, turn, false, n, q)
    ensures AnsweredSo(st, Advanced(st, insts, turn, false), n, turn.reply(q), turn.now)
  {
    SyncedIsSame(st.steps, insts);
    FindUnique(st.steps, n);
    WalkReaches(st.steps, insts, 0, map[], turn, [], n);
    var before := OutputsBefore(st.steps, insts, n);
    WalkBefore(st.steps, insts, n, before, turn, []);
    SameOutputsBefore(st.steps, PassFrom(st, insts, turn, false).steps, insts, n);
    HeadAnswered(st.steps, insts, n, before, turn, q);
  }

  /**
   Without a valid config the next step is left as it is and the run goes on waiting; a step of an
   unknown type, or one whose params do not resolve, fails and the run with it, whatever would have
   been answered.
   */
  lemma {:induction false} UnaskedStep(st: Status, insts: seq<Instance>, turn: Turn, n: nat)
    requires NextIs(st, insts, n) && KeysDiffer(insts)
    requires turn.configured && turn.known(insts[n].step.typ) ==>
               turn.resolve(insts[n], OutputsBefore(st.steps, insts, n)) == None
    ensures var st2 := Advanced(st, insts, turn, false);
            if !turn.configured then st2.phase == Running && st2.steps == st.steps
            else
              st2.phase == Failed
              && st2.steps == st.steps[n := st.steps[n].(phase := StepFailed, failures := 0,
                                                         completedAt := Some(turn.now))]
  {
    SyncedIsSame(st.steps, insts);
    WalkReaches(st.steps, insts, 0, map[], turn, [], n);
  }

  // ---- one step across reconciles ----

  /** How many transient failures the replies end with. */
  function Trailing(replies: seq<Reply>): nat
    decreases |replies|
  {
    if replies == [] || !replies[|replies| - 1].Transient? then 0 else 1 + Trailing(replies[..|replies| - 1])
  }

  /** At no point have there been ten transient failures in a row. */
  ghost predicate NotYetTen(replies: seq<Reply>)
    decreases |replies|
  {
    Trailing(replies) < 10 && (replies != [] ==> NotYetTen(replies[..|replies| - 1]))
  }

  /** The last outputs a waiting step handed back. */
  function HandedBack(replies: seq<Reply>, first: Fields): Fields
    decreases |replies|
  {
    if replies == [] then first
    else
      var last := replies[|replies| - 1];
      if last.Waiting? && last.progress.Some? then last.progress.value else HandedBack(replies[..|replies| - 1], first)
  }

  /** In each of these reconciles instance n was asked and answered so, and the run went on waiting. */
  ghost predicate Waits(st: Status, insts: seq<Instance>, n: nat, turns: seq<Turn>, replies: seq<Reply>)
    decreases |turns|
  {
    && |turns| == |replies|
    && (turns != [] ==>
          var k := |turns| - 1;
          && Waits(st, insts, n, turns[..k], replies[..k]) && (replies[k].Waiting? || replies[k].Transient?)
          && AnswersAt(After(st, insts, Unasked(turns[..k])), insts, n, turns[k], replies[k]))
  }

  /** This reconcile gets to ask instance n, and its answer to that question is this one. */
  ghost predicate AnswersAt(st: Status, insts: seq<Instance>, n: nat, turn: Turn, reply: Reply) {
    && n < |insts| && turn.configured && turn.known(insts[n].step.typ)
    && exists q :: Asks(st, insts, turn, false, n, q) && turn.reply(q) == reply
  }

  /** Reconciles without a retry. */
  function Unasked(turns: seq<Turn>): (visits: seq<Visit>)
    ensures |visits| == |turns|
  {
    seq(|turns|, i requires 0 <= i < |turns| => Visit(turns[i], false))
  }

  lemma {:induction false} AfterLast(st: Status, insts: seq<Instance>, visits: seq<Visit>)
    requires visits != []
    ensures var k := |visits| - 1;
            After(st, insts, visits) ==
              Advanced(After(st, insts, visits[..k]), insts, visits[k].turn, visits[k].retry)
    decreases |visits|
  {
    var k := |visits| - 1;
    if k > 0 {
      AfterLast(Advanced(st, insts, visits[0].turn, visits[0].retry), insts, visits[1..]);
      assert visits[1..][..k - 1] == visits[..k][1..];
    } else {
      assert visits[1..] == [] && visits[..0] == [];
    }
  }

  /** The status of a step that waits. */
  ghost predicate WaitingFor(st: Status, now: Status, insts: seq<Instance>, n: nat, turns: seq<Turn>,
                             replies: seq<Reply>)
    requires NextIs(st, insts, n)
  {
    && NextIs(now, insts, n)
    && now.steps[n].failures == Trailing(replies)
    && now.steps[n].outputs == HandedBack(replies, st.steps[n].outputs)
    && (turns == [] ==> now == st)
    && (turns != [] ==>
          && now.phase == Running && now.steps[n].phase == StepRunning
          && now.steps[n].startedAt ==
               Some(if st.steps[n].startedAt.Some? then st.steps[n].startedAt.value else turns[0].now))
  }

  lemma {:induction false} AnswerOf(st: Status, insts: seq<Instance>, n: nat, turn: Turn, reply: Reply)
    requires NextIs(st, insts, n) && KeysDiffer(insts) && AnswersAt(st, insts, n, turn, reply)
    ensures AnsweredSo(st, Advanced(st, insts, turn, false), n, reply, turn.now)
  {
    var q :| Asks(st, insts, turn, false, n, q) && turn.reply(q) == reply;
    AnswerIsRecorded(st, insts, turn, n, q);
  }

  lemma {:induction false} OneWaitMore(st: Status, before: Status, after: Status, insts: seq<Instance>, n: nat,
                                       turns: seq<Turn>, replies: seq<Reply>, k: nat)
    requires NextIs(st, insts, n) && |turns| == |replies| == k + 1
    requires WaitingFor(st, before, insts, n, turns[..k], replies[..k]) && Trailing(replies) < 10
    requires AnsweredSo(before, after, n, replies[k], turns[k].now) && (replies[k].Waiting? || replies[k].Transient?)
    ensures WaitingFor(st, after, insts, n, turns, replies)
  {
  }

  /** The last of these reconciles. */
  lemma {:induction false} LastWait(st: Status, insts: seq<Instance>, n: nat, turns: seq<Turn>, replies: seq<Reply>,
                                    before: Status, after: Status)
    requires turns != [] && Waits(st, insts, n, turns, replies) && KeysDiffer(insts) && NextIs(before, insts, n)
    requires before == After(st, insts, Unasked(turns[..|turns| - 1])) && after == After(st, insts, Unasked(turns))
    ensures var k := |turns| - 1;
            AnsweredSo(before, after, n, replies[k], turns[k].now) && (replies[k].Waiting? || replies[k].Transient?)
  {
    var k := |turns| - 1;
    AfterLast(st, insts, Unasked(turns));
    assert Unasked(turns)[..k] == Unasked(turns[..k]);
    AnswerOf(before, insts, n, turns[k], replies[k]);
  }

  lemma {:induction false} FrontNotTen(replies: seq<Reply>, k: nat)
    requires NotYetTen(replies) && |replies| == k + 1
    ensures NotYetTen(replies[..k]) && Trailing(replies) < 10
  {
  }

  lemma {:induction false} WaitingGoesOn(st: Status, insts: seq<Instance>, n: nat, turns: seq<Turn>,
                                         replies: seq<Reply>, now: Status)
    requires NextIs(st, insts, n) && KeysDiffer(insts) && st.steps[n].failures == 0
    requires Waits(st, insts, n, turns, replies) && NotYetTen(replies) && now == After(st, insts, Unasked(turns))
    ensures WaitingFor(st, now, insts, n, turns, replies)
    decreases |turns|
  {
    if turns != [] {
      var k := |turns| - 1;
      var before := After(st, insts, Unasked(turns[..k]));
      FrontNotTen(replies, k);
      WaitingGoesOn(st, insts, n, turns[..k], replies[..k], before);
      LastWait(st, insts, n, turns, replies, before, now);
      OneWaitMore(st, before, now, insts, n, turns, replies, k);
    }
  }

  /**
   A step counts its consecutive transient failures, any other answer starting the count again, and
   gives up at the tenth in a row, not before.
   */
  lemma {:induction false} CountsConsecutiveFailures(st: Status, insts: seq<Instance>, n: nat, turns: seq<Turn>,
                                                     replies: seq<Reply>, now: Status, next: Turn)
    requires NextIs(st, insts, n) && KeysDiffer(insts) && st.steps[n].failures == 0
    requires Waits(st, insts, n, turns, replies) && NotYetTen(replies) && now == After(st, insts, Unasked(turns))
    requires AnswersAt(now, insts, n, next, Transient)
    ensures n < |now.steps| && now.steps[n].failures == Trailing(replies)
    ensures var after := Advanced(now, insts, next, false);
            if Trailing(replies) == 9 then after.phase == Failed && after.steps[n].phase == StepFailed
            else after.phase == Running && after.steps[n].failures == Trailing(replies) + 1
  {
    WaitingGoesOn(st, insts, n, turns, replies, now);
    GivesUpAtTen(st, now, insts, n, turns, replies, next);
  }

  lemma {:induction false} GivesUpAtTen(st: Status, now: Status, insts: seq<Instance>, n: nat, turns: seq<Turn>,
                                        replies: seq<Reply>, next: Turn)
    requires NextIs(st, insts, n) && KeysDiffer(insts) && WaitingFor(st, now, insts, n, turns, replies)
    requires AnswersAt(now, insts, n, next, Transient)
    ensures var after := Advanced(now, insts, next, false);
            if Trailing(replies) >= 9 then after.phase == Failed && after.steps[n].phase == StepFailed
            else after.phase == Running && after.steps[n].failures == Trailing(replies) + 1
  {
    AnswerOf(now, insts, n, next, Transient);
    TenthFails(now, Advanced(now, insts, next, false), n, next.now);
  }

  lemma {:induction false} TenthFails(now: Status, after: Status, n: nat, time: int)
    requires AnsweredSo(now, after, n, Transient, time)
    ensures if now.steps[n].failures >= 9 then after.phase == Failed && after.steps[n].phase == StepFailed
            else after.phase == Running && after.steps[n].failures == now.steps[n].failures + 1
  {
  }

  /**
   A step is asked with what it last handed back, however many reconciles with failures and silent
   waits have come in between: answers to questions with any other outputs do not matter.
   */
  lemma {:induction false} ProgressComesBack(st: Status, insts: seq<Instance>, n: nat, turns: seq<Turn>,
                                             replies: seq<Reply>, next: Turn, retry: bool, reply: Question -> Reply)
    requires NextIs(st, insts, n) && KeysDiffer(insts) && st.steps[n].failures == 0
    requires Waits(st, insts, n, turns, replies) && NotYetTen(replies)
    requires forall q: Question ::
               (q.instance == insts[n] ==> q.prior == HandedBack(replies, st.steps[n].outputs)) ==>
                 reply(q) == next.reply(q)
    ensures var now := After(st, insts, Unasked(turns));
            Advanced(now, insts, next.(reply := reply), retry) == Advanced(now, insts, next, retry)
  {
    var now := After(st, insts, Unasked(turns));
    WaitingGoesOn(st, insts, n, turns, replies, now);
    forall i, q | Asks(now, insts, next, retry, i, q)
      ensures reply(q) == next.reply(q)
    {
      if q.instance == insts[n] {
        assert i == n;
        FindUnique(now.steps, n);
      }
    }
    OnlyTheseQuestions(now, insts, next, retry, reply);
  }
}
