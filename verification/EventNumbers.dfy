/** Numbering of run events (`_make_emit` in src/agent/daemon/run_executor.py): the number
    is taken and the counter advanced before the first suspension of an emit, so overlapping
    emits of one run and emits of different runs never share a number. */
module EventNumbers {
  import opened Sequences
  import opened Executors

  function NumberOf(id: Id): ((Id, nat)) -> Option<nat> {
    (e: (Id, nat)) => if e.0 == id then Some(e.1) else None
  }

  /** The numbers given to the events of one run, in emit order. */
  function Numbers(s: State, id: Id): seq<nat> {
    Pick(NumberOf(id), s.appended)
  }

  /** 0, 1, 2, ... */
  ghost predicate Counting(ns: seq<nat>) {
    forall k :: 0 <= k < |ns| ==> ns[k] == k
  }

  /** An emit of a run whose counter was dropped at its end, after it had numbered events. */
  predicate Restarts(s: State, a: Action, id: Id) {
    a == Emit(id) && id in s.tasks && id !in s.seqs && Numbers(s, id) != []
  }

  /** Some emit in the trace did so. */
  predicate Restarted(actions: seq<Action>, id: Id) {
    actions != [] &&
    (Restarted(actions[..|actions| - 1], id) ||
     Restarts(Run(actions[..|actions| - 1]), actions[|actions| - 1], id))
  }

  /** The counter agrees with the numbers already given. */
  ghost predicate CounterHolds(s: State, id: Id) {
    && Counting(Numbers(s, id))
    && (id in s.seqs ==> s.seqs[id] == |Numbers(s, id)|)
    && (id !in s.tasks ==> Numbers(s, id) == [] && id !in s.seqs)
  }

  /** Even a restarted counter starts at zero. */
  ghost predicate FirstIsZero(s: State, id: Id) {
    && (if Numbers(s, id) == [] then NextSeq(s, id) == 0 else Numbers(s, id)[0] == 0)
    && (id !in s.tasks ==> Numbers(s, id) == [])
  }

  lemma StepNumbers(s: State, a: Action, id: Id)
    ensures Numbers(Step(s, a), id) ==
            if a == Emit(id) && id in s.tasks then Numbers(s, id) + [NextSeq(s, id)] else Numbers(s, id)
  {
    hide Pick, Landing, Going;
    if a.Emit? && a.id in s.tasks {
      PickSnoc(NumberOf(id), s.appended, (a.id, NextSeq(s, a.id)));
    }
  }

  lemma StepCounter(s: State, a: Action, id: Id)
    ensures var s' := Step(s, a);
            && (id in s.tasks ==> id in s'.tasks)
            && (id !in s.tasks && id in s'.tasks ==> id in s'.seqs && s'.seqs[id] == 0)
            && (id in s.tasks && a == Emit(id) ==> id in s'.seqs && s'.seqs[id] == NextSeq(s, id) + 1)
            && ((id in s.tasks && a != Emit(id)) || id !in s'.tasks ==>
                  id !in s'.seqs || (id in s.seqs && s'.seqs[id] == s.seqs[id]))
  {
    hide Landing, Going, AfterBody, OutcomeOf;
  }

  lemma {:induction false} FirstHolds(actions: seq<Action>, id: Id)
    ensures FirstIsZero(Run(actions), id)
  {
    if actions != [] {
      var s, a := Run(actions[..|actions| - 1]), actions[|actions| - 1];
      FirstHolds(actions[..|actions| - 1], id);
      assert Run(actions) == Step(s, a);
      hide Run, Step, Numbers;
      StepNumbers(s, a, id);
      StepCounter(s, a, id);
    }
  }

  lemma CounterStep(s: State, a: Action, id: Id)
    requires CounterHolds(s, id) && !Restarts(s, a, id)
    ensures CounterHolds(Step(s, a), id)
  {
    hide Step, Numbers;
    StepNumbers(s, a, id);
    StepCounter(s, a, id);
  }

  lemma {:induction false} NumbersHold(actions: seq<Action>, id: Id)
    requires !Restarted(actions, id)
    ensures CounterHolds(Run(actions), id)
  {
    if actions != [] {
      var s, a := Run(actions[..|actions| - 1]), actions[|actions| - 1];
      assert Run(actions) == Step(s, a);
      hide Run, CounterHolds, Restarts, Step;
      NumbersHold(actions[..|actions| - 1], id);
      CounterStep(s, a, id);
    }
  }

  lemma {:induction false} RestartBreaks(actions: seq<Action>, id: Id)
    requires Restarted(actions, id)
    ensures !Counting(Numbers(Run(actions), id))
  {
    var s, a := Run(actions[..|actions| - 1]), actions[|actions| - 1];
    assert Run(actions) == Step(s, a);
    StepNumbers(s, a, id);
    if Restarted(actions[..|actions| - 1], id) {
      RestartBreaks(actions[..|actions| - 1], id);
      hide *;
      StillNotCounting(Numbers(s, id), Numbers(Step(s, a), id));
    } else {
      hide Run, Step, Numbers;
      assert Numbers(Step(s, a), id)[|Numbers(s, id)|] == 0;
    }
  }

  lemma StillNotCounting(ns: seq<nat>, more: seq<nat>)
    requires ns <= more && !Counting(ns)
    ensures !Counting(more)
  {
    assert forall k :: 0 <= k < |ns| ==> ns[k] == more[k];
  }

  /** About the emit function alone, callable at any moment: the numbers given to a run's
      events are exactly 0, 1, 2, ... in emit order, if and only if no emit of that run comes
      after its counter was dropped with events already numbered. */
  lemma NumberingExact(actions: seq<Action>, id: Id)
    ensures Counting(Numbers(Run(actions), id)) <==> !Restarted(actions, id)
  {
    if Restarted(actions, id) {
      RestartBreaks(actions, id);
    } else {
      NumbersHold(actions, id);
    }
  }

  lemma NextIsNew(s: State, id: Id)
    requires CounterHolds(s, id) && !Restarts(s, Emit(id), id) && id in s.tasks
    ensures (id, NextSeq(s, id)) !in s.appended
  {
    var pair := (id, NextSeq(s, id));
    if pair in s.appended {
      PickMember(NumberOf(id), s.appended, pair);
    }
  }

  lemma StepAppends(s: State, a: Action)
    ensures Step(s, a).appended ==
            if a.Emit? && a.id in s.tasks then s.appended + [(a.id, NextSeq(s, a.id))] else s.appended
  {
    hide Landing, Going;
  }

  lemma {:induction false} KeysDistinct(actions: seq<Action>)
    requires forall id :: !Restarted(actions, id)
    ensures Distinct(Run(actions).appended)
  {
    if actions != [] {
      var before := actions[..|actions| - 1];
      var s, a := Run(before), actions[|actions| - 1];
      assert Run(actions) == Step(s, a);
      assert forall id :: !Restarted(actions, id) ==> !Restarted(before, id) && !Restarts(s, a, id);
      hide Run, Restarted, Step;
      KeysDistinct(before);
      StepAppends(s, a);
      if a.Emit? && a.id in s.tasks {
        NumbersHold(before, a.id);
        NextIsNew(s, a.id);
      }
    }
  }

  lemma {:induction false} RestartRepeats(actions: seq<Action>, id: Id)
    requires Restarted(actions, id)
    ensures !Distinct(Run(actions).appended)
  {
    var before := actions[..|actions| - 1];
    var s, a := Run(before), actions[|actions| - 1];
    assert Run(actions) == Step(s, a);
    StepAppends(s, a);
    if Restarted(before, id) {
      RestartRepeats(before, id);
      hide *;
      NotDistinctGrows(s.appended, Step(s, a).appended);
    } else {
      FirstHolds(before, id);
      hide Run, Step;
      RestartPair(s, id);
    }
  }

  lemma RestartPair(s: State, id: Id)
    requires FirstIsZero(s, id) && Restarts(s, Emit(id), id)
    ensures !Distinct(s.appended + [(id, NextSeq(s, id))])
  {
    var x := PickOrigin(NumberOf(id), s.appended, 0);
    var k :| 0 <= k < |s.appended| && s.appended[k] == x;
    var all := s.appended + [(id, 0)];
    assert all[k] == all[|s.appended|];
  }

  lemma NotDistinctGrows<T>(a: seq<T>, b: seq<T>)
    requires a <= b && !Distinct(a)
    ensures !Distinct(b)
  {
    var i, j :| 0 <= i < j < |a| && a[i] == a[j];
    assert b[i] == b[j];
  }

  /** ... and the (run_id, seq) primary key of the event table is never violated if and only
      if no run emits after its counter was dropped with events already numbered. */
  lemma PrimaryKeyIff(actions: seq<Action>)
    ensures Distinct(Run(actions).appended) <==> forall id :: !Restarted(actions, id)
  {
    if id :| Restarted(actions, id) {
      RestartRepeats(actions, id);
    } else {
      KeysDistinct(actions);
    }
  }

  // --- the emits the program makes ---------------------------------------------------------

  /** Every emit comes from a run that has not ended, as all callers' emits do: they are
      awaited inside the run's own body. */
  predicate EmitsWhileActive(actions: seq<Action>) {
    actions == [] ||
    var before, a := actions[..|actions| - 1], actions[|actions| - 1];
    EmitsWhileActive(before) && (a.Emit? ==> Active(Run(before), a.id))
  }

  lemma StepCounted(s: State, a: Action, id: Id)
    requires Active(s, id) ==> id in s.seqs
    ensures Active(Step(s, a), id) ==> id in Step(s, a).seqs
  {
    hide AfterBody, OutcomeOf;
  }

  /** A run that has not ended has its counter. */
  lemma {:induction false} ActiveIsCounted(actions: seq<Action>, id: Id)
    ensures Active(Run(actions), id) ==> id in Run(actions).seqs
  {
    if actions != [] {
      var s, a := Run(actions[..|actions| - 1]), actions[|actions| - 1];
      ActiveIsCounted(actions[..|actions| - 1], id);
      assert Run(actions) == Step(s, a);
      hide Run, Step, Active;
      StepCounted(s, a, id);
    }
  }

  lemma {:induction false} NeverRestarted(actions: seq<Action>, id: Id)
    requires EmitsWhileActive(actions)
    ensures !Restarted(actions, id)
  {
    if actions != [] {
      var before := actions[..|actions| - 1];
      NeverRestarted(before, id);
      ActiveIsCounted(before, id);
      hide Run, Numbers, Active;
    }
  }

  /** Main result: whatever runs and emits interleave, with every emit made by a run that has
      not ended, each run's numbers are exactly 0, 1, 2, ... in emit order and no two events
      ever share a key. */
  lemma NumberingHolds(actions: seq<Action>, id: Id)
    requires EmitsWhileActive(actions)
    ensures Counting(Numbers(Run(actions), id)) && Distinct(Run(actions).appended)
  {
    hide Run, Numbers, Counting, Restarted, EmitsWhileActive;
    NeverRestarted(actions, id);
    NumberingExact(actions, id);
    forall other: Id
      ensures !Restarted(actions, other)
    {
      NeverRestarted(actions, other);
    }
    PrimaryKeyIff(actions);
  }

  const NEXT := Resume(1, Finished, false)

  /** One run from start to end, and an emit after that. */
  const LATE_EMIT: seq<Action> := [Submit(1), NEXT, Emit(1), NEXT, NEXT, NEXT, NEXT, Emit(1)]

  function At(pc: Pc): map<Id, Task> {
    map[1 := Task(pc, false, false, false)]
  }

  lemma Goes(s: State, pc: Pc)
    requires s.tasks == At(pc) && !pc.Done?
    ensures var s' := Step(s, NEXT);
            && s'.tasks == At(Going(Task(pc, false, false, false), Finished).task.pc)
            && s'.appended == s.appended && s'.seqs == if pc.Outcomes? then s.seqs - {1} else s.seqs
  {}

  lemma Emits(s: State)
    requires 1 in s.tasks && s.seqs == map[1 := 0] && s.appended == []
    ensures var s' := Step(s, Emit(1));
            s'.tasks == s.tasks && s'.seqs == map[1 := 1] && s'.appended == [(1, 0)]
  {}

  lemma Submits()
    ensures var s := Step(START, Submit(1));
            s.tasks == At(Submitted) && s.seqs == map[1 := 0] && s.appended == []
  {}

  lemma LateEmitBody()
    ensures var s := Run(LATE_EMIT[..4]);
            s.tasks == At(Completing) && s.seqs == map[1 := 1] && s.appended == [(1, 0)]
  {
    assert Run(LATE_EMIT[..0]) == START;
    hide Run, Step;
    RunNext(LATE_EMIT, 0);
    RunNext(LATE_EMIT, 1);
    RunNext(LATE_EMIT, 2);
    RunNext(LATE_EMIT, 3);
    Submits();
    Goes(Run(LATE_EMIT[..1]), Submitted);
    Emits(Run(LATE_EMIT[..2]));
    Goes(Run(LATE_EMIT[..3]), Orchestrating);
  }

  lemma LateEmitEnd()
    ensures var s := Run(LATE_EMIT[..7]);
            s.tasks == At(Done(true)) && s.seqs == map[] && s.appended == [(1, 0)]
  {
    hide Run, Step;
    LateEmitBody();
    RunNext(LATE_EMIT, 4);
    RunNext(LATE_EMIT, 5);
    RunNext(LATE_EMIT, 6);
    Goes(Run(LATE_EMIT[..4]), Completing);
    Goes(Run(LATE_EMIT[..5]), Metrics(Completed));
    Goes(Run(LATE_EMIT[..6]), Outcomes(Completed));
  }

  /** The emit function itself does not guard against a late call, which no caller makes: it
      would start again at zero. */
  lemma LateEmitRepeats()
    ensures Run(LATE_EMIT).appended == [(1, 0), (1, 0)] && !Distinct(Run(LATE_EMIT).appended)
  {
    LateEmitEnd();
    RunNext(LATE_EMIT, 7);
    assert LATE_EMIT[..8] == LATE_EMIT;
    hide Run;
    assert [(1, 0), (1, 0)][0] == [(1, 0), (1, 0)][1];
  }
}
