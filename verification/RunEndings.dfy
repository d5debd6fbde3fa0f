/** Where a run's ending leads (`_run_task` in src/agent/daemon/run_executor.py): which status
    each ending of the body is recorded as, and which runs never enter it. */
module RunEndings {
  import opened Sequences
  import opened Executors
  import opened KillSwitch

  /** The status the program records for each way the body ends. */
  function StatusOf(end: BodyEnd): Status {
    match end
    case Finished => Completed
    case Stuck => Aborted
    case TimedOut => Errored
    case Failed => Errored
  }

  function Want(t: Task, end: BodyEnd): Status {
    if t.hit then Aborted else StatusOf(end)
  }

  /** The body has ended with `end`: what the run is on its way to record, or has recorded. */
  ghost predicate Heading(s: State, id: Id, end: BodyEnd) {
    id in s.tasks && id in s.status &&
    var t := s.tasks[id];
    match t.pc
    case Completing => !t.hit && end == Finished
    case Handling(final) => final == Want(t, end)
    case Metrics(final) => final == Want(t, end) && (!t.late ==> s.status[id] == final)
    case Outcomes(final) => final == Want(t, end) && (!t.late ==> s.status[id] == final)
    case Done(_) => !t.late ==> s.status[id] == Want(t, end)
    case _ => false
  }

  lemma HeadingLands(s: State, id: Id, landed: bool, end: BodyEnd)
    requires Heading(s, id, end) && Active(s, id)
    ensures Heading(Apply(s, id, Landing(s.tasks[id], landed)), id, end)
  {
    hide OutcomeOf, About;
  }

  lemma HeadingGoes(s: State, id: Id, any: BodyEnd, end: BodyEnd)
    requires Heading(s, id, end) && Active(s, id)
    ensures Heading(Apply(s, id, Going(s.tasks[id], any)), id, end)
  {
    hide OutcomeOf, About;
  }

  lemma HeadingOwn(s: State, id: Id, any: BodyEnd, landed: bool, end: BodyEnd)
    requires Heading(s, id, end)
    ensures Heading(Step(s, Resume(id, any, landed)), id, end)
  {
    hide Heading, Landing, Going, Apply;
    assert id in s.tasks by { HeadingKnown(s, id, end); }
    if Active(s, id) {
      HeadingLands(s, id, landed, end);
      HeadingGoes(s, id, any, end);
    }
  }

  lemma HeadingKnown(s: State, id: Id, end: BodyEnd)
    requires Heading(s, id, end)
    ensures id in s.tasks
  {}

  lemma HeadingStep(s: State, a: Action, id: Id, end: BodyEnd)
    requires Heading(s, id, end)
    ensures Heading(Step(s, a), id, end)
  {
    if a.Resume? && a.id == id {
      HeadingOwn(s, id, a.end, a.landed, end);
    } else {
      StatusFrame(s, a, id);
      hide Step;
    }
  }

  /** Steps of others keep what `Heading` looks at. */
  lemma StatusFrame(s: State, a: Action, id: Id)
    requires id in s.tasks && id in s.status && !(a.Resume? && a.id == id)
    ensures id in Step(s, a).tasks && id in Step(s, a).status
    ensures Step(s, a).tasks[id].(cancel := false) == s.tasks[id].(cancel := false)
    ensures Step(s, a).status[id] == s.status[id]
  {
    hide Landing, Going;
  }

  lemma {:induction false} HeadingForGood(first: seq<Action>, later: seq<Action>, id: Id, end: BodyEnd)
    requires Heading(Run(first), id, end)
    ensures Heading(Run(first + later), id, end)
  {
    if later == [] {
      assert first + later == first;
    } else {
      var before, a := later[..|later| - 1], later[|later| - 1];
      HeadingForGood(first, before, id, end);
      assert first + later == (first + before) + [a];
      hide Run, Step, Heading;
      RunSnoc(first + before, a);
      HeadingStep(Run(first + before), a, id, end);
    }
  }

  /** Main result: a run whose body ends with `end`, and which has ended with no cancellation
      landing after the try body, agrees on exactly the status of that ending, or on aborted if a
      cancellation landed in the try body, around the completed write included. */
  lemma EndsAs(first: seq<Action>, id: Id, end: BodyEnd, landed: bool, later: seq<Action>)
    requires var s := Run(first); id in s.tasks && s.tasks[id].pc == Orchestrating
    requires var z := Run(first + [Resume(id, end, landed)] + later);
             id in z.tasks && z.tasks[id].pc == Done(true) && !z.tasks[id].late
    ensures var z := Run(first + [Resume(id, end, landed)] + later);
            Agrees(z, id, if z.tasks[id].hit then Aborted else StatusOf(end))
  {
    hide Run, Step, TaskHolds, Heading, Agrees;
    RunHolds(first, id);
    RunSnoc(first, Resume(id, end, landed));
    EndHeads(Run(first), id, end, landed);
    HeadingForGood(first + [Resume(id, end, landed)], later, id, end);
    LifecycleAgrees(first + [Resume(id, end, landed)] + later, id);
    AgreesAsHeading(Run(first + [Resume(id, end, landed)] + later), id, end);
  }

  lemma AgreesAsHeading(s: State, id: Id, end: BodyEnd)
    requires Heading(s, id, end) && s.tasks[id].pc == Done(true) && !s.tasks[id].late
    requires exists final :: Agrees(s, id, final)
    ensures Agrees(s, id, Want(s.tasks[id], end))
  {
    hide EndsWith, About;
  }

  lemma EndHeads(s: State, id: Id, end: BodyEnd, landed: bool)
    requires TaskHolds(s, id) && s.tasks[id].pc == Orchestrating
    ensures Heading(Step(s, Resume(id, end, landed)), id, end)
  {
    hide EndsWith, About;
  }

  lemma AgreesShows(s: State, id: Id, final: Status)
    requires Agrees(s, id, final)
    ensures id in s.status && s.status[id] == final && id in s.outcomes && s.outcomes[id] == OutcomeOf(final)
    ensures var ms := About(s, id);
            && |ms| >= 3 && ms[0] == Started && ms[|ms| - 2] == Terminal(final)
            && ms[|ms| - 1] == RunFinished(OutcomeOf(final), final)
  {
    var ms := About(s, id);
    assert ms[|ms| - 2..][0] == ms[|ms| - 2] && ms[|ms| - 2..][1] == ms[|ms| - 1];
  }

  /** The run's stored status and outcome, its terminal event and its last message. */
  ghost predicate Recorded(s: State, id: Id, status: Status, outcome: Outcome) {
    var ms := About(s, id);
    && id in s.status && s.status[id] == status && id in s.outcomes && s.outcomes[id] == outcome
    && |ms| >= 3 && ms[0] == Started && ms[|ms| - 2] == Terminal(status)
    && ms[|ms| - 1] == RunFinished(outcome, status)
  }

  /** Main result: what is stored and published for each ending, value by value. */
  lemma OutcomeRecorded(first: seq<Action>, id: Id, end: BodyEnd, landed: bool, later: seq<Action>)
    requires var s := Run(first); id in s.tasks && s.tasks[id].pc == Orchestrating
    requires var z := Run(first + [Resume(id, end, landed)] + later);
             id in z.tasks && z.tasks[id].pc == Done(true) && !z.tasks[id].late
    ensures var z := Run(first + [Resume(id, end, landed)] + later); var hit := z.tasks[id].hit;
            && (end == Finished && !hit ==> Recorded(z, id, Completed, Success))
            && (end == Stuck || hit ==> Recorded(z, id, Aborted, Partial))
            && ((end == TimedOut || end == Failed) && !hit ==> Recorded(z, id, Errored, Failure))
  {
    EndsAs(first, id, end, landed, later);
    hide Run, Agrees, About;
    var z := Run(first + [Resume(id, end, landed)] + later);
    AgreesShows(z, id, if z.tasks[id].hit then Aborted else StatusOf(end));
  }

  /** What a late cancellation leaves: the write it lands on counts if and only if it had taken
      effect, and the event that would have followed is skipped. */
  lemma LateCancellationLeaves(first: seq<Action>, id: Id, end: BodyEnd, landed: bool)
    requires var s := Run(first); id in s.tasks && s.tasks[id].cancel
    ensures var s := Run(first); var pc := s.tasks[id].pc; var z := Run(first + [Resume(id, end, landed)]);
            && (pc.Handling? ==>
                  && id in z.tasks && z.tasks[id].pc == Metrics(pc.final) && z.tasks[id].late
                  && z.status == (if landed then s.status[id := pc.final] else s.status)
                  && z.outcomes == s.outcomes && z.topic == s.topic)
            && (pc.Metrics? ==>
                  && id in z.tasks && z.tasks[id].pc == Done(true) && z.tasks[id].late
                  && z.status == s.status && z.outcomes == s.outcomes && z.topic == s.topic)
            && (pc == Outcomes(Completed) && landed ==> z.outcomes == s.outcomes[id := Success])
            && (pc == Outcomes(Aborted) && landed ==> z.outcomes == s.outcomes[id := Partial])
            && (pc == Outcomes(Errored) && landed ==> z.outcomes == s.outcomes[id := Failure])
            && (pc.Outcomes? ==>
                  && id in z.tasks && z.tasks[id].pc == Done(true) && z.tasks[id].late
                  && z.status == s.status && z.topic == s.topic && (!landed ==> z.outcomes == s.outcomes))
  {
    RunSnoc(first, Resume(id, end, landed));
    hide Run;
  }

  // --- emitted events ------------------------------------------------------------------------------

  function CountEmitted(ms: seq<Message>): nat {
    if ms == [] then 0 else CountEmitted(ms[..|ms| - 1]) + if ms[|ms| - 1].Emitted? then 1 else 0
  }

  /** How many steps of the trace publish an event of the run from inside its body. */
  function Emits(actions: seq<Action>, id: Id): nat {
    if actions == [] then 0
    else
      var before, a := actions[..|actions| - 1], actions[|actions| - 1];
      Emits(before, id) +
      if a == PublishEmit(id) && id in Run(before).tasks && Run(before).tasks[id].pc == Orchestrating then 1 else 0
  }

  /** What one step publishes about one run. */
  lemma StepSays(s: State, a: Action, id: Id) returns (said: seq<Message>)
    ensures About(Step(s, a), id) == About(s, id) + said && |said| <= 1
    ensures said == [Emitted] <==> a == PublishEmit(id) && id in s.tasks && s.tasks[id].pc == Orchestrating
  {
    hide Pick;
    var z := Step(s, a);
    if z.topic == s.topic {
      said := [];
    } else {
      var m := z.topic[|s.topic|];
      assert z.topic == s.topic + [m];
      PickSnoc(MessageOf(id), s.topic, m);
      said := if m.0 == id then [m.1] else [];
    }
  }

  lemma CountMore(ms: seq<Message>, said: seq<Message>)
    requires |said| <= 1
    ensures CountEmitted(ms + said) == CountEmitted(ms) + if said == [Emitted] then 1 else 0
  {
    if said == [] {
      assert ms + said == ms;
    } else {
      assert (ms + said)[..|ms|] == ms;
    }
  }

  /** The events published about a run are as many as it emitted. */
  lemma {:induction false} EmittedArePublished(actions: seq<Action>, id: Id)
    ensures CountEmitted(About(Run(actions), id)) == Emits(actions, id)
  {
    if actions == [] {
      assert About(Run(actions), id) == [];
    } else {
      var n := |actions| - 1;
      EmittedArePublished(actions[..n], id);
      assert Run(actions) == Step(Run(actions[..n]), actions[n]);
      hide Run, Step, About, CountEmitted;
      var said := StepSays(Run(actions[..n]), actions[n], id);
      CountMore(About(Run(actions[..n]), id), said);
    }
  }

  // --- entering ---------------------------------------------------------------------------------

  /** The run is past its first step: in its body or beyond, or ended without it. */
  predicate PastStart(s: State, id: Id, entered: bool) {
    id in s.tasks && !s.tasks[id].pc.Submitted? && (s.tasks[id].pc == Done(false) <==> !entered)
  }

  lemma StartedStep(s: State, a: Action, id: Id, entered: bool)
    requires PastStart(s, id, entered)
    ensures PastStart(Step(s, a), id, entered)
  {
    hide OutcomeOf;
  }

  lemma {:induction false} StartedForGood(first: seq<Action>, later: seq<Action>, id: Id, entered: bool)
    requires PastStart(Run(first), id, entered)
    ensures PastStart(Run(first + later), id, entered)
  {
    if later == [] {
      assert first + later == first;
    } else {
      var before, a := later[..|later| - 1], later[|later| - 1];
      StartedForGood(first, before, id, entered);
      assert first + later == (first + before) + [a];
      hide Run, Step, PastStart;
      RunSnoc(first + before, a);
      StartedStep(Run(first + before), a, id, entered);
    }
  }

  /** Main result: what was pending at a run's first step decides for good. It never enters its
      body if and only if a cancellation was pending then; its status then stays running and
      nothing but its start is ever published. */
  lemma FirstStepDecides(first: seq<Action>, id: Id, end: BodyEnd, landed: bool, later: seq<Action>)
    requires var s := Run(first); id in s.tasks && s.tasks[id].pc == Submitted
    ensures var z := Run(first + [Resume(id, end, landed)] + later);
            && id in z.tasks && !z.tasks[id].pc.Submitted?
            && (z.tasks[id].pc == Done(false) <==> Run(first).tasks[id].cancel)
            && (Run(first).tasks[id].cancel ==>
                  id in z.status && z.status[id] == Running && About(z, id) == [Started])
  {
    var s, a := Run(first), Resume(id, end, landed);
    RunSnoc(first, a);
    assert PastStart(Step(s, a), id, !s.tasks[id].cancel);
    hide Run, Step;
    StartedForGood(first + [a], later, id, !s.tasks[id].cancel);
    if s.tasks[id].cancel {
      NeverEntered(first + [a] + later, id);
    }
  }

  // --- the two exceptions happen -----------------------------------------------------------------

  const GO := Resume(1, Stuck, false)

  /** A stuck run that is cancelled while its handler writes the status. */
  const LATE_RUN: seq<Action> := [Submit(1), GO, GO, Cancel(1), GO, GO, GO]

  function Alone(t: Task): map<Id, Task> {
    map[1 := t]
  }

  lemma Goes(s: State, t: Task)
    requires s.tasks == Alone(t) && !t.pc.Done?
    ensures var e := if t.cancel then Landing(t, false) else Going(t, Stuck);
            Step(s, GO).tasks == Alone(e.task)
  {}

  lemma Cancels(s: State, t: Task)
    requires s.tasks == Alone(t) && !t.pc.Done?
    ensures Step(s, Cancel(1)).tasks == Alone(t.(cancel := true))
  {}

  lemma Submits()
    ensures Step(START, Submit(1)).tasks == Alone(Task(Submitted, false, false, false))
  {}

  lemma LateRunBody()
    ensures Run(LATE_RUN[..4]).tasks == Alone(Task(Handling(Aborted), true, false, false))
  {
    assert Run(LATE_RUN[..0]) == START;
    hide Run, Step;
    RunNext(LATE_RUN, 0);
    RunNext(LATE_RUN, 1);
    RunNext(LATE_RUN, 2);
    RunNext(LATE_RUN, 3);
    Submits();
    Goes(Run(LATE_RUN[..1]), Task(Submitted, false, false, false));
    Goes(Run(LATE_RUN[..2]), Task(Orchestrating, false, false, false));
    Cancels(Run(LATE_RUN[..3]), Task(Handling(Aborted), false, false, false));
  }

  /** A cancellation landing in the except clause leaves a run that agrees on no status. */
  lemma LateRunDisagrees()
    ensures var s := Run(LATE_RUN);
            1 in s.tasks && s.tasks[1] == Task(Done(true), false, false, true) && forall final :: !Agrees(s, 1, final)
  {
    hide Run, Step, Agrees;
    LateRunBody();
    RunNext(LATE_RUN, 4);
    RunNext(LATE_RUN, 5);
    RunNext(LATE_RUN, 6);
    Goes(Run(LATE_RUN[..4]), Task(Handling(Aborted), true, false, false));
    Goes(Run(LATE_RUN[..5]), Task(Metrics(Aborted), false, false, true));
    Goes(Run(LATE_RUN[..6]), Task(Outcomes(Aborted), false, false, true));
    assert LATE_RUN[..7] == LATE_RUN;
    LifecycleAgrees(LATE_RUN, 1);
  }

  /** A run cancelled right after its submission. */
  const UNENTERED: seq<Action> := [Submit(1), Cancel(1), GO]

  lemma UnenteredStaysRunning()
    ensures var s := Run(UNENTERED);
            && 1 in s.tasks && s.tasks[1].pc == Done(false)
            && 1 in s.status && s.status[1] == Running && About(s, 1) == [Started]
  {
    assert Run(UNENTERED[..0]) == START;
    hide Run, Step;
    RunNext(UNENTERED, 0);
    RunNext(UNENTERED, 1);
    RunNext(UNENTERED, 2);
    Submits();
    Cancels(Run(UNENTERED[..1]), Task(Submitted, false, false, false));
    Goes(Run(UNENTERED[..2]), Task(Submitted, true, false, false));
    assert UNENTERED[..3] == UNENTERED;
    NeverEntered(UNENTERED, 1);
  }
}
