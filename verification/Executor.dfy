/** Concurrent runs (src/agent/daemon/run_executor.py), the kill-switch flag
    (src/agent/safety/killswitch.py) and its poller (src/agent/daemon/main.py), as
    interleaved steps. A step of a task runs from one suspension point to the next. Store
    calls are atomic and do not fail; a cancellation that lands while a task waits for one
    may find its effect done or not. */
module Executors {
  import opened Sequences

  type Id = nat

  datatype Status = Running | Completed | Errored | Aborted

  datatype Outcome = Success | Partial | Failure | Unknown

  /** `derive_from_status`, without the fixed score of each outcome. */
  function OutcomeOf(s: Status): Outcome {
    match s
    case Completed => Success
    case Errored => Failure
    case Aborted => Partial
    case Running => Unknown
  }

  /** How the orchestrated body ends when it is not cancelled. */
  datatype BodyEnd = Finished | Stuck | TimedOut | Failed

  /** Where `_run_task` is suspended. `Handling` is the status write of an except clause;
      `Metrics` and `Outcomes` are the two writes of the finally clause. */
  datatype Pc =
    | Submitted
    | Orchestrating
    | Completing
    | Handling(final: Status)
    | Metrics(final: Status)
    | Outcomes(final: Status)
    | Done(entered: bool)

  /** `cancel`: `task.cancel()` was called and has not landed. The last two record where
      cancellations landed: in the try body, or later in a handler or the finally clause. */
  datatype Task = Task(pc: Pc, cancel: bool, hit: bool, late: bool)

  datatype Message = Started | Emitted | Terminal(status: Status) | RunFinished(outcome: Outcome, status: Status)

  datatype State = State(
    tasks: map<Id, Task>,
    seqs: map<Id, nat>,                  // RunExecutor._seq
    status: map<Id, Status>,             // runs.status
    outcomes: map<Id, Outcome>,          // run_outcomes.outcome
    appended: seq<(Id, nat)>,            // (run_id, seq) pairs given to append_event
    topic: seq<(Id, Message)>,           // everything published on `runs`
    armed: bool)

  const START := State(map[], map[], map[], map[], [], [], false)

  datatype Action =
    | Submit(id: Id)
    | Resume(id: Id, end: BodyEnd, landed: bool)   // run `id` goes on to its next suspension
    | Emit(id: Id)                                 // RunContext.emit up to append_event
    | PublishEmit(id: Id)                          // ... and its publish, while the body runs
    | Cancel(id: Id)
    | Arm
    | Tick                                         // one poll of the kill-switch poller

  predicate Active(s: State, id: Id) {
    id in s.tasks && !s.tasks[id].pc.Done?
  }

  function WithTask(s: State, id: Id, t: Task): State {
    s.(tasks := s.tasks[id := t])
  }

  function Publish(s: State, id: Id, m: Message): State {
    s.(topic := s.topic + [(id, m)])
  }

  function WriteStatus(s: State, id: Id, status: Status): State {
    s.(status := s.status[id := status])
  }

  /** The body ended: into the completed write, or the matching except clause. */
  function AfterBody(end: BodyEnd): Pc {
    match end
    case Finished => Completing
    case Stuck => Handling(Aborted)
    case TimedOut => Handling(Errored)
    case Failed => Handling(Errored)
  }

  /** What one resumption of a task does: its next suspension point, and the store writes,
      publish and flag change made on the way there. */
  datatype Effect = Effect(
    task: Task, status: Option<Status>, outcome: Option<Outcome>, say: Option<Message>, dropSeq: bool, disarm: bool)

  function Move(t: Task, pc: Pc): Effect {
    Effect(t.(pc := pc), None, None, None, false, false)
  }

  /** The pending cancellation lands at the await the run is suspended on. */
  function Landing(t: Task, landed: bool): Effect {
    var u := t.(cancel := false);
    match t.pc
    case Submitted => Move(u, Done(false))
    case Orchestrating => Move(u.(hit := true), Handling(Aborted))
    case Completing =>
      Move(u.(hit := true), Handling(Aborted)).(status := if landed then Some(Completed) else None)
    case Handling(final) =>
      Move(u.(late := true), Metrics(final)).(status := if landed then Some(final) else None)
    case Metrics(_) => Move(u.(late := true), Done(true))
    case Outcomes(final) =>
      Move(u.(late := true), Done(true)).(outcome := if landed then Some(OutcomeOf(final)) else None)
    case Done(_) => Move(t, t.pc)
  }

  /** The awaited call returns and the run goes on. */
  function Going(t: Task, end: BodyEnd): Effect {
    match t.pc
    case Submitted => Move(t, Orchestrating).(disarm := true)
    case Orchestrating => Move(t, AfterBody(end))
    case Completing => Move(t, Metrics(Completed)).(status := Some(Completed), say := Some(Terminal(Completed)))
    case Handling(final) => Move(t, Metrics(final)).(status := Some(final), say := Some(Terminal(final)))
    case Metrics(final) => Move(t, Outcomes(final))
    case Outcomes(final) =>
      Move(t, Done(true)).(
        outcome := Some(OutcomeOf(final)), say := Some(RunFinished(OutcomeOf(final), final)), dropSeq := true)
    case Done(_) => Move(t, t.pc)
  }

  function Apply(s: State, id: Id, e: Effect): State {
    s.(tasks := s.tasks[id := e.task],
       status := if e.status.Some? then s.status[id := e.status.value] else s.status,
       outcomes := if e.outcome.Some? then s.outcomes[id := e.outcome.value] else s.outcomes,
       seqs := if e.dropSeq then s.seqs - {id} else s.seqs,
       topic := if e.say.Some? then s.topic + [(id, e.say.value)] else s.topic,
       armed := s.armed && !e.disarm)
  }

  function NextSeq(s: State, id: Id): nat {
    if id in s.seqs then s.seqs[id] else 0
  }

  function CancelAll(tasks: map<Id, Task>): map<Id, Task> {
    map id | id in tasks :: if tasks[id].pc.Done? then tasks[id] else tasks[id].(cancel := true)
  }

  function Step(s: State, a: Action): State {
    match a
    case Submit(id) =>
      if id in s.tasks then s
      else
        var t := Task(Submitted, false, false, false);
        Publish(WithTask(WriteStatus(s, id, Running), id, t).(seqs := s.seqs[id := 0]), id, Started)
    case Resume(id, end, landed) =>
      if !Active(s, id) then s
      else Apply(s, id, if s.tasks[id].cancel then Landing(s.tasks[id], landed) else Going(s.tasks[id], end))
    case Emit(id) =>
      if id !in s.tasks then s
      else s.(seqs := s.seqs[id := NextSeq(s, id) + 1], appended := s.appended + [(id, NextSeq(s, id))])
    case PublishEmit(id) =>
      if id in s.tasks && s.tasks[id].pc.Orchestrating? then Publish(s, id, Emitted) else s
    case Cancel(id) =>
      if Active(s, id) then WithTask(s, id, s.tasks[id].(cancel := true)) else s
    case Arm => s.(armed := true)
    case Tick => if s.armed then s.(tasks := CancelAll(s.tasks), armed := false) else s
  }

  function Run(actions: seq<Action>): State {
    if actions == [] then START else Step(Run(actions[..|actions| - 1]), actions[|actions| - 1])
  }

  lemma RunSnoc(actions: seq<Action>, a: Action)
    ensures Run(actions + [a]) == Step(Run(actions), a)
  {
    hide Step;
    assert (actions + [a])[..|actions|] == actions;
  }

  lemma RunNext(actions: seq<Action>, k: nat)
    requires k < |actions|
    ensures Run(actions[..k + 1]) == Step(Run(actions[..k]), actions[k])
  {
    hide Step;
    assert actions[..k + 1][..k] == actions[..k];
  }

  // --- lifecycle agreement ---------------------------------------------------------------

  function MessageOf(id: Id): ((Id, Message)) -> Option<Message> {
    (e: (Id, Message)) => if e.0 == id then Some(e.1) else None
  }

  /** What was published about one run, in order. */
  function About(s: State, id: Id): seq<Message> {
    Pick(MessageOf(id), s.topic)
  }

  ghost predicate OnlyEmits(ms: seq<Message>) {
    forall i :: 0 <= i < |ms| ==> ms[i].Emitted?
  }

  /** The messages about a run are its start, its emitted events, then exactly `tail`. */
  ghost predicate EndsWith(ms: seq<Message>, tail: seq<Message>) {
    |ms| >= 1 + |tail| && ms[0] == Started && ms[|ms| - |tail|..] == tail && OnlyEmits(ms[1..|ms| - |tail|])
  }

  /** The stored status, the single terminal event, the derived outcome and the single
      `run_finished` all say `final`, and `run_finished` comes last. */
  ghost predicate Agrees(s: State, id: Id, final: Status) {
    && final != Running
    && id in s.status && s.status[id] == final
    && id in s.outcomes && s.outcomes[id] == OutcomeOf(final)
    && EndsWith(About(s, id), [Terminal(final), RunFinished(OutcomeOf(final), final)])
  }

  /** What holds of a run at each suspension point. */
  ghost predicate TaskHolds(s: State, id: Id) {
    id in s.tasks && id in s.status &&
    var t, ms := s.tasks[id], About(s, id);
    match t.pc
    case Submitted => ms == [Started] && !t.hit && !t.late && s.status[id] == Running
    case Orchestrating => EndsWith(ms, []) && !t.hit && !t.late && s.status[id] == Running
    case Completing => EndsWith(ms, []) && !t.hit && !t.late
    case Handling(final) =>
      EndsWith(ms, []) && !t.late && (final == Aborted || final == Errored) && (t.hit ==> final == Aborted)
    case Metrics(final) =>
      && final != Running && (t.hit ==> final == Aborted)
      && (if t.late then EndsWith(ms, []) else EndsWith(ms, [Terminal(final)]) && s.status[id] == final)
    case Outcomes(final) =>
      && final != Running && (t.hit ==> final == Aborted)
      && (if t.late then EndsWith(ms, []) else EndsWith(ms, [Terminal(final)]) && s.status[id] == final)
    case Done(entered) =>
      if !entered then ms == [Started] && s.status[id] == Running
      else if t.late then
        forall final :: !EndsWith(ms, [Terminal(final), RunFinished(OutcomeOf(final), final)])
      else
        exists final :: Agrees(s, id, final) && (t.hit ==> final == Aborted)
  }

  lemma EndsWithMore(ms: seq<Message>, tail: seq<Message>, m: Message)
    requires EndsWith(ms, tail)
    ensures EndsWith(ms + [m], tail + [m])
  {
    assert (ms + [m])[1..|ms + [m]| - |tail + [m]|] == ms[1..|ms| - |tail|];
  }

  lemma EndsWithEmit(ms: seq<Message>)
    requires EndsWith(ms, [])
    ensures EndsWith(ms + [Emitted], [])
  {
    assert (ms + [Emitted])[1..|ms| + 1] == ms[1..|ms|] + [Emitted];
  }

  /** Only the tail that was published fits. */
  lemma EndsWithOnly(ms: seq<Message>, tail: seq<Message>, other: seq<Message>)
    requires EndsWith(ms, tail) && |other| > |tail| && !other[0].Emitted?
    ensures !EndsWith(ms, other)
  {
    var k := |ms| - |other|;
    if k >= 1 {
      assert ms[1..|ms| - |tail|][k - 1] == ms[k];
      assert ms[k..][0] == ms[k];
    }
  }

  lemma Announce(s: State, id: Id, other: Id, m: Message)
    ensures About(Publish(s, other, m), id) == About(s, id) + if other == id then [m] else []
  {
    PickSnoc(MessageOf(id), s.topic, (other, m));
  }

  lemma AboutSame(s: State, s': State, id: Id)
    requires s'.topic == s.topic
    ensures About(s', id) == About(s, id)
  {}

  lemma LandKeeps(s: State, id: Id, landed: bool)
    requires TaskHolds(s, id) && Active(s, id)
    ensures TaskHolds(Apply(s, id, Landing(s.tasks[id], landed)), id)
  {
    hide Pick, EndsWith, OnlyEmits;
    var s', ms := Apply(s, id, Landing(s.tasks[id], landed)), About(s, id);
    AboutSame(s, s', id);
    if s'.tasks[id].pc == Done(true) {
      forall final
        ensures !EndsWith(ms, [Terminal(final), RunFinished(OutcomeOf(final), final)])
      {
        var want := [Terminal(final), RunFinished(OutcomeOf(final), final)];
        if EndsWith(ms, []) {
          EndsWithOnly(ms, [], want);
        } else {
          EndsWithOnly(ms, [Terminal(s.tasks[id].pc.final)], want);
        }
      }
    }
  }

  lemma GoingKeeps(s: State, id: Id, end: BodyEnd)
    requires TaskHolds(s, id) && Active(s, id)
    ensures TaskHolds(Apply(s, id, Going(s.tasks[id], end)), id)
  {
    hide Pick, EndsWith, OnlyEmits;
    var e := Going(s.tasks[id], end);
    var s', ms, t := Apply(s, id, e), About(s, id), s.tasks[id];
    match t.pc
    case Completing =>
      SayTail(s, s', id, [], Terminal(Completed));
      assert [] + [Terminal(Completed)] == [Terminal(Completed)];
    case Handling(final) =>
      SayTail(s, s', id, [], Terminal(final));
      assert [] + [Terminal(final)] == [Terminal(final)];
    case Outcomes(final) =>
      var fin := RunFinished(OutcomeOf(final), final);
      if t.late {
        SayTail(s, s', id, [], fin);
        LateNeverFits(About(s', id), fin);
      } else {
        SayTail(s, s', id, [Terminal(final)], fin);
        assert [Terminal(final)] + [fin] == [Terminal(final), fin];
        assert Agrees(s', id, final);
      }
    case _ =>
      AboutSame(s, s', id);
      JustStarted();
  }

  lemma JustStarted()
    ensures EndsWith([Started], [])
  {}

  lemma SayTail(s: State, s': State, id: Id, tail: seq<Message>, m: Message)
    requires EndsWith(About(s, id), tail) && s'.topic == s.topic + [(id, m)]
    ensures EndsWith(About(s', id), tail + [m])
  {
    hide Pick, EndsWith, OnlyEmits;
    PickSnoc(MessageOf(id), s.topic, (id, m));
    EndsWithMore(About(s, id), tail, m);
  }

  /** With its terminal event skipped, a run's messages never have the agreed ending. */
  lemma LateNeverFits(ms: seq<Message>, fin: Message)
    requires EndsWith(ms, [] + [fin]) && fin.RunFinished?
    ensures forall final :: !EndsWith(ms, [Terminal(final), RunFinished(OutcomeOf(final), final)])
  {
    forall final
      ensures !EndsWith(ms, [Terminal(final), RunFinished(OutcomeOf(final), final)])
    {
      EndsWithOnly(ms, [fin], [Terminal(final), RunFinished(OutcomeOf(final), final)]);
    }
  }

  lemma TaskStep(s: State, a: Action, id: Id)
    requires TaskHolds(s, id)
    ensures TaskHolds(Step(s, a), id)
  {
    if a.Resume? && a.id == id {
      hide TaskHolds, Landing, Going, Apply;
      if Active(s, id) {
        if s.tasks[id].cancel {
          LandKeeps(s, id, a.landed);
        } else {
          GoingKeeps(s, id, a.end);
        }
      }
    } else if a.PublishEmit? && a.id == id {
      EmitKeeps(s, id);
    } else {
      hide TaskHolds;
      OtherKeeps(s, a, id);
    }
  }

  lemma EmitKeeps(s: State, id: Id)
    requires TaskHolds(s, id)
    ensures TaskHolds(Step(s, PublishEmit(id)), id)
  {
    hide Pick, EndsWith, OnlyEmits;
    if s.tasks[id].pc.Orchestrating? {
      Announce(s, id, id, Emitted);
      EndsWithEmit(About(s, id));
    }
  }

  /** Steps of other runs, and steps that only set flags, change nothing about this run. */
  lemma OtherKeeps(s: State, a: Action, id: Id)
    requires TaskHolds(s, id)
    requires !(a.Resume? && a.id == id) && !(a.PublishEmit? && a.id == id)
    ensures TaskHolds(Step(s, a), id)
  {
    var s' := Step(s, a);
    hide Step, Pick, EndsWith, OnlyEmits, About;
    OtherFrame(s, a, id);
    if s.tasks[id].pc == Done(true) && !s.tasks[id].late {
      var final :| Agrees(s, id, final) && (s.tasks[id].hit ==> final == Aborted);
      assert Agrees(s', id, final);
    }
  }

  /** `s'` says about run `id` what `s` does, but perhaps for a new cancel request. */
  ghost predicate SameRun(s: State, s': State, id: Id) {
    About(s', id) == About(s, id) && SameRows(s, s', id)
  }

  ghost predicate SameRows(s: State, s': State, id: Id) {
    && (id in s'.tasks <==> id in s.tasks)
    && (id in s.tasks ==> s'.tasks[id].(cancel := false) == s.tasks[id].(cancel := false))
    && (id in s'.status <==> id in s.status)
    && (id in s.status ==> s'.status[id] == s.status[id])
    && (id in s'.outcomes <==> id in s.outcomes)
    && (id in s.outcomes ==> s'.outcomes[id] == s.outcomes[id])
  }

  lemma OtherFrame(s: State, a: Action, id: Id)
    requires !(a.Resume? && a.id == id) && !(a.PublishEmit? && a.id == id)
    requires a == Submit(id) ==> id in s.tasks
    ensures SameRun(s, Step(s, a), id)
  {
    hide Pick, SameRun, Landing, Going, Apply;
    match a
    case Resume(other, end, landed) =>
      SameSelf(s, id);
      if Active(s, other) {
        var t := s.tasks[other];
        ApplyFrame(s, other, if t.cancel then Landing(t, landed) else Going(t, end), id);
      }
    case Submit(other) => SubmitFrame(s, other, id);
    case PublishEmit(other) => EmitFrame(s, other, id);
    case _ => FlagFrame(s, a, id);
  }

  lemma SameSelf(s: State, id: Id)
    ensures SameRun(s, s, id)
  {}

  lemma ApplyFrame(s: State, other: Id, e: Effect, id: Id)
    requires other != id
    ensures SameRun(s, Apply(s, other, e), id)
  {
    AboutOther(s, Apply(s, other, e), other, id);
    hide About;
  }

  lemma AboutOther(s: State, s': State, other: Id, id: Id)
    requires other != id
    requires s'.topic == s.topic || exists m :: s'.topic == s.topic + [(other, m)]
    ensures About(s', id) == About(s, id)
  {
    hide Pick;
    if m :| s'.topic == s.topic + [(other, m)] {
      PickSnoc(MessageOf(id), s.topic, (other, m));
    }
  }

  lemma SubmitFrame(s: State, other: Id, id: Id)
    requires other == id ==> id in s.tasks
    ensures SameRun(s, Step(s, Submit(other)), id)
  {
    hide Pick;
    Announce(s, id, other, Started);
  }

  lemma EmitFrame(s: State, other: Id, id: Id)
    requires other != id
    ensures SameRun(s, Step(s, PublishEmit(other)), id)
  {
    hide Pick;
    Announce(s, id, other, Emitted);
  }

  lemma FlagFrame(s: State, a: Action, id: Id)
    requires a.Emit? || a.Cancel? || a.Arm? || a.Tick?
    ensures SameRun(s, Step(s, a), id)
  {
    hide Pick;
  }

  lemma SubmitHolds(s: State, id: Id)
    requires id !in s.tasks && About(s, id) == []
    ensures TaskHolds(Step(s, Submit(id)), id)
  {
    hide Pick;
    PickSnoc(MessageOf(id), s.topic, (id, Started));
    assert About(Step(s, Submit(id)), id) == [] + [Started];
  }

  lemma ResumeUnknown(s: State, a: Action, id: Id)
    requires id !in s.tasks && About(s, id) == [] && a != Submit(id)
    ensures id !in Step(s, a).tasks && About(Step(s, a), id) == []
  {
    hide Pick, Apply, About;
    if !(a.Resume? && a.id == id) && !(a.PublishEmit? && a.id == id) {
      hide Step;
      OtherFrame(s, a, id);
    }
  }

  /** Every run's bookkeeping is right in every reachable state. */
  lemma {:induction false} RunHolds(actions: seq<Action>, id: Id)
    ensures var s := Run(actions); if id in s.tasks then TaskHolds(s, id) else About(s, id) == []
  {
    if actions != [] {
      var before, a := Run(actions[..|actions| - 1]), actions[|actions| - 1];
      RunHolds(actions[..|actions| - 1], id);
      assert Run(actions) == Step(before, a);
      hide TaskHolds, Run;
      if id in before.tasks {
        TaskStep(before, a, id);
      } else if a == Submit(id) {
        SubmitHolds(before, id);
      } else {
        ResumeUnknown(before, a, id);
      }
    }
  }

  /** Main result: over any interleaving of any number of runs, cancellations and poller
      ticks, a run whose body was entered and which has ended has its stored status, its one
      terminal event, its derived outcome and its final `run_finished` in agreement if and
      only if no cancellation landed after the try body. */
  lemma LifecycleAgrees(actions: seq<Action>, id: Id)
    requires var s := Run(actions); id in s.tasks && s.tasks[id].pc == Done(true)
    ensures var s := Run(actions); (exists final :: Agrees(s, id, final)) <==> !s.tasks[id].late
  {
    RunHolds(actions, id);
    hide Run, EndsWith;
  }

  /** A cancellation that lands in the try body, even one that lands around the completed
      write, makes the agreed status aborted. */
  lemma CancelledMeansAborted(actions: seq<Action>, id: Id)
    requires var s := Run(actions);
             id in s.tasks && s.tasks[id].pc == Done(true) && !s.tasks[id].late && s.tasks[id].hit
    ensures Agrees(Run(actions), id, Aborted)
  {
    RunHolds(actions, id);
    hide Run, EndsWith;
  }

  /** A run cancelled before its first step never enters the body: its stored status stays
      running and nothing but its start is ever published. */
  lemma NeverEntered(actions: seq<Action>, id: Id)
    requires var s := Run(actions); id in s.tasks && s.tasks[id].pc == Done(false)
    ensures var s := Run(actions); id in s.status && s.status[id] == Running && About(s, id) == [Started]
  {
    RunHolds(actions, id);
    hide Run, EndsWith;
  }
}
