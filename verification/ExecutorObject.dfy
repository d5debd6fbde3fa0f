/** `RunExecutor` (src/agent/daemon/run_executor.py) and one poll of `_killswitch_poller`
    (src/agent/daemon/main.py) as imperative code. Every method computes the `Executors`
    step the trace theorems are about. The store, the bus and the flag file are the fields
    below the dictionaries. */
module ExecutorObject {
  import opened Sequences
  import opened Executors

  /** What `_run_task` can catch. */
  datatype Exc = StuckError | TimeoutError | CancelledError | OtherError

  /** What happens elsewhere during each await of one run, how its body ends, and whether a
      store write on which a cancellation lands takes effect. */
  datatype Meanwhile = Meanwhile(
    start: seq<Action>, body: seq<Action>, write: seq<Action>, handler: seq<Action>, metrics: seq<Action>,
    outcome: seq<Action>, end: BodyEnd, writeLanded: bool, handlerLanded: bool, outcomeLanded: bool)

  function StepAll(s: State, actions: seq<Action>): State {
    if actions == [] then s else Step(StepAll(s, actions[..|actions| - 1]), actions[|actions| - 1])
  }

  /** Steps of anything but the run itself. */
  predicate Foreign(actions: seq<Action>, id: Id) {
    forall i :: 0 <= i < |actions| ==> !(actions[i].Resume? && actions[i].id == id)
  }

  predicate AllForeign(m: Meanwhile, id: Id) {
    && Foreign(m.start, id) && Foreign(m.body, id) && Foreign(m.write, id)
    && Foreign(m.handler, id) && Foreign(m.metrics, id) && Foreign(m.outcome, id)
  }

  lemma AllForeignEach(m: Meanwhile, id: Id)
    requires AllForeign(m, id)
    ensures Foreign(m.start, id) && Foreign(m.body, id) && Foreign(m.write, id)
    ensures Foreign(m.handler, id) && Foreign(m.metrics, id) && Foreign(m.outcome, id)
  {}

  lemma StepForeign(s: State, a: Action, id: Id)
    requires id in s.tasks && !(a.Resume? && a.id == id)
    ensures id in Step(s, a).tasks
    ensures Step(s, a).tasks[id].(cancel := false) == s.tasks[id].(cancel := false)
  {
    hide Landing, Going;
  }

  /** Nobody else moves a suspended run; they can only ask it to cancel. */
  lemma {:induction false} StaysSuspended(s: State, actions: seq<Action>, id: Id)
    requires id in s.tasks && Foreign(actions, id)
    ensures id in StepAll(s, actions).tasks
    ensures StepAll(s, actions).tasks[id].(cancel := false) == s.tasks[id].(cancel := false)
  {
    if actions != [] {
      var n := |actions| - 1;
      StaysSuspended(s, actions[..n], id);
      hide Step;
      StepForeign(StepAll(s, actions[..n]), actions[n], id);
    }
  }

  lemma NoSteps(s: State)
    ensures StepAll(s, []) == s
  {}

  lemma NextStep(s: State, actions: seq<Action>, i: nat)
    requires i < |actions|
    ensures StepAll(s, actions[..i + 1]) == Step(StepAll(s, actions[..i]), actions[i])
  {
    assert actions[..i + 1][..i] == actions[..i];
  }

  /** What happens elsewhere while the run is suspended at `pc`. */
  function During(m: Meanwhile, pc: Pc): seq<Action> {
    match pc
    case Submitted => m.start
    case Orchestrating => m.body
    case Completing => m.write
    case Handling(_) => m.handler
    case Metrics(_) => m.metrics
    case Outcomes(_) => m.outcome
    case Done(_) => []
  }

  function Landed(m: Meanwhile, pc: Pc): bool {
    match pc
    case Completing => m.writeLanded
    case Handling(_) => m.handlerLanded
    case Outcomes(_) => m.outcomeLanded
    case _ => false
  }

  /** One await of the run in the trace model: what happens during it, then the run's step. */
  function Onward(s: State, id: Id, m: Meanwhile): State
    requires Active(s, id)
  {
    var pc := s.tasks[id].pc;
    Step(StepAll(s, During(m, pc)), Resume(id, m.end, Landed(m, pc)))
  }

  function Rank(pc: Pc): nat {
    match pc
    case Submitted => 6
    case Orchestrating => 5
    case Completing => 4
    case Handling(_) => 3
    case Metrics(_) => 2
    case Outcomes(_) => 1
    case Done(_) => 0
  }

  lemma RankFalls(s: State, id: Id, m: Meanwhile)
    requires Active(s, id) && AllForeign(m, id)
    ensures id in Onward(s, id, m).tasks && Rank(Onward(s, id, m).tasks[id].pc) < Rank(s.tasks[id].pc)
  {
    StaysSuspended(s, During(m, s.tasks[id].pc), id);
    hide StepAll, Foreign;
  }

  /** The run driven to its end in the trace model. */
  function Driven(s: State, id: Id, m: Meanwhile): State
    requires id in s.tasks && AllForeign(m, id)
    decreases Rank(s.tasks[id].pc)
  {
    if !Active(s, id) then s
    else
      RankFalls(s, id, m);
      Driven(Onward(s, id, m), id, m)
  }

  lemma DrivenOnce(s: State, id: Id, m: Meanwhile)
    requires Active(s, id) && AllForeign(m, id)
    ensures id in Onward(s, id, m).tasks && Driven(s, id, m) == Driven(Onward(s, id, m), id, m)
  {
    RankFalls(s, id, m);
  }

  lemma DrivenDone(s: State, id: Id, m: Meanwhile)
    requires id in s.tasks && s.tasks[id].pc.Done? && AllForeign(m, id)
    ensures Driven(s, id, m) == s
  {}

  /** Driving a run extends the trace. */
  lemma {:induction false} DrivenIsTrace(actions: seq<Action>, id: Id, m: Meanwhile) returns (more: seq<Action>)
    requires id in Run(actions).tasks && AllForeign(m, id)
    ensures Driven(Run(actions), id, m) == Run(actions + more)
    ensures id in Run(actions + more).tasks && Run(actions + more).tasks[id].pc.Done?
    decreases Rank(Run(actions).tasks[id].pc)
  {
    var s := Run(actions);
    if !Active(s, id) {
      more := [];
      assert actions + more == actions;
    } else {
      RankFalls(s, id, m);
      var pc := s.tasks[id].pc;
      var once := During(m, pc) + [Resume(id, m.end, Landed(m, pc))];
      RunConcat(actions, once);
      assert once[..|once| - 1] == During(m, pc);
      assert Run(actions + once) == Onward(s, id, m);
      hide Run, Step, StepAll;
      var rest := DrivenIsTrace(actions + once, id, m);
      more := once + rest;
      assert actions + more == actions + once + rest;
    }
  }

  lemma {:induction false} RunConcat(actions: seq<Action>, more: seq<Action>)
    ensures Run(actions + more) == StepAll(Run(actions), more)
  {
    if more == [] {
      assert actions + more == actions;
    } else {
      var n := |more| - 1;
      assert (actions + more)[..|actions| + n] == actions + more[..n];
      hide Step;
      RunConcat(actions, more[..n]);
    }
  }

  /** What `RunTask` computes, from any reachable state: a run driven through its body ends in
      agreement if and only if no cancellation landed after the try body, and otherwise, when it
      was cancelled before its first step, with nothing but its start. */
  lemma DrivenAgrees(actions: seq<Action>, id: Id, m: Meanwhile)
    requires id in Run(actions).tasks && AllForeign(m, id)
    ensures var s := Driven(Run(actions), id, m);
            && id in s.tasks && s.tasks[id].pc.Done?
            && (if s.tasks[id].pc.entered then (exists final :: Agrees(s, id, final)) <==> !s.tasks[id].late
                else id in s.status && s.status[id] == Running && About(s, id) == [Started])
  {
    hide Run, Driven, Agrees;
    var more := DrivenIsTrace(actions, id, m);
    if Run(actions + more).tasks[id].pc == Done(true) {
      LifecycleAgrees(actions + more, id);
    } else {
      NeverEntered(actions + more, id);
    }
  }

  /** The model's step out of an except clause. */
  lemma HandlerStep(s: State, id: Id, end: BodyEnd, landed: bool)
    requires id in s.tasks && s.tasks[id].pc.Handling?
    ensures var t := s.tasks[id]; var final := t.pc.final;
            Step(s, Resume(id, end, landed)) ==
            if t.cancel then
              s.(tasks := s.tasks[id := t.(pc := Metrics(final), cancel := false, late := true)],
                 status := if landed then s.status[id := final] else s.status)
            else
              s.(tasks := s.tasks[id := t.(pc := Metrics(final))], status := s.status[id := final],
                 topic := s.topic + [(id, Terminal(final))])
  {}

  /** ... and out of the finally clause. */
  lemma OutcomeStep(s: State, id: Id, end: BodyEnd, landed: bool)
    requires id in s.tasks && s.tasks[id].pc.Outcomes?
    ensures var t := s.tasks[id]; var outcome := OutcomeOf(t.pc.final);
            Step(s, Resume(id, end, landed)) ==
            if t.cancel then
              s.(tasks := s.tasks[id := t.(pc := Done(true), cancel := false, late := true)],
                 outcomes := if landed then s.outcomes[id := outcome] else s.outcomes)
            else
              s.(tasks := s.tasks[id := t.(pc := Done(true))], outcomes := s.outcomes[id := outcome],
                 seqs := s.seqs - {id}, topic := s.topic + [(id, RunFinished(outcome, t.pc.final))])
  {}

  class RunExecutor {
    var tasks: map<Id, Task>
    var seqs: map<Id, nat>
    var status: map<Id, Status>
    var outcomes: map<Id, Outcome>
    var appended: seq<(Id, nat)>
    var topic: seq<(Id, Message)>
    var armed: bool

    function View(): State
      reads this
    {
      State(tasks, seqs, status, outcomes, appended, topic, armed)
    }

    constructor ()
      ensures View() == START
    {
      tasks, seqs, status, outcomes, appended, topic, armed := map[], map[], map[], map[], [], [], false;
    }

    method PublishMessage(id: Id, m: Message)
      modifies this`topic
      ensures topic == old(topic) + [(id, m)]
    {
      topic := topic + [(id, m)];
    }

    method SubmitRun(id: Id)
      requires id !in tasks
      modifies this
      ensures View() == Step(old(View()), Submit(id))
    {
      status := status[id := Running];
      seqs := seqs[id := 0];
      tasks := tasks[id := Task(Submitted, false, false, false)];
      PublishMessage(id, Started);
    }

    method CancelRun(id: Id) returns (ok: bool)
      modifies this`tasks
      ensures ok == (id in old(tasks) && !old(tasks)[id].pc.Done?)
      ensures tasks == if ok then old(tasks)[id := old(tasks)[id].(cancel := true)] else old(tasks)
      ensures View() == Step(old(View()), Cancel(id))
    {
      if id !in tasks || tasks[id].pc.Done? {
        return false;
      }
      tasks := tasks[id := tasks[id].(cancel := true)];
      return true;
    }

    method ActiveRunIds() returns (ids: set<Id>)
      ensures forall id :: id in ids <==> id in tasks && !tasks[id].pc.Done?
    {
      ids := set id | id in tasks && !tasks[id].pc.Done?;
    }

    /** `_emit` up to the append: the number is read and the counter advanced in one go. */
    method EmitEvent(id: Id)
      requires id in tasks
      modifies this`seqs, this`appended
      ensures View() == Step(old(View()), Emit(id))
    {
      var n := if id in seqs then seqs[id] else 0;
      seqs := seqs[id := n + 1];
      appended := appended + [(id, n)];
    }

    // --- one run's coroutine, `_run_task` ------------------------------------------------

    /** Everything else that runs while `id` is suspended. */
    method Suspend(id: Id, others: seq<Action>)
      requires Active(View(), id) && Foreign(others, id)
      modifies this
      ensures View() == StepAll(old(View()), others)
      ensures Active(View(), id) && tasks[id].(cancel := false) == old(tasks)[id].(cancel := false)
    {
      StaysSuspended(View(), others, id);
      hide Step;
      NoSteps(View());
      for i := 0 to |others|
        invariant View() == StepAll(old(View()), others[..i])
      {
        Other(others[i]);
        NextStep(old(View()), others, i);
      }
      assert others[..|others|] == others;
    }

    /** One step of something else. */
    method Other(a: Action)
      modifies this
      ensures View() == Step(old(View()), a)
    {
      match a
      case Submit(x) =>
        if x !in tasks {
          SubmitRun(x);
        }
      case Cancel(x) => var ok := CancelRun(x);
      case Arm => ArmFlag();
      case Tick => Poll();
      case Emit(x) =>
        if x in tasks {
          EmitEvent(x);
        }
      case PublishEmit(x) =>
        if x in tasks && tasks[x].pc.Orchestrating? {
          PublishMessage(x, Emitted);
        }
      case Resume(_, _, _) => Elsewhere(a);
    }

    /** Another run's coroutine takes a step. */
    method Elsewhere(a: Action)
      modifies this
      ensures View() == Step(old(View()), a)
    {
      var s := Step(View(), a);
      tasks, seqs, status, outcomes := s.tasks, s.seqs, s.status, s.outcomes;
      appended, topic, armed := s.appended, s.topic, s.armed;
    }

    method WriteStatus(id: Id, final: Status)
      modifies this`status
      ensures status == old(status)[id := final]
    {
      status := status[id := final];
    }

    /** The event loop starts the coroutine, unless it was cancelled before that. */
    method FirstStep(id: Id, m: Meanwhile) returns (entered: bool)
      requires Active(View(), id) && tasks[id].pc == Submitted && Foreign(m.start, id)
      modifies this
      ensures View() == Onward(old(View()), id, m)
      ensures id in tasks && tasks[id].pc == if entered then Orchestrating else Done(false)
    {
      hide StepAll;
      Suspend(id, m.start);
      if tasks[id].cancel {
        tasks := tasks[id := tasks[id].(pc := Done(false), cancel := false)];
        return false;
      }
      armed := false;
      tasks := tasks[id := tasks[id].(pc := Orchestrating)];
      return true;
    }

    /** The except clauses, in order: the final status each of them sets. */
    method Catch(exc: Exc) returns (final: Status)
      ensures final == Errored || final == Aborted
      ensures final == Aborted <==> exc == StuckError || exc == CancelledError
    {
      if exc == StuckError {
        final := Aborted;
      } else if exc == TimeoutError {
        final := Errored;
      } else if exc == CancelledError {
        final := Aborted;
      } else {
        final := Errored;
      }
    }

    /** The try block up to the completed write, or, if the body raises, up to the write of the
        except clause. */
    method AwaitBody(id: Id, m: Meanwhile) returns (raised: bool, final: Status)
      requires Active(View(), id) && tasks[id].pc == Orchestrating && Foreign(m.body, id)
      modifies this
      ensures View() == Onward(old(View()), id, m)
      ensures id in tasks && tasks[id].pc == if raised then Handling(final) else Completing
      ensures !raised ==> final == Completed
    {
      hide StepAll;
      Suspend(id, m.body);
      if tasks[id].cancel {
        final := Catch(CancelledError);
        tasks := tasks[id := tasks[id].(pc := Handling(final), cancel := false, hit := true)];
        return true, final;
      }
      if m.end == Finished {
        tasks := tasks[id := tasks[id].(pc := Completing)];
        return false, Completed;
      }
      final := Catch(if m.end == Stuck then StuckError else if m.end == TimedOut then TimeoutError else OtherError);
      tasks := tasks[id := tasks[id].(pc := Handling(final))];
      return true, final;
    }

    /** The rest of the try block: a cancellation that lands on the completed write is still
        caught. */
    method AwaitCompleted(id: Id, m: Meanwhile) returns (raised: bool, final: Status)
      requires Active(View(), id) && tasks[id].pc == Completing && Foreign(m.write, id)
      modifies this
      ensures View() == Onward(old(View()), id, m)
      ensures id in tasks && tasks[id].pc == if raised then Handling(final) else Metrics(final)
    {
      hide StepAll;
      Suspend(id, m.write);
      if tasks[id].cancel {
        if m.writeLanded {
          WriteStatus(id, Completed);
        }
        final := Catch(CancelledError);
        tasks := tasks[id := tasks[id].(pc := Handling(final), cancel := false, hit := true)];
        return true, final;
      }
      WriteStatus(id, Completed);
      PublishMessage(id, Terminal(Completed));
      tasks := tasks[id := tasks[id].(pc := Metrics(Completed))];
      return false, Completed;
    }

    /** An except clause's status write and event; a cancellation here skips the event. */
    method AwaitHandler(id: Id, m: Meanwhile, final: Status)
      requires Active(View(), id) && tasks[id].pc == Handling(final) && Foreign(m.handler, id)
      modifies this
      ensures View() == Onward(old(View()), id, m)
      ensures id in tasks && tasks[id].pc == Metrics(final)
    {
      hide StepAll, Step, Foreign;
      Suspend(id, m.handler);
      HandlerStep(View(), id, m.end, m.handlerLanded);
      if tasks[id].cancel {
        if m.handlerLanded {
          WriteStatus(id, final);
        }
        tasks := tasks[id := tasks[id].(pc := Metrics(final), cancel := false, late := true)];
        return;
      }
      WriteStatus(id, final);
      PublishMessage(id, Terminal(final));
      tasks := tasks[id := tasks[id].(pc := Metrics(final))];
    }

    /** The finally clause, first write. */
    method AwaitMetrics(id: Id, m: Meanwhile, final: Status) returns (raised: bool)
      requires Active(View(), id) && tasks[id].pc == Metrics(final) && Foreign(m.metrics, id)
      modifies this
      ensures View() == Onward(old(View()), id, m)
      ensures id in tasks && tasks[id].pc == if raised then Done(true) else Outcomes(final)
    {
      hide StepAll;
      Suspend(id, m.metrics);
      if tasks[id].cancel {
        tasks := tasks[id := tasks[id].(pc := Done(true), cancel := false, late := true)];
        return true;
      }
      tasks := tasks[id := tasks[id].(pc := Outcomes(final))];
      return false;
    }

    /** The finally clause, second write, the counter and the last event. */
    method AwaitOutcome(id: Id, m: Meanwhile, final: Status)
      requires Active(View(), id) && tasks[id].pc == Outcomes(final) && Foreign(m.outcome, id)
      modifies this
      ensures View() == Onward(old(View()), id, m)
      ensures id in tasks && tasks[id].pc == Done(true)
    {
      hide StepAll, Step, Foreign;
      Suspend(id, m.outcome);
      OutcomeStep(View(), id, m.end, m.outcomeLanded);
      var outcome := OutcomeOf(final);
      if tasks[id].cancel {
        if m.outcomeLanded {
          outcomes := outcomes[id := outcome];
        }
        tasks := tasks[id := tasks[id].(pc := Done(true), cancel := false, late := true)];
        return;
      }
      outcomes := outcomes[id := outcome];
      seqs := seqs - {id};
      PublishMessage(id, RunFinished(outcome, final));
      tasks := tasks[id := tasks[id].(pc := Done(true))];
    }

    /** `_run_task` from its creation to its end, other runs, cancellations and ticks happening
        at every await: it does exactly what the trace model does. */
    method RunTask(id: Id, m: Meanwhile)
      requires Active(View(), id) && tasks[id].pc == Submitted && AllForeign(m, id)
      modifies this
      ensures View() == Driven(old(View()), id, m)
      ensures id in tasks && tasks[id].pc.Done?
    {
      hide Onward, Driven, AllForeign;
      AllForeignEach(m, id);
      DrivenOnce(View(), id, m);
      var entered := FirstStep(id, m);
      if !entered {
        DrivenDone(View(), id, m);
        return;
      }
      DrivenOnce(View(), id, m);
      var raised, finalStatus := AwaitBody(id, m);
      DrivenOnce(View(), id, m);
      if !raised {
        raised, finalStatus := AwaitCompleted(id, m);
        DrivenOnce(View(), id, m);
      }
      if raised {
        AwaitHandler(id, m, finalStatus);
        DrivenOnce(View(), id, m);
      }
      raised := AwaitMetrics(id, m, finalStatus);
      if !raised {
        DrivenOnce(View(), id, m);
        AwaitOutcome(id, m, finalStatus);
      }
      DrivenDone(View(), id, m);
    }

    method ArmFlag()
      modifies this`armed
      ensures View() == Step(old(View()), Arm)
    {
      armed := true;
    }

    /** The poller's loop over the ids it was given, cancelling one run at a time. */
    method CancelAllOf(ids: set<Id>)
      requires ids <= tasks.Keys
      modifies this`tasks
      ensures tasks.Keys == old(tasks).Keys
      ensures forall id :: id in tasks && id !in ids ==> tasks[id] == old(tasks)[id]
      ensures forall id :: id in ids ==>
                tasks[id] == if old(tasks)[id].pc.Done? then old(tasks)[id] else old(tasks)[id].(cancel := true)
      decreases |ids|
    {
      var todo := ids;
      while todo != {}
        invariant todo <= ids && tasks.Keys == old(tasks).Keys
        invariant forall id :: id in tasks && (id !in ids || id in todo) ==> tasks[id] == old(tasks)[id]
        invariant forall id :: id in ids - todo ==>
                    tasks[id] == if old(tasks)[id].pc.Done? then old(tasks)[id] else old(tasks)[id].(cancel := true)
        decreases todo
      {
        var id :| id in todo;
        todo := todo - {id};
        var ok := CancelRun(id);
      }
    }

    /** One pass of the poller: cancel every active run, in any order, then disarm. */
    method Poll()
      modifies this`tasks, this`armed
      ensures View() == Step(old(View()), Tick)
    {
      if !armed {
        return;
      }
      var ids := ActiveRunIds();
      CancelAllOf(ids);
      armed := false;
      assert tasks == CancelAll(old(tasks));
    }
  }
}
