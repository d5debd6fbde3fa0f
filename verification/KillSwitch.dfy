/** The kill-switch flag over every interleaving of arming, run starts and poller ticks
    (src/agent/daemon/main.py, src/agent/safety/killswitch.py, and the disarm at the start
    of a run in src/agent/orchestrator.py). */
module KillSwitch {
  import opened Sequences
  import opened Executors

  /** The first step of a task that enters its body, which begins by disarming the flag. */
  predicate Starts(s: State, a: Action) {
    a.Resume? && Active(s, a.id) && s.tasks[a.id].pc.Submitted? && !s.tasks[a.id].cancel
  }

  /** A step that can clear the flag. */
  predicate Clears(s: State, a: Action) {
    a == Tick || Starts(s, a)
  }

  /** The `k`-th step arms, and no later step can clear. */
  ghost predicate ArmedLast(actions: seq<Action>, k: nat) {
    k < |actions| && actions[k] == Arm &&
    forall j :: k < j < |actions| ==> !Clears(Run(actions[..j]), actions[j])
  }

  /** Some arming in the trace is followed by no run start and no tick. */
  ghost predicate ArmPending(actions: seq<Action>) {
    exists k: nat :: ArmedLast(actions, k)
  }

  lemma StepArmed(s: State, a: Action)
    ensures Step(s, a).armed <==> a == Arm || (s.armed && !Clears(s, a))
  {
    hide AfterBody, OutcomeOf;
  }

  lemma ArmedLastPrefix(actions: seq<Action>, k: nat)
    requires actions != []
    ensures ArmedLast(actions, k) <==>
            if k == |actions| - 1 then actions[k] == Arm
            else ArmedLast(actions[..|actions| - 1], k) &&
                 !Clears(Run(actions[..|actions| - 1]), actions[|actions| - 1])
  {
    hide Clears, Run;
    var before := actions[..|actions| - 1];
    forall j | k < j < |before|
      ensures before[..j] == actions[..j]
    {}
    if k < |actions| - 1 && ArmedLast(before, k) && !Clears(Run(before), actions[|actions| - 1]) {
      forall j | k < j < |actions|
        ensures !Clears(Run(actions[..j]), actions[j])
      {
        if j < |before| {
          assert !Clears(Run(before[..j]), before[j]);
        }
      }
    }
    if k < |actions| - 1 && ArmedLast(actions, k) {
      assert !Clears(Run(actions[..|before|]), actions[|before|]);
      forall j | k < j < |before|
        ensures !Clears(Run(before[..j]), before[j])
      {
        assert !Clears(Run(actions[..j]), actions[j]);
      }
    }
  }

  lemma ArmPendingNext(actions: seq<Action>)
    requires actions != []
    ensures var before, a := actions[..|actions| - 1], actions[|actions| - 1];
            ArmPending(actions) <==> a == Arm || (ArmPending(before) && !Clears(Run(before), a))
  {
    hide Clears, Run;
    var before, a := actions[..|actions| - 1], actions[|actions| - 1];
    if a == Arm {
      assert ArmedLast(actions, |actions| - 1);
    } else if ArmPending(before) && !Clears(Run(before), a) {
      var k: nat :| ArmedLast(before, k);
      ArmedLastPrefix(actions, k);
    } else if ArmPending(actions) {
      var k: nat :| ArmedLast(actions, k);
      ArmedLastPrefix(actions, k);
    }
  }

  /** The flag is up exactly when some arming has been followed by neither a run start nor a
      poller tick. */
  lemma {:induction false} ArmedIff(actions: seq<Action>)
    ensures Run(actions).armed <==> ArmPending(actions)
  {
    if actions != [] {
      var before, a := actions[..|actions| - 1], actions[|actions| - 1];
      assert Run(actions) == Step(Run(before), a);
      hide Step, Run, Clears, ArmPending;
      ArmedIff(before);
      StepArmed(Run(before), a);
      ArmPendingNext(actions);
    } else {
      assert Run(actions) == START;
    }
  }

  ghost predicate AllRequested(s: State) {
    forall id :: Active(s, id) ==> s.tasks[id].cancel
  }

  /** An armed flag is cleared only by a run start, or by a tick that has requested the
      cancellation of every active run. */
  lemma ClearedOnlyBy(s: State, a: Action)
    requires s.armed && !Step(s, a).armed
    ensures Starts(s, a) || (a == Tick && AllRequested(Step(s, a)))
  {
    StepArmed(s, a);
  }

  /** No run starts and no tick happens during `mid`, run after `first`. */
  predicate Quiet(first: seq<Action>, mid: seq<Action>) {
    mid == [] ||
    var before, a := mid[..|mid| - 1], mid[|mid| - 1];
    Quiet(first, before) && !Clears(Run(first + before), a)
  }

  lemma {:induction false} StaysArmed(first: seq<Action>, mid: seq<Action>)
    requires Run(first).armed && Quiet(first, mid)
    ensures Run(first + mid).armed
  {
    if mid == [] {
      assert first + mid == first;
    } else {
      var before, a := mid[..|mid| - 1], mid[|mid| - 1];
      StaysArmed(first, before);
      assert first + mid == (first + before) + [a];
      hide Run, Step;
      RunSnoc(first + before, a);
      StepArmed(Run(first + before), a);
    }
  }

  lemma StepKnown(s: State, a: Action, id: Id)
    requires id in s.tasks
    ensures id in Step(s, a).tasks
  {
    hide Landing, Going;
  }

  lemma {:induction false} StaysKnown(first: seq<Action>, mid: seq<Action>, id: Id)
    requires id in Run(first).tasks
    ensures id in Run(first + mid).tasks
  {
    if mid == [] {
      assert first + mid == first;
    } else {
      var before, a := mid[..|mid| - 1], mid[|mid| - 1];
      StaysKnown(first, before, id);
      assert first + mid == (first + before) + [a];
      hide Run, Step;
      RunSnoc(first + before, a);
      StepKnown(Run(first + before), a, id);
    }
  }

  /** Main result: arm the flag at any moment; if no run starts before the next tick, then
      after that tick every run that existed at arming has ended or been asked to cancel. */
  lemma ArmedThenTick(before: seq<Action>, mid: seq<Action>, id: Id)
    requires id in Run(before + [Arm]).tasks && Quiet(before + [Arm], mid)
    ensures var s := Run(before + [Arm] + mid + [Tick]);
            id in s.tasks && (s.tasks[id].pc.Done? || s.tasks[id].cancel) && !s.armed
  {
    hide Run, Quiet;
    RunSnoc(before, Arm);
    StepArmed(Run(before), Arm);
    StaysArmed(before + [Arm], mid);
    StaysKnown(before + [Arm], mid, id);
    RunSnoc(before + [Arm] + mid, Tick);
  }

  /** The precondition matters: a run that starts between arming and the tick swallows the
      arming, and the run that was active is not asked to cancel. */
  lemma StartSwallowsArming(s: State, old_run: Id, new_run: Id)
    requires old_run != new_run && Active(s, old_run) && !s.tasks[old_run].cancel && new_run !in s.tasks
    ensures var t := Step(Step(Step(Step(s, Arm), Submit(new_run)), Resume(new_run, Finished, false)), Tick);
            Active(t, old_run) && !t.tasks[old_run].cancel && !t.armed
  {}

  /** One tick reaches every active run if and only if the flag is up or all of them had
      been asked already. */
  lemma TickReachesAllIff(actions: seq<Action>)
    ensures AllRequested(Run(actions + [Tick])) <==> ArmPending(actions) || AllRequested(Run(actions))
  {
    ArmedIff(actions);
    RunSnoc(actions, Tick);
    hide Run;
    var s := Run(actions);
    if !s.armed {
      assert Step(s, Tick) == s;
    }
  }

  // --- the request takes effect -----------------------------------------------------------

  predicate InBody(pc: Pc) {
    pc.Orchestrating? || pc.Completing?
  }

  /** Asked to cancel while in the try body, or already hit by a cancellation there. */
  predicate Doomed(s: State, id: Id) {
    id in s.tasks && ((InBody(s.tasks[id].pc) && s.tasks[id].cancel) || s.tasks[id].hit)
  }

  lemma DoomedStep(s: State, a: Action, id: Id)
    requires Doomed(s, id)
    ensures Doomed(Step(s, a), id)
  {
    hide OutcomeOf, AfterBody;
  }

  lemma {:induction false} DoomedForGood(first: seq<Action>, later: seq<Action>, id: Id)
    requires Doomed(Run(first), id)
    ensures Doomed(Run(first + later), id)
  {
    if later == [] {
      assert first + later == first;
    } else {
      var before, a := later[..|later| - 1], later[|later| - 1];
      DoomedForGood(first, before, id);
      assert first + later == (first + before) + [a];
      hide Run, Step, Doomed;
      RunSnoc(first + before, a);
      DoomedStep(Run(first + before), a, id);
    }
  }

  /** Main result: a run caught in its body by an armed tick ends aborted: whatever happens
      later, once it has ended, with no second cancellation landing after the try body, its
      stored status, terminal event, outcome and `run_finished` all say aborted. */
  lemma KilledRunEndsAborted(actions: seq<Action>, later: seq<Action>, id: Id)
    requires ArmPending(actions)
    requires var s := Run(actions); id in s.tasks && InBody(s.tasks[id].pc)
    requires var s := Run(actions + [Tick] + later);
             id in s.tasks && s.tasks[id].pc == Done(true) && !s.tasks[id].late
    ensures Agrees(Run(actions + [Tick] + later), id, Aborted)
  {
    hide Run, ArmPending, Agrees;
    ArmedIff(actions);
    RunSnoc(actions, Tick);
    assert Doomed(Run(actions + [Tick]), id);
    DoomedForGood(actions + [Tick], later, id);
    CancelledMeansAborted(actions + [Tick] + later, id);
  }
}
