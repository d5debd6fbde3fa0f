/** The action loop's stop checks (src/agent/orchestrator.py:391-396) placed in the traces of
    runs, arming and poller ticks: what a check sees is the flag of that moment. */
module StopChecks {
  import opened Executors
  import opened KillSwitch
  import opened RunEndings
  import Loop = ActionLoops

  /** Turn `i` makes its check when the first `when[i]` steps of the trace have happened. */
  ghost predicate Checks(actions: seq<Action>, when: seq<nat>, turns: seq<Loop.Turn>) {
    && |when| == |turns|
    && forall i :: 0 <= i < |turns| ==>
         when[i] <= |actions| && (turns[i].stop <==> Run(actions[..when[i]]).armed)
  }

  /** A run loop whose check comes while an arming is pending executes nothing from there on;
      when no earlier turn halted, that check is what ends it, and the run returns normally. */
  lemma PendingArmingStopsLoop(actions: seq<Action>, when: seq<nat>, i: nat,
                               todo: seq<Loop.Action>, turns: seq<Loop.Turn>, doneFails: bool,
                               at: nat, end: Loop.End, executed: seq<Loop.Action>, events: seq<Loop.Event>)
    requires |turns| == |todo| && Loop.Outcome(todo, turns, doneFails, at, end, executed, events)
    requires Checks(actions, when, turns) && i < |todo| && ArmPending(actions[..when[i]])
    ensures executed <= todo[..i]
    ensures (forall j :: 0 <= j < i ==> !Loop.Ends(todo, turns, j)) ==>
              && at == i && executed == todo[..i]
              && end == if turns[i].fault == Loop.InFirstEvent then Loop.Raised else Loop.Returned
  {
    ArmedIff(actions[..when[i]]);
    assert turns[i].stop;
    hide Run, ArmPending, Checks, Loop.StuckAt, Loop.Log;
    Loop.StopIsObeyed(todo, turns, doneFails, at, end, executed, events);
    assert Loop.Ends(todo, turns, i);
  }

  /** The first step in `[k, n)` that clears, or `n`. */
  lemma {:induction false} FirstClear(actions: seq<Action>, k: nat, n: nat) returns (j: nat)
    requires k <= n <= |actions|
    ensures k <= j <= n
    ensures forall l :: k <= l < j ==> !Clears(Run(actions[..l]), actions[l])
    ensures j < n ==> Clears(Run(actions[..j]), actions[j])
    decreases n - k
  {
    if k == n || Clears(Run(actions[..k]), actions[k]) {
      j := k;
    } else {
      j := FirstClear(actions, k + 1, n);
    }
  }

  lemma ArmedUntil(actions: seq<Action>, k: nat, j: nat)
    requires k < j <= |actions| && actions[k] == Arm
    requires forall l :: k < l < j ==> !Clears(Run(actions[..l]), actions[l])
    ensures ArmPending(actions[..j]) && Run(actions[..j]).armed
  {
    hide Run, Clears;
    var before := actions[..j];
    forall l | k < l < |before|
      ensures !Clears(Run(before[..l]), before[l])
    {
      assert before[..l] == actions[..l];
    }
    assert ArmedLast(before, k);
    ArmedIff(before);
  }

  lemma KnownLater(actions: seq<Action>, k: nat, j: nat, id: Id)
    requires k <= j <= |actions| && id in Run(actions[..k]).tasks
    ensures id in Run(actions[..j]).tasks
  {
    hide Run;
    StaysKnown(actions[..k], actions[k..j], id);
    assert actions[..k] + actions[k..j] == actions[..j];
  }

  predicate Asked(s: State, id: Id) {
    id in s.tasks && (s.tasks[id].pc.Done? || s.tasks[id].cancel)
  }

  lemma TickAsks(actions: seq<Action>, j: nat, id: Id)
    requires j < |actions| && actions[j] == Tick
    requires Run(actions[..j]).armed && id in Run(actions[..j]).tasks
    ensures Asked(Run(actions[..j + 1]), id)
  {
    hide Run;
    assert actions[..j + 1] == actions[..j] + [Tick];
    RunSnoc(actions[..j], Tick);
  }

  /** Main result: arm the flag at step `k`. At any later check of a run's loop, with no run
      start in between, either the check sees the flag, or a tick before it has asked every
      run that was there at arming to cancel, or found it ended. */
  lemma ArmingIsNoticed(actions: seq<Action>, when: seq<nat>, turns: seq<Loop.Turn>, k: nat, i: nat, id: Id)
    requires Checks(actions, when, turns) && i < |turns| && k < when[i] && actions[k] == Arm
    requires forall l :: k < l < when[i] ==> !Starts(Run(actions[..l]), actions[l])
    requires id in Run(actions[..k]).tasks
    ensures turns[i].stop ||
            exists j :: k < j < when[i] && actions[j] == Tick && Asked(Run(actions[..j + 1]), id)
  {
    hide Run, Starts, Asked;
    var n := when[i];
    var j := FirstClear(actions, k + 1, n);
    ArmedUntil(actions, k, j);
    if j < n {
      assert actions[j] == Tick;
      KnownLater(actions, k, j, id);
      TickAsks(actions, j, id);
    }
  }

  // --- what the loop's end is recorded as -------------------------------------------------------

  /** How the executor sees the loop end: an exception is a timeout or any other error; a
      cancellation is a matter of the trace. */
  predicate LeadsTo(end: Loop.End, body: BodyEnd) {
    match end
    case Returned => body == Finished
    case StuckError => body == Stuck
    case Raised => body == Failed || body == TimedOut
  }

  function RecordOf(end: Loop.End): Status {
    match end
    case Returned => Completed
    case StuckError => Aborted
    case Raised => Errored
  }

  lemma AgreesOnce(s: State, id: Id, a: Status, b: Status)
    requires Agrees(s, id, a) && Agrees(s, id, b)
    ensures a == b
  {
    hide EndsWith, About;
  }

  /** Main result: a run whose loop ends and which itself has ended, with no cancellation
      landing after the try body, is recorded everywhere by how the loop ended, or as aborted if
      a cancellation landed in the try body. */
  lemma LoopEndRecorded(first: seq<Action>, id: Id, end: Loop.End, body: BodyEnd, landed: bool, later: seq<Action>)
    requires LeadsTo(end, body)
    requires var s := Run(first); id in s.tasks && s.tasks[id].pc == Orchestrating
    requires var z := Run(first + [Resume(id, body, landed)] + later);
             id in z.tasks && z.tasks[id].pc == Done(true) && !z.tasks[id].late
    ensures var z := Run(first + [Resume(id, body, landed)] + later);
            Agrees(z, id, if z.tasks[id].hit then Aborted else RecordOf(end))
  {
    hide Run, Agrees;
    EndsAs(first, id, body, landed, later);
  }

  /** Main result: a run whose own check saw a pending arming is recorded as completed if and
      only if no cancellation landed in its try body before it was through; otherwise it is
      recorded as aborted. */
  lemma StopCheckedRunRecorded(first: seq<Action>, id: Id, body: BodyEnd, landed: bool, later: seq<Action>,
                               when: seq<nat>, i: nat, todo: seq<Loop.Action>, turns: seq<Loop.Turn>,
                               doneFails: bool, at: nat, end: Loop.End, executed: seq<Loop.Action>,
                               events: seq<Loop.Event>)
    requires |turns| == |todo| && Loop.Outcome(todo, turns, doneFails, at, end, executed, events)
    requires Checks(first, when, turns) && i < |todo| && ArmPending(first[..when[i]])
    requires turns[i].fault != Loop.InFirstEvent && forall j :: 0 <= j < i ==> !Loop.Ends(todo, turns, j)
    requires LeadsTo(end, body)
    requires var s := Run(first); id in s.tasks && s.tasks[id].pc == Orchestrating
    requires var z := Run(first + [Resume(id, body, landed)] + later);
             id in z.tasks && z.tasks[id].pc == Done(true) && !z.tasks[id].late
    ensures var z := Run(first + [Resume(id, body, landed)] + later);
            && (Agrees(z, id, Completed) <==> !z.tasks[id].hit)
            && (Agrees(z, id, Aborted) <==> z.tasks[id].hit)
  {
    PendingArmingStopsLoop(first, when, i, todo, turns, doneFails, at, end, executed, events);
    hide Run, Agrees, Checks, ArmPending, Loop.Outcome, Loop.Ends;
    LoopEndRecorded(first, id, end, body, landed, later);
    var z := Run(first + [Resume(id, body, landed)] + later);
    if Agrees(z, id, Completed) && Agrees(z, id, Aborted) {
      AgreesOnce(z, id, Completed, Aborted);
    }
  }
}
