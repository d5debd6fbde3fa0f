/** The orchestrator's action loop (src/agent/orchestrator.py:355-437) and its loop detector
    (src/agent/awareness/meta_cognition.py:28-46). */
module ActionLoops {
  import opened Sequences

  // the JSON of an action's kind and parameters, keys sorted: equal for equal actions
  type Action = nat

  const WINDOW: nat := 6
  const THRESHOLD: nat := 3

  function Last<T>(s: seq<T>, n: nat): seq<T> {
    if |s| <= n then s else s[|s| - n..]
  }

  lemma LastSnoc<T>(s: seq<T>, x: T, n: nat)
    ensures var h := Last(s, n) + [x]; Last(s + [x], n) == if |h| > n then h[1..] else h
  {}

  function Count(s: seq<Action>, a: Action): nat {
    if s == [] then 0 else Count(s[..|s| - 1], a) + if s[|s| - 1] == a then 1 else 0
  }

  /** The detector, after observing `actions[..i + 1]`, reports action `i`. */
  predicate StuckAt(actions: seq<Action>, i: nat)
    requires i < |actions|
  {
    Count(Last(actions[..i + 1], WINDOW), actions[i]) >= THRESHOLD
  }

  // --- the detector -----------------------------------------------------------

  /** A bounded deque of the actions seen since the detector was made or reset. */
  class LoopDetector {
    const window: nat
    const threshold: nat
    var history: seq<Action>
    ghost var seen: seq<Action>

    ghost predicate Valid()
      reads this
    {
      history == Last(seen, window)
    }

    constructor (window: nat, threshold: nat)
      ensures Valid() && seen == [] && this.window == window && this.threshold == threshold
    {
      this.window, this.threshold, history, seen := window, threshold, [], [];
    }

    method Observe(a: Action) returns (stuck: bool)
      requires Valid()
      modifies this
      ensures Valid() && seen == old(seen) + [a]
      ensures stuck <==> Count(Last(seen, window), a) >= threshold
    {
      LastSnoc(seen, a, window);
      history := history + [a];
      if |history| > window {
        history := history[1..];
      }
      seen := seen + [a];
      var count := 0;
      for i := 0 to |history|
        invariant count == Count(history[..i], a)
      {
        assert history[..i + 1][..i] == history[..i];
        if history[i] == a {
          count := count + 1;
        }
      }
      assert history[..|history|] == history;
      stuck := count >= threshold;
    }

    method Reset()
      modifies this
      ensures Valid() && seen == []
    {
      history, seen := [], [];
    }
  }

  // --- the loop --------------------------------------------------------------------------------

  /** Where in a turn an exception or a cancellation strikes, if one does. */
  datatype Fault = NoFault | InFirstEvent | InExecute | AfterExecute | InStuckEvent | InPause

  /** What the world does during one turn: the stop flag as the turn's check sees it, a fault,
      and whether the action's result is worth an event. */
  datatype Turn = Turn(stop: bool, fault: Fault, reports: bool)

  datatype Event =
    | Start | Blocked | ScreenState | KillSwitch | Actions(count: nat)
    | ActionEvent(a: Action) | ActionResult(a: Action) | Stuck(a: Action) | Done

  datatype End = Returned | StuckError | Raised

  predicate Executes(t: Turn) {
    !t.stop && t.fault != InFirstEvent
  }

  /** The loop does not go on from this turn to the next. */
  predicate Halts(t: Turn, stuck: bool) {
    t.stop || t.fault in {InFirstEvent, InExecute, AfterExecute, InPause} || stuck
  }

  predicate Ends(actions: seq<Action>, turns: seq<Turn>, i: nat)
    requires i < |actions| == |turns|
  {
    Halts(turns[i], StuckAt(actions, i))
  }

  /** How the run ends when turn `i` ends it. */
  function EndOf(t: Turn, stuck: bool): End {
    if t.stop then (if t.fault == InFirstEvent then Raised else Returned)
    else if t.fault in {InFirstEvent, InExecute, AfterExecute} then Raised
    else if stuck && t.fault != InStuckEvent then StuckError
    else Raised
  }

  /** The events of one turn. */
  function TurnLog(a: Action, t: Turn, stuck: bool): seq<Event> {
    if t.fault == InFirstEvent then []
    else if t.stop then [KillSwitch]
    else if t.fault in {InExecute, AfterExecute} then [ActionEvent(a)]
    else
      [ActionEvent(a)] + (if t.reports then [ActionResult(a)] else [])
      + if stuck && t.fault != InStuckEvent then [Stuck(a)] else []
  }

  function Log(actions: seq<Action>, turns: seq<Turn>, n: nat): seq<Event>
    requires n <= |actions| == |turns|
  {
    if n == 0 then []
    else Log(actions, turns, n - 1) + TurnLog(actions[n - 1], turns[n - 1], StuckAt(actions, n - 1))
  }

  /** One turn: check the flag, announce, execute, observe, pause. */
  method TakeTurn(detector: LoopDetector, a: Action, t: Turn)
    returns (end: Option<End>, executed: bool, log: seq<Event>)
    requires detector.Valid()
    modifies detector
    ensures detector.Valid()
    ensures var stuck := Count(Last(old(detector.seen) + [a], detector.window), a) >= detector.threshold;
            && log == TurnLog(a, t, stuck) && executed == Executes(t)
            && end == (if Halts(t, stuck) then Some(EndOf(t, stuck)) else None)
            && (end.None? ==> detector.seen == old(detector.seen) + [a])
  {
    if t.stop {
      if t.fault == InFirstEvent {
        return Some(Raised), false, [];
      }
      return Some(Returned), false, [KillSwitch];
    }
    if t.fault == InFirstEvent {
      return Some(Raised), false, [];
    }
    log := [ActionEvent(a)];
    if t.fault == InExecute || t.fault == AfterExecute {
      return Some(Raised), true, log;
    }
    if t.reports {
      log := log + [ActionResult(a)];
    }
    var stuck := detector.Observe(a);
    if stuck {
      if t.fault == InStuckEvent {
        return Some(Raised), true, log;
      }
      return Some(StuckError), true, log + [Stuck(a)];
    }
    if t.fault == InPause {
      return Some(Raised), true, log;
    }
    return None, true, log;
  }

  /** The loop goes through exactly the turns before the first that halts it. What was
      executed is what those turns held, and the last turn's action only if its stop check and
      its event let it; the last turn alone decides how the run ends. */
  predicate Outcome(actions: seq<Action>, turns: seq<Turn>, doneFails: bool,
                    at: nat, end: End, executed: seq<Action>, events: seq<Event>)
    requires |turns| == |actions|
  {
    && at <= |actions|
    && (forall i :: 0 <= i < at ==> !Ends(actions, turns, i))
    && (at == |actions| ==>
          && executed == actions && end == (if doneFails then Raised else Returned)
          && events == Log(actions, turns, at) + if doneFails then [] else [Done])
    && (at < |actions| ==>
          && Ends(actions, turns, at) && end == EndOf(turns[at], StuckAt(actions, at))
          && executed == actions[..if Executes(turns[at]) then at + 1 else at]
          && events == Log(actions, turns, at + 1))
  }

  method RunActions(actions: seq<Action>, turns: seq<Turn>, doneFails: bool)
    returns (at: nat, end: End, executed: seq<Action>, events: seq<Event>)
    requires |turns| == |actions|
    ensures Outcome(actions, turns, doneFails, at, end, executed, events)
  {
    hide Halts, EndOf, TurnLog, Executes;
    var detector := new LoopDetector(WINDOW, THRESHOLD);
    at, executed, events := 0, [], [];
    while at < |actions|
      invariant at <= |actions|
      invariant detector.Valid() && detector.seen == actions[..at]
      invariant detector.window == WINDOW && detector.threshold == THRESHOLD
      invariant executed == actions[..at] && events == Log(actions, turns, at)
      invariant forall i :: 0 <= i < at ==> !Ends(actions, turns, i)
      invariant fresh(detector)
    {
      assert actions[..at + 1] == actions[..at] + [actions[at]];
      var last, ran, log := TakeTurn(detector, actions[at], turns[at]);
      events := events + log;
      if ran {
        executed := executed + [actions[at]];
      }
      if last.Some? {
        return at, last.value, executed, events;
      }
      assert Executes(turns[at]) by { PassedExecutes(turns[at], StuckAt(actions, at)); }
      at := at + 1;
    }
    assert actions[..at] == actions;
    if doneFails {
      end := Raised;
    } else {
      end, events := Returned, events + [Done];
    }
  }

  lemma PassedExecutes(t: Turn, stuck: bool)
    requires !Halts(t, stuck)
    ensures Executes(t)
  {}

  // --- what the outcome means ------------------------------------------------------------------

  /** What was executed is a prefix of the brain's list, and no action of it was executed after
      a check that saw the stop flag. */
  lemma StopIsObeyed(actions: seq<Action>, turns: seq<Turn>, doneFails: bool,
                     at: nat, end: End, executed: seq<Action>, events: seq<Event>)
    requires |turns| == |actions| && Outcome(actions, turns, doneFails, at, end, executed, events)
    ensures executed <= actions
    ensures forall i :: 0 <= i < |executed| ==> !turns[i].stop
  {
    hide StuckAt, Log, EndOf;
    forall i | 0 <= i < |executed|
      ensures !turns[i].stop
    {
      assert i < at ==> !Ends(actions, turns, i);
    }
  }

  /** `done` goes out if and only if no turn halted the loop, in particular none was stuck;
      then the whole list was executed. */
  lemma DoneIff(actions: seq<Action>, turns: seq<Turn>, doneFails: bool,
                at: nat, end: End, executed: seq<Action>, events: seq<Event>)
    requires |turns| == |actions| && Outcome(actions, turns, doneFails, at, end, executed, events)
    ensures Done in events <==> !doneFails && forall i :: 0 <= i < |actions| ==> !Ends(actions, turns, i)
    ensures Done in events ==> executed == actions && end == Returned
  {
    hide StuckAt, Log, EndOf, Executes, Halts;
    hide Ends;
    NoDone(actions, turns, at);
    if at < |actions| {
      NoDone(actions, turns, at + 1);
    }
  }

  /** `StuckError` is raised at an action if and only if every earlier turn went through and
      this action, executed without stop or fault, is the first to occur three times among the
      last six observed. */
  lemma StuckErrorIff(actions: seq<Action>, turns: seq<Turn>, doneFails: bool,
                      at: nat, end: End, executed: seq<Action>, events: seq<Event>)
    requires |turns| == |actions| && Outcome(actions, turns, doneFails, at, end, executed, events)
    ensures end == StuckError <==>
              && at < |actions| && StuckAt(actions, at)
              && !turns[at].stop && turns[at].fault in {NoFault, InPause}
    ensures end == StuckError ==>
              && executed == actions[..at + 1]
              && (forall i :: 0 <= i < at ==> !StuckAt(actions, i))
              && events[|events| - 1..] == [Stuck(actions[at])]
  {
    hide StuckAt;
    if at < |actions| {
      assert events == Log(actions, turns, at) + TurnLog(actions[at], turns[at], StuckAt(actions, at));
      hide Log;
      forall i | 0 <= i < at
        ensures !StuckAt(actions, i)
      {
        assert !Ends(actions, turns, i);
      }
    }
  }

  function AnnouncedIn(): Event -> Option<Action> {
    (e: Event) => if e.ActionEvent? then Some(e.a) else None
  }

  function ReportedIn(): Event -> Option<Action> {
    (e: Event) => if e.ActionResult? then Some(e.a) else None
  }

  /** The action's result goes out as an event. */
  predicate Reports(t: Turn) {
    Executes(t) && t.reports && t.fault != InExecute && t.fault != AfterExecute
  }

  /** The actions among the first `n` whose results go out. */
  function Reported(actions: seq<Action>, turns: seq<Turn>, n: nat): seq<Action>
    requires n <= |actions| == |turns|
  {
    if n == 0 then []
    else Reported(actions, turns, n - 1) + if Reports(turns[n - 1]) then [actions[n - 1]] else []
  }

  lemma PickFew<S, T>(f: S -> Option<T>, x: S, y: S, z: S)
    ensures Pick(f, []) == [] && Pick(f, [x]) == ToSeq(f(x))
    ensures Pick(f, [x] + [y]) == ToSeq(f(x)) + ToSeq(f(y))
    ensures Pick(f, [x] + [y] + [z]) == ToSeq(f(x)) + ToSeq(f(y)) + ToSeq(f(z))
  {
    PickOne(f, x);
    PickSnoc(f, [x], y);
    PickSnoc(f, [x] + [y], z);
  }

  lemma TurnLogIs(a: Action, t: Turn, stuck: bool)
    ensures var log := TurnLog(a, t, stuck); var tell := stuck && t.fault != InStuckEvent;
            if !Executes(t) then log == [] || log == [KillSwitch]
            else if t.fault == InExecute || t.fault == AfterExecute then log == [ActionEvent(a)]
            else if t.reports && tell then log == [ActionEvent(a)] + [ActionResult(a)] + [Stuck(a)]
            else if t.reports then log == [ActionEvent(a)] + [ActionResult(a)]
            else if tell then log == [ActionEvent(a)] + [Stuck(a)]
            else log == [ActionEvent(a)]
  {}

  lemma TurnAnnounces(a: Action, t: Turn, stuck: bool)
    ensures Pick(AnnouncedIn(), TurnLog(a, t, stuck)) == if Executes(t) then [a] else []
  {
    PickFew(AnnouncedIn(), ActionEvent(a), ActionResult(a), Stuck(a));
    PickFew(AnnouncedIn(), ActionEvent(a), Stuck(a), Stuck(a));
    PickFew(AnnouncedIn(), KillSwitch, KillSwitch, KillSwitch);
    hide Pick;
    TurnLogIs(a, t, stuck);
    hide TurnLog;
  }

  lemma TurnReports(a: Action, t: Turn, stuck: bool)
    ensures Pick(ReportedIn(), TurnLog(a, t, stuck)) == if Reports(t) then [a] else []
  {
    PickFew(ReportedIn(), ActionEvent(a), ActionResult(a), Stuck(a));
    PickFew(ReportedIn(), ActionEvent(a), Stuck(a), Stuck(a));
    PickFew(ReportedIn(), KillSwitch, KillSwitch, KillSwitch);
    hide Pick;
    TurnLogIs(a, t, stuck);
    hide TurnLog;
  }

  lemma {:induction false} LogAnnounces(actions: seq<Action>, turns: seq<Turn>, n: nat)
    requires n <= |actions| == |turns| && forall i :: 0 <= i < n ==> Executes(turns[i])
    ensures Pick(AnnouncedIn(), Log(actions, turns, n)) == actions[..n]
  {
    hide StuckAt, TurnLog, Executes, Pick;
    if n == 0 {
      PickFew(AnnouncedIn(), KillSwitch, KillSwitch, KillSwitch);
    } else {
      LogAnnounces(actions, turns, n - 1);
      TurnAnnounces(actions[n - 1], turns[n - 1], StuckAt(actions, n - 1));
      PickConcat(AnnouncedIn(), Log(actions, turns, n - 1),
                 TurnLog(actions[n - 1], turns[n - 1], StuckAt(actions, n - 1)));
      assert actions[..n] == actions[..n - 1] + [actions[n - 1]];
    }
  }

  lemma {:induction false} LogReports(actions: seq<Action>, turns: seq<Turn>, n: nat)
    requires n <= |actions| == |turns|
    ensures Pick(ReportedIn(), Log(actions, turns, n)) == Reported(actions, turns, n)
  {
    hide StuckAt, TurnLog, Reports, Pick;
    if n == 0 {
      PickFew(ReportedIn(), KillSwitch, KillSwitch, KillSwitch);
    } else {
      LogReports(actions, turns, n - 1);
      TurnReports(actions[n - 1], turns[n - 1], StuckAt(actions, n - 1));
      PickConcat(ReportedIn(), Log(actions, turns, n - 1),
                 TurnLog(actions[n - 1], turns[n - 1], StuckAt(actions, n - 1)));
    }
  }

  lemma {:induction false} LogStops(actions: seq<Action>, turns: seq<Turn>, n: nat)
    requires n <= |actions| == |turns|
    ensures KillSwitch in Log(actions, turns, n) <==>
            exists i :: 0 <= i < n && turns[i].stop && turns[i].fault != InFirstEvent
  {
    if n > 0 {
      hide StuckAt;
      LogStops(actions, turns, n - 1);
    }
  }

  /** The announced actions are the executed ones, in order. */
  lemma EventsAnnounce(actions: seq<Action>, turns: seq<Turn>, doneFails: bool,
                       at: nat, end: End, executed: seq<Action>, events: seq<Event>)
    requires |turns| == |actions| && Outcome(actions, turns, doneFails, at, end, executed, events)
    ensures Pick(AnnouncedIn(), events) == executed
  {
    EarlierExecute(actions, turns, doneFails, at, end, executed, events);
    hide StuckAt, TurnLog, Pick, Ends, Executes, Log, EndOf;
    LogAnnounces(actions, turns, at);
    if at < |actions| {
      LastAnnounced(actions, turns, at);
    } else {
      PickFew(AnnouncedIn(), Done, Done, Done);
      PickConcat(AnnouncedIn(), Log(actions, turns, at), if doneFails then [] else [Done]);
      assert actions[..at] == actions;
    }
  }

  lemma LastAnnounced(actions: seq<Action>, turns: seq<Turn>, at: nat)
    requires at < |actions| == |turns| && Pick(AnnouncedIn(), Log(actions, turns, at)) == actions[..at]
    ensures Pick(AnnouncedIn(), Log(actions, turns, at + 1)) == actions[..if Executes(turns[at]) then at + 1 else at]
  {
    hide StuckAt, TurnLog, Pick, Log, Executes;
    TurnAnnounces(actions[at], turns[at], StuckAt(actions, at));
    PickConcat(AnnouncedIn(), Log(actions, turns, at), TurnLog(actions[at], turns[at], StuckAt(actions, at)));
    LogNext(actions, turns, at);
    assert actions[..at + 1] == actions[..at] + [actions[at]];
  }

  lemma LogNext(actions: seq<Action>, turns: seq<Turn>, n: nat)
    requires n < |actions| == |turns|
    ensures Log(actions, turns, n + 1) ==
            Log(actions, turns, n) + TurnLog(actions[n], turns[n], StuckAt(actions, n))
  {}

  lemma EarlierExecute(actions: seq<Action>, turns: seq<Turn>, doneFails: bool,
                       at: nat, end: End, executed: seq<Action>, events: seq<Event>)
    requires |turns| == |actions| && Outcome(actions, turns, doneFails, at, end, executed, events)
    ensures forall i :: 0 <= i < at ==> Executes(turns[i])
  {
    hide StuckAt, Log;
    forall i | 0 <= i < at
      ensures Executes(turns[i])
    {
      assert !Ends(actions, turns, i);
    }
  }

  /** The results that go out are those of the executed actions that have one to report. */
  lemma EventsReport(actions: seq<Action>, turns: seq<Turn>, doneFails: bool,
                     at: nat, end: End, executed: seq<Action>, events: seq<Event>)
    requires |turns| == |actions| && Outcome(actions, turns, doneFails, at, end, executed, events)
    ensures Pick(ReportedIn(), events) == Reported(actions, turns, |executed|)
  {
    if at < |actions| {
      ReportsExecute(turns[at]);
      hide StuckAt, TurnLog, Pick, Ends, Executes, Log, Reports;
      LogReports(actions, turns, at + 1);
    } else {
      hide StuckAt, TurnLog, Pick, Ends, Executes, Log, Reports, Reported;
      LogReports(actions, turns, at);
      PickFew(ReportedIn(), Done, Done, Done);
      PickConcat(ReportedIn(), Log(actions, turns, at), if doneFails then [] else [Done]);
    }
  }

  lemma ReportsExecute(t: Turn)
    ensures Reports(t) ==> Executes(t)
  {}

  /** The stop is announced, and the run returns before the end of its list, if and only if the
      stop flag is what ended the loop. */
  lemma StopTold(actions: seq<Action>, turns: seq<Turn>, doneFails: bool,
                 at: nat, end: End, executed: seq<Action>, events: seq<Event>)
    requires |turns| == |actions| && Outcome(actions, turns, doneFails, at, end, executed, events)
    ensures KillSwitch in events <==> at < |actions| && turns[at].stop && turns[at].fault != InFirstEvent
    ensures end == Returned <==> (at == |actions| && !doneFails) || KillSwitch in events
  {
    hide StuckAt, TurnLog, Log;
    forall i | 0 <= i < at
      ensures !turns[i].stop
    {
      assert !Ends(actions, turns, i);
    }
    hide Ends;
    LogStops(actions, turns, if at < |actions| then at + 1 else at);
  }

  /** An exception or cancellation anywhere in a turn ends the run with it, and nothing else
      does: a pause is not reached after a stuck report, nor a stuck report without one. */
  lemma RaisedIff(actions: seq<Action>, turns: seq<Turn>, doneFails: bool,
                  at: nat, end: End, executed: seq<Action>, events: seq<Event>)
    requires |turns| == |actions| && Outcome(actions, turns, doneFails, at, end, executed, events)
    ensures forall i :: 0 <= i < at ==> turns[i].fault == NoFault || turns[i].fault == InStuckEvent
    ensures end == Raised <==>
              if at == |actions| then doneFails
              else
                || turns[at].fault == InFirstEvent
                || (!turns[at].stop && turns[at].fault in {InExecute, AfterExecute})
                || (!turns[at].stop && StuckAt(actions, at) && turns[at].fault == InStuckEvent)
                || (!turns[at].stop && !StuckAt(actions, at) && turns[at].fault == InPause)
  {
    hide StuckAt, Log;
    forall i | 0 <= i < at
      ensures turns[i].fault == NoFault || turns[i].fault == InStuckEvent
    {
      assert !Ends(actions, turns, i);
    }
  }

  lemma {:induction false} NoDone(actions: seq<Action>, turns: seq<Turn>, n: nat)
    requires n <= |actions| == |turns|
    ensures Done !in Log(actions, turns, n)
  {
    if n > 0 {
      hide StuckAt, Halts;
      NoDone(actions, turns, n - 1);
    }
  }

  /** What comes before the loop: the allowlist, and the stop flag before and after the brain
      has decided. */
  method RunTask(allowed: bool, stopBefore: bool, stopDeciding: bool,
                 actions: seq<Action>, turns: seq<Turn>, doneFails: bool)
    returns (end: End, executed: seq<Action>, events: seq<Event>)
    requires |turns| == |actions|
    ensures !allowed || stopBefore || stopDeciding ==>
              && executed == [] && end == Returned
              && events == if allowed then [Start, ScreenState, KillSwitch] else [Start, Blocked]
    ensures allowed && !stopBefore && !stopDeciding ==>
              && |events| >= 3 && events[..3] == [Start, ScreenState, Actions(|actions|)]
              && exists at :: Outcome(actions, turns, doneFails, at, end, executed, events[3..])
  {
    if !allowed {
      return Returned, [], [Start, Blocked];
    }
    if stopBefore || stopDeciding {
      return Returned, [], [Start, ScreenState, KillSwitch];
    }
    hide Outcome;
    var at, log;
    at, end, executed, log := RunActions(actions, turns, doneFails);
    events := [Start, ScreenState, Actions(|actions|)] + log;
    assert events[3..] == log;
  }

  // --- what counts as stuck ----------------------------------------------------------------------

  /** How often the action of index `i` occurs at the indices from `i - back` to `i`. */
  function Repeats(actions: seq<Action>, i: nat, back: nat): nat
    requires i < |actions|
  {
    if back == 0 then 1
    else CountAt(actions, i, i - back) + Repeats(actions, i, back - 1)
  }

  function CountAt(actions: seq<Action>, i: nat, j: int): nat
    requires i < |actions| && j <= i
  {
    if j >= 0 && actions[j] == actions[i] then 1 else 0
  }

  lemma {:induction false} CountSplit(s: seq<Action>, t: seq<Action>, a: Action)
    ensures Count(s + t, a) == Count(s, a) + Count(t, a)
  {
    if t == [] {
      assert s + t == s;
    } else {
      assert (s + t)[..|s + t| - 1] == s + t[..|t| - 1];
      CountSplit(s, t[..|t| - 1], a);
    }
  }

  /** The detector's count over its window, position by position. */
  lemma {:induction false} CountIsRepeats(actions: seq<Action>, i: nat, back: nat)
    requires i < |actions|
    ensures Count(Last(actions[..i + 1], back + 1), actions[i]) == Repeats(actions, i, back)
  {
    var a, w := actions[i], Last(actions[..i + 1], back + 1);
    if back == 0 {
      assert w == [a] && w[..0] == [];
      assert Count([], a) == 0;
    } else {
      CountIsRepeats(actions, i, back - 1);
      var rest := Last(actions[..i + 1], back);
      if i >= back {
        assert w == [actions[i - back]] + rest;
        CountSplit([actions[i - back]], rest, a);
        assert [actions[i - back]][..0] == [];
        assert Count([], a) == 0;
      } else {
        assert w == rest;
      }
    }
  }

  /** Stuck, position by position: the action is the third of its kind among six in a row. */
  lemma StuckIffThird(actions: seq<Action>, i: nat)
    requires i < |actions|
    ensures StuckAt(actions, i) <==>
            exists j, k :: 0 <= j < k < i && i - 5 <= j && actions[j] == actions[i] && actions[k] == actions[i]
  {
    CountIsRepeats(actions, i, 5);
    assert StuckAt(actions, i) <==> Repeats(actions, i, 5) >= 3;
    hide StuckAt, Count;
    SumBack(actions, i);
    hide Repeats;
    if exists j, k :: 0 <= j < k < i && i - 5 <= j && actions[j] == actions[i] && actions[k] == actions[i] {
      var j, k :| 0 <= j < k < i && i - 5 <= j && actions[j] == actions[i] && actions[k] == actions[i];
      assert CountAt(actions, i, j) == 1 && CountAt(actions, i, k) == 1;
      assert j == i - 2 || j == i - 3 || j == i - 4 || j == i - 5;
      assert k == i - 1 || k == i - 2 || k == i - 3 || k == i - 4;
    } else {
      AtMostOne(actions, i);
    }
  }

  lemma AtMostOne(actions: seq<Action>, i: nat)
    requires i < |actions|
    requires !exists j, k :: 0 <= j < k < i && i - 5 <= j && actions[j] == actions[i] && actions[k] == actions[i]
    ensures CountAt(actions, i, i - 1) + CountAt(actions, i, i - 2) + CountAt(actions, i, i - 3)
            + CountAt(actions, i, i - 4) + CountAt(actions, i, i - 5) <= 1
  {
    forall j, k | i - 5 <= j < k < i
      ensures CountAt(actions, i, j) + CountAt(actions, i, k) <= 1
    {}
  }

  /** `actions` goes round a cycle of `p` different actions. */
  ghost predicate Cycles(actions: seq<Action>, p: nat) {
    && p > 0
    && (forall i, j :: 0 <= i < j < |actions| && j - i < p ==> actions[i] != actions[j])
    && (forall i, j :: 0 <= i < |actions| && j == i + p && j < |actions| ==> actions[i] == actions[j])
  }

  /** Where the action of index `i` occurs in a cycle, as far back as the window reaches. */
  lemma CycleBack(actions: seq<Action>, p: nat, i: nat, d: nat)
    requires Cycles(actions, p) && i < |actions| && 1 <= d <= 2 * p
    ensures CountAt(actions, i, i - d) == if (d == p || d == 2 * p) && i >= d then 1 else 0
  {
    if d > p && i >= d {
      assert actions[i] == actions[i - p];
    }
  }

  /** A cycle is caught if and only if it has at most two actions, and then at the third
      occurrence of its first one. Longer cycles go on for ever. */
  lemma CyclesCaughtIff(actions: seq<Action>, p: nat, i: nat)
    requires Cycles(actions, p) && i < |actions|
    ensures StuckAt(actions, i) <==> p <= 2 && i >= 2 * p
  {
    CountIsRepeats(actions, i, 5);
    assert StuckAt(actions, i) <==> Repeats(actions, i, 5) >= 3;
    CycleBack(actions, p, i, 1);
    CycleBack(actions, p, i, 2);
    if p >= 2 {
      CycleBack(actions, p, i, 3);
      CycleBack(actions, p, i, 4);
    }
    if p >= 3 {
      CycleBack(actions, p, i, 5);
    }
    hide StuckAt, Count, Cycles, CountAt;
    SumBack(actions, i);
  }

  lemma SumBack(actions: seq<Action>, i: nat)
    requires i < |actions|
    ensures Repeats(actions, i, 5) ==
              1 + CountAt(actions, i, i - 1) + CountAt(actions, i, i - 2) + CountAt(actions, i, i - 3)
              + CountAt(actions, i, i - 4) + CountAt(actions, i, i - 5)
    ensures forall j: int :: j <= i ==> 0 <= CountAt(actions, i, j) && (j < 0 ==> CountAt(actions, i, j) == 0)
  {
    assert Repeats(actions, i, 1) == CountAt(actions, i, i - 1) + Repeats(actions, i, 0);
    assert Repeats(actions, i, 2) == CountAt(actions, i, i - 2) + Repeats(actions, i, 1);
    assert Repeats(actions, i, 3) == CountAt(actions, i, i - 3) + Repeats(actions, i, 2);
    assert Repeats(actions, i, 4) == CountAt(actions, i, i - 4) + Repeats(actions, i, 3);
  }
}
