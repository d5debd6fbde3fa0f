/** Exactly what every request's future holds at every moment (src/agent/client/connection.py:41-71). */
module Futures {
  import opened Sequences
  import opened PubSubs
  import opened Wire
  import opened Protocol

  /** The response to `id` has been read by the client. */
  predicate Answered(w: World, id: Id) {
    id in Pick(ResponseId(), w.hist.received)
  }

  /** The `k`-th step cancels the waiting caller: after the issue, before the response is read. */
  ghost predicate DropsInTime(actions: seq<Action>, id: Id, k: nat) {
    k < |actions| && actions[k] == Drop(id) &&
    id in Run(actions[..k]).hist.issued && !Answered(Run(actions[..k]), id)
  }

  ghost predicate Dropped(actions: seq<Action>, id: Id) {
    exists k: nat :: DropsInTime(actions, id, k)
  }

  predicate DropsNow(w: World, a: Action, id: Id) {
    a == Drop(id) && id in w.hist.issued && !Answered(w, id)
  }

  lemma DropsPrefix(actions: seq<Action>, id: Id, k: nat)
    requires actions != []
    ensures var n := |actions| - 1;
            DropsInTime(actions, id, k) <==>
            if k == n then DropsNow(Run(actions[..n]), actions[n], id) else DropsInTime(actions[..n], id, k)
  {
    hide Run, Answered;
    if k < |actions| - 1 {
      assert actions[..|actions| - 1][..k] == actions[..k];
    }
  }

  lemma DropsWithin(actions: seq<Action>, id: Id, k: nat)
    requires DropsInTime(actions, id, k)
    ensures k < |actions|
  {}

  lemma DroppedNext(actions: seq<Action>, id: Id)
    requires actions != []
    ensures var n := |actions| - 1;
            Dropped(actions, id) <==> Dropped(actions[..n], id) || DropsNow(Run(actions[..n]), actions[n], id)
  {
    hide Run, DropsNow, DropsInTime;
    var n := |actions| - 1;
    if DropsNow(Run(actions[..n]), actions[n], id) {
      DropsPrefix(actions, id, n);
    } else if Dropped(actions[..n], id) {
      var k: nat :| DropsInTime(actions[..n], id, k);
      DropsWithin(actions[..n], id, k);
      DropsPrefix(actions, id, k);
    } else if Dropped(actions, id) {
      var k: nat :| DropsInTime(actions, id, k);
      DropsPrefix(actions, id, k);
    }
  }

  /** The future of an issued request, given whether it was dropped in time. */
  predicate Holds(w: World, id: Id, dropped: bool) {
    if id !in w.hist.issued then !dropped && !Answered(w, id)
    else
      && id in w.client.futures
      && (Answered(w, id) ==> id in w.hist.answers)
      && w.client.futures[id] ==
         (if dropped then Cancelled else if Answered(w, id) then Resolved(w.hist.answers[id]) else Waiting)
  }

  lemma StepHolds(w: World, a: Action, id: Id, dropped: bool)
    requires Inv(w) && Holds(w, id, dropped)
    ensures Holds(Step(w, a), id, dropped || DropsNow(w, a, id))
  {
    hide Inv, Holds;
    match a
    case Issue(x) => IssueHolds(w, x, id, dropped);
    case Drop(x) => DropHolds(w, x, id, dropped);
    case ServerFinish(end) => FinishHolds(w, end, id, dropped);
    case ClientRead => ReadHolds(w, id, dropped);
    case _ => SameHolds(w, a, id, dropped);
  }

  lemma IssueHolds(w: World, x: Id, id: Id, dropped: bool)
    requires Inv(w) && Holds(w, id, dropped)
    ensures Holds(Step(w, Issue(x)), id, dropped)
  {
    hide Pick, Inv;
  }

  lemma DropHolds(w: World, x: Id, id: Id, dropped: bool)
    requires Inv(w) && Holds(w, id, dropped)
    ensures Holds(Step(w, Drop(x)), id, dropped || DropsNow(w, Drop(x), id))
  {
    hide Pick, Inv;
  }

  lemma FinishHolds(w: World, end: HandlerEnd, id: Id, dropped: bool)
    requires Inv(w) && Holds(w, id, dropped)
    ensures Holds(Step(w, ServerFinish(end)), id, dropped)
  {
    hide Holds, BodyOf, LineHolds, RpcHolds, AnswersHold, QueueHolds, FeedHolds, FuturesHold;
    if !w.closed && w.server.reader.Dispatching? {
      ReceivedIssued(w);
      AnswerIsNew(w);
      hide Inv, FinishDispatch;
      NewAnswer(w, Step(w, ServerFinish(end)), w.server.reader.id, id, dropped);
    }
  }

  /** Answering a request that is not answered yet changes no future. */
  lemma NewAnswer(w: World, z: World, read: Id, id: Id, dropped: bool)
    requires Holds(w, id, dropped) && !Answered(w, read)
    requires z.client == w.client && z.hist.issued == w.hist.issued && z.hist.received == w.hist.received
    requires read in z.hist.answers
    requires forall x :: x != read ==> (x in w.hist.answers <==> x in z.hist.answers)
    requires forall x :: x != read && x in w.hist.answers ==> z.hist.answers[x] == w.hist.answers[x]
    ensures Holds(z, id, dropped)
  {
    hide Pick;
  }

  lemma SameHolds(w: World, a: Action, id: Id, dropped: bool)
    requires Inv(w) && Holds(w, id, dropped)
    requires !a.Issue? && !a.Drop? && !a.ServerFinish? && !a.ClientRead?
    ensures Holds(Step(w, a), id, dropped)
  {
    hide Pick, Inv;
    var w' := Step(w, a);
    assert w'.hist.received == w.hist.received && w'.hist.issued == w.hist.issued;
    assert w'.hist.answers == w.hist.answers && w'.client.futures == w.client.futures;
  }

  lemma ReadHolds(w: World, id: Id, dropped: bool)
    requires Inv(w) && Holds(w, id, dropped)
    ensures Holds(Step(w, ClientRead), id, dropped)
  {
    hide Step, Holds, LineHolds, RpcHolds, AnswersHold, QueueHolds, FeedHolds, FuturesHold;
    if !w.client.loopEnded && w.toClient != [] && w.toClient[0].Response? {
      HeadIsNew(w);
      HeadAnswered(w);
      HeadPending(w);
      ReadResponse(w, id, dropped);
    } else {
      ReadOther(w, id, dropped);
    }
  }

  lemma HeadPending(w: World)
    requires FuturesHold(w) && w.toClient != [] && w.toClient[0].Response?
    requires w.toClient[0].id in w.hist.issued && w.toClient[0].id !in Pick(ResponseId(), w.hist.received)
    ensures w.toClient[0].id in w.client.pending
  {
    hide Pick;
  }

  lemma ReadResponse(w: World, id: Id, dropped: bool)
    requires Holds(w, id, dropped) && !w.client.loopEnded && w.toClient != [] && w.toClient[0].Response?
    requires var f := w.toClient[0];
             && f.id in w.hist.issued && !Answered(w, f.id) && f.id in w.client.pending
             && f.id in w.hist.answers && w.hist.answers[f.id] == f.body
    ensures Holds(Step(w, ClientRead), id, dropped)
  {
    var w', f := Step(w, ClientRead), w.toClient[0];
    PickSnoc(ResponseId(), w.hist.received, f);
    hide Pick;
    assert w'.hist.issued == w.hist.issued && w'.hist.answers == w.hist.answers;
    assert w'.client.futures ==
           if f.id in w.client.futures && w.client.futures[f.id].Waiting?
           then w.client.futures[f.id := Resolved(f.body)] else w.client.futures;
    NowAnswered(w, w', f.id, id);
    hide Step, Answered;
  }

  lemma NowAnswered(w: World, w': World, read: Id, id: Id)
    requires Pick(ResponseId(), w'.hist.received) == Pick(ResponseId(), w.hist.received) + [read]
    ensures Answered(w', id) <==> Answered(w, id) || id == read
  {
    hide Pick;
  }

  lemma ReadOther(w: World, id: Id, dropped: bool)
    requires Holds(w, id, dropped) && (w.client.loopEnded || w.toClient == [] || !w.toClient[0].Response?)
    ensures Holds(Step(w, ClientRead), id, dropped)
  {
    if !w.client.loopEnded && w.toClient != [] {
      PickSnoc(ResponseId(), w.hist.received, w.toClient[0]);
    }
    hide Pick;
  }

  lemma {:induction false} RunHoldsFuture(actions: seq<Action>, id: Id)
    ensures Holds(Run(actions), id, Dropped(actions, id))
  {
    if actions == [] {
      assert !Dropped(actions, id);
    } else {
      var n := |actions| - 1;
      assert Run(actions) == Step(Run(actions[..n]), actions[n]);
      hide Run, Step, Holds, Dropped, DropsNow, Inv;
      RunHolds(actions[..n]);
      RunHoldsFuture(actions[..n], id);
      StepHolds(Run(actions[..n]), actions[n], id, Dropped(actions[..n], id));
      DroppedNext(actions, id);
    }
  }

  /** Main result: the future of an issued request is cancelled if and only if its caller was
      cancelled after the issue and before the response was read; otherwise it is resolved with
      the server's answer to it from the moment that response is read, and waits until then. */
  lemma FutureIs(actions: seq<Action>, id: Id)
    requires id in Run(actions).hist.issued
    ensures var w := Run(actions);
            && id in w.client.futures
            && (w.client.futures[id] == Cancelled <==> Dropped(actions, id))
            && (!Dropped(actions, id) && Answered(w, id) ==>
                  id in w.hist.answers && w.client.futures[id] == Resolved(w.hist.answers[id]))
            && (!Dropped(actions, id) && !Answered(w, id) ==> w.client.futures[id] == Waiting)
  {
    RunHoldsFuture(actions, id);
    hide Run, Dropped, Answered;
  }

  /** Main result: when nothing is left in transit and the reader is idle, every issued request
      has been resolved with the server's answer to it, or cancelled if and only if its caller
      was cancelled in time, and every published event of a lossless topic that its sessions let
      through has been yielded. */
  lemma Quiescent(actions: seq<Action>, id: Id, t: Topic)
    requires var w := Run(actions);
             && w.toServer == [] && w.server.reader.Ready? && w.server.outbound == [] && w.server.writerHand.None?
             && w.toClient == [] && w.client.queue == []
    ensures var w := Run(actions);
            && (id in w.hist.issued ==>
                  && id in w.client.futures && id in w.hist.answers
                  && w.client.futures[id] == if Dropped(actions, id) then Cancelled else Resolved(w.hist.answers[id]))
            && (ConfigOf(t).capacity == 0 && Held(w.server, t) == [] ==> Seen(w, t) == Kept(SessionsOf(w.hist, t)))
  {
    RequestOrder(actions);
    RunHoldsFuture(actions, id);
    if ConfigOf(t).capacity == 0 {
      EventOrder(actions, t);
    }
    hide Run, Dropped;
  }
}
