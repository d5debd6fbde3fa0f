/** The connection gets things done (src/agent/daemon/server.py:52-114,
    src/agent/client/connection.py:41-82): whatever state it is in, its own tasks can bring
    everything in transit to its end. */
module Progress {
  import opened Sequences
  import opened PubSubs
  import opened Wire
  import opened Protocol
  import opened Futures

  /** Steps of the connection's own tasks; nothing new is published, sent or cancelled. */
  predicate Own(a: Action) {
    a.ServerRead? || a.ServerFinish? || a.ServerReply? || a.ForwarderTake? || a.ForwarderPut?
    || a == WriterGet(false) || a.WriterSend? || a.ClientRead? || a.Yield?
  }

  predicate AllOwn(actions: seq<Action>) {
    forall i :: 0 <= i < |actions| ==> Own(actions[i])
  }

  /** Both ends are up. */
  predicate Up(w: World) {
    !w.closed && !w.client.loopEnded && !w.client.eventsEnded && Sentinel !in w.client.queue
  }

  // --- the writer ------------------------------------------------------------------------------

  /** Main result: a frame on the outbound queue goes on the wire, the oldest first, and a writer
      that waited too long sends a ping and leaves the queue alone. */
  lemma WriterProgress(actions: seq<Action>)
    requires var w := Run(actions); !w.closed && w.server.writerHand.None?
    ensures var w := Run(actions); var pinged := Run(actions + [WriterGet(true)] + [WriterSend]);
            pinged.toClient == w.toClient + [Ping] && pinged.server.outbound == w.server.outbound
    ensures var w := Run(actions); var z := Run(actions + [WriterGet(false)] + [WriterSend]);
            if w.server.outbound == [] then z.toClient == w.toClient && z.server.outbound == []
            else
              && z.toClient == w.toClient + [w.server.outbound[0]]
              && z.server.outbound == w.server.outbound[1..]
  {
    RunSnoc(actions, WriterGet(true));
    RunSnoc(actions + [WriterGet(true)], WriterSend);
    RunSnoc(actions, WriterGet(false));
    RunSnoc(actions + [WriterGet(false)], WriterSend);
    hide Run;
  }

  // --- draining ---------------------------------------------------------------------------------

  /** How many steps what a topic holds at the server still has to make. */
  function FeedWork(subs: map<Topic, Feed>, t: Topic): nat {
    if t !in subs then 0
    else 6 * |subs[t].sub.queue| + if subs[t].hand.Some? then 5 else 0
  }

  function ReaderWork(r: Reader): nat {
    match r
    case Ready => 0
    case Dispatching(_) => 6
    case Replying(_) => 5
  }

  function Work(w: World): nat {
    7 * |w.toServer| + ReaderWork(w.server.reader)
    + FeedWork(w.server.subs, Runs) + FeedWork(w.server.subs, HyprEvents) + FeedWork(w.server.subs, Logs)
    + 4 * |w.server.outbound| + (if w.server.writerHand.Some? then 3 else 0)
    + 2 * |w.toClient| + |w.client.queue|
  }

  predicate Idle(w: World) {
    && w.toServer == [] && w.server.reader.Ready? && w.server.outbound == [] && w.server.writerHand.None?
    && w.toClient == [] && w.client.queue == []
    && forall t: Topic :: FeedWork(w.server.subs, t) == 0
  }

  /** The step nearest to the client that has something to do. */
  function Next(w: World): Action {
    if w.client.queue != [] then Yield
    else if w.toClient != [] then ClientRead
    else if w.server.writerHand.Some? then WriterSend
    else if w.server.outbound != [] then WriterGet(false)
    else NextFeed(w)
  }

  function NextFeed(w: World): Action {
    if FeedWork(w.server.subs, Runs) > 0 then FeedStep(w.server, Runs)
    else if FeedWork(w.server.subs, HyprEvents) > 0 then FeedStep(w.server, HyprEvents)
    else if FeedWork(w.server.subs, Logs) > 0 then FeedStep(w.server, Logs)
    else if w.server.reader.Replying? then ServerReply
    else if w.server.reader.Dispatching? then ServerFinish(Returned(0))
    else ServerRead
  }

  function FeedStep(s: Server, t: Topic): Action {
    if t in s.subs && s.subs[t].hand.Some? then ForwarderPut(t) else ForwarderTake(t)
  }

  lemma ClientFirst(w: World)
    requires Up(w) && (w.client.queue != [] || w.toClient != [] || w.server.writerHand.Some? || w.server.outbound != [])
    ensures var z := Step(w, Next(w)); Up(z) && Work(z) < Work(w) && Own(Next(w))
  {
    hide FeedWork;
  }

  lemma FeedWorks(w: World, t: Topic)
    requires Up(w) && w.server.outbound == [] && FeedWork(w.server.subs, t) > 0
    ensures var a := FeedStep(w.server, t); var z := Step(w, a);
            && Own(a) && Up(z) && FeedWork(z.server.subs, t) + 4 * |z.server.outbound| < FeedWork(w.server.subs, t)
            && (forall u :: u != t ==> FeedWork(z.server.subs, u) == FeedWork(w.server.subs, u))
            && z.toServer == w.toServer && z.server.reader == w.server.reader && z.client == w.client
            && z.toClient == w.toClient && z.server.writerHand == w.server.writerHand
  {}

  lemma ReaderWorks(w: World)
    requires Up(w) && w.server.outbound == [] && !Idle(w)
    requires w.client.queue == [] && w.toClient == [] && w.server.writerHand.None?
    requires forall t: Topic :: FeedWork(w.server.subs, t) == 0
    ensures var z := Step(w, NextFeed(w)); Up(z) && Work(z) < Work(w) && Own(NextFeed(w))
  {}

  lemma NextWorks(w: World)
    requires Up(w) && !Idle(w)
    ensures var z := Step(w, Next(w)); Up(z) && Work(z) < Work(w) && Own(Next(w))
  {
    hide Step, FeedWork, FeedStep, Up;
    if w.client.queue != [] || w.toClient != [] || w.server.writerHand.Some? || w.server.outbound != [] {
      ClientFirst(w);
    } else if FeedWork(w.server.subs, Runs) > 0 {
      FeedWorks(w, Runs);
    } else if FeedWork(w.server.subs, HyprEvents) > 0 {
      FeedWorks(w, HyprEvents);
    } else if FeedWork(w.server.subs, Logs) > 0 {
      FeedWorks(w, Logs);
    } else {
      forall t: Topic
        ensures FeedWork(w.server.subs, t) == 0
      {
        match t case Runs => case HyprEvents => case Logs =>
      }
      ReaderWorks(w);
    }
  }

  /** What topic `t` has in the connection: enqueued for the client or still at the server. */
  function Flow(w: World, t: Topic): seq<Payload> {
    Pick(PayloadOn(t), w.hist.enqueued) + Held(w.server, t)
  }

  predicate Unsubscribes(f: Frame, t: Topic) {
    f.Unsubscribe? && t in f.topics
  }

  /** An unsubscribe for `t` is on its way. */
  ghost predicate Leaving(w: World, t: Topic) {
    exists f :: f in w.toServer && Unsubscribes(f, t)
  }

  lemma FlowKept(w: World, a: Action, t: Topic)
    requires Own(a) && !Leaving(w, t) && RpcHolds(w)
    ensures Flow(Step(w, a), t) == Flow(w, t) && !Leaving(Step(w, a), t)
  {
    hide Step, RpcHolds, Flow, Leaving;
    if a.ServerRead? {
      FlowRead(w, t);
    } else if a.ServerReply? {
      ReplyIsResponse(w);
      FlowReply(w, t);
    } else if a.ForwarderPut? {
      FlowPut(w, a.topic, t);
    } else {
      FlowOther(w, a, t);
    }
  }

  lemma FlowOther(w: World, a: Action, t: Topic)
    requires Own(a) && !Leaving(w, t) && !a.ServerRead? && !a.ServerReply? && !a.ForwarderPut?
    ensures Flow(Step(w, a), t) == Flow(w, t) && !Leaving(Step(w, a), t)
  {
    hide Pick;
    var z := Step(w, a);
    assert z.hist.enqueued == w.hist.enqueued && z.toServer == w.toServer;
    assert Held(z.server, t) == Held(w.server, t);
  }

  lemma ReplyIsResponse(w: World)
    requires RpcHolds(w)
    ensures w.server.reader.Replying? ==> w.server.reader.reply.Response?
  {}

  lemma FlowRead(w: World, t: Topic)
    requires !Leaving(w, t)
    ensures Flow(Step(w, ServerRead), t) == Flow(w, t) && !Leaving(Step(w, ServerRead), t)
  {
    hide Pick;
    var z := Step(w, ServerRead);
    if z != w {
      assert w.toServer[0] in w.toServer;
      assert forall f :: f in z.toServer ==> f in w.toServer;
      assert Held(z.server, t) == Held(w.server, t);
    }
  }

  lemma FlowReply(w: World, t: Topic)
    requires !Leaving(w, t) && (w.server.reader.Replying? ==> w.server.reader.reply.Response?)
    ensures Flow(Step(w, ServerReply), t) == Flow(w, t) && !Leaving(Step(w, ServerReply), t)
  {
    hide Pick;
    var z := Step(w, ServerReply);
    assert z.server.subs == w.server.subs && z.toServer == w.toServer;
    if !w.closed && Reply(w.server).Some? {
      PickSnoc(PayloadOn(t), w.hist.enqueued, w.server.reader.reply);
      hide Step, Held;
      HeldSame(w, z, t);
    } else {
      assert w.hist.enqueued + [] == w.hist.enqueued;
    }
  }

  lemma HeldSame(w: World, z: World, t: Topic)
    requires t in w.server.subs <==> t in z.server.subs
    requires t in w.server.subs ==> z.server.subs[t] == w.server.subs[t]
    ensures Held(z.server, t) == Held(w.server, t)
  {}

  lemma FlowPut(w: World, u: Topic, t: Topic)
    requires !Leaving(w, t)
    ensures Flow(Step(w, ForwarderPut(u)), t) == Flow(w, t) && !Leaving(Step(w, ForwarderPut(u)), t)
  {
    hide Pick;
    var put, z := Handing(w.server, u), Step(w, ForwarderPut(u));
    if put.Some? && !w.closed {
      PickSnoc(PayloadOn(t), w.hist.enqueued, put.value);
      HandHeld(w.server, u, t);
      assert z.server == HandOn(w.server, u) && z.toServer == w.toServer;
      assert z.hist.enqueued == w.hist.enqueued + [put.value] && put.value.Event? && put.value.topic == u;
      hide Step, Held, HandOn, Handing;
      Regroup(Pick(PayloadOn(t), w.hist.enqueued), if u == t then [put.value.payload] else [], Held(z.server, t));
    } else {
      assert w.hist.enqueued + [] == w.hist.enqueued;
    }
  }

  lemma Regroup(a: seq<Payload>, b: seq<Payload>, c: seq<Payload>)
    ensures (a + b) + c == a + (b + c)
  {}

  lemma HandHeld(s: Server, u: Topic, t: Topic)
    requires Handing(s, u).Some?
    ensures Held(s, t) == (if u == t then [Handing(s, u).value.payload] else []) + Held(HandOn(s, u), t)
  {
    if u == t {
      assert HandOn(s, u).subs[t] == s.subs[t].(hand := None);
    } else {
      assert Held(HandOn(s, u), t) == Held(s, t);
    }
  }

  lemma {:induction false} UpHolds(actions: seq<Action>)
    ensures var c := Run(actions).client; !c.loopEnded ==> !c.eventsEnded && Sentinel !in c.queue
  {
    if actions != [] {
      var n := |actions| - 1;
      UpHolds(actions[..n]);
      assert Run(actions) == Step(Run(actions[..n]), actions[n]);
      hide Run;
      ClientStep(Run(actions[..n]), actions[n]);
    }
  }

  lemma ClientStep(w: World, a: Action)
    requires !w.client.loopEnded ==> !w.client.eventsEnded && Sentinel !in w.client.queue
    ensures var c := Step(w, a).client; !c.loopEnded ==> !c.eventsEnded && Sentinel !in c.queue
  {}

  // --- subscriptions ------------------------------------------------------------------------------

  function Says(f: Frame, t: Topic): Option<bool> {
    match f
    case Subscribe(topics) => if t in topics then Some(true) else None
    case Unsubscribe(topics) => if t in topics then Some(false) else None
    case _ => None
  }

  /** What the last frame that names `t` says. */
  function LastWord(frames: seq<Frame>, t: Topic): Option<bool> {
    if frames == [] then None
    else if Says(frames[|frames| - 1], t).Some? then Says(frames[|frames| - 1], t)
    else LastWord(frames[..|frames| - 1], t)
  }

  /** Whether the topic is subscribed once everything on the way to the server has been read. */
  predicate WillBe(w: World, t: Topic) {
    match LastWord(w.toServer, t)
    case Some(b) => b
    case None => t in w.server.subs
  }

  lemma {:induction false} LastWordTail(frames: seq<Frame>, t: Topic)
    requires frames != []
    ensures LastWord(frames, t) ==
            if LastWord(frames[1..], t).Some? then LastWord(frames[1..], t) else Says(frames[0], t)
  {
    hide Says;
    var n := |frames| - 1;
    if n == 0 {
      assert LastWord(frames[..0], t) == None;
    } else {
      assert frames[1..][..n - 1] == frames[..n][1..] && frames[1..][n - 1] == frames[n];
      LastWordTail(frames[..n], t);
    }
  }

  lemma WillBeKept(w: World, a: Action, t: Topic)
    requires Own(a)
    ensures WillBe(Step(w, a), t) == WillBe(w, t)
  {
    if a.ServerRead? && w.toServer != [] {
      LastWordTail(w.toServer, t);
    }
    hide LastWord;
  }

  /** Nothing of a topic that is not being left is lost between `w` and `z`. */
  ghost predicate FlowsKept(w: World, z: World) {
    && (forall t: Topic :: !Leaving(w, t) ==> Flow(z, t) == Flow(w, t) && !Leaving(z, t))
    && (forall t: Topic :: WillBe(z, t) == WillBe(w, t))
  }

  lemma StepFlows(w: World, a: Action)
    requires Own(a) && RpcHolds(w)
    ensures FlowsKept(w, Step(w, a))
  {
    hide Step, Flow, Leaving, RpcHolds, Own, WillBe;
    forall t: Topic
      ensures WillBe(Step(w, a), t) == WillBe(w, t)
    {
      WillBeKept(w, a, t);
    }
    forall t: Topic | !Leaving(w, t)
      ensures Flow(Step(w, a), t) == Flow(w, t) && !Leaving(Step(w, a), t)
    {
      FlowKept(w, a, t);
    }
  }

  lemma FlowsTwice(w: World, y: World, z: World)
    requires FlowsKept(w, y) && FlowsKept(y, z)
    ensures FlowsKept(w, z)
  {
    hide Flow, Leaving, WillBe;
  }

  lemma FlowsSelf(w: World)
    ensures FlowsKept(w, w)
  {}

  lemma OneMoreOwn(a: Action, rest: seq<Action>)
    requires Own(a) && AllOwn(rest)
    ensures AllOwn([a] + rest)
  {
    hide Own;
  }

  lemma {:induction false} Drain(actions: seq<Action>) returns (more: seq<Action>)
    requires Up(Run(actions))
    ensures AllOwn(more) && Up(Run(actions + more)) && Idle(Run(actions + more))
    ensures FlowsKept(Run(actions), Run(actions + more))
    decreases Work(Run(actions))
  {
    hide Run, Step, Up, Idle, Work, Next, Own, FlowsKept, Inv;
    var w := Run(actions);
    if Idle(w) {
      more := [];
      assert actions + more == actions;
      FlowsSelf(w);
    } else {
      NextWorks(w);
      RunSnoc(actions, Next(w));
      RpcOf(actions);
      StepFlows(w, Next(w));
      var rest := Drain(actions + [Next(w)]);
      OneMoreOwn(Next(w), rest);
      more := [Next(w)] + rest;
      assert actions + more == actions + [Next(w)] + rest;
      FlowsTwice(w, Step(w, Next(w)), Run(actions + more));
    }
  }

  lemma RpcOf(actions: seq<Action>)
    ensures RpcHolds(Run(actions)) && LineHolds(Run(actions)) && QueueHolds(Run(actions))
  {
    hide Run, RpcHolds, LineHolds, QueueHolds;
    RunHolds(actions);
  }

  lemma IdleMeansSeen(w: World, t: Topic)
    requires LineHolds(w) && QueueHolds(w) && Idle(w)
    ensures Seen(w, t) == Flow(w, t) && InFlight(w, t) == [] && Held(w.server, t) == []
  {
    StreamIsSeenPlusInFlight(w, t);
    assert FeedWork(w.server.subs, t) == 0;
    hide Flow, Seen, LineHolds, QueueHolds;
  }

  lemma IdleWillBe(w: World, t: Topic)
    requires Idle(w)
    ensures WillBe(w, t) <==> t in w.server.subs
  {}

  /** What became of topic `t` between `w` and the idle state `z`. */
  ghost predicate Arrived(w: World, z: World, t: Topic) {
    && InFlight(z, t) == []
    && (!Leaving(w, t) ==> Seen(z, t) == Seen(w, t) + InFlight(w, t))
    && (t in z.server.subs <==> WillBe(w, t))
    && (ConfigOf(t).capacity == 0 ==> Seen(z, t) == Kept(SessionsOf(z.hist, t)))
  }

  lemma TopicArrives(actions: seq<Action>, more: seq<Action>, t: Topic)
    requires Idle(Run(actions + more)) && FlowsKept(Run(actions), Run(actions + more))
    ensures Arrived(Run(actions), Run(actions + more), t)
  {
    IdleWillBe(Run(actions + more), t);
    hide Run, Idle, Leaving, WillBe, LineHolds, QueueHolds, RpcHolds, Seen, InFlight;
    RpcOf(actions);
    RpcOf(actions + more);
    IdleMeansSeen(Run(actions + more), t);
    StreamIsSeenPlusInFlight(Run(actions), t);
    if ConfigOf(t).capacity == 0 {
      EventOrder(actions + more, t);
    }
  }

  /** Main result, progress: while both ends are up, the connection's own tasks can finish
      everything: every event in transit is yielded, in order and none lost, unless an unsubscribe
      for its topic is on its way; a topic ends subscribed as the last frame naming it says; every
      issued request is answered; nothing is left over. */
  lemma EverythingArrives(actions: seq<Action>) returns (more: seq<Action>)
    requires !Run(actions).closed && !Run(actions).client.loopEnded
    ensures AllOwn(more) && Up(Run(actions + more)) && Idle(Run(actions + more))
    ensures forall t: Topic :: Arrived(Run(actions), Run(actions + more), t)
    ensures Pick(ResponseId(), Run(actions + more).hist.received) == Run(actions + more).hist.issued
  {
    hide Run, FlowsKept, Arrived;
    UpHolds(actions);
    more := Drain(actions);
    RequestOrder(actions + more);
    forall t: Topic
      ensures Arrived(Run(actions), Run(actions + more), t)
    {
      TopicArrives(actions, more, t);
    }
    AllAnswered(Run(actions + more));
  }

  lemma AllAnswered(w: World)
    requires Idle(w)
    requires var r := ResponseId();
             Pick(r, w.hist.received) + Pick(r, w.toClient) + Pick(r, ToSeq(w.server.writerHand))
             + Pick(r, w.server.outbound) + InReader(w.server.reader) + Pick(RequestId(), w.toServer)
             == w.hist.issued
    ensures Pick(ResponseId(), w.hist.received) == w.hist.issued
  {}

  // --- one thing at a time ----------------------------------------------------------------------

  /** A subscribe sent now takes effect. */
  lemma SubscribeTakes(actions: seq<Action>, topics: seq<Topic>, t: Topic) returns (more: seq<Action>)
    requires !Run(actions).closed && !Run(actions).client.loopEnded && t in topics
    ensures AllOwn(more) && t in Run(actions + [Send(Frame.Subscribe(topics))] + more).server.subs
  {
    var sent := actions + [Send(Frame.Subscribe(topics))];
    RunSnoc(actions, Send(Frame.Subscribe(topics)));
    hide Run;
    more := EverythingArrives(sent);
    assert Arrived(Run(sent), Run(sent + more), t);
    assert WillBe(Run(sent), t);
    hide WillBe;
  }

  lemma UnsubscribeTakes(actions: seq<Action>, topics: seq<Topic>, t: Topic) returns (more: seq<Action>)
    requires !Run(actions).closed && !Run(actions).client.loopEnded && t in topics
    ensures AllOwn(more) && t !in Run(actions + [Send(Frame.Unsubscribe(topics))] + more).server.subs
  {
    var sent := actions + [Send(Frame.Unsubscribe(topics))];
    RunSnoc(actions, Send(Frame.Unsubscribe(topics)));
    hide Run;
    more := EverythingArrives(sent);
    assert Arrived(Run(sent), Run(sent + more), t);
    assert !WillBe(Run(sent), t);
    hide WillBe;
  }

  /** Room for one more event of the topic, in numbers. */
  predicate Room(t: Topic, queue: seq<Payload>) {
    match t
    case Runs => true
    case HyprEvents => |queue| < 256
    case Logs => |queue| < 1024
  }

  /** How full the queues can be, in numbers, and that nobody is written off. */
  ghost predicate Bounded(s: Server) {
    && |s.outbound| <= 4000
    && (HyprEvents in s.subs ==> |s.subs[HyprEvents].sub.queue| <= 256)
    && (Logs in s.subs ==> |s.subs[Logs].sub.queue| <= 1024)
    && forall t :: t in s.subs ==> !s.subs[t].sub.disconnected
  }

  lemma StepBounded(w: World, a: Action)
    requires Bounded(w.server)
    ensures Bounded(Step(w, a).server)
  {}

  lemma {:induction false} QueuesBounded(actions: seq<Action>)
    ensures Bounded(Run(actions).server)
  {
    if actions != [] {
      var n := |actions| - 1;
      QueuesBounded(actions[..n]);
      assert Run(actions) == Step(Run(actions[..n]), actions[n]);
      hide Run, Step, Bounded;
      StepBounded(Run(actions[..n]), actions[n]);
    }
  }

  /** A published event with room in its queue joins what the topic has in the connection. */
  lemma PublishFlows(w: World, t: Topic, p: Payload)
    requires Bounded(w.server) && !w.closed && t in w.server.subs && Room(t, w.server.subs[t].sub.queue)
    ensures Flow(Step(w, Publish(t, p)), t) == Flow(w, t) + [p]
    ensures !Leaving(w, t) ==> !Leaving(Step(w, Publish(t, p)), t)
  {
    hide Pick;
    assert Held(Step(w, Publish(t, p)).server, t) == Held(w.server, t) + [p];
  }

  /** Main result: an event published now, with room in its queue and no unsubscribe under way,
      reaches the client after everything before it. */
  lemma PublishArrives(actions: seq<Action>, t: Topic, p: Payload) returns (more: seq<Action>)
    requires var w := Run(actions);
             && !w.closed && !w.client.loopEnded && !Leaving(w, t)
             && t in w.server.subs && Room(t, w.server.subs[t].sub.queue)
    ensures AllOwn(more)
    ensures var w := Run(actions);
            Seen(Run(actions + [Publish(t, p)] + more), t) == Seen(w, t) + InFlight(w, t) + [p]
  {
    var sent := actions + [Publish(t, p)];
    RunSnoc(actions, Publish(t, p));
    QueuesBounded(actions);
    PublishFlows(Run(actions), t, p);
    RpcOf(actions);
    RpcOf(sent);
    hide Run, Flow, Leaving, LineHolds, QueueHolds, RpcHolds, Seen, InFlight, Room, Bounded;
    more := EverythingArrives(sent);
    assert Arrived(Run(sent), Run(sent + more), t);
    StreamIsSeenPlusInFlight(Run(actions), t);
    StreamIsSeenPlusInFlight(Run(sent), t);
    FlowIs(Run(actions), t);
    FlowIs(Run(sent), t);
  }

  lemma FlowIs(w: World, t: Topic)
    ensures Flow(w, t) == Pick(PayloadOn(t), w.hist.enqueued) + Held(w.server, t)
  {}

  lemma {:induction false} NotDroppedLater(actions: seq<Action>, more: seq<Action>, id: Id)
    requires !Dropped(actions, id) && forall i :: 0 <= i < |more| ==> !more[i].Drop?
    ensures !Dropped(actions + more, id)
  {
    if more == [] {
      assert actions + more == actions;
    } else {
      var n := |more| - 1;
      NotDroppedLater(actions, more[..n], id);
      assert actions + more == (actions + more[..n]) + [more[n]];
      hide Dropped, Run;
      DroppedNext(actions + more, id);
      assert (actions + more)[..|actions + more| - 1] == actions + more[..n];
    }
  }

  lemma IdleParts(w: World)
    requires Idle(w)
    ensures w.toServer == [] && w.server.reader.Ready? && w.server.outbound == [] && w.server.writerHand.None?
    ensures w.toClient == [] && w.client.queue == []
  {}

  lemma IssueIs(w: World, id: Id)
    requires !w.closed && !w.client.loopEnded && id !in w.hist.issued
    ensures var z := Step(w, Issue(id)); id in z.hist.issued && !z.closed && !z.client.loopEnded
  {}

  lemma NeverDropped(actions: seq<Action>, id: Id)
    requires id !in Run(actions).hist.issued
    ensures !Dropped(actions, id)
  {
    RunHoldsFuture(actions, id);
    hide Run, Dropped;
  }

  /** Main result: a request issued now gets the server's answer. */
  lemma RequestGetsAnswer(actions: seq<Action>, id: Id) returns (more: seq<Action>)
    requires !Run(actions).closed && !Run(actions).client.loopEnded && id !in Run(actions).hist.issued
    ensures AllOwn(more)
    ensures var z := Run(actions + [Issue(id)] + more);
            && id in z.hist.answers && id in z.client.futures
            && z.client.futures[id] == Resolved(z.hist.answers[id])
  {
    var sent := actions + [Issue(id)];
    hide Run, Dropped, Arrived, Idle, Up;
    RunSnoc(actions, Issue(id));
    IssueIs(Run(actions), id);
    NeverDropped(actions, id);
    hide Step;
    more := EverythingArrives(sent);
    IdleParts(Run(sent + more));
    IssuedStays(sent, more, id);
    NotDroppedLater(actions, [Issue(id)] + more, id);
    assert actions + ([Issue(id)] + more) == sent + more;
    Quiescent(sent + more, id, Runs);
  }

  lemma StepIssued(w: World, a: Action, id: Id)
    requires id in w.hist.issued
    ensures id in Step(w, a).hist.issued
  {}

  lemma {:induction false} IssuedStays(actions: seq<Action>, more: seq<Action>, id: Id)
    requires id in Run(actions).hist.issued
    ensures id in Run(actions + more).hist.issued
  {
    hide Run, Step;
    if more == [] {
      assert actions + more == actions;
    } else {
      var n := |more| - 1;
      IssuedStays(actions, more[..n], id);
      assert actions + more == (actions + more[..n]) + [more[n]];
      RunSnoc(actions + more[..n], more[n]);
      StepIssued(Run(actions + more[..n]), more[n], id);
    }
  }

  /** Who puts on the outbound queue waits exactly while 4000 frames are on it. */
  lemma OutboundRoom(w: World, t: Topic)
    requires Bounded(w.server) && !w.closed
    ensures t in w.server.subs && w.server.subs[t].hand.Some? ==>
              var z := Step(w, ForwarderPut(t));
              && (z.server.outbound == w.server.outbound <==> |w.server.outbound| == 4000)
              && (|w.server.outbound| < 4000 ==>
                    z.server.outbound == w.server.outbound + [Event(t, w.server.subs[t].hand.value)])
    ensures w.server.reader.Replying? ==>
              var z := Step(w, ServerReply);
              && (z.server.outbound == w.server.outbound <==> |w.server.outbound| == 4000)
              && (|w.server.outbound| < 4000 ==>
                    z.server.outbound == w.server.outbound + [w.server.reader.reply] && z.server.reader == Ready)
  {}
}
