/** One connection end to end: bus, forwarders, outbound queue, writer, wire, client read
    loop and `events()`, as interleaved atomic steps. All theorems are about `Run`, the
    state after any list of actions. */
module Protocol {
  import opened Sequences
  import opened PubSubs
  import opened Wire

  /** What was published to the connection between one subscribe and the next unsubscribe,
      and how many of the last messages that unsubscribe threw away. */
  datatype Session = Session(published: seq<Payload>, lost: nat)

  /** Everything that happened, kept for the statements only. */
  datatype History = History(
    issued: seq<Id>,                     // requests sent, in order
    answers: map<Id, Body>,              // what the server's handlers answered
    enqueued: seq<Frame>,                // frames put on the outbound queue
    received: seq<Frame>,                // frames the client's read loop has processed
    yielded: seq<(Topic, Payload)>,      // what events() has produced
    sessions: map<Topic, seq<Session>>)

  datatype World = World(
    server: Server, closed: bool, client: Client, toServer: seq<Frame>, toClient: seq<Frame>, hist: History)

  const START := World(
    Server(map[], [], None, Ready), false, NEW_CLIENT, [], [],
    History([], map[], [], [], [], map[Runs := [], HyprEvents := [], Logs := []]))

  datatype Action =
    | Publish(topic: Topic, payload: Payload)
    | Issue(id: Id)
    | Drop(id: Id)                        // a waiting request() is cancelled
    | Send(frame: Frame)                  // subscribe, unsubscribe, or anything that is not a request
    | ServerRead
    | ServerFinish(end: HandlerEnd)
    | ServerReply
    | ForwarderTake(topic: Topic)
    | ForwarderPut(topic: Topic)
    | WriterGet(timedOut: bool)
    | WriterSend
    | Close                               // the connection handler tears down, at any moment
    | ClientRead
    | ClientEnd                           // the read loop ends: EOF, a bad frame, or close()
    | Yield

  function SessionsOf(h: History, t: Topic): seq<Session> {
    if t in h.sessions then h.sessions[t] else []
  }

  function Held(s: Server, t: Topic): seq<Payload> {
    if t in s.subs then ToSeq(s.subs[t].hand) + s.subs[t].sub.queue else []
  }

  function WithLast(ss: seq<Session>, last: Session): seq<Session>
    requires ss != []
  {
    ss[..|ss| - 1] + [last]
  }

  function NotePublished(ss: seq<Session>, p: Payload): seq<Session> {
    if ss == [] then ss
    else WithLast(ss, ss[|ss| - 1].(published := ss[|ss| - 1].published + [p]))
  }

  function NoteClosed(ss: seq<Session>, lost: nat): seq<Session> {
    if ss == [] then ss else WithLast(ss, ss[|ss| - 1].(lost := lost))
  }

  function NoteRead(w: World, f: Frame): map<Topic, seq<Session>> {
    var all, subs := w.hist.sessions, w.server.subs;
    match f
    case Subscribe(topics) =>
      map t | t in all :: if t in topics && t !in subs then all[t] + [Session([], 0)] else all[t]
    case Unsubscribe(topics) =>
      map t | t in all :: if t in topics && t in subs then NoteClosed(all[t], |Held(w.server, t)|) else all[t]
    case _ => all
  }

  function Enqueue(h: History, f: Option<Frame>): History {
    h.(enqueued := h.enqueued + ToSeq(f))
  }

  function Step(w: World, a: Action): World {
    match a
    case Publish(t, p) =>
      if w.closed || t !in w.server.subs then w
      else
        var ss := w.hist.sessions[t := NotePublished(SessionsOf(w.hist, t), p)];
        w.(server := Deliver(w.server, t, p), hist := w.hist.(sessions := ss))
    case Issue(id) =>
      if id in w.hist.issued then w
      else w.(client := Register(w.client, id), toServer := w.toServer + [Request(id)],
              hist := w.hist.(issued := w.hist.issued + [id]))
    case Drop(id) =>
      w.(client := Abandon(w.client, id))
    case Send(f) =>
      if f.Request? then w else w.(toServer := w.toServer + [f])
    case ServerRead =>
      if w.closed || w.toServer == [] || !w.server.reader.Ready? then w
      else
        var f := w.toServer[0];
        w.(server := ReadFrame(w.server, f), toServer := w.toServer[1..],
           hist := w.hist.(sessions := NoteRead(w, f)))
    case ServerFinish(end) =>
      if w.closed || !w.server.reader.Dispatching? then w
      else w.(server := FinishDispatch(w.server, end),
              hist := w.hist.(answers := w.hist.answers[w.server.reader.id := BodyOf(end)]))
    case ServerReply =>
      if w.closed then w
      else w.(server := PutReply(w.server), hist := Enqueue(w.hist, Reply(w.server)))
    case ForwarderTake(t) =>
      if w.closed then w else w.(server := Take(w.server, t))
    case ForwarderPut(t) =>
      if w.closed then w
      else w.(server := HandOn(w.server, t), hist := Enqueue(w.hist, Handing(w.server, t)))
    case WriterGet(timedOut) =>
      if w.closed then w else w.(server := WriterTake(w.server, timedOut))
    case WriterSend =>
      if w.closed || w.server.writerHand.None? then w
      else w.(server := w.server.(writerHand := None), toClient := w.toClient + [w.server.writerHand.value])
    case Close =>
      w.(closed := true)
    case ClientRead =>
      if w.client.loopEnded || w.toClient == [] then w
      else
        var f := w.toClient[0];
        w.(client := OnFrame(w.client, f), toClient := w.toClient[1..],
           hist := w.hist.(received := w.hist.received + [f]))
    case ClientEnd =>
      if w.client.loopEnded then w else w.(client := EndLoop(w.client))
    case Yield =>
      if w.client.eventsEnded || w.client.queue == [] then w
      else
        var item, rest := w.client.queue[0], w.client.queue[1..];
        match item
        case Sentinel => w.(client := w.client.(queue := rest, eventsEnded := true))
        case EventItem(t, p) =>
          w.(client := w.client.(queue := rest), hist := w.hist.(yielded := w.hist.yielded + [(t, p)]))
  }

  function Run(actions: seq<Action>): World {
    if actions == [] then START else Step(Run(actions[..|actions| - 1]), actions[|actions| - 1])
  }

  // --- projections ---------------------------------------------------------------------

  function NotPing(): Frame -> Option<Frame> {
    (f: Frame) => if f.Ping? then None else Some(f)
  }

  function ResponseId(): Frame -> Option<Id> {
    (f: Frame) => if f.Response? then Some(f.id) else None
  }

  function RequestId(): Frame -> Option<Id> {
    (f: Frame) => if f.Request? then Some(f.id) else None
  }

  function PayloadOn(t: Topic): Frame -> Option<Payload> {
    (f: Frame) => if f.Event? && f.topic == t then Some(f.payload) else None
  }

  function EventOf(): Frame -> Option<(Topic, Payload)> {
    (f: Frame) => if f.Event? then Some((f.topic, f.payload)) else None
  }

  function ItemEvent(): Item -> Option<(Topic, Payload)> {
    (i: Item) => if i.EventItem? then Some((i.topic, i.payload)) else None
  }

  /** Frames on their way from the outbound queue to the client, and those already there. */
  function Line(w: World): seq<Frame> {
    w.hist.received + w.toClient + ToSeq(w.server.writerHand) + w.server.outbound
  }

  function InReader(r: Reader): seq<Id> {
    match r
    case Ready => []
    case Dispatching(id) => [id]
    case Replying(f) => Pick(ResponseId(), [f])
  }

  /** Messages of finished sessions that were let through, then the whole open session. */
  function Kept(ss: seq<Session>): seq<Payload> {
    if ss == [] then []
    else
      var last := ss[|ss| - 1];
      Kept(ss[..|ss| - 1]) +
      if last.lost <= |last.published| then last.published[..|last.published| - last.lost] else last.published
  }

  function Published(ss: seq<Session>): seq<Payload> {
    if ss == [] then [] else Published(ss[..|ss| - 1]) + ss[|ss| - 1].published
  }

  // --- the invariants --------------------------------------------------------------------

  /** Apart from pings, the line carries exactly what was put on the outbound queue. */
  ghost predicate LineHolds(w: World) {
    Pick(NotPing(), Line(w)) == w.hist.enqueued
  }

  /** Requests answered, being answered and still on the wire are the issued ones, in order. */
  ghost predicate RpcHolds(w: World) {
    && Pick(ResponseId(), w.hist.enqueued) + InReader(w.server.reader) + Pick(RequestId(), w.toServer)
       == w.hist.issued
    && Distinct(w.hist.issued)
    && (w.server.reader.Replying? ==> w.server.reader.reply.Response?)
  }

  /** Every response anywhere carries what the server answered to that id. */
  ghost predicate AnswersHold(w: World) {
    && (forall f :: f in w.hist.enqueued && f.Response? ==> f.id in w.hist.answers && w.hist.answers[f.id] == f.body)
    && (w.server.reader.Replying? && w.server.reader.reply.Response? ==>
          var f := w.server.reader.reply; f.id in w.hist.answers && w.hist.answers[f.id] == f.body)
  }

  ghost predicate FeedHolds(w: World, t: Topic) {
    var ss := SessionsOf(w.hist, t);
    var stream := Pick(PayloadOn(t), w.hist.enqueued) + Held(w.server, t);
    && t in w.hist.sessions
    && (t in w.server.subs ==>
          ss != [] && ss[|ss| - 1].lost == 0 && |Held(w.server, t)| <= |ss[|ss| - 1].published|)
    && Subsequence(stream, Published(ss))
    && (ConfigOf(t).capacity == 0 ==>
          stream == Kept(ss) && (t in w.server.subs ==> !w.server.subs[t].sub.disconnected))
  }

  /** The client's queue and what events() produced are the events received, in order. */
  ghost predicate QueueHolds(w: World) {
    Pick(EventOf(), w.hist.received) == w.hist.yielded + Pick(ItemEvent(), w.client.queue)
  }

  /** A future waits exactly while its response has not been received; once resolved it
      holds the server's answer to its own request. */
  ghost predicate FuturesHold(w: World) {
    var c, got := w.client, Pick(ResponseId(), w.hist.received);
    && (forall id :: id in c.futures <==> id in w.hist.issued)
    && (forall id :: id in c.pending <==> id in w.hist.issued && id !in got)
    && (forall id :: id in c.futures && c.futures[id].Waiting? ==> id in c.pending)
    && (forall id :: id in c.futures && c.futures[id].Resolved? ==>
          id !in c.pending && id in w.hist.answers && c.futures[id].body == w.hist.answers[id])
  }

  ghost predicate Inv(w: World) {
    && LineHolds(w)
    && RpcHolds(w)
    && AnswersHold(w)
    && QueueHolds(w)
    && FuturesHold(w)
    && forall t: Topic :: FeedHolds(w, t)
  }

  // --- each action keeps them ----------------------------------------------------------------

  lemma StepLine(w: World, a: Action)
    requires LineHolds(w) && RpcHolds(w)
    ensures LineHolds(Step(w, a))
  {
    hide *;
    match a
    case ServerReply => LineReply(w);
    case ForwarderPut(t) => LineForward(w, t);
    case WriterGet(timedOut) => LineWriter(w, timedOut);
    case _ => LineOther(w, a);
  }

  lemma LineReply(w: World)
    requires LineHolds(w) && RpcHolds(w)
    ensures LineHolds(Step(w, ServerReply))
  {
    hide Pick;
    LineGrows(w, Step(w, ServerReply), if w.closed then None else Reply(w.server));
  }

  lemma LineForward(w: World, t: Topic)
    requires LineHolds(w)
    ensures LineHolds(Step(w, ForwarderPut(t)))
  {
    hide Pick;
    LineGrows(w, Step(w, ForwarderPut(t)), if w.closed then None else Handing(w.server, t));
  }

  lemma LineGrows(w: World, w': World, put: Option<Frame>)
    requires LineHolds(w) && (put.Some? ==> put.value != Ping)
    requires w'.server.outbound == w.server.outbound + ToSeq(put)
    requires w'.server.writerHand == w.server.writerHand && w'.toClient == w.toClient
    requires w'.hist.received == w.hist.received && w'.hist.enqueued == w.hist.enqueued + ToSeq(put)
    ensures LineHolds(w')
  {
    assert Line(w') == Line(w) + ToSeq(put);
    if put.Some? {
      PickSnoc(NotPing(), Line(w), put.value);
    } else {
      assert Line(w') == Line(w);
    }
  }

  lemma LineWriter(w: World, timedOut: bool)
    requires LineHolds(w)
    ensures LineHolds(Step(w, WriterGet(timedOut)))
  {
    hide Pick;
    var w', f := Step(w, WriterGet(timedOut)), NotPing();
    if !w.closed && w.server.writerHand.None? && timedOut {
      var front := w.hist.received + w.toClient;
      assert Line(w) == front + w.server.outbound;
      assert Line(w') == front + [Ping] + w.server.outbound;
      PickSnoc(f, front, Ping);
      PickConcat(f, front, w.server.outbound);
      PickConcat(f, front + [Ping], w.server.outbound);
    } else {
      assert Line(w') == Line(w);
    }
  }

  lemma LineOther(w: World, a: Action)
    requires LineHolds(w) && !a.ServerReply? && !a.ForwarderPut? && !a.WriterGet?
    ensures LineHolds(Step(w, a))
  {
    hide Pick;
    var w' := Step(w, a);
    assert Line(w') == Line(w);
    assert w'.hist.enqueued == w.hist.enqueued;
  }

  // --- requests ------------------------------------------------------------------------------

  lemma StepRpc(w: World, a: Action)
    requires RpcHolds(w)
    ensures RpcHolds(Step(w, a))
  {
    hide *;
    match a
    case Issue(id) => RpcIssue(w, id);
    case Send(f) => RpcSend(w, f);
    case ServerRead => RpcRead(w);
    case ServerFinish(end) => RpcFinish(w, end);
    case ServerReply => RpcReply(w);
    case ForwarderPut(t) => RpcForward(w, t);
    case _ => RpcOther(w, a);
  }

  lemma RpcIssue(w: World, id: Id)
    requires RpcHolds(w)
    ensures RpcHolds(Step(w, Issue(id)))
  {
    hide Pick;
    PickSnoc(RequestId(), w.toServer, Request(id));
  }

  lemma RpcSend(w: World, f: Frame)
    requires RpcHolds(w)
    ensures RpcHolds(Step(w, Send(f)))
  {
    hide Pick;
    PickSnoc(RequestId(), w.toServer, f);
  }

  lemma RpcRead(w: World)
    requires RpcHolds(w)
    ensures RpcHolds(Step(w, ServerRead))
  {
    hide Pick;
    if w.toServer != [] {
      PickHead(RequestId(), w.toServer);
    }
  }

  lemma RpcFinish(w: World, end: HandlerEnd)
    requires RpcHolds(w)
    ensures RpcHolds(Step(w, ServerFinish(end)))
  {
    hide Pick;
    if w.server.reader.Dispatching? {
      PickOne(ResponseId(), Response(w.server.reader.id, BodyOf(end)));
    }
  }

  lemma RpcReply(w: World)
    requires RpcHolds(w)
    ensures RpcHolds(Step(w, ServerReply))
  {
    hide Pick;
    if w.server.reader.Replying? {
      PickSnoc(ResponseId(), w.hist.enqueued, w.server.reader.reply);
      PickOne(ResponseId(), w.server.reader.reply);
    }
    assert w.hist.enqueued + [] == w.hist.enqueued;
  }

  lemma RpcForward(w: World, t: Topic)
    requires RpcHolds(w)
    ensures RpcHolds(Step(w, ForwarderPut(t)))
  {
    hide Pick;
    var put := Handing(w.server, t);
    if put.Some? {
      PickSnoc(ResponseId(), w.hist.enqueued, put.value);
    }
    assert w.hist.enqueued + [] == w.hist.enqueued;
  }

  lemma RpcOther(w: World, a: Action)
    requires RpcHolds(w)
    requires a.Publish? || a.Drop? || a.ForwarderTake? || a.WriterGet? || a.WriterSend? || a.Close? || a.ClientRead?
             || a.ClientEnd? || a.Yield?
    ensures RpcHolds(Step(w, a))
  {
    var w' := Step(w, a);
    assert w'.hist.enqueued == w.hist.enqueued && w'.hist.issued == w.hist.issued;
    assert w'.server.reader == w.server.reader && w'.toServer == w.toServer;
  }

  // --- answers ---------------------------------------------------------------------------------

  lemma StepAnswers(w: World, a: Action)
    requires AnswersHold(w) && RpcHolds(w)
    ensures AnswersHold(Step(w, a))
  {
    hide Pick;
    if a.ServerFinish? && w.server.reader.Dispatching? {
      AnswerIsNew(w);
    }
  }

  /** The request being dispatched has no response in the queue yet. */
  lemma AnswerIsNew(w: World)
    requires RpcHolds(w) && w.server.reader.Dispatching?
    ensures forall f :: f in w.hist.enqueued && f.Response? ==> f.id != w.server.reader.id
    ensures w.server.reader.id !in Pick(ResponseId(), w.hist.enqueued)
  {
    hide Pick;
    var done, id := Pick(ResponseId(), w.hist.enqueued), w.server.reader.id;
    assert w.hist.issued[|done|] == id;
    assert forall k :: 0 <= k < |done| ==> w.hist.issued[k] == done[k];
    forall f | f in w.hist.enqueued && f.Response?
      ensures f.id != id
    {
      PickMember(ResponseId(), w.hist.enqueued, f);
    }
  }

  // --- the client --------------------------------------------------------------------------------

  lemma StepQueue(w: World, a: Action)
    requires QueueHolds(w)
    ensures QueueHolds(Step(w, a))
  {
    hide *;
    match a
    case ClientRead => QueueRead(w);
    case ClientEnd => QueueEnd(w);
    case Yield => QueueYield(w);
    case _ => QueueOther(w, a);
  }

  lemma QueueRead(w: World)
    requires QueueHolds(w)
    ensures QueueHolds(Step(w, ClientRead))
  {
    hide Pick;
    if w.toClient != [] {
      var f := w.toClient[0];
      PickSnoc(EventOf(), w.hist.received, f);
      if f.Event? {
        PickSnoc(ItemEvent(), w.client.queue, EventItem(f.topic, f.payload));
      }
    }
  }

  lemma QueueEnd(w: World)
    requires QueueHolds(w)
    ensures QueueHolds(Step(w, ClientEnd))
  {
    hide Pick;
    PickSnoc(ItemEvent(), w.client.queue, Sentinel);
  }

  lemma QueueYield(w: World)
    requires QueueHolds(w)
    ensures QueueHolds(Step(w, Yield))
  {
    hide Pick;
    if w.client.queue != [] {
      PickHead(ItemEvent(), w.client.queue);
    }
  }

  lemma QueueOther(w: World, a: Action)
    requires QueueHolds(w) && !a.ClientRead? && !a.ClientEnd? && !a.Yield?
    ensures QueueHolds(Step(w, a))
  {
    hide Pick;
    var w' := Step(w, a);
    assert w'.hist.received == w.hist.received && w'.hist.yielded == w.hist.yielded;
    assert w'.client.queue == w.client.queue;
  }

  /** All responses in the system, received ones first, are a prefix of the issued ids. */
  lemma LineResponses(w: World)
    requires LineHolds(w) && RpcHolds(w)
    ensures Pick(ResponseId(), Line(w)) == Pick(ResponseId(), w.hist.enqueued)
    ensures Pick(ResponseId(), Line(w)) <= w.hist.issued
  {
    PickTwice(NotPing(), ResponseId(), ResponseId(), Line(w));
  }

  lemma StepFutures(w: World, a: Action)
    requires FuturesHold(w) && LineHolds(w) && RpcHolds(w) && AnswersHold(w)
    ensures FuturesHold(Step(w, a))
  {
    hide *;
    match a
    case Issue(id) => FuturesIssue(w, id);
    case ServerFinish(end) => FuturesFinish(w, end);
    case ClientRead => FuturesRead(w);
    case _ => FuturesOther(w, a);
  }

  lemma ReceivedIssued(w: World)
    requires LineHolds(w) && RpcHolds(w)
    ensures forall id :: id in Pick(ResponseId(), w.hist.received) ==>
              id in w.hist.issued && id in Pick(ResponseId(), w.hist.enqueued)
  {
    var got := Pick(ResponseId(), w.hist.received);
    assert got <= Pick(ResponseId(), Line(w)) by {
      hide *;
      ReceivedFirst(w);
    }
    hide Pick, RpcHolds, LineHolds;
    LineResponses(w);
  }

  lemma ReceivedFirst(w: World)
    ensures Pick(ResponseId(), w.hist.received) <= Pick(ResponseId(), Line(w))
  {
    hide Pick;
    var rest := w.toClient + ToSeq(w.server.writerHand) + w.server.outbound;
    assert Line(w) == w.hist.received + rest;
    PickConcat(ResponseId(), w.hist.received, rest);
  }

  lemma FuturesIssue(w: World, id: Id)
    requires FuturesHold(w) && LineHolds(w) && RpcHolds(w)
    ensures FuturesHold(Step(w, Issue(id)))
  {
    ReceivedIssued(w);
    hide Pick, LineHolds, RpcHolds;
  }

  lemma FuturesFinish(w: World, end: HandlerEnd)
    requires FuturesHold(w) && LineHolds(w) && RpcHolds(w)
    ensures FuturesHold(Step(w, ServerFinish(end)))
  {
    if !w.closed && w.server.reader.Dispatching? {
      hide *;
      ReceivedIssued(w);
      AnswerIsNew(w);
      FuturesAnswer(w, end);
    } else {
      hide FuturesHold;
    }
  }

  lemma FuturesAnswer(w: World, end: HandlerEnd)
    requires FuturesHold(w) && !w.closed && w.server.reader.Dispatching?
    requires forall id :: id in Pick(ResponseId(), w.hist.received) ==> id in Pick(ResponseId(), w.hist.enqueued)
    requires w.server.reader.id !in Pick(ResponseId(), w.hist.enqueued)
    ensures FuturesHold(Step(w, ServerFinish(end)))
  {
    hide Pick;
    assert forall id :: id in w.client.futures && id !in w.client.pending ==>
                          id in Pick(ResponseId(), w.hist.received);
  }

  lemma FuturesRead(w: World)
    requires FuturesHold(w) && LineHolds(w) && RpcHolds(w) && AnswersHold(w)
    ensures FuturesHold(Step(w, ClientRead))
  {
    if w.toClient != [] && !w.client.loopEnded && w.toClient[0].Response? {
      hide *;
      HeadIsNew(w);
      HeadAnswered(w);
      FuturesResolve(w);
    } else {
      hide *;
      FuturesSkip(w);
    }
  }

  lemma FuturesSkip(w: World)
    requires FuturesHold(w) && (w.toClient == [] || w.client.loopEnded || !w.toClient[0].Response?)
    ensures FuturesHold(Step(w, ClientRead))
  {
    hide Pick;
    if w.toClient != [] && !w.client.loopEnded {
      PickSnoc(ResponseId(), w.hist.received, w.toClient[0]);
      assert Pick(ResponseId(), w.hist.received + [w.toClient[0]]) == Pick(ResponseId(), w.hist.received);
    }
  }

  lemma FuturesResolve(w: World)
    requires FuturesHold(w) && !w.client.loopEnded
    requires w.toClient != [] && w.toClient[0].Response?
    requires w.toClient[0].id in w.hist.issued && w.toClient[0].id !in Pick(ResponseId(), w.hist.received)
    requires var f := w.toClient[0]; f.id in w.hist.answers && w.hist.answers[f.id] == f.body
    ensures FuturesHold(Step(w, ClientRead))
  {
    hide Pick;
    var f, got := w.toClient[0], Pick(ResponseId(), w.hist.received);
    PickSnoc(ResponseId(), w.hist.received, f);
    assert forall id :: id in got + [f.id] <==> id in got || id == f.id;
  }

  /** The response the client reads next is the first for its id. */
  lemma HeadIsNew(w: World)
    requires LineHolds(w) && RpcHolds(w)
    requires w.toClient != [] && w.toClient[0].Response?
    ensures w.toClient[0].id in w.hist.issued && w.toClient[0].id !in Pick(ResponseId(), w.hist.received)
  {
    var f, got := w.toClient[0], Pick(ResponseId(), w.hist.received);
    var all := Pick(ResponseId(), Line(w));
    assert got + [f.id] <= all by {
      hide *;
      HeadFollows(w);
    }
    assert all <= w.hist.issued by {
      LineResponses(w);
    }
    assert Distinct(w.hist.issued);
    hide *;
    DistinctPrefix(got, f.id, w.hist.issued);
  }

  lemma DistinctPrefix(pre: seq<Id>, x: Id, all: seq<Id>)
    requires pre + [x] <= all && Distinct(all)
    ensures x in all && x !in pre
  {
    assert all[|pre|] == x;
    assert forall k :: 0 <= k < |pre| ==> pre[k] == all[k];
  }

  lemma HeadFollows(w: World)
    requires w.toClient != [] && w.toClient[0].Response?
    ensures Pick(ResponseId(), w.hist.received) + [w.toClient[0].id] <= Pick(ResponseId(), Line(w))
  {
    hide Pick;
    var f := w.toClient[0];
    var rest := w.toClient[1..] + ToSeq(w.server.writerHand) + w.server.outbound;
    assert Line(w) == w.hist.received + [f] + rest;
    PickConcat(ResponseId(), w.hist.received + [f], rest);
    PickSnoc(ResponseId(), w.hist.received, f);
  }

  /** ... and it carries what the server answered to that request. */
  lemma HeadAnswered(w: World)
    requires LineHolds(w) && AnswersHold(w)
    requires w.toClient != [] && w.toClient[0].Response?
    ensures var f := w.toClient[0]; f.id in w.hist.answers && w.hist.answers[f.id] == f.body
  {
    hide Pick;
    assert w.toClient[0] in Line(w);
    PickMember(NotPing(), Line(w), w.toClient[0]);
  }

  lemma FuturesOther(w: World, a: Action)
    requires FuturesHold(w) && !a.Issue? && !a.ServerFinish? && !a.ClientRead?
    ensures FuturesHold(Step(w, a))
  {
    hide FuturesHold, Pick;
    var w' := Step(w, a);
    if a.Drop? {
      FuturesDrop(w, a.id);
    } else {
      FuturesSame(w, w');
    }
  }

  lemma FuturesSame(w: World, w': World)
    requires FuturesHold(w)
    requires w'.hist.received == w.hist.received && w'.hist.issued == w.hist.issued
    requires w'.hist.answers == w.hist.answers && w'.client.pending == w.client.pending
    requires w'.client.futures == w.client.futures
    ensures FuturesHold(w')
  {
    hide Pick;
  }

  lemma FuturesDrop(w: World, id: Id)
    requires FuturesHold(w)
    ensures FuturesHold(Step(w, Drop(id)))
  {
    hide Pick;
  }

  // --- subscriptions ---------------------------------------------------------------------------

  lemma StepFeed(w: World, a: Action, t: Topic)
    requires FeedHolds(w, t) && RpcHolds(w)
    ensures FeedHolds(Step(w, a), t)
  {
    hide *;
    match a
    case Publish(t', p) => FeedPublish(w, t', p, t);
    case ServerRead => FeedRead(w, t);
    case ServerReply => FeedReply(w, t);
    case ForwarderTake(t') => FeedTake(w, t', t);
    case ForwarderPut(t') => FeedPut(w, t', t);
    case _ => FeedOther(w, a, t);
  }

  lemma KeptSnoc(ss: seq<Session>, s: Session)
    ensures Published(ss + [s]) == Published(ss) + s.published
    ensures s.lost <= |s.published| ==> Kept(ss + [s]) == Kept(ss) + s.published[..|s.published| - s.lost]
  {
    assert (ss + [s])[..|ss|] == ss;
  }

  /** One more message in the open session. */
  lemma NotedPublish(ss: seq<Session>, p: Payload)
    requires ss != [] && ss[|ss| - 1].lost == 0
    ensures var n := NotePublished(ss, p);
            && n != [] && n[|n| - 1].lost == 0
            && |n[|n| - 1].published| == |ss[|ss| - 1].published| + 1
            && Published(n) == Published(ss) + [p] && Kept(n) == Kept(ss) + [p]
  {
    var init, last := ss[..|ss| - 1], ss[|ss| - 1];
    assert ss == init + [last];
    KeptSnoc(init, last);
    KeptSnoc(init, last.(published := last.published + [p]));
  }

  lemma FeedPublish(w: World, t': Topic, p: Payload, t: Topic)
    requires FeedHolds(w, t)
    ensures FeedHolds(Step(w, Publish(t', p)), t)
  {
    hide FeedHolds, Pick, NotePublished, Put, ConfigOf;
    if t' == t && t in w.server.subs && !w.closed {
      FeedPublishOwn(w, p, t);
    } else {
      FeedKnown(w, t);
      FeedSame(w, Step(w, Publish(t', p)), t);
    }
  }

  lemma FeedKnown(w: World, t: Topic)
    requires FeedHolds(w, t)
    ensures t in w.hist.sessions
  {}

  lemma FeedPublishOwn(w: World, p: Payload, t: Topic)
    requires FeedHolds(w, t) && t in w.server.subs && !w.closed
    ensures FeedHolds(Step(w, Publish(t, p)), t)
  {
    hide Step, Pick, Subsequence, Kept, Published, NotePublished, Put, ConfigOf;
    var ss, feed := SessionsOf(w.hist, t), w.server.subs[t];
    var sent := Pick(PayloadOn(t), w.hist.enqueued) + ToSeq(feed.hand);
    NotedPublish(ss, p);
    assert Pick(PayloadOn(t), w.hist.enqueued) + Held(w.server, t) == sent + feed.sub.queue;
    PutSubsequence(sent, feed.sub, ConfigOf(t), p, Published(ss));
    FeedPublished(w, p, t);
  }

  /** A put keeps the stream a subsequence of what was published. */
  lemma PutSubsequence(sent: seq<Payload>, sub: Sub, cfg: Config, p: Payload, published: seq<Payload>)
    requires Subsequence(sent + sub.queue, published)
    ensures Subsequence(sent + Put(sub, cfg, p).queue, published + [p])
  {
    hide Subsequence;
    var q := sub.queue;
    if sub.disconnected || (Full(q, cfg) && cfg.policy != DropOldest) {
      SubsequenceSkip(sent + q, published, p);
    } else if !Full(q, cfg) {
      SubsequenceSnoc(sent + q, published, p);
      assert sent + q + [p] == sent + (q + [p]);
    } else {
      assert sent + q == sent + [q[0]] + q[1..];
      SubsequenceDelete(sent, q[0], q[1..], published);
      SubsequenceSnoc(sent + q[1..], published, p);
      assert sent + q[1..] + [p] == sent + (q[1..] + [p]);
    }
  }

  lemma FeedPublished(w: World, p: Payload, t: Topic)
    requires FeedHolds(w, t) && t in w.server.subs && !w.closed
    requires var ss := SessionsOf(w.hist, t); var n := NotePublished(ss, p);
             && n != [] && n[|n| - 1].lost == 0
             && |n[|n| - 1].published| == |ss[|ss| - 1].published| + 1
             && Kept(n) == Kept(ss) + [p]
             && Subsequence(Pick(PayloadOn(t), w.hist.enqueued) + ToSeq(w.server.subs[t].hand)
                            + Put(w.server.subs[t].sub, ConfigOf(t), p).queue, Published(n))
    ensures FeedHolds(Step(w, Publish(t, p)), t)
  {
    hide Pick, Subsequence, Kept, Published, NotePublished;
    var w' := Step(w, Publish(t, p));
    var sent, feed := Pick(PayloadOn(t), w.hist.enqueued), w.server.subs[t];
    var q' := Put(feed.sub, ConfigOf(t), p).queue;
    assert Held(w'.server, t) == ToSeq(feed.hand) + q';
    assert sent + Held(w'.server, t) == sent + ToSeq(feed.hand) + q';
    if ConfigOf(t).capacity == 0 {
      assert q' == feed.sub.queue + [p];
      assert sent + Held(w'.server, t) == sent + Held(w.server, t) + [p];
    }
  }

  lemma FeedRead(w: World, t: Topic)
    requires FeedHolds(w, t)
    ensures FeedHolds(Step(w, ServerRead), t)
  {
    hide Step, FeedHolds, Pick, Subsequence, Kept, Published;
    if w.toServer != [] && w.toServer[0].Subscribe? {
      KeptSnoc(SessionsOf(w.hist, t), Session([], 0));
      NothingKept(SessionsOf(w.hist, t));
      FeedSubscribe(w, t);
    } else if w.toServer != [] && w.toServer[0].Unsubscribe? {
      if t in w.server.subs {
        UnsubscribeKeeps(w, t);
      }
      FeedUnsubscribe(w, t);
    } else {
      FeedReadOther(w, t);
    }
  }

  lemma NothingKept(ss: seq<Session>)
    requires Published(ss + [Session([], 0)]) == Published(ss) + []
    requires Kept(ss + [Session([], 0)]) == Kept(ss) + [][..0]
    ensures Published(ss + [Session([], 0)]) == Published(ss) && Kept(ss + [Session([], 0)]) == Kept(ss)
  {
    hide Published, Kept;
  }

  lemma FeedReadOther(w: World, t: Topic)
    requires FeedHolds(w, t)
    requires w.toServer != [] ==> !w.toServer[0].Subscribe? && !w.toServer[0].Unsubscribe?
    ensures FeedHolds(Step(w, ServerRead), t)
  {
    hide Pick, Subsequence, Kept, Published, FeedHolds;
    FeedSame(w, Step(w, ServerRead), t);
  }

  lemma FeedSubscribe(w: World, t: Topic)
    requires FeedHolds(w, t) && w.toServer != [] && w.toServer[0].Subscribe?
    requires var ss := SessionsOf(w.hist, t);
             Published(ss + [Session([], 0)]) == Published(ss) && Kept(ss + [Session([], 0)]) == Kept(ss)
    ensures FeedHolds(Step(w, ServerRead), t)
  {
    hide Pick, Subsequence, Kept, Published;
    var w' := Step(w, ServerRead);
    assert Held(w'.server, t) == Held(w.server, t);
  }

  /** Unsubscribing cuts the queue and the forwarder's hand off the end of the open session. */
  lemma UnsubscribeKeeps(w: World, t: Topic)
    requires FeedHolds(w, t) && t in w.server.subs
    ensures var n := NoteClosed(SessionsOf(w.hist, t), |Held(w.server, t)|);
            var sent := Pick(PayloadOn(t), w.hist.enqueued);
            && Subsequence(sent, Published(n))
            && (ConfigOf(t).capacity == 0 ==> sent == Kept(n))
  {
    hide Pick, Subsequence, Kept, Published;
    var ss, held, sent := SessionsOf(w.hist, t), Held(w.server, t), Pick(PayloadOn(t), w.hist.enqueued);
    hide Held;
    var init, last := ss[..|ss| - 1], ss[|ss| - 1];
    assert ss == init + [last];
    KeptSnoc(init, last);
    KeptSnoc(init, last.(lost := |held|));
    SubsequencePrefix(sent, held, Published(ss));
    if ConfigOf(t).capacity == 0 {
      CutTail(sent, held, Kept(init), last.published);
    }
  }

  lemma CutTail(sent: seq<Payload>, held: seq<Payload>, before: seq<Payload>, last: seq<Payload>)
    requires sent + held == before + last && |held| <= |last|
    ensures sent == before + last[..|last| - |held|]
  {
    assert sent == (sent + held)[..|sent|];
    assert sent == (before + last)[..|before| + |last| - |held|];
  }

  lemma FeedUnsubscribe(w: World, t: Topic)
    requires FeedHolds(w, t) && w.toServer != [] && w.toServer[0].Unsubscribe?
    requires t in w.server.subs ==>
               var n := NoteClosed(SessionsOf(w.hist, t), |Held(w.server, t)|);
               var sent := Pick(PayloadOn(t), w.hist.enqueued);
               Subsequence(sent, Published(n)) && (ConfigOf(t).capacity == 0 ==> sent == Kept(n))
    ensures FeedHolds(Step(w, ServerRead), t)
  {
    hide Pick, Subsequence, Kept, Published, NoteClosed;
    var w' := Step(w, ServerRead);
    var sent := Pick(PayloadOn(t), w.hist.enqueued);
    assert t !in w'.server.subs ==> sent + Held(w'.server, t) == sent;
    assert t in w'.server.subs ==> Held(w'.server, t) == Held(w.server, t);
    assert t !in w.server.subs ==> sent + Held(w.server, t) == sent;
  }

  lemma FeedReply(w: World, t: Topic)
    requires FeedHolds(w, t) && RpcHolds(w)
    ensures FeedHolds(Step(w, ServerReply), t)
  {
    hide Pick, Subsequence, Kept, Published;
    if Reply(w.server).Some? {
      PickSnoc(PayloadOn(t), w.hist.enqueued, Reply(w.server).value);
      assert Pick(PayloadOn(t), w.hist.enqueued) + [] == Pick(PayloadOn(t), w.hist.enqueued);
    } else {
      assert w.hist.enqueued + [] == w.hist.enqueued;
    }
    assert Held(Step(w, ServerReply).server, t) == Held(w.server, t);
  }

  lemma FeedTake(w: World, t': Topic, t: Topic)
    requires FeedHolds(w, t)
    ensures FeedHolds(Step(w, ForwarderTake(t')), t)
  {
    hide Pick, Subsequence, Kept, Published;
    TakeHeld(w.server, t', t);
  }

  /** Taking moves a payload from the queue to the forwarder's hand. */
  lemma TakeHeld(s: Server, t': Topic, t: Topic)
    ensures Held(Take(s, t'), t) == Held(s, t)
    ensures t in Take(s, t').subs <==> t in s.subs
    ensures t in s.subs ==> Take(s, t').subs[t].sub.disconnected == s.subs[t].sub.disconnected
  {}

  lemma FeedPut(w: World, t': Topic, t: Topic)
    requires FeedHolds(w, t)
    ensures FeedHolds(Step(w, ForwarderPut(t')), t)
  {
    hide Pick, Subsequence, Kept, Published;
    var w' := Step(w, ForwarderPut(t'));
    var put := Handing(w.server, t');
    if put.Some? && !w.closed {
      PickSnoc(PayloadOn(t), w.hist.enqueued, put.value);
      if t' == t {
        FeedPutOwn(w, t);
      } else {
        assert Pick(PayloadOn(t), w'.hist.enqueued) == Pick(PayloadOn(t), w.hist.enqueued);
        hide Step;
        FeedSame(w, w', t);
      }
    } else {
      assert w.hist.enqueued + [] == w.hist.enqueued;
      assert w'.server == w.server && w'.hist == w.hist;
      hide Step;
      FeedSame(w, w', t);
    }
  }

  lemma FeedPutOwn(w: World, t: Topic)
    requires FeedHolds(w, t) && !w.closed && Handing(w.server, t).Some?
    ensures FeedHolds(Step(w, ForwarderPut(t)), t)
  {
    hide Pick, Subsequence, Kept, Published;
    var w' := Step(w, ForwarderPut(t));
    var sent, put := Pick(PayloadOn(t), w.hist.enqueued), Handing(w.server, t);
    PickSnoc(PayloadOn(t), w.hist.enqueued, put.value);
    assert Held(w.server, t) == [put.value.payload] + Held(w'.server, t);
    assert sent + [put.value.payload] + Held(w'.server, t) == sent + Held(w.server, t);
  }

  /** A feed depends on its own subscription, its sessions and what was enqueued on it. */
  lemma FeedSame(w: World, w': World, t: Topic)
    requires FeedHolds(w, t)
    requires t in w'.server.subs <==> t in w.server.subs
    requires t in w.server.subs ==> w'.server.subs[t] == w.server.subs[t]
    requires w'.hist.sessions == w.hist.sessions || (t in w'.hist.sessions && t in w.hist.sessions
               && w'.hist.sessions[t] == w.hist.sessions[t])
    requires Pick(PayloadOn(t), w'.hist.enqueued) == Pick(PayloadOn(t), w.hist.enqueued)
    ensures FeedHolds(w', t)
  {
    hide Pick, Subsequence, Kept, Published;
  }

  lemma FeedOther(w: World, a: Action, t: Topic)
    requires FeedHolds(w, t)
    requires a.Issue? || a.Drop? || a.Send? || a.ServerFinish? || a.WriterGet? || a.WriterSend? || a.Close?
             || a.ClientRead? || a.ClientEnd? || a.Yield?
    ensures FeedHolds(Step(w, a), t)
  {
    hide Pick, Subsequence, Kept, Published;
    var w' := Step(w, a);
    assert w'.server.subs == w.server.subs && w'.hist.sessions == w.hist.sessions;
    assert w'.hist.enqueued == w.hist.enqueued;
    assert Held(w'.server, t) == Held(w.server, t);
  }

  // --- every reachable state ----------------------------------------------------------------------

  lemma StartHolds()
    ensures Inv(START)
  {
    forall t: Topic
      ensures FeedHolds(START, t)
    {
      match t case Runs => case HyprEvents => case Logs =>
    }
  }

  lemma StepKeeps(w: World, a: Action)
    requires Inv(w)
    ensures Inv(Step(w, a))
  {
    hide Step, LineHolds, RpcHolds, AnswersHold, QueueHolds, FuturesHold, FeedHolds;
    StepLine(w, a);
    StepRpc(w, a);
    StepAnswers(w, a);
    StepQueue(w, a);
    StepFutures(w, a);
    forall t: Topic
      ensures FeedHolds(Step(w, a), t)
    {
      StepFeed(w, a, t);
    }
  }

  lemma {:induction false} RunHolds(actions: seq<Action>)
    ensures Inv(Run(actions))
  {
    hide Inv, Step;
    if actions == [] {
      StartHolds();
    } else {
      RunHolds(actions[..|actions| - 1]);
      StepKeeps(Run(actions[..|actions| - 1]), actions[|actions| - 1]);
    }
  }

  function OnTopic(t: Topic): ((Topic, Payload)) -> Option<Payload> {
    (e: (Topic, Payload)) => if e.0 == t then Some(e.1) else None
  }

  function QueuedOn(t: Topic): Item -> Option<Payload> {
    (i: Item) => if i.EventItem? && i.topic == t then Some(i.payload) else None
  }

  /** The payloads of topic `t` that events() has yielded. */
  function Seen(w: World, t: Topic): seq<Payload> {
    Pick(OnTopic(t), w.hist.yielded)
  }

  /** The payloads of topic `t` between the bus and the client's caller: client queue, wire,
      writer, outbound queue, forwarder's hand, subscriber queue. */
  function InFlight(w: World, t: Topic): seq<Payload> {
    Pick(QueuedOn(t), w.client.queue) + Pick(PayloadOn(t), w.toClient) +
    Pick(PayloadOn(t), ToSeq(w.server.writerHand)) + Pick(PayloadOn(t), w.server.outbound) +
    Held(w.server, t)
  }

  lemma StreamIsSeenPlusInFlight(w: World, t: Topic)
    requires LineHolds(w) && QueueHolds(w)
    ensures Pick(PayloadOn(t), w.hist.enqueued) + Held(w.server, t) == Seen(w, t) + InFlight(w, t)
  {
    hide Pick, Held;
    var f, h := PayloadOn(t), w.hist;
    PickTwice(NotPing(), f, f, Line(w));
    PickConcat(f, h.received + w.toClient + ToSeq(w.server.writerHand), w.server.outbound);
    PickConcat(f, h.received + w.toClient, ToSeq(w.server.writerHand));
    PickConcat(f, h.received, w.toClient);
    PickTwice(EventOf(), OnTopic(t), f, h.received);
    PickConcat(OnTopic(t), h.yielded, Pick(ItemEvent(), w.client.queue));
    PickTwice(ItemEvent(), OnTopic(t), QueuedOn(t), w.client.queue);
  }

  /** Main result: in every reachable state, what the client has been given on a lossless
      topic, followed by everything still on its way, is what the sessions let through: all
      of the open session, and of each closed one all but the tail its unsubscribe cut. */
  lemma EventOrder(actions: seq<Action>, t: Topic)
    requires ConfigOf(t).capacity == 0
    ensures var w := Run(actions); Seen(w, t) + InFlight(w, t) == Kept(SessionsOf(w.hist, t))
  {
    RunHolds(actions);
    hide Run;
    StreamIsSeenPlusInFlight(Run(actions), t);
    assert FeedHolds(Run(actions), t);
  }

  /** With one subscription the client has always seen a gap-free, duplicate-free prefix of
      what was published since it subscribed, and the rest is in flight. */
  lemma OneSubscription(actions: seq<Action>, t: Topic)
    requires ConfigOf(t).capacity == 0
    requires var w := Run(actions); |SessionsOf(w.hist, t)| == 1 && t in w.server.subs
    ensures var w := Run(actions); var published := SessionsOf(w.hist, t)[0].published;
            Seen(w, t) <= published && Seen(w, t) + InFlight(w, t) == published
  {
    EventOrder(actions, t);
    RunHolds(actions);
    hide Run, Seen, InFlight;
    var w := Run(actions);
    assert FeedHolds(w, t);
    OneKept(w, t);
  }

  lemma OneKept(w: World, t: Topic)
    requires FeedHolds(w, t) && t in w.server.subs && |SessionsOf(w.hist, t)| == 1
    ensures Kept(SessionsOf(w.hist, t)) == SessionsOf(w.hist, t)[0].published
  {
    var ss := SessionsOf(w.hist, t);
    hide Pick, Subsequence, Published;
    assert ss == [] + [ss[0]];
    KeptSnoc([], ss[0]);
  }

  /** On every topic, lossy ones included, order is kept and nothing is repeated. */
  lemma EventSubsequence(actions: seq<Action>, t: Topic)
    ensures var w := Run(actions); Subsequence(Seen(w, t) + InFlight(w, t), Published(SessionsOf(w.hist, t)))
  {
    RunHolds(actions);
    hide Run, Subsequence, Published;
    StreamIsSeenPlusInFlight(Run(actions), t);
    assert FeedHolds(Run(actions), t);
  }

  // --- requests in every reachable state ----------------------------------------------------------

  /** Main result: read from the client end to the server end, received responses, those on
      the wire, with the writer, on the outbound queue, the request with the reader and the
      requests on the wire are exactly the issued ids in issue order. */
  lemma RequestOrder(actions: seq<Action>)
    ensures var w := Run(actions); var r := ResponseId();
            Pick(r, w.hist.received) + Pick(r, w.toClient) + Pick(r, ToSeq(w.server.writerHand))
            + Pick(r, w.server.outbound) + InReader(w.server.reader) + Pick(RequestId(), w.toServer)
            == w.hist.issued
  {
    RunHolds(actions);
    hide Run, Pick;
    var w, r := Run(actions), ResponseId();
    LineResponses(w);
    PickConcat(r, w.hist.received + w.toClient + ToSeq(w.server.writerHand), w.server.outbound);
    PickConcat(r, w.hist.received + w.toClient, ToSeq(w.server.writerHand));
    PickConcat(r, w.hist.received, w.toClient);
  }

  function One(b: bool): nat {
    if b then 1 else 0
  }

  /** Main result: an issued request is in exactly one place, and no other id is anywhere. */
  lemma RequestInOnePlace(actions: seq<Action>, id: Id)
    ensures var w := Run(actions); var r := ResponseId();
            One(id in Pick(r, w.hist.received)) + One(id in Pick(r, w.toClient))
            + One(id in Pick(r, ToSeq(w.server.writerHand))) + One(id in Pick(r, w.server.outbound))
            + One(id in InReader(w.server.reader)) + One(id in Pick(RequestId(), w.toServer))
            == One(id in w.hist.issued)
  {
    RequestOrder(actions);
    assert Distinct(Run(actions).hist.issued) by {
      RunHolds(actions);
    }
    hide Run, Pick, InReader;
    var w, r := Run(actions), ResponseId();
    var a, b := Pick(r, w.hist.received), Pick(r, w.toClient);
    var c, d := Pick(r, ToSeq(w.server.writerHand)), Pick(r, w.server.outbound);
    var e, f := InReader(w.server.reader), Pick(RequestId(), w.toServer);
    SplitDistinct(a + b + c + d + e, f, id);
    SplitDistinct(a + b + c + d, e, id);
    SplitDistinct(a + b + c, d, id);
    SplitDistinct(a + b, c, id);
    SplitDistinct(a, b, id);
  }

  lemma SplitDistinct(a: seq<Id>, b: seq<Id>, id: Id)
    requires Distinct(a + b)
    ensures Distinct(a) && One(id in a + b) == One(id in a) + One(id in b)
  {
    assert forall i :: 0 <= i < |a| ==> (a + b)[i] == a[i];
    forall i, j | 0 <= i < |a| && 0 <= j < |b|
      ensures a[i] != b[j]
    {
      assert (a + b)[i] == a[i] && (a + b)[|a| + j] == b[j];
    }
  }

  /** Main result: a resolved future holds the server's answer to its own request, and a
      future is left waiting only while its response has not reached the read loop. */
  lemma FutureMatches(actions: seq<Action>, id: Id)
    requires id in Run(actions).client.futures
    ensures var w := Run(actions); var future := w.client.futures[id];
            && id in w.hist.issued
            && (future.Resolved? ==> id in w.hist.answers && future.body == w.hist.answers[id])
            && (future.Waiting? ==> id !in Pick(ResponseId(), w.hist.received))
  {
    RunHolds(actions);
    hide Run;
  }

  lemma RunSnoc(actions: seq<Action>, a: Action)
    ensures Run(actions + [a]) == Step(Run(actions), a)
  {
    hide Step;
    assert (actions + [a])[..|actions|] == actions;
  }

  lemma FutureStep(w: World, a: Action, id: Id)
    requires Inv(w) && id in w.client.futures && !w.client.futures[id].Waiting?
    ensures id in Step(w, a).client.futures && Step(w, a).client.futures[id] == w.client.futures[id]
  {
    hide Pick, LineHolds, RpcHolds, AnswersHold, QueueHolds, FeedHolds;
  }

  /** Main result: a future is resolved at most once; whatever happens later it keeps its value. */
  lemma {:induction false} ResolvedForGood(actions: seq<Action>, later: seq<Action>, id: Id)
    requires id in Run(actions).client.futures && !Run(actions).client.futures[id].Waiting?
    ensures id in Run(actions + later).client.futures
    ensures Run(actions + later).client.futures[id] == Run(actions).client.futures[id]
  {
    hide *;
    if later == [] {
      assert actions + later == actions;
    } else {
      var before, last := later[..|later| - 1], later[|later| - 1];
      ResolvedForGood(actions, before, id);
      RunHolds(actions + before);
      RunSnoc(actions + before, last);
      assert actions + before + [last] == actions + later;
      FutureStep(Run(actions + before), last, id);
    }
  }
}
