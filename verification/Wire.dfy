/** The two ends of one connection as values: the server's three tasks
    (src/agent/daemon/server.py) and the client (src/agent/client/connection.py).
    Each function is one stretch of code between two suspension points. */
module Wire {
  import opened Sequences
  import opened PubSubs

  // request ids are uuid strings, compared only for equality
  type Id = nat

  datatype Body = Result(value: nat) | Error(code: string)

  datatype Frame =
    | Request(id: Id)
    | Response(id: Id, body: Body)
    | Subscribe(topics: seq<Topic>)
    | Unsubscribe(topics: seq<Topic>)
    | Event(topic: Topic, payload: Payload)
    | Ping
    | Pong
    | Malformed

  /** How an RPC handler ended, if the method had one. */
  datatype HandlerEnd = Returned(value: nat) | UnknownMethod | RaisedKeyError | RaisedValueError | RaisedOther

  /** `dispatch`: whatever happens becomes a response. */
  function BodyOf(end: HandlerEnd): Body {
    match end
    case UnknownMethod => Error("not_implemented")
    case Returned(v) => Result(v)
    case RaisedKeyError => Error("not_found")
    case RaisedValueError => Error("invalid_params")
    case RaisedOther => Error("internal_error")
  }

  // --- server ----------------------------------------------------------------------

  const OUTBOUND_CAPACITY: nat := 4000

  /** A subscriber and the payload its forwarder has taken but not yet handed on. */
  datatype Feed = Feed(sub: Sub, hand: Option<Payload>)

  const FRESH_FEED := Feed(FRESH, None)

  datatype Reader = Ready | Dispatching(id: Id) | Replying(reply: Frame)

  datatype Server = Server(
    subs: map<Topic, Feed>, outbound: seq<Frame>, writerHand: Option<Frame>, reader: Reader)

  /** The reader acts on one frame from the client. */
  function ReadFrame(s: Server, f: Frame): Server {
    match f
    case Request(id) => s.(reader := Dispatching(id))
    case Subscribe(topics) => s.(subs := SubscribeAll(s.subs, topics))
    case Unsubscribe(topics) => s.(subs := s.subs - (set t | t in topics))
    case _ => s
  }

  /** A topic already subscribed keeps its queue; a new one starts empty. */
  function SubscribeAll(subs: map<Topic, Feed>, topics: seq<Topic>): map<Topic, Feed> {
    map t | t in subs.Keys + (set t | t in topics) :: if t in subs then subs[t] else FRESH_FEED
  }

  function FinishDispatch(s: Server, end: HandlerEnd): Server {
    if s.reader.Dispatching? then s.(reader := Replying(Response(s.reader.id, BodyOf(end)))) else s
  }

  /** What the reader's `outbound.put` adds. */
  function Reply(s: Server): Option<Frame> {
    if s.reader.Replying? && |s.outbound| < OUTBOUND_CAPACITY then Some(s.reader.reply) else None
  }

  function PutReply(s: Server): Server {
    if Reply(s).Some? then s.(outbound := s.outbound + [Reply(s).value], reader := Ready) else s
  }

  function Deliver(s: Server, t: Topic, p: Payload): Server {
    if t in s.subs then s.(subs := s.subs[t := s.subs[t].(sub := Put(s.subs[t].sub, ConfigOf(t), p))]) else s
  }

  /** The forwarder of `t` takes the head of its queue. */
  function Take(s: Server, t: Topic): Server {
    if t in s.subs && s.subs[t].hand.None? && s.subs[t].sub.queue != [] then
      var q := s.subs[t].sub.queue;
      s.(subs := s.subs[t := Feed(s.subs[t].sub.(queue := q[1..]), Some(q[0]))])
    else s
  }

  /** What the forwarder's `outbound.put` adds. */
  function Handing(s: Server, t: Topic): Option<Frame> {
    if t in s.subs && s.subs[t].hand.Some? && |s.outbound| < OUTBOUND_CAPACITY
    then Some(Event(t, s.subs[t].hand.value))
    else None
  }

  function HandOn(s: Server, t: Topic): Server {
    if Handing(s, t).Some? then
      s.(outbound := s.outbound + [Handing(s, t).value], subs := s.subs[t := s.subs[t].(hand := None)])
    else s
  }

  /** The writer takes the next frame, or a ping when the wait timed out. */
  function WriterTake(s: Server, timedOut: bool): Server {
    if s.writerHand.Some? then s
    else if timedOut then s.(writerHand := Some(Ping))
    else if s.outbound != [] then s.(writerHand := Some(s.outbound[0]), outbound := s.outbound[1..])
    else s
  }

  // --- client -----------------------------------------------------------------------

  datatype Future = Waiting | Resolved(body: Body) | Cancelled

  datatype Item = EventItem(topic: Topic, payload: Payload) | Sentinel

  datatype Client = Client(
    pending: set<Id>, futures: map<Id, Future>, queue: seq<Item>, loopEnded: bool, eventsEnded: bool)

  const NEW_CLIENT := Client({}, map[], [], false, false)

  /** `request` up to its first suspension. */
  function Register(c: Client, id: Id): Client {
    c.(pending := c.pending + {id}, futures := c.futures[id := Waiting])
  }

  /** The caller of `request` is cancelled while it waits. */
  function Abandon(c: Client, id: Id): Client {
    if id in c.futures && c.futures[id].Waiting? then c.(futures := c.futures[id := Cancelled]) else c
  }

  /** One turn of `_read_loop`. */
  function OnFrame(c: Client, f: Frame): Client {
    match f
    case Response(id, body) =>
      if id !in c.pending then c
      else
        var popped := c.(pending := c.pending - {id});
        if id in c.futures && c.futures[id].Waiting? then popped.(futures := c.futures[id := Resolved(body)])
        else popped
    case Event(t, p) => c.(queue := c.queue + [EventItem(t, p)])
    case _ => c
  }

  /** The read loop's `finally`. */
  function EndLoop(c: Client): Client {
    c.(queue := c.queue + [Sentinel], loopEnded := true)
  }

  /** `_read_loop` over the frames it reads; a malformed frame, or the end of the stream, ends it. */
  function ReadLoop(c: Client, frames: seq<Frame>): Client
    decreases |frames|
  {
    if frames == [] || frames[0] == Malformed then EndLoop(c) else ReadLoop(OnFrame(c, frames[0]), frames[1..])
  }
}
