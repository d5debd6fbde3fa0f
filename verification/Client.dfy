/** The client end of the connection (src/agent/client/connection.py) as the object it is.
    Its methods compute the `Wire` functions that the `Protocol` theorems are about. */
module Clients {
  import opened Sequences
  import opened PubSubs
  import opened Wire

  class DaemonConnection {
    var pending: set<Id>
    var futures: map<Id, Future>
    var eventQueue: seq<Item>
    var loopEnded: bool
    var eventsEnded: bool

    function View(): Client
      reads this
    {
      Client(pending, futures, eventQueue, loopEnded, eventsEnded)
    }

    constructor ()
      ensures View() == NEW_CLIENT
    {
      pending, futures, eventQueue, loopEnded, eventsEnded := {}, map[], [], false, false;
    }

    /** `request` up to its first suspension: the future is registered before the frame leaves. */
    method Request(id: Id) returns (frame: Frame)
      modifies this
      ensures View() == Register(old(View()), id) && frame == Frame.Request(id)
    {
      futures := futures[id := Waiting];
      pending := pending + {id};
      frame := Frame.Request(id);
    }

    /** The coroutine awaiting the future is cancelled. */
    method CancelWait(id: Id)
      modifies this
      ensures View() == Abandon(old(View()), id)
    {
      if id in futures && futures[id] == Waiting {
        futures := futures[id := Cancelled];
      }
    }

    method Handle(f: Frame)
      modifies this
      ensures View() == OnFrame(old(View()), f)
    {
      if f.Response? {
        if f.id in pending {
          pending := pending - {f.id};
          if f.id in futures && futures[f.id] == Waiting {
            futures := futures[f.id := Resolved(f.body)];
          }
        }
      } else if f.Event? {
        eventQueue := eventQueue + [EventItem(f.topic, f.payload)];
      }
    }

    /** `_read_loop` over everything the stream delivers before it ends. */
    method RunReadLoop(frames: seq<Frame>)
      modifies this
      ensures View() == ReadLoop(old(View()), frames)
    {
      var rest := frames;
      while rest != [] && rest[0] != Malformed
        invariant ReadLoop(View(), rest) == ReadLoop(old(View()), frames)
        decreases |rest|
      {
        Handle(rest[0]);
        rest := rest[1..];
      }
      eventQueue := eventQueue + [Sentinel];
      loopEnded := true;
    }

    /** One turn of `events()`; `None` when the iterator ends. */
    method NextEvent() returns (event: Option<(Topic, Payload)>)
      requires eventQueue != []
      modifies this
      ensures eventQueue == old(eventQueue)[1..]
      ensures event == if old(eventQueue)[0].EventItem?
                       then Some((old(eventQueue)[0].topic, old(eventQueue)[0].payload)) else None
      ensures eventsEnded == (old(eventsEnded) || event.None?)
      ensures pending == old(pending) && futures == old(futures) && loopEnded == old(loopEnded)
    {
      var item := eventQueue[0];
      eventQueue := eventQueue[1..];
      if item == Sentinel {
        eventsEnded := true;
        return None;
      }
      return Some((item.topic, item.payload));
    }
  }

  function ItemOf(): Frame -> Option<Item> {
    (f: Frame) => if f.Event? then Some(EventItem(f.topic, f.payload)) else None
  }

  /** The loop has then ended, and what it resolved before stays resolved. */
  lemma {:induction false} ReadLoopEnds(c: Client, frames: seq<Frame>)
    ensures ReadLoop(c, frames).loopEnded && ReadLoop(c, frames).eventsEnded == c.eventsEnded
    ensures forall id :: id in c.futures && !c.futures[id].Waiting? ==>
              id in ReadLoop(c, frames).futures && ReadLoop(c, frames).futures[id] == c.futures[id]
    decreases |frames|
  {
    if frames != [] && frames[0] != Malformed {
      ReadLoopEnds(OnFrame(c, frames[0]), frames[1..]);
    }
  }

  /** The frames the read loop processes: all before the first malformed one. */
  function Readable(frames: seq<Frame>): seq<Frame> {
    if frames == [] || frames[0] == Malformed then [] else [frames[0]] + Readable(frames[1..])
  }

  /** Whatever the stream delivers, the loop queues its events in order and then exactly one
      sentinel, so `events()` always ends. */
  lemma {:induction false} ReadLoopQueues(c: Client, frames: seq<Frame>)
    ensures ReadLoop(c, frames).queue == c.queue + Pick(ItemOf(), Readable(frames)) + [Sentinel]
    decreases |frames|
  {
    if frames == [] || frames[0] == Malformed {
      assert c.queue + [] == c.queue;
    } else {
      var f, rest := frames[0], frames[1..];
      var items := [f] + Readable(rest);
      assert items[0] == f && items[1..] == Readable(rest);
      ReadLoopQueues(OnFrame(c, f), rest);
      assert OnFrame(c, f).queue == c.queue + ToSeq(ItemOf()(f));
      hide Pick, ReadLoop, OnFrame, ItemOf;
      PickHead(ItemOf(), items);
    }
  }
}
