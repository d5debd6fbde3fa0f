/** Both ends of one connection as objects over the real bus, joined by two wires
    (src/agent/daemon/server.py, src/agent/client/connection.py): performed step after step,
    in any order, they are always where the run of the protocol model is. */
module Links {
  import opened Sequences
  import opened PubSubs
  import opened Wire
  import Protocol
  import opened Servers
  import opened Clients

  class Link {
    const server: Connection
    const client: DaemonConnection
    var closed: bool
    var toServer: seq<Frame>
    var toClient: seq<Frame>
    ghost var hist: Protocol.History
    ghost var trace: seq<Protocol.Action>

    ghost function View(): Protocol.World
      reads this, server, server.subs.Values, client
    {
      Protocol.World(server.View(), closed, client.View(), toServer, toClient, hist)
    }

    /** A new connection on a bus that may already serve others. */
    constructor (bus: PubSub)
      requires bus.Valid()
      ensures server.Valid() && fresh(server) && fresh(client) && server.bus == bus
      ensures trace == [] && View() == Protocol.Run([])
    {
      server := new Connection(bus);
      client := new DaemonConnection();
      closed, toServer, toClient, trace := false, [], [], [];
      hist := Protocol.START.hist;
    }

    method PublishOne(topic: Topic, p: Payload)
      requires server.Valid()
      modifies this`hist, server.bus, server.bus.subs[topic]
      ensures server.Valid() && View() == Protocol.Step(old(View()), Protocol.Publish(topic, p))
    {
      hide Put, ConfigOf;
      hist := Protocol.Step(View(), Protocol.Publish(topic, p)).hist;
      if !closed {
        server.BusPublish(topic, p);
      }
    }

    method IssueOne(id: Id)
      requires server.Valid() && (id in client.futures <==> id in hist.issued)
      modifies this`hist, this`toServer, client
      ensures server.Valid() && View() == Protocol.Step(old(View()), Protocol.Issue(id))
    {
      hide Connection.Valid, Connection.View;
      hist := Protocol.Step(View(), Protocol.Issue(id)).hist;
      if id !in client.futures {
        var frame := client.Request(id);
        toServer := toServer + [frame];
      }
    }

    method ServerReadOne()
      requires server.Valid()
      modifies this`hist, this`toServer, server, server.bus
      ensures server.Valid() && View() == Protocol.Step(old(View()), Protocol.ServerRead)
    {
      hide Connection.Valid, DaemonConnection.View, Connection.Feeds, ReadFrame, Protocol.NoteRead;
      hist := Protocol.Step(View(), Protocol.ServerRead).hist;
      if !closed && toServer != [] && server.reader.Ready? {
        var f := toServer[0];
        toServer := toServer[1..];
        server.OnFrame(f);
      }
    }

    method FinishOne(end: HandlerEnd)
      requires server.Valid()
      modifies this`hist, server`reader
      ensures server.Valid() && View() == Protocol.Step(old(View()), Protocol.ServerFinish(end))
    {
      hide Connection.Valid, DaemonConnection.View, Connection.Feeds, BodyOf;
      hist := Protocol.Step(View(), Protocol.ServerFinish(end)).hist;
      if !closed {
        server.OnHandlerEnd(end);
      }
    }

    method ReplyOne()
      requires server.Valid()
      modifies this`hist, server`outbound, server`reader
      ensures server.Valid() && View() == Protocol.Step(old(View()), Protocol.ServerReply)
    {
      hide Connection.Valid, Connection.View, DaemonConnection.View, PutReply, Reply;
      hist := Protocol.Step(View(), Protocol.ServerReply).hist;
      if !closed {
        server.PutResponse();
      }
    }

    method TakeOne(t: Topic)
      requires server.Valid()
      modifies this`hist, server`hands, server.subs.Values
      ensures server.Valid() && View() == Protocol.Step(old(View()), Protocol.ForwarderTake(t))
    {
      hide Connection.Valid, Connection.View, DaemonConnection.View, Take;
      hist := Protocol.Step(View(), Protocol.ForwarderTake(t)).hist;
      if !closed {
        server.ForwarderGet(t);
      }
    }

    method PutOne(t: Topic)
      requires server.Valid()
      modifies this`hist, server`hands, server`outbound
      ensures server.Valid() && View() == Protocol.Step(old(View()), Protocol.ForwarderPut(t))
    {
      hide Connection.Valid, Connection.View, DaemonConnection.View, HandOn, Handing;
      hist := Protocol.Step(View(), Protocol.ForwarderPut(t)).hist;
      if !closed {
        server.ForwarderPut(t);
      }
    }

    method GetOne(timedOut: bool)
      requires server.Valid()
      modifies this`hist, server`outbound, server`writerHand
      ensures server.Valid() && View() == Protocol.Step(old(View()), Protocol.WriterGet(timedOut))
    {
      hide Connection.Valid, Connection.View, DaemonConnection.View, WriterTake;
      hist := Protocol.Step(View(), Protocol.WriterGet(timedOut)).hist;
      if !closed {
        server.WriterGet(timedOut);
      }
    }

    method SendOne()
      requires server.Valid()
      modifies this`toClient, server`writerHand
      ensures server.Valid() && View() == Protocol.Step(old(View()), Protocol.WriterSend)
    {
      hide Connection.Valid, DaemonConnection.View, Connection.Feeds;
      if !closed {
        var sent := server.WriterSend();
        if sent.Some? {
          toClient := toClient + [sent.value];
        }
      }
    }

    method DropOne(id: Id)
      requires server.Valid()
      modifies client
      ensures server.Valid() && View() == Protocol.Step(old(View()), Protocol.Drop(id))
    {
      hide Connection.Valid, Connection.View, DaemonConnection.View, Abandon;
      client.CancelWait(id);
    }

    method ClientReadOne()
      requires server.Valid()
      modifies this`hist, this`toClient, client
      ensures server.Valid() && View() == Protocol.Step(old(View()), Protocol.ClientRead)
    {
      hide Connection.Valid, Connection.View, OnFrame;
      hist := Protocol.Step(View(), Protocol.ClientRead).hist;
      if !client.loopEnded && toClient != [] {
        client.Handle(toClient[0]);
        toClient := toClient[1..];
      }
    }

    method EndOne()
      requires server.Valid()
      modifies client
      ensures server.Valid() && View() == Protocol.Step(old(View()), Protocol.ClientEnd)
    {
      hide Connection.Valid, Connection.View;
      if !client.loopEnded {
        client.RunReadLoop([]);
      }
    }

    method YieldOne()
      requires server.Valid()
      modifies this`hist, client
      ensures server.Valid() && View() == Protocol.Step(old(View()), Protocol.Yield)
    {
      hide Connection.Valid, Connection.View;
      hist := Protocol.Step(View(), Protocol.Yield).hist;
      if !client.eventsEnded && client.eventQueue != [] {
        var event := client.NextEvent();
      }
    }

    method SendFrame(f: Frame)
      requires server.Valid()
      modifies this`toServer
      ensures server.Valid() && View() == Protocol.Step(old(View()), Protocol.Send(f))
    {
      hide Connection.Valid, Connection.View, DaemonConnection.View;
      if !f.Request? {
        toServer := toServer + [f];
      }
    }

    method CloseOne()
      requires server.Valid()
      modifies this`closed
      ensures server.Valid() && View() == Protocol.Step(old(View()), Protocol.Close)
    {
      hide Connection.Valid, Connection.View, DaemonConnection.View;
      closed := true;
    }

    method Act(a: Protocol.Action)
      requires server.Valid() && (a.Issue? ==> (a.id in client.futures <==> a.id in hist.issued))
      modifies this`hist, this`closed, this`toServer, this`toClient, server, client, server.bus, server.subs.Values
      modifies if a.Publish? then server.bus.subs[a.topic] else []
      ensures server.Valid() && View() == Protocol.Step(old(View()), a)
    {
      hide *;
      match a
      case Publish(t, p) => PublishOne(t, p);
      case Issue(id) => IssueOne(id);
      case Drop(id) => DropOne(id);
      case Send(f) => SendFrame(f);
      case ServerRead => ServerReadOne();
      case ServerFinish(end) => FinishOne(end);
      case ServerReply => ReplyOne();
      case ForwarderTake(t) => TakeOne(t);
      case ForwarderPut(t) => PutOne(t);
      case WriterGet(timedOut) => GetOne(timedOut);
      case WriterSend => SendOne();
      case Close => CloseOne();
      case ClientRead => ClientReadOne();
      case ClientEnd => EndOne();
      case Yield => YieldOne();
    }

    /** One step of the schedule: the objects are where the protocol model is. */
    method Perform(a: Protocol.Action)
      requires server.Valid() && View() == Protocol.Run(trace)
      modifies this, server, client, server.bus, server.subs.Values
      modifies if a.Publish? then server.bus.subs[a.topic] else []
      ensures server.Valid() && View() == Protocol.Run(trace) && trace == old(trace) + [a]
    {
      hide Connection.Valid, Connection.View, Connection.Feeds, DaemonConnection.View, Protocol.Run, Protocol.Step;
      FuturesAreIssued();
      Protocol.RunSnoc(trace, a);
      ghost var before := trace;
      Act(a);
      trace := before + [a];
    }

    lemma FuturesAreIssued()
      requires View() == Protocol.Run(trace)
      ensures forall id :: id in client.futures <==> id in hist.issued
    {
      Protocol.RunHolds(trace);
      hide Protocol.Run;
      assert Protocol.FuturesHold(View());
    }
  }
}
