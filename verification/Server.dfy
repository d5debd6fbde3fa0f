/** The server end of the connection (src/agent/daemon/server.py): the state its reader,
    writer and forwarder tasks share, over a real bus. Each method is one stretch of a task
    between two suspension points and computes the matching `Wire` function. */
module Servers {
  import opened Sequences
  import opened PubSubs
  import opened Wire

  /** The bus and a connection before and after it subscribes: each new topic gets one new
      subscriber, at the end of the topic's list on the bus; nothing else changes. */
  ghost predicate Subscribed(bus: map<Topic, seq<Subscriber>>, bus': map<Topic, seq<Subscriber>>,
                             subs: map<Topic, Subscriber>, subs': map<Topic, Subscriber>, topics: set<Topic>) {
    && subs'.Keys == subs.Keys + topics && bus'.Keys == bus.Keys
    && (forall t :: t in subs ==> subs'[t] == subs[t])
    && (forall t :: t in bus ==> bus'[t] == bus[t] + if t in subs' && t !in subs then [subs'[t]] else [])
  }

  /** ... and before and after it unsubscribes: its own subscribers of those topics leave. */
  ghost predicate Unsubscribed(bus: map<Topic, seq<Subscriber>>, bus': map<Topic, seq<Subscriber>>,
                               subs: map<Topic, Subscriber>, subs': map<Topic, Subscriber>, topics: set<Topic>) {
    && subs' == subs - topics && bus'.Keys == bus.Keys
    && (forall t :: t in bus ==>
          bus'[t] == if t in topics && t in subs then Without(bus[t], {subs[t]}) else bus[t])
  }

  class Connection {
    const bus: PubSub
    var subs: map<Topic, Subscriber>
    var hands: map<Topic, Payload>   // taken by a forwarder task, not yet handed on
    var outbound: seq<Frame>
    var writerHand: Option<Frame>
    var reader: Reader

    ghost predicate Valid()
      reads this, bus, set t, s | t in bus.subs && s in bus.subs[t] :: s, subs.Values
    {
      && bus.Valid()
      && hands.Keys <= subs.Keys
      && (forall t :: t in subs ==> Listed(t, subs[t]))
    }

    /** The subscriber is one of the topic's, on the bus and not written off. */
    ghost predicate Listed(t: Topic, sub: Subscriber)
      reads bus, sub
    {
      sub.cfg == ConfigOf(t) && !sub.disconnected && t in bus.subs && sub in bus.subs[t]
    }

    function View(): Server
      reads this, subs.Values
    {
      Server(Feeds(), outbound, writerHand, reader)
    }

    function Feeds(): map<Topic, Feed>
      reads this, subs.Values
    {
      map t | t in subs :: Feed(subs[t].View(), if t in hands then Some(hands[t]) else None)
    }

    constructor (bus: PubSub)
      requires bus.Valid()
      ensures Valid() && View() == Server(map[], [], None, Ready) && this.bus == bus
    {
      this.bus := bus;
      subs, hands, outbound, writerHand, reader := map[], map[], [], None, Ready;
    }

    method SubscribeTopic(topic: Topic)
      requires Valid()
      modifies this, bus
      ensures Valid()
      ensures outbound == old(outbound) && writerHand == old(writerHand) && reader == old(reader)
      ensures Feeds() == if topic in old(Feeds()) then old(Feeds()) else old(Feeds())[topic := FRESH_FEED]
      ensures topic in old(bus.subs)
      ensures topic in old(subs) ==> subs == old(subs) && bus.subs == old(bus.subs)
      ensures topic !in old(subs) ==>
                && topic in subs && subs == old(subs)[topic := subs[topic]]
                && bus.subs == old(bus.subs)[topic := old(bus.subs)[topic] + [subs[topic]]]
    {
      assert topic in bus.subs;
      hide Valid, Listed;
      if topic in subs {
        return;
      }
      var sub := Register(topic);
      AddFeed(topic, sub);
    }

    method Register(topic: Topic) returns (sub: Subscriber)
      requires Valid()
      modifies bus
      ensures Valid() && Feeds() == old(Feeds())
      ensures Listed(topic, sub) && sub.View() == FRESH
      ensures bus.subs == old(bus.subs)[topic := old(bus.subs)[topic] + [sub]]
    {
      hide PubSub.Valid;
      sub := bus.Subscribe(topic);
    }

    method AddFeed(topic: Topic, sub: Subscriber)
      requires Valid() && topic !in subs && Listed(topic, sub) && sub.View() == FRESH
      modifies this`subs
      ensures Valid() && subs == old(subs)[topic := sub] && Feeds() == old(Feeds())[topic := FRESH_FEED]
    {
      hide PubSub.Valid, Listed;
      subs := subs[topic := sub];
      assert Feeds() == old(Feeds())[topic := FRESH_FEED];
    }

    method SubscribeTopics(topics: seq<Topic>)
      requires Valid()
      modifies this, bus
      ensures Valid()
      ensures View() == old(View()).(subs := SubscribeAll(old(View()).subs, topics))
      ensures Subscribed(old(bus.subs), bus.subs, old(subs), subs, Elements(topics))
    {
      hide Valid, Feeds, SubscribeAll, Subscribed;
      SubscribedNone(bus.subs, subs);
      SubscribeNone(View().subs);
      for i := 0 to |topics|
        invariant Valid()
        invariant View() == old(View()).(subs := SubscribeAll(old(View()).subs, topics[..i]))
        invariant Subscribed(old(bus.subs), bus.subs, old(subs), subs, Elements(topics[..i]))
      {
        ghost var lists, mine := bus.subs, subs;
        SubscribeMore(old(View()).subs, topics[..i], topics[i]);
        assert topics[..i + 1] == topics[..i] + [topics[i]];
        SubscribeTopic(topics[i]);
        SubscribedNext(old(bus.subs), lists, bus.subs, old(subs), mine, subs, Elements(topics[..i]), topics[i]);
        assert Elements(topics[..i + 1]) == Elements(topics[..i]) + {topics[i]};
      }
      assert topics[..|topics|] == topics;
    }

    method UnsubscribeTopic(topic: Topic)
      requires Valid()
      modifies this, bus
      ensures Valid()
      ensures outbound == old(outbound) && writerHand == old(writerHand) && reader == old(reader)
      ensures topic in old(bus.subs)
      ensures Feeds() == old(Feeds()) - {topic} && subs == old(subs) - {topic}
      ensures bus.subs == if topic in old(subs)
                          then old(bus.subs)[topic := Without(old(bus.subs)[topic], {old(subs)[topic]})]
                          else old(bus.subs)
    {
      InBus(topic);
      hide Valid, Listed, Feeds, Without;
      if topic !in Feeds() {
        KeepFeeds(topic);
        return;
      }
      var sub := DropFeed(topic);
      Deregister(topic, sub);
    }

    lemma InBus(topic: Topic)
      requires Valid()
      ensures topic in bus.subs
    {}

    lemma KeepFeeds(topic: Topic)
      ensures topic in Feeds() <==> topic in subs
      ensures topic !in subs ==> Feeds() - {topic} == Feeds() && subs - {topic} == subs
    {}

    method DropFeed(topic: Topic) returns (sub: Subscriber)
      requires Valid() && topic in Feeds()
      modifies this`subs, this`hands
      ensures Valid() && Feeds() == old(Feeds()) - {topic} && subs == old(subs) - {topic}
      ensures topic in old(subs) && sub == old(subs)[topic]
    {
      hide PubSub.Valid, Listed;
      sub := subs[topic];
      subs, hands := subs - {topic}, hands - {topic};
    }

    method Deregister(topic: Topic, sub: Subscriber)
      requires Valid() && topic !in subs
      modifies bus
      ensures Valid() && Feeds() == old(Feeds())
      ensures bus.subs == old(bus.subs)[topic := Without(old(bus.subs)[topic], {sub})]
    {
      hide PubSub.Valid, Without;
      bus.Unsubscribe(topic, sub);
    }

    method UnsubscribeTopics(topics: seq<Topic>)
      requires Valid()
      modifies this, bus
      ensures Valid()
      ensures View() == old(View()).(subs := old(View()).subs - (set t | t in topics))
      ensures Unsubscribed(old(bus.subs), bus.subs, old(subs), subs, Elements(topics))
    {
      hide Valid, Feeds, Unsubscribed;
      UnsubscribedNone(bus.subs, subs);
      for i := 0 to |topics|
        invariant Valid()
        invariant View() == old(View()).(subs := old(View()).subs - (set t | t in topics[..i]))
        invariant Unsubscribed(old(bus.subs), bus.subs, old(subs), subs, Elements(topics[..i]))
      {
        ghost var lists, mine := bus.subs, subs;
        assert topics[..i + 1] == topics[..i] + [topics[i]];
        UnsubscribeTopic(topics[i]);
        UnsubscribedNext(old(bus.subs), lists, bus.subs, old(subs), mine, subs, Elements(topics[..i]), topics[i]);
        assert Elements(topics[..i + 1]) == Elements(topics[..i]) + {topics[i]};
      }
      assert topics[..|topics|] == topics;
    }

    /** The reader acts on one frame; a request leaves it suspended in its handler. */
    method OnFrame(f: Frame)
      requires Valid()
      modifies this, bus
      ensures Valid() && View() == ReadFrame(old(View()), f)
      ensures match f
              case Subscribe(topics) => Subscribed(old(bus.subs), bus.subs, old(subs), subs, Elements(topics))
              case Unsubscribe(topics) => Unsubscribed(old(bus.subs), bus.subs, old(subs), subs, Elements(topics))
              case _ => bus.subs == old(bus.subs) && subs == old(subs)
    {
      hide Subscribed, Unsubscribed, SubscribeAll;
      match f
      case Request(id) => reader := Dispatching(id);
      case Subscribe(topics) => SubscribeTopics(topics);
      case Unsubscribe(topics) => UnsubscribeTopics(topics);
      case _ =>
    }

    /** `dispatch` returns; the reader now has a response to put. */
    method OnHandlerEnd(end: HandlerEnd)
      requires Valid()
      modifies this`reader
      ensures Valid() && View() == FinishDispatch(old(View()), end)
    {
      hide PubSub.Valid, Listed, BodyOf;
      if reader.Dispatching? {
        var body := DispatchBody(end);
        reader := Replying(Response(reader.id, body));
      }
    }

    /** `dispatch`: the handler's lookup, its result, and the except clauses in order. */
    static method DispatchBody(end: HandlerEnd) returns (body: Body)
      ensures body == BodyOf(end)
      ensures match end
              case Returned(value) => body == Result(value)
              case UnknownMethod => body == Error("not_implemented")
              case RaisedKeyError => body == Error("not_found")
              case RaisedValueError => body == Error("invalid_params")
              case RaisedOther => body == Error("internal_error")
    {
      if end == UnknownMethod {
        return Error("not_implemented");
      }
      if end.Returned? {
        return Result(end.value);
      }
      if end == RaisedKeyError {
        body := Error("not_found");
      } else if end == RaisedValueError {
        body := Error("invalid_params");
      } else {
        body := Error("internal_error");
      }
    }

    method PutResponse()
      requires Valid()
      modifies this`outbound, this`reader
      ensures Valid() && View() == PutReply(old(View()))
    {
      if reader.Replying? && |outbound| < OUTBOUND_CAPACITY {
        outbound := outbound + [reader.reply];
        reader := Ready;
      }
    }

    /** Somebody publishes: through the bus, this connection's queue of the topic, if it has
        one, gets the payload, and no other changes. */
    method BusPublish(topic: Topic, p: Payload)
      requires Valid()
      modifies bus, bus.subs[topic]
      ensures Valid() && View() == Deliver(old(View()), topic, p)
    {
      hide Valid, PubSub.Valid, Put, Deliver;
      ghost var was := View();
      DeliverAll(topic, p);
      forall t | t in subs
        ensures Feeds()[t] == if t == topic then was.subs[t].(sub := Put(was.subs[t].sub, ConfigOf(t), p))
                              else was.subs[t]
      {}
      DeliverIs(was, View(), topic, p);
    }

    method DeliverAll(topic: Topic, p: Payload)
      requires Valid()
      modifies bus, bus.subs[topic]
      ensures Valid() && unchanged(this)
      ensures forall t :: t in subs ==>
                subs[t].View() == if t == topic then Put(old(subs[t].View()), ConfigOf(t), p) else old(subs[t].View())
    {
      Apart(topic);
      ghost var mine := subs;
      Post(topic, p);
      hide PubSub.Valid, Put, ConfigOf, Feeds;
      if topic in subs {
        PutStays(old(subs[topic].View()), topic, p);
      }
    }

    method Post(topic: Topic, p: Payload)
      requires bus.Valid()
      modifies bus, bus.subs[topic]
      ensures bus.Valid() && unchanged(this)
      ensures forall s :: s in old(bus.subs)[topic] ==> s.View() == Put(old(s.View()), s.cfg, p)
      ensures forall t, s :: t in old(bus.subs) && s in old(bus.subs)[t] && (t != topic || !s.disconnected) ==>
                t in bus.subs && s in bus.subs[t]
    {
      bus.Publish(topic, p);
    }

    /** Other topics' subscribers are other objects. */
    lemma Apart(topic: Topic)
      requires Valid()
      ensures forall t :: t in subs && t != topic ==> subs[t] !in bus.subs[topic]
    {}

    /** The forwarder's `queue.get`. */
    method ForwarderGet(topic: Topic)
      requires Valid()
      modifies this`hands, subs.Values
      ensures Valid() && View() == Take(old(View()), topic)
    {
      hide Valid, Feeds;
      if topic in Feeds() && Feeds()[topic].hand.None? && Feeds()[topic].sub.queue != [] {
        var p := PopQueue(topic);
        Hold(topic, p);
      }
    }

    method PopQueue(topic: Topic) returns (p: Payload)
      requires Valid() && topic in Feeds() && Feeds()[topic].sub.queue != []
      modifies subs.Values
      ensures Valid()
      ensures var feed := old(Feeds())[topic];
              && p == feed.sub.queue[0]
              && Feeds() == old(Feeds())[topic := feed.(sub := feed.sub.(queue := feed.sub.queue[1..]))]
    {
      var sub := subs[topic];
      assert forall t :: t in subs && t != topic ==> subs[t].cfg != sub.cfg;
      hide PubSub.Valid;
      p := PopHead(sub);
      hide ConfigOf;
    }

    method PopHead(sub: Subscriber) returns (p: Payload)
      requires bus.Valid() && sub.queue != []
      modifies sub`queue
      ensures bus.Valid() && p == old(sub.queue)[0] && sub.queue == old(sub.queue)[1..]
    {
      p := sub.queue[0];
      sub.queue := sub.queue[1..];
    }

    method Hold(topic: Topic, p: Payload)
      requires Valid() && topic in Feeds()
      modifies this`hands
      ensures Valid() && Feeds() == old(Feeds())[topic := old(Feeds())[topic].(hand := Some(p))]
    {
      hide PubSub.Valid;
      hands := hands[topic := p];
    }

    /** The forwarder's `outbound.put`. */
    method ForwarderPut(topic: Topic)
      requires Valid()
      modifies this`hands, this`outbound
      ensures Valid() && View() == HandOn(old(View()), topic)
    {
      hide PubSub.Valid;
      if topic in hands && |outbound| < OUTBOUND_CAPACITY {
        outbound := outbound + [Event(topic, hands[topic])];
        hands := hands - {topic};
        assert Feeds() == old(Feeds())[topic := Feed(subs[topic].View(), None)];
      }
    }

    /** The writer's `outbound.get`, with a ping in its place after the heartbeat interval. */
    method WriterGet(timedOut: bool)
      requires Valid()
      modifies this`outbound, this`writerHand
      ensures Valid() && View() == WriterTake(old(View()), timedOut)
    {
      hide PubSub.Valid, Listed;
      if writerHand.None? {
        if timedOut {
          writerHand := Some(Ping);
        } else if outbound != [] {
          writerHand := Some(outbound[0]);
          outbound := outbound[1..];
        }
      }
    }

    method WriterSend() returns (sent: Option<Frame>)
      requires Valid()
      modifies this`writerHand
      ensures Valid() && sent == old(writerHand) && View() == old(View()).(writerHand := None)
    {
      sent := writerHand;
      writerHand := None;
    }
  }

  /** No topic's policy writes a subscriber off: `runs` is unbounded and the others drop. */
  lemma PutStays(sub: Sub, t: Topic, p: Payload)
    requires !sub.disconnected
    ensures !Put(sub, ConfigOf(t), p).disconnected
  {}

  lemma SubscribedNone(bus: map<Topic, seq<Subscriber>>, subs: map<Topic, Subscriber>)
    ensures Subscribed(bus, bus, subs, subs, Elements([]))
  {}

  lemma SubscribedNext(b: map<Topic, seq<Subscriber>>, b1: map<Topic, seq<Subscriber>>,
                       b2: map<Topic, seq<Subscriber>>, s: map<Topic, Subscriber>, s1: map<Topic, Subscriber>,
                       s2: map<Topic, Subscriber>, done: set<Topic>, t: Topic)
    requires Subscribed(b, b1, s, s1, done) && t in b1
    requires if t in s1 then s2 == s1 && b2 == b1
             else t in s2 && s2 == s1[t := s2[t]] && b2 == b1[t := b1[t] + [s2[t]]]
    ensures Subscribed(b, b2, s, s2, done + {t})
  {}

  lemma UnsubscribedNone(bus: map<Topic, seq<Subscriber>>, subs: map<Topic, Subscriber>)
    ensures Unsubscribed(bus, bus, subs, subs, Elements([]))
  {
    assert subs - Elements([]) == subs;
  }

  lemma UnsubscribedNext(b: map<Topic, seq<Subscriber>>, b1: map<Topic, seq<Subscriber>>,
                         b2: map<Topic, seq<Subscriber>>, s: map<Topic, Subscriber>, s1: map<Topic, Subscriber>,
                         s2: map<Topic, Subscriber>, done: set<Topic>, t: Topic)
    requires Unsubscribed(b, b1, s, s1, done) && t in b1
    requires s2 == s1 - {t}
    requires b2 == if t in s1 then b1[t := Without(b1[t], {s1[t]})] else b1
    ensures Unsubscribed(b, b2, s, s2, done + {t})
  {
    hide Without;
    assert s - (done + {t}) == s - done - {t};
  }

  lemma DeliverIs(s: Server, s': Server, topic: Topic, p: Payload)
    requires s' == s.(subs := s'.subs) && s'.subs.Keys == s.subs.Keys
    requires forall t :: t in s.subs ==>
               s'.subs[t] == if t == topic then s.subs[t].(sub := Put(s.subs[t].sub, ConfigOf(t), p)) else s.subs[t]
    ensures s' == Deliver(s, topic, p)
  {
    hide Put, ConfigOf;
    assert s'.subs == Deliver(s, topic, p).subs;
  }

  lemma SubscribeNone(subs: map<Topic, Feed>)
    ensures SubscribeAll(subs, []) == subs
  {}

  lemma SubscribeMore(subs: map<Topic, Feed>, topics: seq<Topic>, t: Topic)
    ensures var done := SubscribeAll(subs, topics);
            SubscribeAll(subs, topics + [t]) == if t in done then done else done[t := FRESH_FEED]
  {}
}
