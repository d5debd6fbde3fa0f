/** The in-process bus (src/agent/daemon/pubsub.py): bounded subscriber queues with a
    per-topic drop policy. `Topic.voice` has no queue configuration in the program and is
    not a `Topic` here. */
module PubSubs {
  import opened Sequences

  datatype Topic = Runs | HyprEvents | Logs

  datatype DropPolicy = DropOldest | Disconnect

  // event payloads are opaque; two payloads are told apart by their number
  type Payload = nat

  /** Queue size, zero meaning unbounded, and what happens when the queue is full. */
  datatype Config = Config(capacity: nat, policy: DropPolicy)

  function ConfigOf(topic: Topic): Config {
    match topic
    case Runs => Config(0, Disconnect)
    case HyprEvents => Config(256, DropOldest)
    case Logs => Config(1024, DropOldest)
  }

  /** The mutable part of a subscriber. */
  datatype Sub = Sub(queue: seq<Payload>, disconnected: bool)

  const FRESH := Sub([], false)

  predicate Full(queue: seq<Payload>, cfg: Config) {
    cfg.capacity > 0 && |queue| >= cfg.capacity
  }

  /** One `put_nowait`. */
  function Put(s: Sub, cfg: Config, p: Payload): Sub {
    if s.disconnected then
      s
    else if !Full(s.queue, cfg) then
      s.(queue := s.queue + [p])
    else if cfg.policy == DropOldest then
      s.(queue := s.queue[1..] + [p])
    else
      s.(disconnected := true)
  }

  // --- a subscriber's whole life ---------------------------------------------------

  datatype Op = DoPut(p: Payload) | DoGet | DoDisconnect

  /** A subscriber with the history of its life: the messages its queue accepted, and
      which of them, by position, were taken and which were dropped. */
  datatype Life = Life(sub: Sub, puts: seq<Payload>, taken: seq<nat>, dropped: seq<nat>)

  /** Position, among the messages put, of the oldest message still queued. */
  function Head(l: Life): int {
    |l.puts| - |l.sub.queue|
  }

  function LifeStep(l: Life, cfg: Config, op: Op): Life {
    match op
    case DoPut(p) =>
      var sub := Put(l.sub, cfg, p);
      if sub.disconnected then
        l.(sub := sub)
      else
        var next := Life(sub, l.puts + [p], l.taken, l.dropped);
        if Head(next) > Head(l) >= 0 then next.(dropped := l.dropped + [Head(l)]) else next
    case DoGet =>
      if l.sub.queue == [] || Head(l) < 0 then l
      else l.(sub := l.sub.(queue := l.sub.queue[1..]), taken := l.taken + [Head(l)])
    case DoDisconnect =>
      l.(sub := l.sub.(disconnected := true))
  }

  function Live(cfg: Config, ops: seq<Op>): Life {
    if ops == [] then Life(FRESH, [], [], [])
    else LifeStep(Live(cfg, ops[..|ops| - 1]), cfg, ops[|ops| - 1])
  }

  ghost predicate Increasing(s: seq<nat>) {
    forall i, j :: 0 <= i < j < |s| ==> s[i] < s[j]
  }

  /** Queued, taken and dropped messages partition what was put, each in order. */
  ghost predicate Partitioned(l: Life) {
    && 0 <= Head(l)
    && l.sub.queue == l.puts[Head(l)..]
    && Increasing(l.taken) && Increasing(l.dropped)
    && (forall i :: i in l.taken ==> 0 <= i < Head(l) && i !in l.dropped)
    && (forall i :: i in l.dropped ==> 0 <= i < Head(l))
    && (forall i :: 0 <= i < Head(l) ==> i in l.taken || i in l.dropped)
  }

  ghost predicate WithinCapacity(s: Sub, cfg: Config) {
    cfg.capacity > 0 ==> |s.queue| <= cfg.capacity
  }

  lemma StepPartitioned(l: Life, cfg: Config, op: Op)
    requires Partitioned(l) && WithinCapacity(l.sub, cfg)
    ensures Partitioned(LifeStep(l, cfg, op)) && WithinCapacity(LifeStep(l, cfg, op).sub, cfg)
  {
    assert forall k :: 0 <= k < |l.taken| ==> l.taken[k] in l.taken;
    assert forall k :: 0 <= k < |l.dropped| ==> l.dropped[k] in l.dropped;
  }

  /** Main result: under any interleaving of puts and gets the queue is a contiguous suffix
      of the messages put while connected, and taken, dropped and queued partition them. */
  lemma {:induction false} LivePartitioned(cfg: Config, ops: seq<Op>)
    ensures Partitioned(Live(cfg, ops)) && WithinCapacity(Live(cfg, ops).sub, cfg)
  {
    if ops != [] {
      LivePartitioned(cfg, ops[..|ops| - 1]);
      StepPartitioned(Live(cfg, ops[..|ops| - 1]), cfg, ops[|ops| - 1]);
    }
  }

  /** By the end of `ops`, at least a capacity of newer messages than message `i` has
      arrived and `i` has not been taken. */
  ghost predicate Overtaken(cfg: Config, ops: seq<Op>, i: nat) {
    var l := Live(cfg, ops);
    |l.puts| >= i + 1 + cfg.capacity && i !in l.taken
  }

  lemma {:induction false} DroppedStays(cfg: Config, ops: seq<Op>, n: nat, i: nat)
    requires n <= |ops| && i in Live(cfg, ops[..n]).dropped
    ensures i in Live(cfg, ops).dropped
    decreases |ops| - n
  {
    if n < |ops| {
      assert ops[..n + 1][..n] == ops[..n];
      DroppedStays(cfg, ops, n + 1, i);
    } else {
      assert ops[..n] == ops;
    }
  }

  lemma {:induction false} DroppedWasOvertaken(cfg: Config, ops: seq<Op>, i: nat) returns (n: nat)
    requires i in Live(cfg, ops).dropped
    ensures n <= |ops| && Overtaken(cfg, ops[..n], i)
  {
    var before := ops[..|ops| - 1];
    LivePartitioned(cfg, before);
    LivePartitioned(cfg, ops);
    if i in Live(cfg, before).dropped {
      n := DroppedWasOvertaken(cfg, before, i);
      assert before[..n] == ops[..n];
    } else {
      n := |ops|;
      assert ops[..n] == ops;
    }
  }

  /** Main result: on a bounded queue a message is dropped if and only if a full capacity of
      newer messages arrives before it is taken. */
  lemma DroppedIffOvertaken(cfg: Config, ops: seq<Op>, i: nat)
    requires cfg.capacity > 0
    ensures i in Live(cfg, ops).dropped <==> exists n :: 0 <= n <= |ops| && Overtaken(cfg, ops[..n], i)
  {
    if i in Live(cfg, ops).dropped {
      var n := DroppedWasOvertaken(cfg, ops, i);
    }
    if n :| 0 <= n <= |ops| && Overtaken(cfg, ops[..n], i) {
      LivePartitioned(cfg, ops[..n]);
      DroppedStays(cfg, ops, n, i);
    }
  }

  /** An unbounded queue, as `runs` has, drops nothing and no put disconnects it. */
  lemma {:induction false} UnboundedLossless(cfg: Config, ops: seq<Op>)
    requires cfg.capacity == 0
    requires forall k :: 0 <= k < |ops| ==> !ops[k].DoDisconnect?
    ensures var l := Live(cfg, ops);
            !l.sub.disconnected && l.dropped == []
  {
    if ops != [] {
      UnboundedLossless(cfg, ops[..|ops| - 1]);
    }
  }

  // --- the classes --------------------------------------------------------------------

  class Subscriber {
    const cfg: Config
    var queue: seq<Payload>
    var disconnected: bool

    function View(): Sub
      reads this
    {
      Sub(queue, disconnected)
    }

    constructor (topic: Topic)
      ensures View() == FRESH && cfg == ConfigOf(topic)
    {
      cfg := ConfigOf(topic);
      queue, disconnected := [], false;
    }

    /** `asyncio.Queue.put_nowait`, reporting QueueFull. */
    method QueuePut(p: Payload) returns (full: bool)
      modifies this`queue
      ensures full == Full(old(queue), cfg)
      ensures queue == if full then old(queue) else old(queue) + [p]
    {
      full := cfg.capacity > 0 && |queue| >= cfg.capacity;
      if !full {
        queue := queue + [p];
      }
    }

    method PutNowait(p: Payload)
      requires WithinCapacity(View(), cfg)
      modifies this
      ensures View() == Put(old(View()), cfg, p)
      ensures WithinCapacity(View(), cfg)
    {
      if disconnected {
        return;
      }
      var full := QueuePut(p);
      if full {
        if cfg.policy == DropOldest {
          queue := queue[1..];
          full := QueuePut(p);
        } else {
          disconnected := true;
        }
      }
    }
  }

  /** `list.remove`: the first occurrence, if any. */
  function Remove<T(==)>(s: seq<T>, x: T): seq<T> {
    if s == [] then []
    else if s[0] == x then s[1..]
    else [s[0]] + Remove(s[1..], x)
  }

  function Without<T(==)>(s: seq<T>, gone: set<T>): (r: seq<T>)
    ensures forall i :: 0 <= i < |r| ==> r[i] in s && r[i] !in gone
    ensures forall i :: 0 <= i < |s| ==> s[i] in gone || s[i] in r
  {
    if s == [] then []
    else if s[0] in gone then Without(s[1..], gone)
    else [s[0]] + Without(s[1..], gone)
  }

  ghost function Elements<T>(s: seq<T>): set<T> {
    set x | x in s
  }

  lemma {:induction false} WithoutDistinct<T>(s: seq<T>, gone: set<T>)
    requires Distinct(s)
    ensures Distinct(Without(s, gone))
  {
    if s != [] {
      assert Distinct(s[1..]);
      WithoutDistinct(s[1..], gone);
    }
  }

  lemma {:induction false} RemoveIsWithout<T>(s: seq<T>, gone: set<T>, x: T)
    requires Distinct(s) && x !in gone
    ensures Remove(Without(s, gone), x) == Without(s, gone + {x})
  {
    if s != [] {
      assert Distinct(s[1..]);
      if s[0] == x {
        WithoutAbsent(s[1..], gone, x);
      } else {
        RemoveIsWithout(s[1..], gone, x);
      }
    }
  }

  lemma {:induction false} WithoutAbsent<T>(s: seq<T>, gone: set<T>, x: T)
    requires x !in s
    ensures Without(s, gone + {x}) == Without(s, gone)
  {
    if s != [] {
      WithoutAbsent(s[1..], gone, x);
    }
  }

  class PubSub {
    var subs: map<Topic, seq<Subscriber>>

    ghost predicate Valid()
      reads this, set t, s | t in subs && s in subs[t] :: s
    {
      && (forall t: Topic :: t in subs)
      && (forall t :: t in subs ==> Distinct(subs[t]))
      && (forall t, s :: t in subs && s in subs[t] ==> s.cfg == ConfigOf(t) && WithinCapacity(s.View(), s.cfg))
    }

    constructor ()
      ensures Valid() && forall t: Topic :: subs[t] == []
    {
      subs := map[Runs := [], HyprEvents := [], Logs := []];
      new;
      forall t: Topic
        ensures t in subs && subs[t] == []
      {
        match t case Runs => case HyprEvents => case Logs =>
      }
    }

    method Subscribe(topic: Topic) returns (sub: Subscriber)
      requires Valid()
      modifies this
      ensures Valid() && fresh(sub) && sub.View() == FRESH && sub.cfg == ConfigOf(topic)
      ensures subs == old(subs)[topic := old(subs)[topic] + [sub]]
    {
      sub := new Subscriber(topic);
      subs := subs[topic := subs[topic] + [sub]];
    }

    method Unsubscribe(topic: Topic, sub: Subscriber)
      requires Valid()
      modifies this
      ensures Valid()
      ensures subs == old(subs)[topic := Without(old(subs)[topic], {sub})]
    {
      RemoveOne(subs[topic], sub);
      WithoutDistinct(subs[topic], {sub});
      hide Without, Remove, Distinct;
      subs := subs[topic := Remove(subs[topic], sub)];
    }

    /** Every subscriber of the topic gets the payload by its own policy; those found
        disconnected afterwards leave the list, the others keep their order. */
    method Publish(topic: Topic, p: Payload)
      requires Valid()
      modifies this, subs[topic]
      ensures Valid()
      ensures forall s :: s in old(subs)[topic] ==> s.View() == Put(old(s.View()), s.cfg, p)
      ensures subs == old(subs)[topic := Without(old(subs)[topic], set s | s in old(subs)[topic] && s.disconnected)]
    {
      var targets := subs[topic];
      var dead := PutAll(targets, p);
      ghost var gone := set s | s in targets && s.disconnected;
      assert Elements(dead) == gone;
      hide Without;
      RemoveAll(topic, dead);
      assert gone == set s | s in old(subs)[topic] && s.disconnected;
    }

    /** The delivery loop over a snapshot of the list. */
    static method PutAll(targets: seq<Subscriber>, p: Payload) returns (dead: seq<Subscriber>)
      requires Distinct(targets) && forall s :: s in targets ==> WithinCapacity(s.View(), s.cfg)
      modifies targets
      ensures forall s :: s in targets ==>
                s.View() == Put(old(s.View()), s.cfg, p) && WithinCapacity(s.View(), s.cfg)
      ensures forall s :: s in dead <==> s in targets && s.disconnected
      ensures Distinct(dead)
    {
      hide Put, WithinCapacity;
      dead := [];
      for i := 0 to |targets|
        invariant forall j :: 0 <= j < i ==>
                    targets[j].View() == Put(old(targets[j].View()), targets[j].cfg, p)
                    && WithinCapacity(targets[j].View(), targets[j].cfg)
        invariant forall j :: i <= j < |targets| ==> targets[j].View() == old(targets[j].View())
        invariant forall s :: s in dead <==> s in targets[..i] && s.disconnected
        invariant Distinct(dead)
      {
        targets[i].PutNowait(p);
        if targets[i].disconnected {
          dead := dead + [targets[i]];
        }
      }
      assert targets[..|targets|] == targets;
    }

    /** The clean-up loop under the lock. */
    method RemoveAll(topic: Topic, dead: seq<Subscriber>)
      requires Valid() && Distinct(dead)
      modifies this
      ensures Valid()
      ensures subs == old(subs)[topic := Without(old(subs)[topic], Elements(dead))]
    {
      hide Without, Remove, Distinct;
      ghost var targets := subs[topic];
      WithoutNothing(targets);
      assert Elements(dead[..0]) == {};
      assert subs == subs[topic := targets];
      for i := 0 to |dead|
        invariant subs == old(subs)[topic := Without(targets, Elements(dead[..i]))]
      {
        ghost var gone := Elements(dead[..i]);
        DistinctPrefix(dead, i);
        RemoveIsWithout(targets, gone, dead[i]);
        assert dead[..i + 1] == dead[..i] + [dead[i]];
        assert gone + {dead[i]} == Elements(dead[..i + 1]);
        subs := subs[topic := Remove(subs[topic], dead[i])];
      }
      assert dead[..|dead|] == dead;
      WithoutDistinct(targets, Elements(dead));
    }
  }

  lemma DistinctPrefix<T>(s: seq<T>, i: nat)
    requires Distinct(s) && i < |s|
    ensures s[i] !in s[..i]
  {}

  lemma RemoveOne<T>(s: seq<T>, x: T)
    requires Distinct(s)
    ensures Remove(s, x) == Without(s, {x})
  {
    WithoutNothing(s);
    RemoveIsWithout(s, {}, x);
    assert {} + {x} == {x};
  }

  lemma {:induction false} WithoutNothing<T>(s: seq<T>)
    ensures Without(s, {}) == s
  {
    if s != [] {
      WithoutNothing(s[1..]);
    }
  }
}
