/** Run records behind a cache of recently read ones (src/agent/daemon/store.py). The SQLite
    tables are maps; one operation runs to its end before the next one starts. Overlapping
    reads are the subject of `StoreOverlap`. */
module RunStores {
  import opened Sequences

  // uuid strings, compared only for equality
  type RunId = nat

  datatype Event = Event(number: nat, body: nat)

  datatype Metrics = Metrics(iterations: Option<nat>, actions: Option<nat>, duration: Option<nat>)

  const NO_METRICS := Metrics(None, None, None)

  /** One row of `runs`; the columns no operation changes are one opaque value. */
  datatype Row = Row(details: nat, status: nat, endedAt: Option<nat>, error: Option<nat>, metrics: Metrics)

  datatype Record = Record(
    id: RunId, details: nat, status: nat, endedAt: Option<nat>, error: Option<nat>, events: seq<Event>)

  /** The events of a run are kept in the order of the table's primary key. Foreign keys are
      not enforced: events of a run without a row are possible. */
  datatype Db = Db(runs: map<RunId, Row>, events: map<RunId, seq<Event>>)

  datatype Op =
    | InsertRun(id: RunId, details: nat, status: nat, endedAt: Option<nat>)
    | UpdateStatus(id: RunId, status: nat, ended: nat, error: Option<nat>)
    | AppendEvent(id: RunId, event: Event)
    | UpdateMetrics(id: RunId, metrics: Metrics)
    | GetRun(id: RunId)

  datatype Out = Done | IntegrityError | Fetched(record: Option<Record>)

  // --- the tables --------------------------------------------------------------------------

  function EventsOf(db: Db, id: RunId): seq<Event> {
    if id in db.events then db.events[id] else []
  }

  predicate HasEvent(events: seq<Event>, n: nat) {
    exists i :: 0 <= i < |events| && events[i].number == n
  }

  function InsertEvent(events: seq<Event>, e: Event): seq<Event> {
    if events == [] || events[|events| - 1].number < e.number then events + [e]
    else InsertEvent(events[..|events| - 1], e) + [events[|events| - 1]]
  }

  /** Whether the statement violates no primary key. */
  predicate Accepts(db: Db, op: Op) {
    match op
    case InsertRun(id, _, _, _) => id !in db.runs
    case AppendEvent(id, e) => !HasEvent(EventsOf(db, id), e.number)
    case _ => true
  }

  function Overwrite(was: Option<nat>, given: Option<nat>): Option<nat> {
    if given.Some? then given else was
  }

  function Merge(m: Metrics, n: Metrics): Metrics {
    Metrics(Overwrite(m.iterations, n.iterations), Overwrite(m.actions, n.actions), Overwrite(m.duration, n.duration))
  }

  function WithRow(db: Db, id: RunId, row: Row): Db {
    db.(runs := db.runs[id := row])
  }

  function Write(db: Db, op: Op): Db {
    match op
    case InsertRun(id, d, s, e) => WithRow(db, id, Row(d, s, e, None, NO_METRICS))
    case UpdateStatus(id, s, e, err) =>
      if id in db.runs then WithRow(db, id, db.runs[id].(status := s, endedAt := Some(e), error := err)) else db
    case AppendEvent(id, e) => db.(events := db.events[id := InsertEvent(EventsOf(db, id), e)])
    case UpdateMetrics(id, m) =>
      if id in db.runs then WithRow(db, id, db.runs[id].(metrics := Merge(db.runs[id].metrics, m))) else db
    case GetRun(_) => db
  }

  /** What `_do_get_run` reads. */
  function Read(db: Db, id: RunId): Option<Record> {
    if id !in db.runs then None
    else
      var r := db.runs[id];
      Some(Record(id, r.details, r.status, r.endedAt, r.error, EventsOf(db, id)))
  }

  /** The store without its cache. */
  function Plain(db: Db, op: Op): (Db, Out) {
    if op.GetRun? then (db, Fetched(Read(db, op.id)))
    else if Accepts(db, op) then (Write(db, op), Done)
    else (db, IntegrityError)
  }

  // --- the cache ---------------------------------------------------------------------------

  /** The ordered dictionary, least recently used record first; a record is filed under its id. */
  type Cache = seq<Record>

  predicate Holds(c: Cache, id: RunId) {
    c != [] && (c[|c| - 1].id == id || Holds(c[..|c| - 1], id))
  }

  function Lookup(c: Cache, id: RunId): (r: Record)
    requires Holds(c, id)
    ensures r in c && r.id == id
  {
    if c[|c| - 1].id == id then c[|c| - 1] else Lookup(c[..|c| - 1], id)
  }

  function Forget(c: Cache, id: RunId): Cache {
    if c == [] then []
    else Forget(c[..|c| - 1], id) + if c[|c| - 1].id == id then [] else [c[|c| - 1]]
  }

  /** At most one record is evicted, the least recently used. */
  function Trim(c: Cache, k: nat): Cache {
    if |c| > k then c[1..] else c
  }

  datatype Store = Store(db: Db, cache: Cache)

  predicate Invalidates(op: Op) {
    match op
    case UpdateStatus(_, _, _, _) => true
    case AppendEvent(_, _) => true
    case UpdateMetrics(_, m) => m != NO_METRICS
    case _ => false
  }

  function Fetch(s: Store, k: nat, id: RunId): (Store, Out) {
    if Holds(s.cache, id) then
      var r := Lookup(s.cache, id);
      (s.(cache := Forget(s.cache, id) + [r]), Fetched(Some(r)))
    else
      match Read(s.db, id)
      case None => (s, Fetched(None))
      case Some(r) => (s.(cache := Trim(s.cache + [r], k)), Fetched(Some(r)))
  }

  function Step(s: Store, k: nat, op: Op): (Store, Out) {
    if op.GetRun? then Fetch(s, k, op.id)
    else if Accepts(s.db, op) then
      (Store(Write(s.db, op), if Invalidates(op) then Forget(s.cache, op.id) else s.cache), Done)
    else (s, IntegrityError)
  }

  // --- whole histories ---------------------------------------------------------------------

  function RunPlain(db: Db, ops: seq<Op>): (Db, seq<Out>) {
    if ops == [] then (db, [])
    else
      var before := RunPlain(db, ops[..|ops| - 1]);
      var (db', out) := Plain(before.0, ops[|ops| - 1]);
      (db', before.1 + [out])
  }

  function RunCached(db: Db, k: nat, ops: seq<Op>): (Store, seq<Out>) {
    if ops == [] then (Store(db, []), [])
    else
      var before := RunCached(db, k, ops[..|ops| - 1]);
      var (s, out) := Step(before.0, k, ops[|ops| - 1]);
      (s, before.1 + [out])
  }

  ghost predicate Coherent(s: Store) {
    forall r :: r in s.cache ==> Read(s.db, r.id) == Some(r)
  }

  ghost predicate Unique(c: Cache) {
    forall i, j :: 0 <= i < j < |c| ==> c[i].id != c[j].id
  }

  // --- coherence ---------------------------------------------------------------------------

  lemma {:induction false} ForgetKeeps(c: Cache, id: RunId)
    ensures forall r :: r in Forget(c, id) <==> r in c && r.id != id
    ensures |Forget(c, id)| <= |c| && (Holds(c, id) ==> |Forget(c, id)| < |c|)
  {
    if c != [] {
      ForgetKeeps(c[..|c| - 1], id);
      assert c == c[..|c| - 1] + [c[|c| - 1]];
    }
  }

  lemma {:induction false} ForgetUnique(c: Cache, id: RunId)
    requires Unique(c)
    ensures Unique(Forget(c, id))
  {
    if c != [] {
      var rest := c[..|c| - 1];
      ForgetUnique(rest, id);
      ForgetKeeps(rest, id);
      UniqueSnoc(Forget(rest, id), c[|c| - 1]);
    }
  }

  lemma UniqueSnoc(c: Cache, r: Record)
    requires Unique(c) && forall q :: q in c ==> q.id != r.id
    ensures Unique(c + [r])
  {}

  /** A write changes what is read of its own run only, and of that one only when it
      invalidates or the run had no row. */
  lemma WriteTouchesOwnRun(db: Db, op: Op, id: RunId)
    requires Accepts(db, op) && Read(db, id).Some?
    requires id != op.id || !Invalidates(op)
    ensures Read(Write(db, op), id) == Read(db, id)
  {}

  lemma FetchKeeps(s: Store, k: nat, id: RunId)
    requires Coherent(s) && Unique(s.cache) && |s.cache| <= k
    ensures var (s', out) := Fetch(s, k, id);
            && Coherent(s') && Unique(s'.cache) && |s'.cache| <= k
            && s'.db == s.db && out == Fetched(Read(s.db, id))
  {
    hide Read;
    ForgetKeeps(s.cache, id);
    ForgetUnique(s.cache, id);
    HoldsIffIn(s.cache, id);
    if Holds(s.cache, id) {
      UniqueSnoc(Forget(s.cache, id), Lookup(s.cache, id));
    } else if Read(s.db, id).Some? {
      ReadId(s.db, id);
      UniqueSnoc(s.cache, Read(s.db, id).value);
    }
  }

  lemma ReadId(db: Db, id: RunId)
    ensures Read(db, id).Some? ==> Read(db, id).value.id == id
  {}

  lemma WriteKeeps(s: Store, k: nat, op: Op)
    requires !op.GetRun? && Coherent(s) && Unique(s.cache) && |s.cache| <= k
    ensures var (s', out) := Step(s, k, op);
            && Coherent(s') && Unique(s'.cache) && |s'.cache| <= k
            && (s'.db, out) == Plain(s.db, op)
  {
    hide Read, Write, Accepts, Invalidates;
    if Accepts(s.db, op) {
      ForgetKeeps(s.cache, op.id);
      ForgetUnique(s.cache, op.id);
      forall r | r in Step(s, k, op).0.cache
        ensures Read(Write(s.db, op), r.id) == Some(r)
      {
        WriteTouchesOwnRun(s.db, op, r.id);
      }
    }
  }

  /** The cache cannot be told from no cache: whatever the tables hold at the start and
      whatever is asked, every answer is the one the tables alone would give. */
  lemma {:induction false} CacheIsTransparent(db: Db, k: nat, ops: seq<Op>)
    ensures var (s, outs) := RunCached(db, k, ops);
            && (s.db, outs) == RunPlain(db, ops)
            && Coherent(s) && Unique(s.cache) && |s.cache| <= k
  {
    if ops != [] {
      var before := ops[..|ops| - 1];
      CacheIsTransparent(db, k, before);
      hide Coherent, Unique;
      var op := ops[|ops| - 1];
      var s := RunCached(db, k, before).0;
      if op.GetRun? {
        FetchKeeps(s, k, op.id);
      } else {
        WriteKeeps(s, k, op);
      }
    }
  }

  /** Strictly increasing event numbers. */
  predicate InOrder(events: seq<Event>) {
    events == [] ||
    (var n := |events| - 1;
     InOrder(events[..n]) && forall e :: e in events[..n] ==> e.number < events[n].number)
  }

  lemma {:induction false} InsertEventContents(events: seq<Event>, e: Event)
    ensures multiset(InsertEvent(events, e)) == multiset(events) + multiset{e}
    ensures forall x :: x in InsertEvent(events, e) <==> x in events || x == e
  {
    if events != [] && events[|events| - 1].number >= e.number {
      var n := |events| - 1;
      InsertEventContents(events[..n], e);
      assert events == events[..n] + [events[n]];
    }
  }

  /** An accepted append adds exactly its event and keeps the events of the run in order. */
  lemma {:induction false} InsertEventInOrder(events: seq<Event>, e: Event)
    requires InOrder(events) && !HasEvent(events, e.number)
    ensures InOrder(InsertEvent(events, e)) && multiset(InsertEvent(events, e)) == multiset(events) + multiset{e}
  {
    InsertEventContents(events, e);
    if events != [] {
      var n := |events| - 1;
      assert events == events[..n] + [events[n]];
      if events[n].number >= e.number {
        var rest := InsertEvent(events[..n], e);
        assert forall i :: 0 <= i < n ==> events[..n][i] == events[i];
        assert events[n].number != e.number;
        InsertEventInOrder(events[..n], e);
        InsertEventContents(events[..n], e);
        assert InsertEvent(events, e)[..n + 1] == rest;
      } else {
        assert InsertEvent(events, e)[..n + 1] == events;
      }
    }
  }

  /** The events of every run stay in order, so reading them by primary key is reading them
      in the order of their numbers. */
  lemma {:induction false} EventsInOrder(db: Db, ops: seq<Op>, id: RunId)
    requires forall r :: InOrder(EventsOf(db, r))
    ensures InOrder(EventsOf(RunPlain(db, ops).0, id))
  {
    if ops != [] {
      var before, op := ops[..|ops| - 1], ops[|ops| - 1];
      EventsInOrder(db, before, id);
      var table := RunPlain(db, before).0;
      if op.AppendEvent? && op.id == id && Accepts(table, op) {
        InsertEventInOrder(EventsOf(table, id), op.event);
      }
    }
  }

  // --- which records are cached --------------------------------------------------------------

  /** The runs read since the last write to them, in order of their last read. This looks at
      the requests alone: no capacity, no hits, no evictions. */
  function Recency(db: Db, ops: seq<Op>): Cache {
    if ops == [] then []
    else
      var before := ops[..|ops| - 1];
      Touch(Recency(db, before), RunPlain(db, before).0, ops[|ops| - 1])
  }

  function Touch(u: Cache, db: Db, op: Op): Cache {
    if op.GetRun? then
      match Read(db, op.id)
      case None => u
      case Some(r) => Forget(u, op.id) + [r]
    else if Accepts(db, op) && Invalidates(op) then Forget(u, op.id)
    else u
  }

  /** How many records are more recent. */
  function Rank(c: Cache, id: RunId): nat {
    if c == [] || c[|c| - 1].id == id then 0 else 1 + Rank(c[..|c| - 1], id)
  }

  /** The worst rank a run has had since it was last read, if it has been read since it was
      last written. */
  function Peak(db: Db, ops: seq<Op>, id: RunId): Option<nat> {
    if ops == [] then None
    else
      var before, op := ops[..|ops| - 1], ops[|ops| - 1];
      var table := RunPlain(db, before).0;
      if op.GetRun? && op.id == id && Read(table, id).Some? then Some(0)
      else if Peak(db, before, id).None? || (op.id == id && Accepts(table, op) && Invalidates(op)) then None
      else Some(Max(Peak(db, before, id).value, Rank(Recency(db, ops), id)))
  }

  function Max(a: nat, b: nat): nat {
    if a < b then b else a
  }

  predicate IsSuffix(c: Cache, u: Cache) {
    |c| <= |u| && u[|u| - |c|..] == c
  }

  lemma {:induction false} ForgetSuffix(c: Cache, u: Cache, id: RunId)
    requires IsSuffix(c, u)
    ensures IsSuffix(Forget(c, id), Forget(u, id))
  {
    if c != [] {
      var c', u' := c[..|c| - 1], u[..|u| - 1];
      assert c[|c| - 1] == u[|u| - 1] && IsSuffix(c', u');
      ForgetSuffix(c', u', id);
    }
  }

  /** A suffix holds exactly the runs ranked below its length. */
  lemma {:induction false} SuffixHolds(c: Cache, u: Cache, id: RunId)
    requires IsSuffix(c, u)
    ensures Holds(c, id) <==> Rank(u, id) < |c|
  {
    if c != [] {
      var c', u' := c[..|c| - 1], u[..|u| - 1];
      assert c[|c| - 1] == u[|u| - 1] && IsSuffix(c', u');
      SuffixHolds(c', u', id);
    }
  }

  lemma {:induction false} HoldsIffIn(c: Cache, id: RunId)
    ensures Holds(c, id) <==> exists r :: r in c && r.id == id
  {
    if c != [] {
      HoldsIffIn(c[..|c| - 1], id);
      assert c == c[..|c| - 1] + [c[|c| - 1]];
    }
  }

  /** The step behind the two theorems below: at every capacity the cache is the most recent
      end of `Recency`. */
  lemma {:induction false} CacheIsSuffix(db: Db, k: nat, ops: seq<Op>)
    ensures IsSuffix(RunCached(db, k, ops).0.cache, Recency(db, ops))
  {
    if ops != [] {
      var before, op := ops[..|ops| - 1], ops[|ops| - 1];
      CacheIsSuffix(db, k, before);
      CacheIsTransparent(db, k, before);
      StepSuffix(RunCached(db, k, before).0, k, op, Recency(db, before));
    }
  }

  lemma StepSuffix(s: Store, k: nat, op: Op, u: Cache)
    requires Coherent(s) && IsSuffix(s.cache, u) && |s.cache| <= k
    ensures IsSuffix(Step(s, k, op).0.cache, Touch(u, s.db, op))
  {
    hide Read, Accepts, Invalidates, Forget, Holds;
    ForgetSuffix(s.cache, u, op.id);
    if op.GetRun? {
      FetchSuffix(s, k, op.id, u);
    } else {
      hide IsSuffix;
    }
  }

  lemma FetchSuffix(s: Store, k: nat, id: RunId, u: Cache)
    requires Coherent(s) && IsSuffix(s.cache, u) && |s.cache| <= k
    ensures IsSuffix(Fetch(s, k, id).0.cache, Touch(u, s.db, GetRun(id)))
  {
    hide Read, IsSuffix, Forget;
    ForgetSuffix(s.cache, u, id);
    HoldsIffIn(s.cache, id);
    hide Holds;
    if Holds(s.cache, id) {
      SuffixSnoc(Forget(s.cache, id), Forget(u, id), Lookup(s.cache, id));
    } else if Read(s.db, id).Some? {
      ForgetAbsent(s.cache, id);
      SuffixSnoc(s.cache, Forget(u, id), Read(s.db, id).value);
      SuffixTrim(s.cache + [Read(s.db, id).value], k, Forget(u, id) + [Read(s.db, id).value]);
    }
  }

  lemma SuffixTrim(c: Cache, k: nat, u: Cache)
    requires IsSuffix(c, u)
    ensures IsSuffix(Trim(c, k), u)
  {}

  lemma SuffixSnoc(c: Cache, u: Cache, r: Record)
    requires IsSuffix(c, u)
    ensures IsSuffix(c + [r], u + [r])
  {}

  lemma {:induction false} ForgetAbsent(c: Cache, id: RunId)
    requires !Holds(c, id)
    ensures Forget(c, id) == c
  {
    if c != [] {
      ForgetAbsent(c[..|c| - 1], id);
    }
  }

  /** A run that was just read is cached, unless nothing ever is. */
  lemma FetchHolds(s: Store, k: nat, id: RunId)
    requires Coherent(s) && |s.cache| <= k && Read(s.db, id).Some?
    ensures Holds(Fetch(s, k, id).0.cache, id) <==> k > 0
  {
    hide Read;
    ReadId(s.db, id);
    var c := Fetch(s, k, id).0.cache;
    if k > 0 {
      assert c[|c| - 1].id == id;
    }
  }

  /** Fetching another run can only push a run out, and only out of a full cache. */
  lemma FetchOther(s: Store, k: nat, other: RunId, id: RunId)
    requires Coherent(s) && |s.cache| <= k && other != id
    ensures var c := Fetch(s, k, other).0.cache;
            (Holds(c, id) ==> Holds(s.cache, id)) && (Holds(s.cache, id) && !Holds(c, id) ==> |c| == k)
  {
    hide Read;
    ReadId(s.db, other);
    var c := Fetch(s, k, other).0.cache;
    ForgetKeeps(s.cache, other);
    HoldsIffIn(s.cache, id);
    HoldsIffIn(c, id);
    HoldsIffIn(Forget(s.cache, other), id);
    hide Holds;
    if Holds(s.cache, other) {
      var r := Lookup(s.cache, other);
      assert forall q :: q in c <==> q in Forget(s.cache, other) || q == r;
    } else if Read(s.db, other).Some? {
      var r := Read(s.db, other).value;
      assert forall q :: q in c ==> q in s.cache || q == r;
    }
  }

  lemma ForgetHolds(c: Cache, other: RunId, id: RunId)
    ensures Holds(Forget(c, other), id) <==> Holds(c, id) && id != other
  {
    ForgetKeeps(c, other);
    HoldsIffIn(c, id);
    HoldsIffIn(Forget(c, other), id);
  }

  /** How one step moves one run in or out of a cache of capacity `k`. */
  lemma StepHolds(s: Store, k: nat, op: Op, id: RunId)
    requires Coherent(s) && |s.cache| <= k
    ensures var c := Step(s, k, op).0.cache;
            if op.GetRun? && op.id == id && Read(s.db, id).Some? then Holds(c, id) <==> k > 0
            else if op.id == id && Accepts(s.db, op) && Invalidates(op) then !Holds(c, id)
            else (Holds(c, id) ==> Holds(s.cache, id)) && (Holds(s.cache, id) && !Holds(c, id) ==> |c| == k)
  {
    hide Read, Accepts, Holds, Forget;
    if op.GetRun? {
      if op.id != id {
        FetchOther(s, k, op.id, id);
      } else if Read(s.db, id).Some? {
        FetchHolds(s, k, id);
      } else {
        HoldsIffIn(s.cache, id);
      }
    } else {
      ForgetHolds(s.cache, op.id, id);
    }
  }

  /** Exactly which runs a cache of capacity `k` holds: those read since their last write
      whose rank has stayed below `k` ever since. */
  lemma {:induction false} HeldIff(db: Db, k: nat, ops: seq<Op>, id: RunId)
    ensures Holds(RunCached(db, k, ops).0.cache, id)
       <==> Peak(db, ops, id).Some? && Peak(db, ops, id).value < k
  {
    if ops != [] {
      var before, op := ops[..|ops| - 1], ops[|ops| - 1];
      HeldIff(db, k, before, id);
      CacheIsTransparent(db, k, before);
      CacheIsTransparent(db, k, ops);
      CacheIsSuffix(db, k, ops);
      var s, c := RunCached(db, k, before).0, RunCached(db, k, ops).0.cache;
      assert c == Step(s, k, op).0.cache;
      hide Holds, Coherent, Unique, Recency, Rank, IsSuffix, Step, Read, Accepts, Invalidates, RunCached, RunPlain;
      StepHolds(s, k, op, id);
      SuffixHolds(c, Recency(db, ops), id);
    }
  }

  /** Inclusion: on one and the same history a smaller cache is the recent end of a larger
      one, so the larger one answers from memory whenever the smaller one does. */
  lemma Inclusion(db: Db, k: nat, m: nat, ops: seq<Op>)
    requires k <= m
    ensures IsSuffix(RunCached(db, k, ops).0.cache, RunCached(db, m, ops).0.cache)
    ensures forall id :: Holds(RunCached(db, k, ops).0.cache, id) ==> Holds(RunCached(db, m, ops).0.cache, id)
  {
    var small, large := RunCached(db, k, ops).0.cache, RunCached(db, m, ops).0.cache;
    CacheIsSuffix(db, k, ops);
    CacheIsSuffix(db, m, ops);
    hide RunCached;
    forall id | Holds(small, id)
      ensures Holds(large, id)
    {
      HeldIff(db, k, ops, id);
      HeldIff(db, m, ops, id);
    }
    if |large| < |small| {
      var u := Recency(db, ops);
      var id := small[0].id;
      HoldsIffIn(small, id);
      SuffixHolds(large, u, id);
      CacheIsTransparent(db, k, ops);
      RankOfOldest(small, u);
    }
  }

  /** With unique ids the oldest record of a suffix has the rank of its position. */
  lemma {:induction false} RankOfOldest(c: Cache, u: Cache)
    requires c != [] && IsSuffix(c, u) && Unique(c)
    ensures Rank(u, c[0].id) == |c| - 1
  {
    assert u[|u| - 1] == c[|c| - 1];
    if |c| > 1 {
      assert IsSuffix(c[..|c| - 1], u[..|u| - 1]);
      RankOfOldest(c[..|c| - 1], u[..|u| - 1]);
    }
  }

  // --- the store object ----------------------------------------------------------------------

  const LRU_CAPACITY: nat := 16

  /** `RunStore`: the two tables and the ordered dictionary, changed in place. Each method
      computes one `Step`; a statement that violates a primary key raises before the cache is
      touched. */
  class RunStore {
    var runs: map<RunId, Row>
    var events: map<RunId, seq<Event>>
    var lru: Cache

    function Tables(): Db
      reads this
    {
      Db(runs, events)
    }

    function View(): Store
      reads this
    {
      Store(Tables(), lru)
    }

    ghost predicate Valid()
      reads this
    {
      Coherent(View()) && Unique(lru) && |lru| <= LRU_CAPACITY
    }

    constructor (runs: map<RunId, Row>, events: map<RunId, seq<Event>>)
      ensures Valid() && View() == Store(Db(runs, events), [])
    {
      this.runs, this.events, lru := runs, events, [];
    }

    method InsertNewRun(id: RunId, details: nat, status: nat, endedAt: Option<nat>) returns (out: Out)
      requires Valid()
      modifies this`runs
      ensures Valid() && (View(), out) == Step(old(View()), LRU_CAPACITY, InsertRun(id, details, status, endedAt))
    {
      WriteKeeps(View(), LRU_CAPACITY, InsertRun(id, details, status, endedAt));
      hide Coherent;
      if id in runs {
        return IntegrityError;
      }
      runs := runs[id := Row(details, status, endedAt, None, NO_METRICS)];
      return Done;
    }

    method UpdateRunStatus(id: RunId, status: nat, endedAt: Option<nat>, error: Option<nat>, now: nat)
      returns (out: Out)
      requires Valid()
      modifies this`runs, this`lru
      ensures Valid()
      ensures var ended := if endedAt.Some? then endedAt.value else now;
              (View(), out) == Step(old(View()), LRU_CAPACITY, UpdateStatus(id, status, ended, error))
    {
      var ended := if endedAt.Some? then endedAt.value else now;
      WriteKeeps(View(), LRU_CAPACITY, UpdateStatus(id, status, ended, error));
      hide Coherent;
      if id in runs {
        runs := runs[id := runs[id].(status := status, endedAt := Some(ended), error := error)];
      }
      lru := Forget(lru, id);
      return Done;
    }

    method AppendRunEvent(id: RunId, event: Event) returns (out: Out)
      requires Valid()
      modifies this`events, this`lru
      ensures Valid() && (View(), out) == Step(old(View()), LRU_CAPACITY, AppendEvent(id, event))
    {
      WriteKeeps(View(), LRU_CAPACITY, AppendEvent(id, event));
      hide Coherent;
      var rows := if id in events then events[id] else [];
      if HasEvent(rows, event.number) {
        return IntegrityError;
      }
      events := events[id := InsertEvent(rows, event)];
      lru := Forget(lru, id);
      return Done;
    }

    method UpdateRunMetrics(id: RunId, metrics: Metrics)
      requires Valid()
      modifies this`runs, this`lru
      ensures Valid() && (View(), Done) == Step(old(View()), LRU_CAPACITY, UpdateMetrics(id, metrics))
    {
      WriteKeeps(View(), LRU_CAPACITY, UpdateMetrics(id, metrics));
      hide Coherent;
      if metrics.iterations.None? && metrics.actions.None? && metrics.duration.None? {
        if id in runs {
          assert Merge(runs[id].metrics, metrics) == runs[id].metrics;
          assert runs[id := runs[id]] == runs;
        }
        return;
      }
      if id in runs {
        runs := runs[id := runs[id].(metrics := Merge(runs[id].metrics, metrics))];
      }
      lru := Forget(lru, id);
    }

    /** What is returned is what the tables hold, whether or not they were asked. */
    method Get(id: RunId) returns (record: Option<Record>)
      requires Valid()
      modifies this`lru
      ensures Valid() && record == Read(Tables(), id)
      ensures (View(), Fetched(record)) == Step(old(View()), LRU_CAPACITY, GetRun(id))
    {
      FetchKeeps(View(), LRU_CAPACITY, id);
      hide Coherent, Read;
      if Holds(lru, id) {
        var r := Lookup(lru, id);
        lru := Forget(lru, id) + [r];
        return Some(r);
      }
      record := Read(Tables(), id);
      if record.Some? {
        lru := lru + [record.value];
        if |lru| > LRU_CAPACITY {
          lru := lru[1..];
        }
      }
    }
  }
}
