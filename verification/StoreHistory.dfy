/** What the store answers in terms of the requests it was given, from empty tables on
    (src/agent/daemon/store.py:226-332, 440-475): which insert, update, append or metric counts. */
module StoreHistory {
  import opened Sequences
  import opened RunStores

  const NOTHING := Db(map[], map[])

  function Tables(ops: seq<Op>): Db {
    RunPlain(NOTHING, ops).0
  }

  // --- which requests count ---------------------------------------------------------------------

  predicate Inserts(op: Op, id: RunId) {
    op.InsertRun? && op.id == id
  }

  predicate Updates(op: Op, id: RunId) {
    op.UpdateStatus? && op.id == id
  }

  datatype Metric = Iterations | Actions | Duration

  function Column(m: Metrics, c: Metric): Option<nat> {
    match c
    case Iterations => m.iterations
    case Actions => m.actions
    case Duration => m.duration
  }

  predicate Gives(op: Op, id: RunId, c: Metric) {
    op.UpdateMetrics? && op.id == id && Column(op.metrics, c).Some?
  }

  predicate Appends(op: Op, id: RunId, number: nat) {
    op.AppendEvent? && op.id == id && op.event.number == number
  }

  ghost predicate Inserted(ops: seq<Op>, id: RunId) {
    exists i :: 0 <= i < |ops| && Inserts(ops[i], id)
  }

  /** The first insert of the run. */
  ghost predicate FirstInsert(ops: seq<Op>, id: RunId, i: nat) {
    i < |ops| && Inserts(ops[i], id) && forall j :: 0 <= j < i ==> !Inserts(ops[j], id)
  }

  ghost predicate UpdatedSince(ops: seq<Op>, id: RunId, i: nat) {
    exists j :: i < j < |ops| && Updates(ops[j], id)
  }

  /** The last status update of the run after `i`. */
  ghost predicate LastUpdate(ops: seq<Op>, id: RunId, i: nat, u: nat) {
    i < u < |ops| && Updates(ops[u], id) && forall j :: u < j < |ops| ==> !Updates(ops[j], id)
  }

  ghost predicate GivenSince(ops: seq<Op>, id: RunId, c: Metric, i: nat) {
    exists j :: i < j < |ops| && Gives(ops[j], id, c)
  }

  /** The last value given for the metric after `i`. */
  ghost predicate LastGiven(ops: seq<Op>, id: RunId, c: Metric, i: nat, u: nat) {
    i < u < |ops| && Gives(ops[u], id, c) && forall j :: u < j < |ops| ==> !Gives(ops[j], id, c)
  }

  ghost predicate AppendedBefore(ops: seq<Op>, id: RunId, number: nat, n: nat) {
    exists j :: 0 <= j < n && j < |ops| && Appends(ops[j], id, number)
  }

  /** This event was appended, as the first of its run with its number. */
  ghost predicate FirstAppended(ops: seq<Op>, id: RunId, e: Event) {
    exists j :: 0 <= j < |ops| && ops[j] == AppendEvent(id, e) && !AppendedBefore(ops, id, e.number, j)
  }

  // --- one more request -----------------------------------------------------------------------------

  lemma TablesNext(ops: seq<Op>)
    requires ops != []
    ensures var n := |ops| - 1; Tables(ops) == Plain(Tables(ops[..n]), ops[n]).0
  {
    hide Plain;
  }

  lemma PlainRow(db: Db, op: Op, id: RunId)
    ensures var z := Plain(db, op).0;
            && (id in z.runs <==> id in db.runs || Inserts(op, id))
            && (id !in db.runs && Inserts(op, id) ==>
                  z.runs[id] == Row(op.details, op.status, op.endedAt, None, NO_METRICS))
            && (id in db.runs && Updates(op, id) ==>
                  z.runs[id] == db.runs[id].(status := op.status, endedAt := Some(op.ended), error := op.error))
            && (id in db.runs && !Updates(op, id) ==>
                  z.runs[id].(metrics := NO_METRICS) == db.runs[id].(metrics := NO_METRICS))
  {}

  lemma PlainMetric(db: Db, op: Op, id: RunId, c: Metric)
    requires id in db.runs
    ensures var z := Plain(db, op).0;
            && id in z.runs
            && Column(z.runs[id].metrics, c) ==
               if Gives(op, id, c) then Column(op.metrics, c) else Column(db.runs[id].metrics, c)
  {}

  lemma PlainEvents(db: Db, op: Op, id: RunId, e: Event)
    ensures e in EventsOf(Plain(db, op).0, id) <==>
            e in EventsOf(db, id) || (op == AppendEvent(id, e) && !HasEvent(EventsOf(db, id), e.number))
  {
    if op.AppendEvent? && op.id == id {
      InsertEventContents(EventsOf(db, id), op.event);
    }
  }

  lemma PlainNumbers(db: Db, op: Op, id: RunId, number: nat)
    ensures HasEvent(EventsOf(Plain(db, op).0, id), number) <==>
            HasEvent(EventsOf(db, id), number) || Appends(op, id, number)
  {
    if op.AppendEvent? && op.id == id {
      InsertEventContents(EventsOf(db, id), op.event);
      NumbersIff(EventsOf(db, id), number);
      NumbersIff(InsertEvent(EventsOf(db, id), op.event), number);
    }
  }

  lemma NumbersIff(events: seq<Event>, number: nat)
    ensures HasEvent(events, number) <==> exists e :: e in events && e.number == number
  {
    if e :| e in events && e.number == number {
      var i :| 0 <= i < |events| && events[i] == e;
    }
  }

  // --- the row --------------------------------------------------------------------------------------

  lemma {:induction false} RowIffInserted(ops: seq<Op>, id: RunId)
    ensures id in Tables(ops).runs <==> Inserted(ops, id)
  {
    if ops != [] {
      var n := |ops| - 1;
      TablesNext(ops);
      RowIffInserted(ops[..n], id);
      hide Tables, Plain, Inserts;
      PlainRow(Tables(ops[..n]), ops[n], id);
      if Inserted(ops, id) && !Inserts(ops[n], id) {
        var i :| 0 <= i < |ops| && Inserts(ops[i], id);
        assert ops[..n][i] == ops[i];
      }
    }
  }

  lemma FirstInsertPrefix(ops: seq<Op>, id: RunId, i: nat)
    requires FirstInsert(ops, id, i)
    ensures i < |ops| - 1 ==> FirstInsert(ops[..|ops| - 1], id, i)
    ensures i == |ops| - 1 ==> !Inserted(ops[..|ops| - 1], id)
  {
    hide Inserts;
  }

  /** Until it is updated, a run shows what it was first inserted with. */
  lemma {:induction false} ShowsInsert(ops: seq<Op>, id: RunId, i: nat)
    requires FirstInsert(ops, id, i)
    ensures id in Tables(ops).runs && Tables(ops).runs[id].details == ops[i].details
    ensures !UpdatedSince(ops, id, i) ==>
              var r := Tables(ops).runs[id];
              r.status == ops[i].status && r.endedAt == ops[i].endedAt && r.error == None
  {
    var n := |ops| - 1;
    TablesNext(ops);
    RowIffInserted(ops[..n], id);
    FirstInsertPrefix(ops, id, i);
    hide Tables, Plain, Updates, Inserted;
    PlainRow(Tables(ops[..n]), ops[n], id);
    if i < n {
      ShowsInsert(ops[..n], id, i);
      UpdatedPrefix(ops, id, i);
    }
  }

  lemma UpdatedPrefix(ops: seq<Op>, id: RunId, i: nat)
    requires i < |ops| - 1
    ensures UpdatedSince(ops, id, i) <==> UpdatedSince(ops[..|ops| - 1], id, i) || Updates(ops[|ops| - 1], id)
  {
    var n := |ops| - 1;
    hide Updates;
    if j :| i < j < n && Updates(ops[..n][j], id) {
      assert Updates(ops[j], id);
    }
    if j :| i < j < |ops| && Updates(ops[j], id) {
      assert j < n ==> Updates(ops[..n][j], id);
    }
  }

  /** After that it shows its last update, the error included. */
  lemma {:induction false} ShowsUpdate(ops: seq<Op>, id: RunId, i: nat, u: nat)
    requires FirstInsert(ops, id, i) && LastUpdate(ops, id, i, u)
    ensures id in Tables(ops).runs
    ensures var r := Tables(ops).runs[id];
            r.status == ops[u].status && r.endedAt == Some(ops[u].ended) && r.error == ops[u].error
  {
    var n := |ops| - 1;
    TablesNext(ops);
    FirstInsertPrefix(ops, id, i);
    ShowsInsert(ops[..n], id, i);
    PlainRow(Tables(ops[..n]), ops[n], id);
    if u < n {
      assert !Updates(ops[n], id);
      hide Tables, Plain, Updates, FirstInsert;
      ShowsUpdate(ops[..n], id, i, u);
    }
  }

  lemma MetricOfInsert(ops: seq<Op>, id: RunId, c: Metric)
    requires ops != [] && FirstInsert(ops, id, |ops| - 1)
    ensures id in Tables(ops).runs && Column(Tables(ops).runs[id].metrics, c) == None
  {
    TablesNext(ops);
    FirstInsertPrefix(ops, id, |ops| - 1);
    RowIffInserted(ops[..|ops| - 1], id);
    PlainRow(Tables(ops[..|ops| - 1]), ops[|ops| - 1], id);
    hide Tables, Plain, Inserted;
  }

  lemma MetricNext(ops: seq<Op>, id: RunId, c: Metric)
    requires ops != [] && id in Tables(ops[..|ops| - 1]).runs
    ensures var n := |ops| - 1;
            && id in Tables(ops).runs
            && Column(Tables(ops).runs[id].metrics, c) ==
               if Gives(ops[n], id, c) then Column(ops[n].metrics, c)
               else Column(Tables(ops[..n]).runs[id].metrics, c)
  {
    TablesNext(ops);
    hide Tables, Plain, Gives;
    PlainMetric(Tables(ops[..|ops| - 1]), ops[|ops| - 1], id, c);
  }

  /** A metric that was never given since the insert is empty. */
  lemma {:induction false} MetricEmpty(ops: seq<Op>, id: RunId, c: Metric, i: nat)
    requires FirstInsert(ops, id, i) && !GivenSince(ops, id, c, i)
    ensures id in Tables(ops).runs && Column(Tables(ops).runs[id].metrics, c) == None
  {
    hide Tables, Column, FirstInsert, GivenSince, Gives;
    FirstInsertPrefix(ops, id, i);
    if i == |ops| - 1 {
      MetricOfInsert(ops, id, c);
    } else {
      FirstInsertWithin(ops, id, i);
      GivenPrefix(ops, id, c, i);
      MetricEmpty(ops[..|ops| - 1], id, c, i);
      MetricNext(ops, id, c);
    }
  }

  lemma FirstInsertWithin(ops: seq<Op>, id: RunId, i: nat)
    requires FirstInsert(ops, id, i)
    ensures i < |ops|
  {}

  /** Otherwise it holds the last value given. */
  lemma {:induction false} MetricGiven(ops: seq<Op>, id: RunId, c: Metric, i: nat, u: nat)
    requires FirstInsert(ops, id, i) && LastGiven(ops, id, c, i, u)
    ensures id in Tables(ops).runs && Column(Tables(ops).runs[id].metrics, c) == Column(ops[u].metrics, c)
  {
    var n := |ops| - 1;
    FirstInsertPrefix(ops, id, i);
    ShowsInsert(ops[..n], id, i);
    MetricNext(ops, id, c);
    GivenPrefix(ops, id, c, i);
    hide Tables, Column, FirstInsert, LastGiven, Gives, GivenSince;
    if u < n {
      MetricGiven(ops[..n], id, c, i, u);
    }
  }

  lemma GivenPrefix(ops: seq<Op>, id: RunId, c: Metric, i: nat)
    requires i < |ops| - 1
    ensures var n := |ops| - 1;
            && (!GivenSince(ops, id, c, i) ==> !GivenSince(ops[..n], id, c, i) && !Gives(ops[n], id, c))
            && (forall u: nat :: LastGiven(ops, id, c, i, u) ==>
                  u < |ops| &&
                  if u == n then Gives(ops[n], id, c)
                  else u < n && !Gives(ops[n], id, c) && LastGiven(ops[..n], id, c, i, u))
  {
    hide Gives;
    var n := |ops| - 1;
    forall j | i < j < n
      ensures ops[..n][j] == ops[j]
    {}
  }

  // --- the events ---------------------------------------------------------------------------------------

  lemma {:induction false} HasNumberIff(ops: seq<Op>, id: RunId, number: nat)
    ensures HasEvent(EventsOf(Tables(ops), id), number) <==> AppendedBefore(ops, id, number, |ops|)
  {
    if ops != [] {
      var n := |ops| - 1;
      TablesNext(ops);
      HasNumberIff(ops[..n], id, number);
      hide Tables, Plain, HasEvent, EventsOf, Appends;
      PlainNumbers(Tables(ops[..n]), ops[n], id, number);
      AppendedPrefix(ops, id, number, n);
      if AppendedBefore(ops, id, number, |ops|) && !Appends(ops[n], id, number) {
        var j :| 0 <= j < |ops| && Appends(ops[j], id, number);
        assert ops[..n][j] == ops[j];
      }
    }
  }

  lemma AppendedPrefix(ops: seq<Op>, id: RunId, number: nat, k: nat)
    requires ops != [] && k <= |ops| - 1
    ensures AppendedBefore(ops, id, number, k) <==> AppendedBefore(ops[..|ops| - 1], id, number, k)
  {
    hide Appends;
    var before := ops[..|ops| - 1];
    if j :| 0 <= j < k && j < |ops| && Appends(ops[j], id, number) {
      assert before[j] == ops[j];
    }
  }

  /** The events of a run are exactly those appended to it, each number once, the first time. */
  lemma {:induction false} EventIff(ops: seq<Op>, id: RunId, e: Event)
    ensures e in EventsOf(Tables(ops), id) <==> FirstAppended(ops, id, e)
  {
    if ops != [] {
      var n := |ops| - 1;
      TablesNext(ops);
      EventIff(ops[..n], id, e);
      HasNumberIff(ops[..n], id, e.number);
      hide Tables, Plain, HasEvent, EventsOf;
      PlainEvents(Tables(ops[..n]), ops[n], id, e);
      AppendedPrefix(ops, id, e.number, n);
      FirstAppendedNext(ops, id, e);
      EarlierOnly(ops[..n], id, e.number);
    }
  }

  lemma EarlierOnly(ops: seq<Op>, id: RunId, number: nat)
    ensures AppendedBefore(ops, id, number, |ops|) <==> AppendedBefore(ops, id, number, |ops| + 1)
  {}

  lemma FirstAppendedNext(ops: seq<Op>, id: RunId, e: Event)
    requires ops != []
    ensures var n := |ops| - 1;
            FirstAppended(ops, id, e) <==>
            FirstAppended(ops[..n], id, e) || (ops[n] == AppendEvent(id, e) && !AppendedBefore(ops, id, e.number, n))
  {
    hide AppendedBefore;
    var n := |ops| - 1;
    var before := ops[..n];
    if j :| 0 <= j < |before| && before[j] == AppendEvent(id, e) && !AppendedBefore(before, id, e.number, j) {
      AppendedPrefix(ops, id, e.number, j);
      assert ops[j] == AppendEvent(id, e);
    }
    if j :| 0 <= j < |ops| && ops[j] == AppendEvent(id, e) && !AppendedBefore(ops, id, e.number, j) {
      if j < n {
        AppendedPrefix(ops, id, e.number, j);
        assert before[j] == AppendEvent(id, e);
      }
    }
  }

  // --- what the store answers ----------------------------------------------------------------------------

  /** The answer to one more request, after `ops`, from a store with a cache of capacity `k`. */
  function Answer(k: nat, ops: seq<Op>, op: Op): Out {
    var outs := RunCached(NOTHING, k, ops + [op]).1;
    if outs == [] then Done else outs[|outs| - 1]
  }

  lemma AnswerIsPlain(k: nat, ops: seq<Op>, op: Op)
    ensures Answer(k, ops, op) == Plain(Tables(ops), op).1
  {
    CacheIsTransparent(NOTHING, k, ops + [op]);
    assert (ops + [op])[..|ops|] == ops;
    hide RunCached, Plain;
  }

  /** Main result: for every history and every cache capacity, `GetRun` misses exactly the runs
      never inserted; otherwise it shows the first insert's details, the last update's status,
      end and error or the insert's own with no error, and exactly the events first appended under
      their numbers. */
  lemma GetAnswers(k: nat, ops: seq<Op>, id: RunId)
    ensures var out := Answer(k, ops, GetRun(id));
            && out.Fetched?
            && (out.record.None? <==> !Inserted(ops, id))
            && (out.record.Some? ==>
                  && out.record.value.id == id
                  && (forall e :: e in out.record.value.events <==> FirstAppended(ops, id, e))
                  && (forall i: nat :: FirstInsert(ops, id, i) ==> ShowsHistory(out.record.value, ops, id, i)))
  {
    AnswerIsPlain(k, ops, GetRun(id));
    RowIffInserted(ops, id);
    hide Inserted, FirstAppended, Tables, Answer, FirstInsert, ShowsHistory;
    forall e
      ensures e in EventsOf(Tables(ops), id) <==> FirstAppended(ops, id, e)
    {
      EventIff(ops, id, e);
    }
    forall i: nat | FirstInsert(ops, id, i)
      ensures id in Tables(ops).runs && ShowsHistory(Read(Tables(ops), id).value, ops, id, i)
    {
      RowShowsHistory(ops, id, i);
    }
  }

  ghost predicate ShowsHistory(r: Record, ops: seq<Op>, id: RunId, i: nat)
    requires FirstInsert(ops, id, i)
  {
    && r.details == ops[i].details
    && (!UpdatedSince(ops, id, i) ==> r.status == ops[i].status && r.endedAt == ops[i].endedAt && r.error == None)
    && (forall u: nat :: LastUpdate(ops, id, i, u) ==>
          r.status == ops[u].status && r.endedAt == Some(ops[u].ended) && r.error == ops[u].error)
  }

  lemma RowShowsHistory(ops: seq<Op>, id: RunId, i: nat)
    requires FirstInsert(ops, id, i)
    ensures id in Tables(ops).runs && ShowsHistory(Read(Tables(ops), id).value, ops, id, i)
  {
    ShowsInsert(ops, id, i);
    forall u: nat | LastUpdate(ops, id, i, u)
      ensures var r := Tables(ops).runs[id];
              r.status == ops[u].status && r.endedAt == Some(ops[u].ended) && r.error == ops[u].error
    {
      ShowsUpdate(ops, id, i, u);
    }
    hide Tables, UpdatedSince, LastUpdate, FirstInsert;
  }

  /** Main result: an insert is refused exactly when its run was inserted before, an append
      exactly when its run has an event of that number; nothing else is refused. */
  lemma WriteAnswers(k: nat, ops: seq<Op>, op: Op)
    requires !op.GetRun?
    ensures Answer(k, ops, op) ==
            if op.InsertRun? && Inserted(ops, op.id) then IntegrityError
            else if op.AppendEvent? && AppendedBefore(ops, op.id, op.event.number, |ops|) then IntegrityError
            else Done
  {
    AnswerIsPlain(k, ops, op);
    RowIffInserted(ops, op.id);
    if op.AppendEvent? {
      HasNumberIff(ops, op.id, op.event.number);
    }
    hide Inserted, AppendedBefore, Tables, Answer, HasEvent, Write;
  }

  // --- what the cache keeps --------------------------------------------------------------------------------

  /** A write takes exactly its own run out of the cache, and only if it is accepted and is a
      status update, an append or an update of at least one metric. */
  lemma WhatPops(s: Store, k: nat, op: Op, id: RunId)
    requires !op.GetRun?
    ensures Holds(Step(s, k, op).0.cache, id) <==>
            Holds(s.cache, id) &&
            !(op.id == id && match op
              case UpdateStatus(_, _, _, _) => true
              case AppendEvent(_, e) => !HasEvent(EventsOf(s.db, id), e.number)
              case UpdateMetrics(_, m) => m.iterations.Some? || m.actions.Some? || m.duration.Some?
              case _ => false)
  {
    ForgetHolds(s.cache, op.id, id);
    hide Holds, Forget, Write, HasEvent;
  }

  /** The store keeps a run that was read, and not written since, until sixteen others are more
      recent. */
  lemma SixteenKept(db: Db, ops: seq<Op>, id: RunId)
    ensures Holds(RunCached(db, LRU_CAPACITY, ops).0.cache, id) <==>
            Peak(db, ops, id).Some? && Peak(db, ops, id).value < 16
  {
    HeldIff(db, LRU_CAPACITY, ops, id);
  }
}
