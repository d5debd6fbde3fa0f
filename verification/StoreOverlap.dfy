/** `get_run` reads the tables with two separate SELECTs and files the record without holding
    the store's lock (src/agent/daemon/store.py:440-475), so reads overlap writes, and a write
    whose call is cancelled or times out commits without popping the cache entry
    (store.py:1044-1053). Here every operation is cut at its suspension points and at its
    statements, and the pieces interleave freely. */
module StoreOverlap {
  import opened Sequences
  import opened RunStores

  type Call = nat

  /** A read in flight; `at` and `to` count the commits before its first and second SELECT. */
  datatype Fetching =
    | Asked(id: RunId)
    | RowRead(id: RunId, row: Option<Row>, at: nat)
    | Got(id: RunId, record: Option<Record>, at: nat, to: nat)

  /** `log` holds every committed write; `writing` is the run whose write has been committed
      and whose cache entry its call is about to pop (the lock is held in between). `filed`
      says, for a run that was ever filed, how many commits preceded the two SELECTs of its
      last filed record; it is kept for the statements only. */
  datatype State = State(
    start: Db, log: seq<Op>, cache: Cache, flights: map<Call, Fetching>, writing: Option<RunId>,
    returned: seq<(RunId, Option<Record>)>, filed: map<RunId, (nat, nat)>)

  datatype Action =
    | Begin(call: Call, id: RunId)     // get_run up to its first suspension
    | ReadRow(call: Call)              // the worker thread's first SELECT
    | ReadEvents(call: Call)           // ... and its second, which a missing row skips
    | Finish(call: Call)               // get_run goes on with what was read
    | Commit(op: Op)                   // a write, up to its commit
    | Pop                              // the write pops the cache entry and releases the lock
    | Abandon                          // ... or is cancelled and only releases the lock
    | Stray(op: Op)                    // a write commits after its call was cancelled or timed out

  /** The tables after the first `k` commits. */
  function At(start: Db, log: seq<Op>, k: nat): Db
    requires k <= |log|
  {
    if k == 0 then start else Write(At(start, log, k - 1), log[k - 1])
  }

  function Now(s: State): Db {
    At(s.start, s.log, |s.log|)
  }

  function RowOf(db: Db, id: RunId): Option<Row> {
    if id in db.runs then Some(db.runs[id]) else None
  }

  function Assemble(id: RunId, row: Row, events: seq<Event>): Record {
    Record(id, row.details, row.status, row.endedAt, row.error, events)
  }

  function Return(s: State, id: RunId, r: Option<Record>): State {
    s.(returned := s.returned + [(id, r)])
  }

  /** A key already present keeps its place in the ordered dictionary. */
  function File(c: Cache, r: Record): Cache {
    if Holds(c, r.id) then Replace(c, r) else Trim(c + [r], LRU_CAPACITY)
  }

  function Replace(c: Cache, r: Record): Cache {
    seq(|c|, i requires 0 <= i < |c| => if c[i].id == r.id then r else c[i])
  }

  predicate MayCommit(s: State, op: Op) {
    !op.GetRun? && Accepts(Now(s), op)
  }

  function Fly(s: State, call: Call, f: Fetching): State {
    s.(flights := s.flights[call := f])
  }

  function Step(s: State, a: Action): State {
    match a
    case Begin(call, id) =>
      if call in s.flights then s
      else if Holds(s.cache, id) then
        var r := Lookup(s.cache, id);
        Return(s.(cache := Forget(s.cache, id) + [r]), id, Some(r))
      else Fly(s, call, Asked(id))
    case ReadRow(call) =>
      if call in s.flights && s.flights[call].Asked? then
        var id := s.flights[call].id;
        Fly(s, call, RowRead(id, RowOf(Now(s), id), |s.log|))
      else s
    case ReadEvents(call) =>
      if call in s.flights && s.flights[call].RowRead? then
        var RowRead(id, row, at) := s.flights[call];
        Fly(s, call,
            if row.None? then Got(id, None, at, at)
            else Got(id, Some(Assemble(id, row.value, EventsOf(Now(s), id))), at, |s.log|))
      else s
    case Finish(call) =>
      if call in s.flights && s.flights[call].Got? then
        var Got(id, record, at, to) := s.flights[call];
        var landed := s.(flights := s.flights - {call});
        Return(if record.Some? then landed.(cache := File(s.cache, record.value), filed := s.filed[id := (at, to)])
               else landed, id, record)
      else s
    case Commit(op) =>
      if !MayCommit(s, op) || s.writing.Some? then s
      else s.(log := s.log + [op], writing := if Invalidates(op) then Some(op.id) else None)
    case Pop =>
      if s.writing.Some? then s.(cache := Forget(s.cache, s.writing.value), writing := None) else s
    case Abandon => s.(writing := None)
    case Stray(op) =>
      if MayCommit(s, op) then s.(log := s.log + [op]) else s
  }

  function Run(db: Db, actions: seq<Action>): State {
    if actions == [] then State(db, [], [], map[], None, [], map[])
    else Step(Run(db, actions[..|actions| - 1]), actions[|actions| - 1])
  }

  // --- the log ---------------------------------------------------------------------------------

  predicate Updates(op: Op, id: RunId) {
    op.UpdateStatus? && op.id == id
  }

  predicate Appends(op: Op, id: RunId) {
    op.AppendEvent? && op.id == id
  }

  ghost predicate Updated(log: seq<Op>, id: RunId, i: nat, j: nat) {
    exists p :: i <= p < j && p < |log| && Updates(log[p], id)
  }

  ghost predicate Appended(log: seq<Op>, id: RunId, i: nat, j: nat) {
    exists p :: i <= p < j && p < |log| && Appends(log[p], id)
  }

  ghost predicate Accepted(start: Db, log: seq<Op>) {
    forall k :: 0 <= k < |log| ==> !log[k].GetRun? && Accepts(At(start, log, k), log[k])
  }

  lemma {:induction false} AtPrefix(start: Db, log: seq<Op>, op: Op, k: nat)
    requires k <= |log|
    ensures At(start, log + [op], k) == At(start, log, k)
  {
    if k > 0 {
      AtPrefix(start, log, op, k - 1);
    }
  }

  lemma AcceptedMore(start: Db, log: seq<Op>, op: Op)
    requires Accepted(start, log) && !op.GetRun? && Accepts(At(start, log, |log|), op)
    ensures Accepted(start, log + [op])
  {
    hide At, Accepts;
    forall k | 0 <= k <= |log|
      ensures At(start, log + [op], k) == At(start, log, k)
    {
      AtPrefix(start, log, op, k);
    }
  }

  lemma InsertEventLonger(events: seq<Event>, e: Event)
    ensures |InsertEvent(events, e)| == |events| + 1
  {}

  /** Events are never lost, and an append makes them more. */
  lemma {:induction false} EventsGrow(start: Db, log: seq<Op>, id: RunId, i: nat, j: nat)
    requires i <= j <= |log|
    ensures |EventsOf(At(start, log, i), id)| <= |EventsOf(At(start, log, j), id)|
    ensures Appended(log, id, i, j) ==> |EventsOf(At(start, log, i), id)| < |EventsOf(At(start, log, j), id)|
    ensures !Appended(log, id, i, j) ==> EventsOf(At(start, log, i), id) == EventsOf(At(start, log, j), id)
  {
    if i < j {
      EventsGrow(start, log, id, i, j - 1);
      var db, op := At(start, log, j - 1), log[j - 1];
      assert At(start, log, j) == Write(db, op);
      hide At, Write, Appended, Appends, EventsOf;
      WriteGrows(db, op, id);
      AppendedNext(log, id, i, j - 1);
    }
  }

  lemma WriteGrows(db: Db, op: Op, id: RunId)
    ensures if Appends(op, id) then |EventsOf(Write(db, op), id)| == |EventsOf(db, id)| + 1
            else EventsOf(Write(db, op), id) == EventsOf(db, id)
  {
    if Appends(op, id) {
      InsertEventLonger(EventsOf(db, id), op.event);
    }
  }

  lemma AppendedNext(log: seq<Op>, id: RunId, i: nat, j: nat)
    requires i <= j < |log|
    ensures Appended(log, id, i, j + 1) <==> Appended(log, id, i, j) || Appends(log[j], id)
  {}

  /** The columns of a row that a record shows. */
  function Shown(r: Row): Row {
    r.(metrics := NO_METRICS)
  }

  /** A row stays, and only a status update changes what is shown of it. */
  lemma {:induction false} RowStays(start: Db, log: seq<Op>, id: RunId, i: nat, j: nat)
    requires i <= j <= |log| && Accepted(start, log) && id in At(start, log, i).runs
    ensures id in At(start, log, j).runs
    ensures !Updated(log, id, i, j) ==>
              Shown(At(start, log, i).runs[id]) == Shown(At(start, log, j).runs[id])
  {
    hide *;
    if i < j {
      RowStays(start, log, id, i, j - 1);
      var db, op := At(start, log, j - 1), log[j - 1];
      AcceptedAt(start, log, j - 1);
      WriteShows(db, op, id);
      UpdatedNext(log, id, i, j - 1);
    }
  }

  lemma AcceptedAt(start: Db, log: seq<Op>, k: nat)
    requires Accepted(start, log) && k < |log|
    ensures Accepts(At(start, log, k), log[k]) && At(start, log, k + 1) == Write(At(start, log, k), log[k])
  {}

  lemma WriteShows(db: Db, op: Op, id: RunId)
    requires id in db.runs && Accepts(db, op)
    ensures id in Write(db, op).runs
    ensures !Updates(op, id) ==> Shown(Write(db, op).runs[id]) == Shown(db.runs[id])
  {}

  predicate Later(was: Option<nat>, ended: nat) {
    was.None? || was.value < ended
  }

  /** Every committed update of the run bears a later end time than the row had, as successive
      readings of a running clock do. */
  ghost predicate Clocked(start: Db, log: seq<Op>, id: RunId) {
    forall k :: 0 <= k < |log| && Updates(log[k], id) && id in At(start, log, k).runs ==>
      Later(At(start, log, k).runs[id].endedAt, log[k].ended)
  }

  /** `now` is `was`, or a later time; with `strictly`, a later one. */
  predicate Advances(was: Option<nat>, now: Option<nat>, strictly: bool) {
    (!strictly && was == now) || (now.Some? && Later(was, now.value))
  }

  function EndOf(db: Db, id: RunId): Option<nat> {
    if id in db.runs then db.runs[id].endedAt else None
  }

  lemma WriteAdvances(db: Db, op: Op, id: RunId)
    requires id in db.runs && Accepts(db, op) && (Updates(op, id) ==> Later(db.runs[id].endedAt, op.ended))
    ensures id in Write(db, op).runs && Advances(EndOf(db, id), EndOf(Write(db, op), id), Updates(op, id))
  {}

  /** With such a clock a row never shows again what it showed before an update. */
  lemma {:induction false} UpdateShows(start: Db, log: seq<Op>, id: RunId, i: nat, j: nat)
    requires i <= j <= |log| && Accepted(start, log) && Clocked(start, log, id) && id in At(start, log, i).runs
    ensures id in At(start, log, j).runs
    ensures Advances(EndOf(At(start, log, i), id), EndOf(At(start, log, j), id), Updated(log, id, i, j))
  {
    hide Accepts, Write, Updated, Updates, EndOf, Advances;
    if i == j {
      SameAdvances(EndOf(At(start, log, i), id));
      NotUpdated(log, id, i);
    } else {
      UpdateShows(start, log, id, i, j - 1);
      var db, op := At(start, log, j - 1), log[j - 1];
      assert Accepts(db, op) && At(start, log, j) == Write(db, op);
      assert Updates(op, id) ==> Later(db.runs[id].endedAt, op.ended) by { UpdatesIs(op, id); }
      hide At, Accepted, Clocked;
      WriteAdvances(db, op, id);
      UpdatedNext(log, id, i, j - 1);
      AdvancesMore(EndOf(At(start, log, i), id), EndOf(db, id), EndOf(Write(db, op), id),
                   Updated(log, id, i, j - 1), Updates(op, id));
    }
  }

  lemma UpdatesIs(op: Op, id: RunId)
    ensures Updates(op, id) ==> op.UpdateStatus?
  {}

  lemma SameAdvances(t: Option<nat>)
    ensures Advances(t, t, false)
  {}

  lemma NotUpdated(log: seq<Op>, id: RunId, i: nat)
    ensures !Updated(log, id, i, i)
  {}

  lemma AdvancesMore(a: Option<nat>, b: Option<nat>, c: Option<nat>, ab: bool, bc: bool)
    requires Advances(a, b, ab) && Advances(b, c, bc)
    ensures Advances(a, c, ab || bc)
  {}

  lemma UpdatedNext(log: seq<Op>, id: RunId, i: nat, j: nat)
    requires i <= j < |log|
    ensures Updated(log, id, i, j + 1) <==> Updated(log, id, i, j) || Updates(log[j], id)
  {}

  // --- what a read brings back ---------------------------------------------------------------------

  /** The row as of commit `i` with the events as of commit `j`. */
  function Pieces(start: Db, log: seq<Op>, id: RunId, i: nat, j: nat): Option<Record>
    requires i <= |log| && j <= |log|
  {
    var row := RowOf(At(start, log, i), id);
    if row.None? then None else Some(Assemble(id, row.value, EventsOf(At(start, log, j), id)))
  }

  ghost predicate Made(start: Db, log: seq<Op>, id: RunId, r: Option<Record>) {
    exists i, j :: 0 <= i <= j <= |log| && Pieces(start, log, id, i, j) == r
  }

  ghost predicate FlightHolds(start: Db, log: seq<Op>, f: Fetching) {
    match f
    case Asked(_) => true
    case RowRead(id, row, at) => at <= |log| && row == RowOf(At(start, log, at), id)
    case Got(id, record, at, to) => at <= to <= |log| && record == Pieces(start, log, id, at, to)
  }

  /** The read that brought a cached record. */
  function Source(s: State, r: Record): Fetching
    requires r.id in s.filed
  {
    Got(r.id, Some(r), s.filed[r.id].0, s.filed[r.id].1)
  }

  ghost predicate Honest(s: State) {
    && Accepted(s.start, s.log)
    && (forall r :: r in s.cache ==> r.id in s.filed && FlightHolds(s.start, s.log, Source(s, r)))
    && (forall c :: c in s.flights ==> FlightHolds(s.start, s.log, s.flights[c]))
    && (forall r :: r in s.returned ==> Made(s.start, s.log, r.0, r.1))
  }

  lemma PiecesPrefix(start: Db, log: seq<Op>, op: Op, id: RunId, i: nat, j: nat)
    requires i <= |log| && j <= |log|
    ensures Pieces(start, log + [op], id, i, j) == Pieces(start, log, id, i, j)
  {
    AtPrefix(start, log, op, i);
    AtPrefix(start, log, op, j);
  }

  lemma MadeMore(start: Db, log: seq<Op>, op: Op, id: RunId, r: Option<Record>)
    requires Made(start, log, id, r)
    ensures Made(start, log + [op], id, r)
  {
    var i, j :| 0 <= i <= j <= |log| && Pieces(start, log, id, i, j) == r;
    PiecesPrefix(start, log, op, id, i, j);
  }

  lemma FlightMore(start: Db, log: seq<Op>, op: Op, f: Fetching)
    requires FlightHolds(start, log, f)
    ensures FlightHolds(start, log + [op], f)
  {
    hide At, RowOf, Pieces;
    if f.RowRead? {
      AtPrefix(start, log, op, f.at);
    }
    if f.Got? {
      PiecesPrefix(start, log, op, f.id, f.at, f.to);
    }
  }

  lemma MadeId(start: Db, log: seq<Op>, id: RunId, r: Record)
    requires Made(start, log, id, Some(r))
    ensures r.id == id
  {}

  lemma LogHonest(s: State, op: Op, writing: Option<RunId>)
    requires Honest(s) && MayCommit(s, op)
    ensures Honest(s.(log := s.log + [op], writing := writing))
  {
    AcceptedMore(s.start, s.log, op);
    hide Made, FlightHolds, Accepted, MayCommit;
    forall id, r | Made(s.start, s.log, id, r)
      ensures Made(s.start, s.log + [op], id, r)
    {
      MadeMore(s.start, s.log, op, id, r);
    }
    forall f | FlightHolds(s.start, s.log, f)
      ensures FlightHolds(s.start, s.log + [op], f)
    {
      FlightMore(s.start, s.log, op, f);
    }
  }

  lemma BeginHonest(s: State, call: Call, id: RunId)
    requires Honest(s)
    ensures Honest(Step(s, Begin(call, id)))
  {
    hide Made, Accepted, FlightHolds, Holds, Forget;
    if Holds(s.cache, id) {
      GotMade(s, Source(s, Lookup(s.cache, id)));
    }
    ForgetKeeps(s.cache, id);
    AskedHolds(s, id);
  }

  lemma AskedHolds(s: State, id: RunId)
    ensures FlightHolds(s.start, s.log, Asked(id))
  {}

  lemma GotMade(s: State, f: Fetching)
    requires f.Got? && FlightHolds(s.start, s.log, f)
    ensures Made(s.start, s.log, f.id, f.record) && (f.record.Some? ==> f.record.value.id == f.id)
  {}

  lemma ReadHonest(s: State, a: Action)
    requires Honest(s) && (a.ReadRow? || a.ReadEvents?)
    ensures Honest(Step(s, a))
  {
    hide Made, Accepted, At;
    if a.call in s.flights {
      assert FlightHolds(s.start, s.log, s.flights[a.call]);
    }
  }

  lemma FiledHonest(s: State, f: Fetching, s': State)
    requires forall r :: r in s.cache ==> r.id in s.filed && FlightHolds(s.start, s.log, Source(s, r))
    requires f.Got? && f.record.Some? && FlightHolds(s.start, s.log, f)
    requires s'.start == s.start && s'.log == s.log
    requires s'.cache == File(s.cache, f.record.value) && s'.filed == s.filed[f.id := (f.at, f.to)]
    ensures forall r :: r in s'.cache ==> r.id in s'.filed && FlightHolds(s'.start, s'.log, Source(s', r))
  {
    GotMade(s, f);
    hide FlightHolds, File;
    FileKeeps(s.cache, f.record.value);
  }

  lemma FinishHonest(s: State, call: Call)
    requires Honest(s)
    ensures Honest(Step(s, Finish(call)))
  {
    if call in s.flights && s.flights[call].Got? {
      var f := s.flights[call];
      GotMade(s, f);
      hide Made, Accepted, FlightHolds, File;
      if f.record.Some? {
        FiledHonest(s, f, Step(s, Finish(call)));
      }
    }
  }

  lemma StepHonest(s: State, a: Action)
    requires Honest(s)
    ensures Honest(Step(s, a))
  {
    hide Honest;
    match a
    case Begin(call, id) => BeginHonest(s, call, id);
    case ReadRow(call) => ReadHonest(s, a);
    case ReadEvents(call) => ReadHonest(s, a);
    case Finish(call) => FinishHonest(s, call);
    case Commit(op) =>
      if MayCommit(s, op) {
        LogHonest(s, op, if Invalidates(op) then Some(op.id) else None);
      }
    case Pop => PopHonest(s);
    case Abandon => PopHonest(s);
    case Stray(op) =>
      if MayCommit(s, op) {
        LogHonest(s, op, s.writing);
      }
  }

  lemma PopHonest(s: State)
    requires Honest(s)
    ensures Honest(Step(s, Pop)) && Honest(Step(s, Abandon))
  {
    hide Made, Accepted, FlightHolds;
    if s.writing.Some? {
      ForgetKeeps(s.cache, s.writing.value);
    }
  }

  /** With any overlap of reads and writes, every record `get_run` returned has the row of one
      state of the tables and the events of the same or a later one; every miss was a miss in
      some state. */
  lemma {:induction false} ReturnsPieces(db: Db, actions: seq<Action>)
    ensures Honest(Run(db, actions))
  {
    if actions != [] {
      hide Honest, Step;
      ReturnsPieces(db, actions[..|actions| - 1]);
      StepHonest(Run(db, actions[..|actions| - 1]), actions[|actions| - 1]);
    }
  }

  lemma FileKeeps(c: Cache, r: Record)
    ensures r in File(c, r)
    ensures forall q :: q in File(c, r) ==> q == r || (q in c && q.id != r.id)
  {
    HoldsIffIn(c, r.id);
    hide Holds;
    if Holds(c, r.id) {
      var q :| q in c && q.id == r.id;
      var i :| 0 <= i < |c| && c[i] == q;
      assert Replace(c, r)[i] == r;
    } else {
      assert (c + [r])[|c|] == r;
    }
  }

  // --- when the pieces fit ------------------------------------------------------------------------

  /** Some state of the tables said this of the run. */
  ghost predicate Once(start: Db, log: seq<Op>, id: RunId, r: Option<Record>) {
    exists k :: 0 <= k <= |log| && Read(At(start, log, k), id) == r
  }

  /** A status update between the two SELECTs, and an append after it but before the second. */
  ghost predicate Torn(log: seq<Op>, id: RunId, i: nat, j: nat) {
    exists p :: i <= p < j && p < |log| && Updates(log[p], id) && Appended(log, id, p, j)
  }

  /** The first update at or after `i`, or `j` if there is none before it. */
  lemma {:induction false} FirstUpdate(log: seq<Op>, id: RunId, i: nat, j: nat) returns (p: nat)
    requires i <= j <= |log|
    ensures i <= p <= j && !Updated(log, id, i, p) && (p < j ==> Updates(log[p], id))
    decreases j - i
  {
    if i == j || Updates(log[i], id) {
      p := i;
    } else {
      p := FirstUpdate(log, id, i + 1, j);
    }
  }

  /** Untorn pieces are one state of the tables. */
  lemma UntornIsOnce(start: Db, log: seq<Op>, id: RunId, i: nat, j: nat)
    requires i <= j <= |log| && Accepted(start, log) && !Torn(log, id, i, j)
    ensures Once(start, log, id, Pieces(start, log, id, i, j))
  {
    if id in At(start, log, i).runs {
      var p := FirstUpdate(log, id, i, j);
      RowStays(start, log, id, i, p);
      EventsGrow(start, log, id, p, j);
      assert !Appended(log, id, p, j);
      hide At, Accepted, Torn, Appended, Updated;
      assert Read(At(start, log, p), id) == Pieces(start, log, id, i, j);
    } else {
      assert Read(At(start, log, i), id) == Pieces(start, log, id, i, j);
    }
  }

  /** Torn pieces are none, given a clock that runs. */
  lemma TornIsNever(start: Db, log: seq<Op>, id: RunId, i: nat, j: nat, k: nat)
    requires i <= j <= |log| && k <= |log| && Accepted(start, log) && Clocked(start, log, id)
    requires id in At(start, log, i).runs && Torn(log, id, i, j)
    ensures Read(At(start, log, k), id) != Pieces(start, log, id, i, j)
  {
    var p :| i <= p < j && p < |log| && Updates(log[p], id) && Appended(log, id, p, j);
    var q :| p <= q < j && q < |log| && Appends(log[q], id);
    if k <= q {
      EventsGrow(start, log, id, k, j);
      assert Appended(log, id, k, j);
    } else {
      UpdateShows(start, log, id, i, k);
      assert Updated(log, id, i, k);
    }
    hide At, Accepted, Clocked, Torn, Appended, Updated;
  }

  /** Exactly when a read that found the row answers one state of the tables: unless an append
      follows a status update of that run between its two SELECTs. */
  lemma ReadIsOnceIff(start: Db, log: seq<Op>, id: RunId, i: nat, j: nat)
    requires i <= j <= |log| && Accepted(start, log) && Clocked(start, log, id)
    requires id in At(start, log, i).runs
    ensures Once(start, log, id, Pieces(start, log, id, i, j)) <==> !Torn(log, id, i, j)
  {
    if Torn(log, id, i, j) {
      forall k | 0 <= k <= |log|
        ensures Read(At(start, log, k), id) != Pieces(start, log, id, i, j)
      {
        TornIsNever(start, log, id, i, j, k);
      }
    } else {
      UntornIsOnce(start, log, id, i, j);
    }
  }

  // --- when the cache stays current --------------------------------------------------------------

  /** Every cached record is current, but for the run whose entry is about to be popped. */
  ghost predicate Settled(s: State) {
    forall r :: r in s.cache && s.writing != Some(r.id) ==> Read(Now(s), r.id) == Some(r)
  }

  /** Since the read's first SELECT its run's status was updated, or since its second an event
      was appended. */
  ghost predicate Overtaken(s: State, f: Fetching)
    requires f.Got?
  {
    Updated(s.log, f.id, f.at, |s.log|) || Appended(s.log, f.id, f.to, |s.log|)
  }

  lemma NotOvertakenIsCurrent(s: State, f: Fetching)
    requires Accepted(s.start, s.log) && f.Got? && f.record.Some? && FlightHolds(s.start, s.log, f)
    requires !Overtaken(s, f)
    ensures Read(Now(s), f.id) == f.record
  {
    RowStays(s.start, s.log, f.id, f.at, |s.log|);
    EventsGrow(s.start, s.log, f.id, f.to, |s.log|);
    hide At, Accepted, Updated, Appended;
  }

  lemma OvertakenIsBehind(s: State, f: Fetching)
    requires Accepted(s.start, s.log) && f.Got? && f.record.Some? && FlightHolds(s.start, s.log, f)
    requires Clocked(s.start, s.log, f.id) && Overtaken(s, f)
    ensures Read(Now(s), f.id) != f.record
  {
    UpdateShows(s.start, s.log, f.id, f.at, |s.log|);
    EventsGrow(s.start, s.log, f.id, f.to, |s.log|);
    hide At, Accepted, Clocked, Updated, Appended;
  }

  lemma FinishFiles(s: State, call: Call)
    requires Honest(s) && Settled(s) && call in s.flights && s.flights[call].Got? && s.flights[call].record.Some?
    ensures var f := s.flights[call];
            Settled(Step(s, Finish(call))) <==> s.writing == Some(f.id) || Read(Now(s), f.id) == f.record
  {
    var f := s.flights[call];
    var r := f.record.value;
    assert FlightHolds(s.start, s.log, f);
    assert r.id == f.id;
    FileKeeps(s.cache, r);
    hide Read, File, Honest, Holds, At, FlightHolds;
    var s' := Step(s, Finish(call));
    assert s'.cache == File(s.cache, r) && Now(s') == Now(s);
  }

  /** Filing what a read brought back leaves the cache settled if and only if the read was not
      overtaken, or the pop that will remove its record is still to come. */
  lemma FinishSettledIff(s: State, call: Call)
    requires Honest(s) && Settled(s) && call in s.flights && s.flights[call].Got? && s.flights[call].record.Some?
    requires Clocked(s.start, s.log, s.flights[call].id)
    ensures var f := s.flights[call];
            Settled(Step(s, Finish(call))) <==> s.writing == Some(f.id) || !Overtaken(s, f)
  {
    FinishFiles(s, call);
    assert FlightHolds(s.start, s.log, s.flights[call]);
    hide Settled, Step, FlightHolds, Read;
    if Overtaken(s, s.flights[call]) {
      OvertakenIsBehind(s, s.flights[call]);
    } else {
      NotOvertakenIsCurrent(s, s.flights[call]);
    }
  }

  /** What the read that brought the cached record of run `id` has missed since. */
  ghost predicate Behind(s: State, id: RunId) {
    id in s.filed &&
    (Updated(s.log, id, s.filed[id].0, |s.log|) || Appended(s.log, id, s.filed[id].1, |s.log|))
  }

  /** The write changes what a record of its run shows. */
  predicate Changes(op: Op) {
    op.UpdateStatus? || op.AppendEvent?
  }

  /** What a step must not do for the cache to stay settled: file an overtaken read, change a
      cached run without a pop to come, or give up the pop of a record that is behind. */
  ghost predicate Orderly(s: State, a: Action) {
    match a
    case Finish(call) =>
      call in s.flights && s.flights[call].Got? && s.flights[call].record.Some? ==>
        s.writing == Some(s.flights[call].id) || !Overtaken(s, s.flights[call])
    case Abandon => s.writing.Some? && Holds(s.cache, s.writing.value) ==> !Behind(s, s.writing.value)
    case Stray(op) =>
      MayCommit(s, op) && Changes(op) && Holds(s.cache, op.id) ==> s.writing == Some(op.id)
    case _ => true
  }

  ghost predicate AllOrderly(db: Db, actions: seq<Action>) {
    actions == [] ||
    (AllOrderly(db, actions[..|actions| - 1]) &&
     Orderly(Run(db, actions[..|actions| - 1]), actions[|actions| - 1]))
  }

  lemma WriteKeepsShown(db: Db, op: Op, id: RunId)
    requires Accepts(db, op) && Read(db, id).Some? && (id != op.id || !Changes(op))
    ensures Read(Write(db, op), id) == Read(db, id)
  {}

  lemma WriteChangesShown(db: Db, op: Op)
    requires Accepts(db, op) && Read(db, op.id).Some? && Changes(op)
    requires op.UpdateStatus? ==> Later(db.runs[op.id].endedAt, op.ended)
    ensures Read(Write(db, op), op.id) != Read(db, op.id)
  {
    if op.AppendEvent? {
      InsertEventLonger(EventsOf(db, op.id), op.event);
    }
  }

  lemma NowMore(s: State, op: Op, writing: Option<RunId>)
    ensures Now(s.(log := s.log + [op], writing := writing)) == Write(Now(s), op)
  {
    AtPrefix(s.start, s.log, op, |s.log|);
  }

  lemma LogSettled(s: State, op: Op, writing: Option<RunId>)
    requires Settled(s) && MayCommit(s, op)
    requires writing == s.writing || s.writing.None?
    requires Changes(op) && Holds(s.cache, op.id) ==> writing == Some(op.id)
    ensures Settled(s.(log := s.log + [op], writing := writing))
  {
    var s' := s.(log := s.log + [op], writing := writing);
    NowMore(s, op, writing);
    HoldsIffIn(s.cache, op.id);
    hide Read, Write, Accepts, Changes, At, Holds, Now;
    forall r | r in s'.cache && s'.writing != Some(r.id)
      ensures Read(Now(s'), r.id) == Some(r)
    {
      WriteKeepsShown(Now(s), op, r.id);
    }
  }

  lemma ClockedLast(start: Db, log: seq<Op>, op: Op)
    requires Clocked(start, log + [op], op.id) && op.UpdateStatus? && op.id in At(start, log, |log|).runs
    ensures Later(At(start, log, |log|).runs[op.id].endedAt, op.ended)
  {
    AtPrefix(start, log, op, |log|);
    assert (log + [op])[|log|] == op && Updates(op, op.id);
  }

  lemma StrayUnsettles(s: State, op: Op)
    requires Settled(s) && MayCommit(s, op) && Changes(op) && Clocked(s.start, s.log + [op], op.id)
    requires Holds(s.cache, op.id) && s.writing != Some(op.id)
    ensures !Settled(Step(s, Stray(op)))
  {
    var r := Lookup(s.cache, op.id);
    assert Read(Now(s), op.id) == Some(r);
    if op.UpdateStatus? {
      ClockedLast(s.start, s.log, op);
    }
    WriteChangesShown(Now(s), op);
    NowMore(s, op, s.writing);
    hide Read, Write, Accepts, Changes, At, Holds, Lookup, Clocked, Now;
    assert r in Step(s, Stray(op)).cache;
  }

  /** A write that commits after its call has gone leaves the cache settled if and only if it
      changes nothing a record shows, or its run is not cached, or is about to be popped. */
  lemma StraySettledIff(s: State, op: Op)
    requires Settled(s) && MayCommit(s, op) && Clocked(s.start, s.log + [op], op.id)
    ensures Settled(Step(s, Stray(op))) <==> !Changes(op) || s.writing == Some(op.id) || !Holds(s.cache, op.id)
  {
    if Changes(op) && s.writing != Some(op.id) && Holds(s.cache, op.id) {
      StrayUnsettles(s, op);
    } else {
      LogSettled(s, op, s.writing);
    }
  }

  /** A cached record is current if and only if it is not behind; the clock is needed one way. */
  lemma CachedCurrent(s: State, r: Record)
    requires Honest(s) && r in s.cache
    ensures !Behind(s, r.id) ==> Read(Now(s), r.id) == Some(r)
    ensures Clocked(s.start, s.log, r.id) && Behind(s, r.id) ==> Read(Now(s), r.id) != Some(r)
  {
    var f := Source(s, r);
    assert FlightHolds(s.start, s.log, f);
    assert Overtaken(s, f) <==> Behind(s, r.id);
    hide FlightHolds, Read, Clocked, Behind, Overtaken;
    if Overtaken(s, f) {
      if Clocked(s.start, s.log, r.id) {
        OvertakenIsBehind(s, f);
      }
    } else {
      NotOvertakenIsCurrent(s, f);
    }
  }

  /** A write that is cancelled before its pop leaves the cache settled if and only if its run
      is not cached, or the log did nothing to the run since its record was read. */
  lemma AbandonSettledIff(s: State)
    requires Honest(s) && Settled(s) && s.writing.Some? && Clocked(s.start, s.log, s.writing.value)
    ensures Settled(Step(s, Abandon)) <==> !Holds(s.cache, s.writing.value) || !Behind(s, s.writing.value)
  {
    var id := s.writing.value;
    HoldsIffIn(s.cache, id);
    hide Read, At, Holds, Clocked, Behind, Honest;
    forall r | r in s.cache && r.id == id
      ensures Read(Now(s), id) == Some(r) <==> !Behind(s, id)
    {
      CachedCurrent(s, r);
    }
    var s' := Step(s, Abandon);
    assert Now(s') == Now(s) && s'.cache == s.cache;
  }

  lemma StepSettled(s: State, a: Action)
    requires Honest(s) && Settled(s) && Orderly(s, a)
    ensures Settled(Step(s, a))
  {
    hide Honest, Settled, Overtaken;
    match a
    case Begin(call, id) => BeginSettled(s, call, id);
    case ReadRow(_) => ReadSettled(s, a);
    case ReadEvents(_) => ReadSettled(s, a);
    case Finish(call) => FinishSettled(s, call);
    case Commit(op) =>
      if MayCommit(s, op) && s.writing.None? {
        LogSettled(s, op, if Invalidates(op) then Some(op.id) else None);
      }
    case Pop => PopSettled(s);
    case Abandon => AbandonSettled(s);
    case Stray(op) =>
      if MayCommit(s, op) {
        LogSettled(s, op, s.writing);
      }
  }

  lemma BeginSettled(s: State, call: Call, id: RunId)
    requires Settled(s)
    ensures Settled(Step(s, Begin(call, id)))
  {
    hide Read, At;
    ForgetKeeps(s.cache, id);
  }

  lemma ReadSettled(s: State, a: Action)
    requires Settled(s) && (a.ReadRow? || a.ReadEvents?)
    ensures Settled(Step(s, a))
  {
    hide Read, At;
  }

  lemma FinishSettled(s: State, call: Call)
    requires Honest(s) && Settled(s) && Orderly(s, Finish(call))
    ensures Settled(Step(s, Finish(call)))
  {
    if call in s.flights && s.flights[call].Got? && s.flights[call].record.Some? {
      FinishFiles(s, call);
      assert FlightHolds(s.start, s.log, s.flights[call]);
      hide Settled, Step, FlightHolds, Read, Overtaken;
      if !Overtaken(s, s.flights[call]) {
        NotOvertakenIsCurrent(s, s.flights[call]);
      }
    } else {
      hide Read, At, Overtaken;
    }
  }

  lemma PopSettled(s: State)
    requires Settled(s)
    ensures Settled(Step(s, Pop))
  {
    hide Read, At;
    if s.writing.Some? {
      ForgetKeeps(s.cache, s.writing.value);
    }
  }

  lemma AbandonSettled(s: State)
    requires Honest(s) && Settled(s) && Orderly(s, Abandon)
    ensures Settled(Step(s, Abandon))
  {
    if s.writing.Some? {
      var id := s.writing.value;
      HoldsIffIn(s.cache, id);
      hide Read, At, Holds, Behind, Honest;
      forall r | r in s.cache && r.id == id
        ensures Read(Now(s), id) == Some(r)
      {
        CachedCurrent(s, r);
      }
      assert Now(Step(s, Abandon)) == Now(s);
    } else {
      assert Step(s, Abandon) == s;
    }
  }

  /** As long as no overtaken read is filed and no cached run is changed without a pop, what is
      answered from the cache is what the tables hold: overlap alone does no harm. */
  lemma {:induction false} OrderlyReadsSettle(db: Db, actions: seq<Action>)
    requires AllOrderly(db, actions)
    ensures var s := Run(db, actions);
            Settled(s) && (s.writing.None? ==> forall r :: r in s.cache ==> Read(Now(s), r.id) == Some(r))
  {
    if actions != [] {
      var before, a := actions[..|actions| - 1], actions[|actions| - 1];
      OrderlyReadsSettle(db, before);
      ReturnsPieces(db, before);
      hide Settled, Step, Honest, Orderly;
      StepSettled(Run(db, before), a);
    }
    assert Settled(Run(db, actions));
  }

  // --- the exact condition ----------------------------------------------------------------------------

  ghost predicate EveryClock(start: Db, log: seq<Op>) {
    forall id: RunId :: Clocked(start, log, id)
  }

  /** With clocks, a step from a settled state keeps it settled if and only if it is orderly. */
  lemma StepSettledIff(s: State, a: Action)
    requires Honest(s) && Settled(s) && EveryClock(s.start, Step(s, a).log)
    ensures Settled(Step(s, a)) <==> Orderly(s, a)
  {
    hide Honest, Settled, Overtaken, Behind, Clocked, Holds, Changes;
    if Orderly(s, a) {
      StepSettled(s, a);
    } else {
      match a
      case Finish(call) => FinishSettledIff(s, call);
      case Abandon => AbandonSettledIff(s);
      case Stray(op) => StraySettledIff(s, op);
      case _ =>
    }
  }

  lemma ClockedPrefix(start: Db, log: seq<Op>, op: Op, id: RunId)
    requires Clocked(start, log + [op], id)
    ensures Clocked(start, log, id)
  {
    hide At;
    forall k | 0 <= k < |log| && Updates(log[k], id) && id in At(start, log, k).runs
      ensures Later(At(start, log, k).runs[id].endedAt, log[k].ended)
    {
      AtPrefix(start, log, op, k);
      assert (log + [op])[k] == log[k];
    }
  }

  lemma StepLog(s: State, a: Action)
    ensures Step(s, a).start == s.start
    ensures Step(s, a).log == s.log || exists op :: Step(s, a).log == s.log + [op]
  {
    hide Accepts, Now, Holds, Forget;
  }

  lemma {:induction false} RunStart(db: Db, actions: seq<Action>)
    ensures Run(db, actions).start == db
  {
    if actions != [] {
      hide Step;
      RunStart(db, actions[..|actions| - 1]);
      StepLog(Run(db, actions[..|actions| - 1]), actions[|actions| - 1]);
    }
  }

  ghost predicate AlwaysSettled(db: Db, actions: seq<Action>) {
    forall n :: 0 <= n <= |actions| ==> Settled(Run(db, actions[..n]))
  }

  lemma AlwaysSettledNext(db: Db, actions: seq<Action>)
    requires actions != []
    ensures AlwaysSettled(db, actions) <==>
            AlwaysSettled(db, actions[..|actions| - 1]) && Settled(Run(db, actions))
  {
    hide Run, Settled;
    var before := actions[..|actions| - 1];
    assert actions[..|actions|] == actions;
    forall n | 0 <= n <= |before|
      ensures before[..n] == actions[..n]
    {}
  }

  /** Main result, the exact condition over whole traces: with growing end times the cache is
      settled at every moment if and only if every step is orderly. */
  lemma {:induction false} SettledIffOrderly(db: Db, actions: seq<Action>)
    requires EveryClock(db, Run(db, actions).log)
    ensures AlwaysSettled(db, actions) <==> AllOrderly(db, actions)
  {
    if actions == [] {
      assert Settled(Run(db, []));
      assert actions[..0] == [];
    } else {
      var before, a := actions[..|actions| - 1], actions[|actions| - 1];
      var s := Run(db, before);
      assert Run(db, actions) == Step(s, a);
      RunStart(db, before);
      StepLog(s, a);
      hide Run, Step, Settled, Orderly, Clocked, AlwaysSettled, Honest;
      ClocksBefore(db, s.log, Step(s, a).log);
      SettledIffOrderly(db, before);
      AlwaysSettledNext(db, actions);
      if AllOrderly(db, before) {
        AlwaysLast(db, before);
        ReturnsPieces(db, before);
        StepSettledIff(s, a);
      }
    }
  }

  lemma ClocksBefore(db: Db, log: seq<Op>, more: seq<Op>)
    requires EveryClock(db, more) && (more == log || exists op :: more == log + [op])
    ensures EveryClock(db, log)
  {
    hide Clocked;
    if more != log {
      var op :| more == log + [op];
      forall id: RunId
        ensures Clocked(db, log, id)
      {
        assert Clocked(db, more, id);
        ClockedPrefix(db, log, op, id);
      }
    }
  }

  lemma AlwaysLast(db: Db, actions: seq<Action>)
    requires AlwaysSettled(db, actions)
    ensures Settled(Run(db, actions))
  {
    hide Run, Settled;
    assert actions[..|actions|] == actions;
  }

  // --- the ways it goes wrong ---------------------------------------------------------------------

  lemma RunNext(db: Db, actions: seq<Action>, k: nat)
    requires k < |actions|
    ensures Run(db, actions[..k + 1]) == Step(Run(db, actions[..k]), actions[k])
  {
    hide Step;
    assert actions[..k + 1][..k] == actions[..k];
  }

  const OLD := Row(0, 0, None, None, NO_METRICS)
  const NEW := Row(0, 1, Some(5), None, NO_METRICS)
  const START := Db(map[7 := OLD], map[])
  const UPDATE := UpdateStatus(7, 1, 5, None)
  const LATE := Event(0, 9)
  const APPEND := AppendEvent(7, LATE)

  lemma TwoCommits()
    ensures At(START, [], 0) == START
    ensures At(START, [UPDATE], 0) == START && At(START, [UPDATE], 1) == Db(map[7 := NEW], map[])
    ensures At(START, [UPDATE, APPEND], 0) == START && At(START, [UPDATE, APPEND], 1) == Db(map[7 := NEW], map[])
    ensures At(START, [UPDATE, APPEND], 2) == Db(map[7 := NEW], map[7 := [LATE]])
  {
    var log := [UPDATE, APPEND];
    assert At(START, log, 0) == START;
    assert At(START, log, 1) == Db(map[7 := NEW], map[]);
    assert InsertEvent([], LATE) == [LATE];
  }

  const TORN: seq<Action> :=
    [Begin(1, 7), ReadRow(1), Commit(UPDATE), Pop, Commit(APPEND), Pop, ReadEvents(1), Finish(1)]

  lemma TornUpToRow()
    ensures Run(START, TORN[..2]) == State(START, [], [], map[1 := RowRead(7, Some(OLD), 0)], None, [], map[])
  {
    TwoCommits();
    RunNext(START, TORN, 0);
    RunNext(START, TORN, 1);
    assert Run(START, TORN[..0]) == State(START, [], [], map[], None, [], map[]);
    hide Run, At;
    assert Run(START, TORN[..1]) == State(START, [], [], map[1 := Asked(7)], None, [], map[]);
  }

  lemma TornUpToUpdate()
    ensures Run(START, TORN[..4]) ==
            State(START, [UPDATE], [], map[1 := RowRead(7, Some(OLD), 0)], None, [], map[])
  {
    TwoCommits();
    TornUpToRow();
    RunNext(START, TORN, 2);
    RunNext(START, TORN, 3);
    hide Run, At;
    assert [] + [UPDATE] == [UPDATE];
    assert Run(START, TORN[..3]) ==
           State(START, [UPDATE], [], map[1 := RowRead(7, Some(OLD), 0)], Some(7), [], map[]);
  }

  lemma TornUpToAppend()
    ensures Run(START, TORN[..6]) ==
            State(START, [UPDATE, APPEND], [], map[1 := RowRead(7, Some(OLD), 0)], None, [], map[])
  {
    TwoCommits();
    TornUpToUpdate();
    RunNext(START, TORN, 4);
    RunNext(START, TORN, 5);
    hide Run, At;
    assert [UPDATE] + [APPEND] == [UPDATE, APPEND];
    assert Run(START, TORN[..5]) ==
           State(START, [UPDATE, APPEND], [], map[1 := RowRead(7, Some(OLD), 0)], Some(7), [], map[]);
  }

  const MIXED := Assemble(7, OLD, [LATE])

  lemma MixedNever()
    ensures !Once(START, [UPDATE, APPEND], 7, Some(MIXED))
  {
    TwoCommits();
    hide At;
    forall k | 0 <= k <= 2
      ensures Read(At(START, [UPDATE, APPEND], k), 7) != Some(MIXED)
    {
      assert k == 0 || k == 1 || k == 2;
    }
  }

  /** A read around an update and an append returns the old status with the new event, which
      no state of the tables ever said. */
  lemma TornReadReturned()
    ensures var s := Run(START, TORN);
            s.returned == [(7, Some(MIXED))] && !Once(s.start, s.log, 7, Some(MIXED))
  {
    TornUpToAppend();
    MixedNever();
    RunNext(START, TORN, 6);
    RunNext(START, TORN, 7);
    assert TORN[..8] == TORN;
    TwoCommits();
    hide Run, At, Once, File;
    var s := State(START, [UPDATE, APPEND], [], map[1 := RowRead(7, Some(OLD), 0)], None, [], map[]);
    assert Run(START, TORN[..7]) == s.(flights := map[1 := Got(7, Some(MIXED), 0, 2)]);
  }

  const OVERTAKEN: seq<Action> :=
    [Begin(1, 7), ReadRow(1), ReadEvents(1), Commit(UPDATE), Pop, Finish(1), Begin(2, 7)]

  const STALE := Assemble(7, OLD, [])

  lemma ReadBefore(actions: seq<Action>)
    requires |actions| >= 3 && actions[0] == Begin(1, 7) && actions[1] == ReadRow(1) && actions[2] == ReadEvents(1)
    ensures Run(START, actions[..3]) == State(START, [], [], map[1 := Got(7, Some(STALE), 0, 0)], None, [], map[])
  {
    TwoCommits();
    RunNext(START, actions, 0);
    RunNext(START, actions, 1);
    RunNext(START, actions, 2);
    assert Run(START, actions[..0]) == State(START, [], [], map[], None, [], map[]);
    hide Run, At;
    assert Run(START, actions[..1]) == State(START, [], [], map[1 := Asked(7)], None, [], map[]);
    assert Run(START, actions[..2]) == State(START, [], [], map[1 := RowRead(7, Some(OLD), 0)], None, [], map[]);
  }

  lemma OvertakenRead()
    ensures Run(START, OVERTAKEN[..5]) ==
            State(START, [UPDATE], [], map[1 := Got(7, Some(STALE), 0, 0)], None, [], map[])
  {
    TwoCommits();
    ReadBefore(OVERTAKEN);
    RunNext(START, OVERTAKEN, 3);
    RunNext(START, OVERTAKEN, 4);
    hide Run, At;
    assert [] + [UPDATE] == [UPDATE];
    assert Run(START, OVERTAKEN[..4]) ==
           State(START, [UPDATE], [], map[1 := Got(7, Some(STALE), 0, 0)], Some(7), [], map[]);
  }

  lemma FilesAlone(r: Record)
    ensures File([], r) == [r]
    ensures Holds([r], r.id) && Lookup([r], r.id) == r && Forget([r], r.id) + [r] == [r]
  {}

  /** A read that a whole status update overtakes files the old record, and with nothing left
      in flight the next `get_run` still answers it. */
  lemma OvertakenReadSticks()
    ensures var s := Run(START, OVERTAKEN);
            && s.flights == map[] && s.writing == None
            && s.returned == [(7, Some(STALE)), (7, Some(STALE))]
            && Read(Now(s), 7) == Some(Assemble(7, NEW, []))
  {
    TwoCommits();
    OvertakenRead();
    FilesAlone(STALE);
    RunNext(START, OVERTAKEN, 5);
    RunNext(START, OVERTAKEN, 6);
    assert OVERTAKEN[..7] == OVERTAKEN;
    hide Run, At, File, Holds, Lookup, Forget;
    assert Run(START, OVERTAKEN[..6]) ==
           State(START, [UPDATE], [STALE], map[], None, [(7, Some(STALE))], map[7 := (0, 0)]);
  }

  const UNPOPPED: seq<Action> := [Begin(1, 7), ReadRow(1), ReadEvents(1), Finish(1), Stray(UPDATE), Begin(2, 7)]

  lemma UnpoppedRead()
    ensures Run(START, UNPOPPED[..4]) == State(START, [], [STALE], map[], None, [(7, Some(STALE))], map[7 := (0, 0)])
  {
    ReadBefore(UNPOPPED);
    FilesAlone(STALE);
    RunNext(START, UNPOPPED, 3);
    hide Run, At, File;
  }

  lemma UnpoppedWrite()
    ensures Run(START, UNPOPPED[..5]) ==
            State(START, [UPDATE], [STALE], map[], None, [(7, Some(STALE))], map[7 := (0, 0)])
  {
    TwoCommits();
    UnpoppedRead();
    RunNext(START, UNPOPPED, 4);
    hide Run, At;
    assert [] + [UPDATE] == [UPDATE];
  }

  /** A write whose call was cancelled leaves the cached record behind, although no read
      overlapped it. */
  lemma UnpoppedWriteSticks()
    ensures var s := Run(START, UNPOPPED);
            && s.flights == map[] && s.writing == None
            && s.returned == [(7, Some(STALE)), (7, Some(STALE))]
            && Read(Now(s), 7) == Some(Assemble(7, NEW, []))
  {
    TwoCommits();
    UnpoppedWrite();
    FilesAlone(STALE);
    RunNext(START, UNPOPPED, 5);
    assert UNPOPPED[..6] == UNPOPPED;
    hide Run, At, Holds, Lookup, Forget;
  }

  /** `get_run` of one run again and again. */
  function ReadAgain(s: State, id: RunId, calls: seq<Call>): State {
    if calls == [] then s else Step(ReadAgain(s, id, calls[..|calls| - 1]), Begin(calls[|calls| - 1], id))
  }

  /** A cached record, stale or not, is the answer to every read until something pops, replaces
      or evicts it: reading does not refresh it. */
  lemma {:induction false} ReadingDoesNotRefresh(s: State, id: RunId, calls: seq<Call>)
    requires Holds(s.cache, id) && forall k :: 0 <= k < |calls| ==> calls[k] !in s.flights
    ensures var s' := ReadAgain(s, id, calls); var r := Lookup(s.cache, id);
            && Holds(s'.cache, id) && Lookup(s'.cache, id) == r
            && s' == s.(cache := s'.cache, returned := s.returned + seq(|calls|, _ => (id, Some(r))))
  {
    if calls != [] {
      var n := |calls| - 1;
      ReadingDoesNotRefresh(s, id, calls[..n]);
      var before, r := ReadAgain(s, id, calls[..n]), Lookup(s.cache, id);
      assert ReadAgain(s, id, calls) == Step(before, Begin(calls[n], id));
      hide ReadAgain;
      assert (Forget(before.cache, id) + [r])[|Forget(before.cache, id)|] == r;
      assert seq(n, _ => (id, Some(r))) + [(id, Some(r))] == seq(n + 1, _ => (id, Some(r)));
    }
  }
}
