/** Opening the run database (src/agent/daemon/store.py:81-168, 671-755): the base schema and
    the migrations to version 5, one SQL statement at a time, with the process free to die
    before any of them. */
module Migrations {

  datatype Table =
    | Runs | RunEvents
    | RunOutcomes | Feedback | ActionOutcomes
    | Episodes | Reflections
    | Skills | SkillOutcomes | LearnedRules | AllowlistProposals
    | OtherTable(n: nat)

  datatype Column =
    | RunId | Kind | Task | Brain | Status | StartedAt | EndedAt | ErrorText
    | Seq | Ts | PayloadJson
    | Iterations | ActionCount | DurationS
    | Outcome | Score | Source | Rationale | DecidedAt
    | FeedbackId | Comment | CreatedAt
    | ActionKind | ParamsJson | ResultKind | Stdout | Stderr | Returncode
    | DispatchResponse | PreStateHash | PostStateHash | DurationMs
    | TaskNormalized | Summary | ContextClass | ActionsJson
    | ReflectionId | Polarity | TextColumn | GeneratedBy
    | SkillId | Name | Description | ParamsSchema | SourceRunId | LastUsedAt
    | RuleId | Yaml | Confidence | HitCount | SourceRuns | ProposedAt
    | ProposalId | AppClass | TitlePat | LastSeen
    | DecayScore | LastAccessedAt
    | OtherColumn(n: nat)

  datatype Index =
    | RunsStarted | FeedbackRun | ActionOutcomesKind | EpisodesOutcome | EpisodesContext
    | ReflectionsRun | SkillsStatus | LearnedRulesStatus | UniqueAllowlistProposal
    | OtherIndex(n: nat)

  /** A schema as the set of what it has. */
  datatype Item = HasTable(t: Table) | HasColumn(t: Table, c: Column) | HasIndex(i: Index)

  datatype Db = Db(items: set<Item>, version: nat)

  /** The columns of the `CREATE TABLE` statements. */
  function Created(t: Table): set<Column> {
    match t
    case Runs => {RunId, Kind, Task, Brain, Status, StartedAt, EndedAt, ErrorText}
    case RunEvents => {RunId, Seq, Ts, Kind, PayloadJson}
    case RunOutcomes => {RunId, Outcome, Score, Source, Rationale, DecidedAt}
    case Feedback => {FeedbackId, RunId, Kind, Comment, CreatedAt}
    case ActionOutcomes =>
      {RunId, Seq, ActionKind, ParamsJson, ResultKind, Stdout, Stderr, Returncode, DispatchResponse,
       PreStateHash, PostStateHash, DurationMs}
    case Episodes => {RunId, Task, TaskNormalized, Outcome, Summary, ContextClass, ActionsJson, CreatedAt}
    case Reflections => {ReflectionId, RunId, Polarity, TextColumn, GeneratedBy, CreatedAt}
    case Skills =>
      {SkillId, Name, Description, ActionsJson, ParamsSchema, SourceRunId, CreatedAt, LastUsedAt, Status}
    case SkillOutcomes => {SkillId, RunId, Outcome, Ts}
    case LearnedRules => {RuleId, Yaml, Confidence, HitCount, SourceRuns, Status, ProposedAt, DecidedAt}
    case AllowlistProposals => {ProposalId, AppClass, TitlePat, HitCount, LastSeen, Status}
    case OtherTable(_) => {}
  }

  /** Columns an older program left out of `runs`. */
  function LaterColumns(): set<Column> {
    {Kind, ErrorText}
  }

  function IndexOn(i: Index): (Table, set<Column>) {
    match i
    case RunsStarted => (Runs, {StartedAt})
    case FeedbackRun => (Feedback, {RunId})
    case ActionOutcomesKind => (ActionOutcomes, {ActionKind, ResultKind})
    case EpisodesOutcome => (Episodes, {Outcome, CreatedAt})
    case EpisodesContext => (Episodes, {ContextClass})
    case ReflectionsRun => (Reflections, {RunId})
    case SkillsStatus => (Skills, {Status})
    case LearnedRulesStatus => (LearnedRules, {Status})
    case UniqueAllowlistProposal => (AllowlistProposals, {AppClass, TitlePat})
    case OtherIndex(n) => (OtherTable(n), {})
  }

  function Columns(t: Table, cs: set<Column>): set<Item> {
    set c | c in cs :: HasColumn(t, c)
  }

  function Whole(t: Table): set<Item> {
    {HasTable(t)} + Columns(t, Created(t))
  }

  // --- statements --------------------------------------------------------------------------------

  datatype Statement =
    | CreateTable(t: Table)              // IF NOT EXISTS
    | CreateIndex(i: Index)              // IF NOT EXISTS
    | AddColumn(t: Table, c: Column)
    | SetVersion(v: nat)

  /** The statement does not raise. */
  predicate Legal(db: Db, s: Statement) {
    match s
    case CreateIndex(i) => HasTable(IndexOn(i).0) in db.items && Columns(IndexOn(i).0, IndexOn(i).1) <= db.items
    case AddColumn(t, c) => HasTable(t) in db.items && HasColumn(t, c) !in db.items
    case _ => true
  }

  function Exec(db: Db, s: Statement): Db
    requires Legal(db, s)
  {
    match s
    case CreateTable(t) => if HasTable(t) in db.items then db else db.(items := db.items + Whole(t))
    case CreateIndex(i) => db.(items := db.items + {HasIndex(i)})
    case AddColumn(t, c) => db.(items := db.items + {HasColumn(t, c)})
    case SetVersion(v) => db.(version := v)
  }

  // --- what each version has -----------------------------------------------------------------------

  function DecayColumns(): set<Column> {
    {DecayScore, LastAccessedAt}
  }

  function MetricColumns(): set<Column> {
    {Iterations, ActionCount, DurationS}
  }

  function Base(): set<Item> {
    Whole(Runs) + Whole(RunEvents) + {HasIndex(RunsStarted)}
  }

  function Version2(): set<Item> {
    Columns(Runs, MetricColumns()) + Whole(RunOutcomes) + Whole(Feedback) + {HasIndex(FeedbackRun)}
    + Whole(ActionOutcomes) + {HasIndex(ActionOutcomesKind)}
  }

  function Version3(): set<Item> {
    Whole(Episodes) + {HasIndex(EpisodesOutcome), HasIndex(EpisodesContext)}
    + Whole(Reflections) + {HasIndex(ReflectionsRun)}
  }

  function SkillTables(): set<Item> {
    Whole(Skills) + {HasIndex(SkillsStatus)} + Whole(SkillOutcomes)
  }

  function Version4(): set<Item> {
    SkillTables()
    + Whole(LearnedRules) + {HasIndex(LearnedRulesStatus)}
    + Whole(AllowlistProposals) + {HasIndex(UniqueAllowlistProposal)}
  }

  function Version5(): set<Item> {
    Columns(Episodes, DecayColumns()) + Columns(Reflections, DecayColumns()) + Columns(Skills, DecayColumns())
  }

  function Final(): set<Item> {
    Base() + Version2() + Version3() + Version4() + Version5()
  }

  /** What exists of a table other than `runs` has its created columns. */
  ghost predicate Closed(items: set<Item>) {
    forall t :: HasTable(t) in items && t != Runs ==> Columns(t, Created(t)) <= items
  }

  /** A database this program, or an older release of it, can have left: tables have their
      created columns (`runs` perhaps not the later ones), and what a version claims is there. */
  ghost predicate Inv(db: Db) {
    && db.version <= 5
    && (HasTable(Runs) in db.items ==> Columns(Runs, Created(Runs) - LaterColumns()) <= db.items)
    && Closed(db.items)
    && (db.version >= 2 ==> Version2() <= db.items)
    && (db.version >= 3 ==> Version3() <= db.items)
    && (db.version >= 4 ==> Version4() <= db.items)
    && (db.version >= 5 ==> Version5() <= db.items)
  }

  /** How far an open of `from` may have got. */
  ghost predicate Within(from: Db, db: Db) {
    from.items <= db.items <= from.items + Final() && from.version <= db.version && Inv(db)
  }

  function Migrated(db: Db): Db {
    Db(db.items + Final(), 5)
  }

  // --- one statement --------------------------------------------------------------------------------

  predicate IsTarget(s: Statement) {
    match s
    case CreateTable(t) => Whole(t) <= Final()
    case CreateIndex(i) => HasIndex(i) in Final()
    case AddColumn(t, c) => HasColumn(t, c) in Final()
    case SetVersion(_) => false
  }

  lemma ExecWithin(from: Db, db: Db, s: Statement)
    requires Within(from, db) && Legal(db, s) && IsTarget(s)
    ensures Within(from, Exec(db, s))
  {
    hide Created, Final, Version2, Version3, Version4, Version5, LaterColumns;
    if s.CreateTable? && HasTable(s.t) !in db.items {
      WholeInv(db, s.t);
    }
  }

  lemma WholeInv(db: Db, t: Table)
    requires Inv(db)
    ensures Inv(db.(items := db.items + Whole(t)))
  {
    hide Created, Final, Version2, Version3, Version4, Version5, LaterColumns;
  }

  /** A version may be written once everything it claims is there. */
  lemma SetVersionWithin(from: Db, db: Db, v: nat)
    requires Within(from, db) && db.version <= v <= 5
    requires (v >= 2 ==> Version2() <= db.items) && (v >= 3 ==> Version3() <= db.items)
    requires (v >= 4 ==> Version4() <= db.items) && (v >= 5 ==> Version5() <= db.items)
    ensures Within(from, db.(version := v))
  {
    hide Created, Final, Version2, Version3, Version4, Version5, LaterColumns;
  }

  // --- the connection ---------------------------------------------------------------------------------

  /** An open database. The process dies before the statement at which `budget` has run out;
      from then on nothing reaches the file. */
  class Connection {
    var items: set<Item>
    var version: nat
    var alive: bool
    var budget: nat
    ghost const from: Db

    function View(): Db
      reads this
    {
      Db(items, version)
    }

    ghost predicate Valid()
      reads this
    {
      Within(from, View())
    }

    constructor (db: Db, budget: nat)
      requires Inv(db)
      ensures Valid() && View() == db == from && alive && this.budget == budget
    {
      items, version, alive := db.items, db.version, true;
      this.budget, from := budget, db;
    }

    predicate Lasts(statements: nat)
      reads this
    {
      alive && budget >= statements
    }

    method Run(s: Statement)
      requires Valid() && IsTarget(s) && (alive ==> Legal(View(), s))
      modifies this`items, this`alive, this`budget
      ensures Valid()
      ensures alive ==> old(alive) && View() == Exec(old(View()), s)
      ensures !alive ==> View() == old(View())
      ensures old(Lasts(1)) ==> alive && budget >= old(budget) - 1
    {
      hide Within, Legal;
      if !alive || budget == 0 {
        alive := false;
        return;
      }
      ExecWithin(from, View(), s);
      budget := budget - 1;
      match s
      case CreateTable(t) =>
        if HasTable(t) !in items {
          items := items + Whole(t);
        }
      case CreateIndex(i) => items := items + {HasIndex(i)};
      case AddColumn(t, c) => items := items + {HasColumn(t, c)};
      case SetVersion(_) =>
    }

    method Create(t: Table)
      requires Valid() && Whole(t) <= Final() && t != Runs
      modifies this`items, this`alive, this`budget
      ensures Valid()
      ensures alive ==> old(alive) && items == old(items) + Whole(t)
      ensures old(Lasts(1)) ==> alive && budget >= old(budget) - 1
    {
      hide Created, Final, Version2, Version3, Version4, Version5, LaterColumns;
      Run(CreateTable(t));
      assert alive && HasTable(t) in old(items) ==> Whole(t) <= items;
    }

    method Mark(i: Index)
      requires Valid() && HasIndex(i) in Final()
      requires alive ==> var t := IndexOn(i).0; HasTable(t) in items && Columns(t, Created(t) - LaterColumns()) <= items
      modifies this`items, this`alive, this`budget
      ensures Valid()
      ensures alive ==> old(alive) && items == old(items) + {HasIndex(i)}
      ensures old(Lasts(1)) ==> alive && budget >= old(budget) - 1
    {
      IndexColumns(i);
      hide Within, Columns, Final, Created, LaterColumns, IndexOn;
      Run(CreateIndex(i));
    }

    /** The guarded `ALTER TABLE`, the guard being the column list read earlier. */
    method Add(t: Table, c: Column, missing: bool)
      requires Valid() && HasColumn(t, c) in Final()
      requires alive ==> HasTable(t) in items && (missing <==> HasColumn(t, c) !in items)
      modifies this`items, this`alive, this`budget
      ensures Valid()
      ensures alive ==> old(alive) && items == old(items) + {HasColumn(t, c)}
      ensures old(Lasts(1)) ==> alive && budget >= old(budget) - 1
    {
      hide Within, Final;
      if missing {
        Run(AddColumn(t, c));
      }
    }

    method Stamp(v: nat)
      requires Valid() && v <= 5
      requires alive ==> version <= v
      requires alive && v >= 2 ==> Version2() <= items
      requires alive && v >= 3 ==> Version3() <= items
      requires alive && v >= 4 ==> Version4() <= items
      requires alive && v >= 5 ==> Version5() <= items
      modifies this`version, this`alive, this`budget
      ensures Valid()
      ensures alive ==> old(alive) && version == v
      ensures !alive ==> version == old(version)
      ensures old(Lasts(1)) ==> alive && budget >= old(budget) - 1
    {
      hide Within, Final, Version2, Version3, Version4, Version5;
      if !alive || budget == 0 {
        alive := false;
        return;
      }
      SetVersionWithin(from, View(), v);
      budget := budget - 1;
      version := v;
    }

    method CreateRuns()
      requires Valid()
      modifies this`items, this`alive, this`budget
      ensures Valid()
      ensures alive ==>
                && old(alive) && items + Columns(Runs, LaterColumns()) == old(items) + Whole(Runs)
                && HasTable(Runs) in items && Columns(Runs, Created(Runs) - LaterColumns()) <= items
      ensures old(Lasts(1)) ==> alive && budget >= old(budget) - 1
    {
      InFinal();
      SplitRuns();
      hide Final, Version2, Version3, Version4, Version5, Created, LaterColumns, Columns;
      Run(CreateTable(Runs));
    }

    method BaseSchema()
      requires Valid()
      modifies this`items, this`alive, this`budget
      ensures Valid() && (alive ==> old(alive) && items == old(items) + Base())
      ensures old(Lasts(5)) ==> alive && budget >= old(budget) - 5
    {
      InFinal();
      hide Within, Final, Version2, Version3, Version4, Version5;
      CreateRuns();
      Create(RunEvents);
      Mark(RunsStarted);
      assert Columns(Runs, LaterColumns()) == {HasColumn(Runs, ErrorText), HasColumn(Runs, Kind)};
      hide Created, Columns;
      var noError, noKind := HasColumn(Runs, ErrorText) !in items, HasColumn(Runs, Kind) !in items;
      Add(Runs, ErrorText, noError);
      Add(Runs, Kind, noKind);
    }

    /** Adds those of `cols` that the table did not have when it was asked. */
    method AddMissing(t: Table, cols: seq<Column>)
      requires Valid() && forall k :: 0 <= k < |cols| ==> HasColumn(t, cols[k]) in Final()
      requires forall k, l :: 0 <= k < l < |cols| ==> cols[k] != cols[l]
      requires alive ==> HasTable(t) in items
      modifies this`items, this`alive, this`budget
      ensures Valid()
      ensures alive ==> old(alive) && items == old(items) + set c | c in cols :: HasColumn(t, c)
      ensures old(Lasts(|cols|)) ==> alive && budget >= old(budget) - |cols|
    {
      hide Within, Final;
      var had := set c | c in cols && HasColumn(t, c) in items;
      for k := 0 to |cols|
        invariant Valid()
        invariant alive ==> old(alive) && items == old(items) + set c | c in cols[..k] :: HasColumn(t, c)
        invariant old(Lasts(|cols|)) ==> alive && budget >= old(budget) - k
      {
        assert cols[..k + 1] == cols[..k] + [cols[k]];
        Add(t, cols[k], cols[k] !in had);
      }
      assert cols[..|cols|] == cols;
    }

    method AddMetrics()
      requires Valid() && Columns(Runs, MetricColumns()) <= Final() && (alive ==> HasTable(Runs) in items)
      modifies this`items, this`alive, this`budget
      ensures Valid()
      ensures alive ==> old(alive) && items == old(items) + Columns(Runs, MetricColumns())
      ensures old(Lasts(3)) ==> alive && budget >= old(budget) - 3
    {
      hide Within, Final;
      AddMissing(Runs, [Iterations, ActionCount, DurationS]);
      assert alive ==> items == old(items) + Columns(Runs, MetricColumns());
    }

    method ApplyV2()
      requires Valid() && (alive ==> version < 2 && HasTable(Runs) in items)
      modifies this
      ensures Valid() && (alive ==> old(alive) && View() == Db(old(items) + Version2(), 2))
      ensures old(Lasts(9)) ==> alive && budget >= old(budget) - 9
    {
      InFinal();
      hide Within, Final, Version3, Version4, Version5, Whole;
      AddMetrics();
      Create(RunOutcomes);
      Create(Feedback);
      MarkNew(FeedbackRun, Feedback);
      Create(ActionOutcomes);
      MarkNew(ActionOutcomesKind, ActionOutcomes);
      assert alive ==> items == old(items) + Version2();
      Stamp(2);
    }

    method MarkNew(i: Index, t: Table)
      requires Valid() && HasIndex(i) in Final() && IndexOn(i).0 == t
      requires alive ==> Whole(t) <= items
      modifies this`items, this`alive, this`budget
      ensures Valid()
      ensures alive ==> old(alive) && items == old(items) + {HasIndex(i)}
      ensures old(Lasts(1)) ==> alive && budget >= old(budget) - 1
    {
      hide Within, Final, Created, LaterColumns;
      Mark(i);
    }

    method ApplyV3()
      requires Valid() && (alive ==> version < 3 && Version2() <= items)
      modifies this
      ensures Valid() && (alive ==> old(alive) && View() == Db(old(items) + Version3(), 3))
      ensures old(Lasts(6)) ==> alive && budget >= old(budget) - 6
    {
      InFinal();
      hide Within, Final, Version2, Version4, Version5, Whole;
      Create(Episodes);
      MarkNew(EpisodesOutcome, Episodes);
      MarkNew(EpisodesContext, Episodes);
      Create(Reflections);
      MarkNew(ReflectionsRun, Reflections);
      assert alive ==> items == old(items) + Version3();
      Stamp(3);
    }

    method CreateSkills()
      requires Valid() && SkillTables() <= Final()
      modifies this`items, this`alive, this`budget
      ensures Valid() && (alive ==> old(alive) && items == old(items) + SkillTables())
      ensures old(Lasts(3)) ==> alive && budget >= old(budget) - 3
    {
      hide Within, Final, Whole;
      Create(Skills);
      MarkNew(SkillsStatus, Skills);
      Create(SkillOutcomes);
    }

    method ApplyV4()
      requires Valid() && (alive ==> version < 4 && Version2() <= items && Version3() <= items)
      modifies this
      ensures Valid() && (alive ==> old(alive) && View() == Db(old(items) + Version4(), 4))
      ensures old(Lasts(8)) ==> alive && budget >= old(budget) - 8
    {
      InFinal();
      hide Within, Final, Version2, Version3, Version5, Whole;
      CreateSkills();
      hide SkillTables;
      Create(LearnedRules);
      MarkNew(LearnedRulesStatus, LearnedRules);
      Create(AllowlistProposals);
      MarkNew(UniqueAllowlistProposal, AllowlistProposals);
      assert alive ==> items == old(items) + Version4();
      Stamp(4);
    }

    /** The backfilling updates change rows, not the schema. */
    method AddDecay(t: Table)
      requires Valid() && Columns(t, DecayColumns()) <= Final() && (alive ==> HasTable(t) in items)
      modifies this`items, this`alive, this`budget
      ensures Valid() && (alive ==> old(alive) && items == old(items) + Columns(t, DecayColumns()))
      ensures old(Lasts(2)) ==> alive && budget >= old(budget) - 2
    {
      hide Within, Final;
      var noScore, noAccess := HasColumn(t, DecayScore) !in items, HasColumn(t, LastAccessedAt) !in items;
      Add(t, DecayScore, noScore);
      Add(t, LastAccessedAt, noAccess);
    }

    method ApplyV5()
      requires Valid() && (alive ==> version < 5 && Version2() <= items && Version3() <= items && Version4() <= items)
      modifies this
      ensures Valid() && (alive ==> old(alive) && View() == Db(old(items) + Version5(), 5))
      ensures old(Lasts(7)) ==> alive && budget >= old(budget) - 7
    {
      InFinal();
      hide Within, Final, Version2, Created, LaterColumns, Columns, DecayColumns;
      AddDecay(Episodes);
      AddDecay(Reflections);
      AddDecay(Skills);
      assert alive ==> items == old(items) + Version5();
      hide Version3, Version4, Version5;
      Stamp(5);
    }

    /** `_init_db`: wherever it stops, nothing is lost and nothing is there that does not
        belong; if it gets to the end, the database is the migrated one. */
    method InitDb()
      requires Valid() && alive && View() == from
      modifies this
      ensures Within(from, View())
      ensures alive ==> View() == Migrated(from)
      ensures old(Lasts(35)) ==> alive && budget >= old(budget) - 35
    {
      BaseSchema();
      hide Within, Final, Base, Version2, Version3, Version4, Version5;
      Claims(from, View());
      var userVersion := version;
      if userVersion < 2 {
        ApplyV2();
      }
      if userVersion < 3 {
        ApplyV3();
      }
      if userVersion < 4 {
        ApplyV4();
      }
      if userVersion < 5 {
        ApplyV5();
      }
      if alive {
        Complete(from, View());
      }
    }
  }

  lemma Claims(from: Db, db: Db)
    requires Within(from, db)
    ensures db.version <= 5
    ensures (db.version >= 2 ==> Version2() <= db.items) && (db.version >= 3 ==> Version3() <= db.items)
    ensures (db.version >= 4 ==> Version4() <= db.items) && (db.version >= 5 ==> Version5() <= db.items)
  {
    hide Base, Version2, Version3, Version4, Version5, Final;
  }

  lemma Complete(from: Db, db: Db)
    requires Within(from, db) && db.version == 5
    requires Base() <= db.items && Version2() <= db.items && Version3() <= db.items
    requires Version4() <= db.items && Version5() <= db.items
    ensures db == Migrated(from)
  {
    hide Base, Version2, Version3, Version4, Version5, Created, LaterColumns;
  }

  lemma SplitRuns()
    ensures Columns(Runs, Created(Runs)) ==
            Columns(Runs, Created(Runs) - LaterColumns()) + Columns(Runs, LaterColumns())
    ensures Columns(Runs, Created(Runs) - LaterColumns()) <= Whole(Runs) && Columns(Runs, LaterColumns()) <= Whole(Runs)
  {}

  lemma IndexColumns(i: Index)
    ensures var t := IndexOn(i).0; Columns(t, IndexOn(i).1) <= Columns(t, Created(t) - LaterColumns())
  {}

  lemma InFinal()
    ensures Base() <= Final() && Version2() <= Final() && Version3() <= Final()
    ensures Version4() <= Final() && Version5() <= Final()
  {
    hide Base, Version2, Version3, Version4, Version5;
  }

  // --- any number of opens -----------------------------------------------------------------------

  function LevelOf(v: nat): set<Item> {
    match v
    case 2 => Version2()
    case 3 => Version3()
    case 4 => Version4()
    case 5 => Version5()
    case _ => {}
  }

  /** What a release at version `v` left; one before the first migration may lack the later
      columns of `runs`. */
  function Released(v: nat, older: bool): set<Item> {
    if v <= 1 then (if older then Base() - Columns(Runs, LaterColumns()) else Base())
    else Released(v - 1, older) + LevelOf(v)
  }

  lemma ClosedParts(a: set<Item>, b: set<Item>)
    requires Closed(a) && Closed(b)
    ensures Closed(a + b)
  {
    hide Created, Columns;
  }

  lemma ClosedWhole(t: Table)
    ensures Closed(Whole(t))
  {
    hide Created;
  }

  lemma ClosedNoTable(a: set<Item>)
    requires forall t :: HasTable(t) !in a
    ensures Closed(a)
  {}

  lemma ClosedAdd(a: set<Item>, t: Table)
    requires Closed(a)
    ensures Closed(a + Whole(t))
  {
    ClosedWhole(t);
    ClosedParts(a, Whole(t));
  }

  lemma ClosedMark(a: set<Item>, i: Index)
    requires Closed(a)
    ensures Closed(a + {HasIndex(i)})
  {
    ClosedNoTable({HasIndex(i)});
    ClosedParts(a, {HasIndex(i)});
  }

  lemma ClosedExtend(a: set<Item>, t: Table, cs: set<Column>)
    requires Closed(a)
    ensures Closed(a + Columns(t, cs))
  {
    ClosedNoTable(Columns(t, cs));
    ClosedParts(a, Columns(t, cs));
  }

  lemma ClosedBase()
    ensures Closed(Base())
  {
    ClosedWhole(Runs);
    hide Closed, Whole;
    ClosedAdd(Whole(Runs), RunEvents);
    ClosedMark(Whole(Runs) + Whole(RunEvents), RunsStarted);
  }

  lemma ClosedV2()
    ensures Closed(Version2())
  {
    ClosedNoTable(Columns(Runs, MetricColumns()));
    hide Closed, Whole, Columns, MetricColumns;
    var a := Columns(Runs, MetricColumns());
    ClosedAdd(a, RunOutcomes);
    a := a + Whole(RunOutcomes);
    ClosedAdd(a, Feedback);
    a := a + Whole(Feedback);
    ClosedMark(a, FeedbackRun);
    a := a + {HasIndex(FeedbackRun)};
    ClosedAdd(a, ActionOutcomes);
    ClosedMark(a + Whole(ActionOutcomes), ActionOutcomesKind);
  }

  lemma ClosedV3()
    ensures Closed(Version3())
  {
    ClosedWhole(Episodes);
    hide Closed, Whole;
    var a := Whole(Episodes);
    ClosedMark(a, EpisodesOutcome);
    ClosedMark(a + {HasIndex(EpisodesOutcome)}, EpisodesContext);
    a := a + {HasIndex(EpisodesOutcome)} + {HasIndex(EpisodesContext)};
    ClosedAdd(a, Reflections);
    ClosedMark(a + Whole(Reflections), ReflectionsRun);
    assert Version3() == a + Whole(Reflections) + {HasIndex(ReflectionsRun)};
  }

  lemma ClosedV4()
    ensures Closed(Version4())
  {
    ClosedWhole(Skills);
    hide Closed, Whole;
    var a := Whole(Skills);
    ClosedMark(a, SkillsStatus);
    ClosedAdd(a + {HasIndex(SkillsStatus)}, SkillOutcomes);
    a := SkillTables();
    ClosedAdd(a, LearnedRules);
    a := a + Whole(LearnedRules);
    ClosedMark(a, LearnedRulesStatus);
    a := a + {HasIndex(LearnedRulesStatus)};
    ClosedAdd(a, AllowlistProposals);
    ClosedMark(a + Whole(AllowlistProposals), UniqueAllowlistProposal);
  }

  lemma ClosedV5()
    ensures Closed(Version5())
  {
    ClosedNoTable(Columns(Episodes, DecayColumns()));
    hide Closed, Columns, DecayColumns;
    ClosedExtend(Columns(Episodes, DecayColumns()), Reflections, DecayColumns());
    ClosedExtend(Columns(Episodes, DecayColumns()) + Columns(Reflections, DecayColumns()), Skills, DecayColumns());
  }

  lemma BaseCore()
    ensures Columns(Runs, Created(Runs) - LaterColumns()) <= Base() - Columns(Runs, LaterColumns())
  {
    SplitRuns();
  }

  lemma ClosedWithout(a: set<Item>, cs: set<Column>)
    requires Closed(a)
    ensures Closed(a - Columns(Runs, cs))
  {
    hide Created;
  }

  lemma ClosedLevel(v: nat)
    ensures Closed(LevelOf(v)) && HasTable(Runs) !in LevelOf(v)
  {
    hide Closed, Version2, Version3, Version4, Version5;
    ClosedV2();
    ClosedV3();
    ClosedV4();
    ClosedV5();
    ClosedNoTable({});
    RunsIsBase();
  }

  lemma RunsIsBase()
    ensures HasTable(Runs) !in Version2() && HasTable(Runs) !in Version3()
    ensures HasTable(Runs) !in Version4() && HasTable(Runs) !in Version5()
  {
    hide *;
    OnlyOwnTable();
    TablesOfLevels();
  }

  lemma OnlyOwnTable()
    ensures forall t, u :: HasTable(u) in Whole(t) <==> u == t
    ensures forall t, cs, u :: HasTable(u) !in Columns(t, cs)
  {
    hide Created;
  }

  lemma TablesOfLevels()
    requires forall t, u :: HasTable(u) in Whole(t) <==> u == t
    requires forall t, cs, u :: HasTable(u) !in Columns(t, cs)
    ensures HasTable(Runs) !in Version2() && HasTable(Runs) !in Version3()
    ensures HasTable(Runs) !in Version4() && HasTable(Runs) !in Version5()
  {
    hide Whole, Columns, DecayColumns, MetricColumns;
  }

  lemma OldestInv(v: nat, older: bool)
    requires v <= 1
    ensures Inv(Db(Released(v, older), v))
  {
    hide Version2, Version3, Version4, Version5, Base, LaterColumns, Created, Columns, Closed;
    ClosedBase();
    ClosedWithout(Base(), LaterColumns());
    BaseCore();
  }

  /** Every release's database is one the theorems below start from. */
  lemma {:induction false} ReleasedInv(v: nat, older: bool)
    requires v <= 5
    ensures Inv(Db(Released(v, older), v))
  {
    hide *;
    if v <= 1 {
      OldestInv(v, older);
    } else {
      ReleasedInv(v - 1, older);
      ClosedLevel(v);
      LevelInv(Released(v - 1, older), v);
      ReleasedNext(v, older);
    }
  }

  lemma ReleasedNext(v: nat, older: bool)
    requires v >= 2
    ensures Released(v, older) == Released(v - 1, older) + LevelOf(v)
  {}

  lemma LevelInv(a: set<Item>, v: nat)
    requires 2 <= v <= 5 && Inv(Db(a, v - 1)) && Closed(LevelOf(v)) && HasTable(Runs) !in LevelOf(v)
    ensures Inv(Db(a + LevelOf(v), v))
  {
    hide Version2, Version3, Version4, Version5, LaterColumns, Created, Columns, Closed;
    ClosedParts(a, LevelOf(v));
  }

  /** Nothing a release left is foreign to the final schema, so all of them end in the same
      database, exactly the final schema at version 5. */
  lemma {:induction false} ReleasesConverge(v: nat, older: bool)
    requires v <= 5
    ensures Released(v, older) <= Final() && Migrated(Db(Released(v, older), v)) == Db(Final(), 5)
  {
    InFinal();
    hide Base, Version2, Version3, Version4, Version5, Final, Columns, LaterColumns;
    if v >= 2 {
      ReleasesConverge(v - 1, older);
    }
  }

  /** Where opens have stopped so far does not matter: the next complete one ends in the same
      database as a single complete open at the start would have, and nothing is lost. */
  lemma {:induction false} StopsDoNotMatter(dbs: seq<Db>)
    requires dbs != [] && Inv(dbs[0]) && forall i :: 0 < i < |dbs| ==> Within(dbs[i - 1], dbs[i])
    ensures var last := dbs[|dbs| - 1];
            Within(dbs[0], last) && Migrated(last) == Migrated(dbs[0]) && dbs[0].items <= Migrated(last).items
  {
    hide Final, Inv;
    if |dbs| > 1 {
      StopsDoNotMatter(dbs[..|dbs| - 1]);
      assert Within(dbs[|dbs| - 2], dbs[|dbs| - 1]);
    } else {
      WithinSelf(dbs[0]);
    }
  }

  lemma WithinSelf(db: Db)
    requires Inv(db)
    ensures Within(db, db)
  {}

  /** Opening a migrated database, completely or not, changes nothing. */
  lemma MigratedIsFinal(db: Db, again: Db)
    requires Inv(db) && Within(Migrated(db), again)
    ensures again == Migrated(db)
  {
    hide Final;
  }

  /** Opens the database over and over, dying where each budget says, until one gets through. */
  method Reopen(db: Db, budgets: seq<nat>) returns (now: Db, done: bool)
    requires Inv(db)
    ensures Within(db, now)
    ensures done ==> now == Migrated(db)
    ensures (exists i :: 0 <= i < |budgets| && budgets[i] >= 35) ==> done
  {
    hide Final, Base, Version2, Version3, Version4, Version5;
    WithinSelf(db);
    now, done := db, false;
    for i := 0 to |budgets|
      invariant Within(db, now) && !done
      invariant forall j :: 0 <= j < i ==> budgets[j] < 35
    {
      var c := new Connection(now, budgets[i]);
      c.InitDb();
      StopsDoNotMatter([db, now, c.View()]);
      now := c.View();
      if c.alive {
        return now, true;
      }
    }
  }

  // --- what the schema is for ------------------------------------------------------------------------

  /** The columns the store's statements name, table by table (src/agent/daemon/store.py:230-535,
      627-668, 787-812, 836-1038). */
  function Named(t: Table): set<Column> {
    match t
    case Runs =>
      {RunId, Kind, Task, Brain, Status, StartedAt, EndedAt, ErrorText, Iterations, ActionCount, DurationS}
    case RunEvents => {RunId, Seq, Ts, Kind, PayloadJson}
    case RunOutcomes => {RunId, Outcome, Score, Source, Rationale, DecidedAt}
    case Feedback => {RunId, Kind, Comment, CreatedAt}
    case ActionOutcomes => {}
    case Episodes =>
      {RunId, Task, TaskNormalized, Outcome, Summary, ContextClass, ActionsJson, CreatedAt, LastAccessedAt, DecayScore}
    case Reflections => {RunId, Polarity, TextColumn, GeneratedBy, CreatedAt, LastAccessedAt, DecayScore}
    case Skills =>
      {SkillId, Name, Description, ActionsJson, SourceRunId, CreatedAt, Status, LastAccessedAt, DecayScore}
    case SkillOutcomes => {SkillId, RunId, Outcome, Ts}
    case LearnedRules => {RuleId, Yaml, Confidence, SourceRuns, HitCount, Status, ProposedAt, DecidedAt}
    case AllowlistProposals => {ProposalId, AppClass, TitlePat, HitCount, LastSeen, Status}
    case OtherTable(_) => {}
  }

  function Added(t: Table): set<Column> {
    match t
    case Runs => MetricColumns()
    case Episodes => DecayColumns()
    case Reflections => DecayColumns()
    case Skills => DecayColumns()
    case _ => {}
  }

  lemma NamedCovered(t: Table)
    ensures Named(t) <= Created(t) + Added(t)
  {}

  lemma WholeInFinal(t: Table)
    requires !t.OtherTable?
    ensures Whole(t) <= Final()
  {
    hide Whole, Columns, MetricColumns, DecayColumns;
  }

  lemma AddedInFinal(t: Table)
    ensures Columns(t, Added(t)) <= Final()
  {
    hide Whole, Created, MetricColumns, DecayColumns;
    if t == Runs || t == Episodes || t == Reflections || t == Skills {
      hide Columns;
    } else {
      assert Columns(t, {}) == {};
    }
  }

  lemma ColumnsSplit(t: Table, a: set<Column>, b: set<Column>, c: set<Column>)
    requires a <= b + c
    ensures Columns(t, a) <= Columns(t, b) + Columns(t, c)
  {}

  lemma AllIndexes()
    ensures forall i: Index :: !i.OtherIndex? ==> HasIndex(i) in Final()
  {
    hide Whole, Columns;
  }

  /** Main result: in a migrated database every table and column that a statement of the store
      names is there, and so is every index, the unique one the proposals' upsert relies on
      included. */
  lemma StatementsFit(db: Db, t: Table)
    requires !t.OtherTable?
    ensures HasTable(t) in Migrated(db).items && Columns(t, Named(t)) <= Migrated(db).items
    ensures forall i: Index :: !i.OtherIndex? ==> HasIndex(i) in Migrated(db).items
  {
    NamedCovered(t);
    WholeInFinal(t);
    AddedInFinal(t);
    ColumnsSplit(t, Named(t), Created(t), Added(t));
    AllIndexes();
    hide Named, Created, Added, Columns, Base, Version2, Version3, Version4, Version5;
  }
}
