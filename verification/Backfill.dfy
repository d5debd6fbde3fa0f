/** The rows behind the version 5 migration (src/agent/daemon/store.py:727-755). The first
    backfilling UPDATE opens a transaction that only the last statement commits, while the
    ALTER TABLE before it commits at once; `last_accessed_at` is backfilled only by the open
    that adds the column. */
module Backfill {

  /** A table's `last_accessed_at`: no such column, a column whose old rows are still empty, or
      one that was backfilled. */
  datatype Access = Missing | Blank | Filled

  datatype Tab = Tab(hasScore: bool, access: Access)

  /** Episodes, reflections and skills, in this order. */
  datatype Disk = Disk(tabs: seq<Tab>, version: nat)

  predicate Valid(d: Disk) {
    |d.tabs| == 3
  }

  datatype Statement = AddScore(t: nat) | AddAccess(t: nat) | Fill(t: nat) | Stamp | Commit | Skip

  /** What is on disk, what the connection sees, and whether a transaction is open. */
  datatype Conn = Conn(durable: Disk, view: Disk, open: bool)

  function WithTab(d: Disk, t: nat, tab: Tab): Disk
    requires t < |d.tabs|
  {
    d.(tabs := d.tabs[t := tab])
  }

  /** Outside a transaction a schema change is durable at once. */
  function Alter(c: Conn, view: Disk): Conn {
    if c.open then c.(view := view) else Conn(view, view, false)
  }

  function Exec(c: Conn, s: Statement): (r: Conn)
    requires Valid(c.view) && Valid(c.durable)
    ensures Valid(r.view) && Valid(r.durable)
  {
    match s
    case AddScore(t) =>
      if t < 3 then Alter(c, WithTab(c.view, t, c.view.tabs[t].(hasScore := true))) else c
    case AddAccess(t) =>
      if t < 3 then Alter(c, WithTab(c.view, t, c.view.tabs[t].(access := Blank))) else c
    case Fill(t) =>
      if t < 3 then c.(view := WithTab(c.view, t, c.view.tabs[t].(access := Filled)), open := true) else c
    case Stamp => Alter(c, c.view.(version := 5))
    case Commit => Conn(c.view, c.view, false)
    case Skip => c
  }

  const LENGTH: nat := 11

  /** The migration's statements in order, those skipped that the columns found make
      unnecessary: for each table the score column, the access column and its backfill, then
      the version and the commit. */
  function StatementAt(d: Disk, k: nat): Statement
    requires Valid(d)
  {
    if k == 9 then Stamp
    else if k >= 10 then Commit
    else
      var t := k / 3;
      if k % 3 == 0 then (if d.tabs[t].hasScore then Skip else AddScore(t))
      else if !d.tabs[t].access.Missing? then Skip
      else if k % 3 == 1 then AddAccess(t)
      else Fill(t)
  }

  function After(d: Disk, k: nat): (c: Conn)
    requires Valid(d)
    ensures Valid(c.view) && Valid(c.durable)
  {
    if k == 0 then Conn(d, d, false) else Exec(After(d, k - 1), StatementAt(d, k - 1))
  }

  /** What one open leaves on disk: it dies after `n` statements, or gets through. */
  function Opened(d: Disk, n: nat): (r: Disk)
    requires Valid(d)
    ensures Valid(r)
  {
    if d.version >= 5 then d else After(d, if n < LENGTH then n else LENGTH).durable
  }

  // --- one open -------------------------------------------------------------------------------

  /** The access column of table `t` as the connection sees it after `k` statements. */
  function Seen(d: Disk, t: nat, k: nat): Access
    requires Valid(d) && t < 3
  {
    if !d.tabs[t].access.Missing? || k <= 3 * t + 1 then d.tabs[t].access
    else if k == 3 * t + 2 then Blank
    else Filled
  }

  /** The access column of table `t` after one statement. */
  function Moved(s: Statement, t: nat, was: Access): Access {
    if s == AddAccess(t) then Blank else if s == Fill(t) then Filled else was
  }

  lemma ExecSees(c: Conn, s: Statement, t: nat)
    requires Valid(c.view) && Valid(c.durable) && t < 3
    ensures Exec(c, s).view.tabs[t].access == Moved(s, t, c.view.tabs[t].access)
  {}

  lemma SeenNext(d: Disk, t: nat, k: nat)
    requires Valid(d) && t < 3
    ensures Seen(d, t, k + 1) == Moved(StatementAt(d, k), t, Seen(d, t, k))
  {}

  lemma {:induction false} AfterSees(d: Disk, t: nat, k: nat)
    requires Valid(d) && t < 3
    ensures After(d, k).view.tabs[t].access == Seen(d, t, k)
  {
    hide Exec, StatementAt, Moved;
    if k > 0 {
      AfterSees(d, t, k - 1);
      hide Seen;
      ExecSees(After(d, k - 1), StatementAt(d, k - 1), t);
      SeenNext(d, t, k - 1);
    }
  }

  /** The first table without the column. */
  predicate FirstMissing(d: Disk, f: nat)
    requires Valid(d)
  {
    f < 3 && d.tabs[f].access.Missing? && forall t :: 0 <= t < f ==> !d.tabs[t].access.Missing?
  }

  lemma ExecOpen(c: Conn, s: Statement)
    requires Valid(c.view) && Valid(c.durable) && !s.Commit? && (s.Fill? ==> s.t < 3)
    ensures Exec(c, s).open <==> c.open || s.Fill?
    ensures c.open || s.Fill? ==> Exec(c, s).durable == c.durable
    ensures !c.open && !s.Fill? && c.durable == c.view ==> Exec(c, s).durable == Exec(c, s).view
    ensures !s.Stamp? ==> Exec(c, s).view.version == c.view.version
  {}

  lemma StatementKinds(d: Disk, f: nat, k: nat)
    requires Valid(d) && FirstMissing(d, f) && k < LENGTH - 1
    ensures var s := StatementAt(d, k);
            && !s.Commit? && (s.Fill? ==> s.t < 3) && (k < 3 * f + 2 ==> !s.Fill?)
            && (k == 3 * f + 2 ==> s == Fill(f)) && (k < 9 ==> !s.Stamp?)
  {}

  lemma AfterNothing(d: Disk)
    requires Valid(d)
    ensures After(d, 0) == Conn(d, d, false)
  {}

  lemma AfterNext(d: Disk, k: nat)
    requires Valid(d)
    ensures After(d, k + 1) == Exec(After(d, k), StatementAt(d, k))
  {}

  /** Before the first backfill everything is durable at once; from then on nothing is, and the
      disk stays as it was. */
  ghost predicate OpenHolds(c: Conn, f: nat, k: nat, frozen: Disk, version: nat) {
    && (c.open <==> k >= 3 * f + 3)
    && (!c.open ==> c.durable == c.view && c.view.version == version)
    && (c.open ==> c.durable == frozen)
  }

  lemma OpenStep(d: Disk, c: Conn, f: nat, k: nat, frozen: Disk)
    requires Valid(d) && FirstMissing(d, f) && k < LENGTH - 1 && Valid(c.view) && Valid(c.durable)
    requires OpenHolds(c, f, k, frozen, d.version) && (k == 3 * f + 2 ==> c.durable == frozen)
    ensures OpenHolds(Exec(c, StatementAt(d, k)), f, k + 1, frozen, d.version)
  {
    StatementKinds(d, f, k);
    assert f < 3;
    hide Exec, StatementAt, FirstMissing;
    ExecOpen(c, StatementAt(d, k));
  }

  lemma {:induction false} OpenIff(d: Disk, f: nat, k: nat)
    requires Valid(d) && FirstMissing(d, f) && k < LENGTH
    ensures OpenHolds(After(d, k), f, k, After(d, 3 * f + 2).durable, d.version)
  {
    hide Exec, StatementAt, FirstMissing;
    if k == 0 {
      AfterNothing(d);
      hide After;
    } else {
      OpenIff(d, f, k - 1);
      AfterNext(d, k - 1);
      hide After, OpenHolds;
      OpenStep(d, After(d, k - 1), f, k - 1, After(d, 3 * f + 2).durable);
    }
  }

  /** Main result: an open that dies before its commit leaves every table's rows as they were,
      except that the first table without the column, once it has been added, has it empty. */
  lemma StoppedAccess(d: Disk, f: nat, n: nat, t: nat)
    requires Valid(d) && FirstMissing(d, f) && d.version < 5 && n < LENGTH && t < 3
    ensures Opened(d, n).tabs[t].access == if t == f && n >= 3 * f + 2 then Blank else d.tabs[t].access
    ensures Opened(d, n).version == d.version
  {
    hide After;
    OpenIff(d, f, n);
    OpenIff(d, f, 3 * f + 2);
    AfterSees(d, t, n);
    AfterSees(d, t, 3 * f + 2);
  }

  /** A complete open backfills every table it finds without the column. */
  lemma CompletedFills(d: Disk, n: nat, t: nat)
    requires Valid(d) && d.version < 5 && n >= LENGTH && t < 3
    ensures Opened(d, n).version == 5
    ensures Opened(d, n).tabs[t].access == if d.tabs[t].access.Missing? then Filled else d.tabs[t].access
  {
    AfterSees(d, t, 10);
    assert After(d, 10) == Exec(After(d, 9), Stamp);
  }

  // --- open after open ----------------------------------------------------------------------------

  lemma ExecSpares(c: Conn, s: Statement, t: nat, x: Access)
    requires Valid(c.view) && Valid(c.durable) && t < 3 && s != AddAccess(t) && s != Fill(t)
    requires c.view.tabs[t].access == x && c.durable.tabs[t].access == x
    ensures Exec(c, s).view.tabs[t].access == x && Exec(c, s).durable.tabs[t].access == x
  {}

  lemma PresentSpared(d: Disk, t: nat, k: nat)
    requires Valid(d) && t < 3 && !d.tabs[t].access.Missing?
    ensures StatementAt(d, k) != AddAccess(t) && StatementAt(d, k) != Fill(t)
  {}

  lemma {:induction false} PresentKept(d: Disk, t: nat, k: nat)
    requires Valid(d) && t < 3 && !d.tabs[t].access.Missing?
    ensures After(d, k).view.tabs[t].access == d.tabs[t].access
    ensures After(d, k).durable.tabs[t].access == d.tabs[t].access
  {
    if k > 0 {
      PresentKept(d, t, k - 1);
      hide StatementAt, Exec;
      PresentSpared(d, t, k - 1);
      ExecSpares(After(d, k - 1), StatementAt(d, k - 1), t, d.tabs[t].access);
    }
  }

  function Reopened(d: Disk, ns: seq<nat>): (r: Disk)
    requires Valid(d)
    ensures Valid(r)
  {
    if ns == [] then d else Opened(Reopened(d, ns[..|ns| - 1]), ns[|ns| - 1])
  }

  /** A column once left empty is never backfilled, whatever opens follow. */
  lemma {:induction false} BlankForGood(d: Disk, ns: seq<nat>, t: nat)
    requires Valid(d) && t < 3 && d.tabs[t].access == Blank
    ensures Reopened(d, ns).tabs[t].access == Blank
  {
    if ns != [] {
      BlankForGood(d, ns[..|ns| - 1], t);
      var before, n := Reopened(d, ns[..|ns| - 1]), ns[|ns| - 1];
      PresentKept(before, t, if n < LENGTH then n else LENGTH);
    }
  }

  /** This open leaves the column of `t` empty: `t` is the first table without it, and the
      process dies after adding it. */
  predicate Loses(d: Disk, n: nat, t: nat)
    requires Valid(d)
  {
    d.version < 5 && FirstMissing(d, t) && 3 * t + 2 <= n < LENGTH
  }

  lemma {:induction false} SomeFirstMissing(d: Disk, t: nat) returns (f: nat)
    requires Valid(d) && t < 3 && d.tabs[t].access.Missing?
    ensures FirstMissing(d, f) && f <= t
  {
    if d.tabs[0].access.Missing? {
      f := 0;
    } else if d.tabs[1].access.Missing? {
      f := 1;
    } else {
      f := 2;
    }
  }

  lemma OpenBlankIff(d: Disk, n: nat, t: nat)
    requires Valid(d) && t < 3
    ensures Opened(d, n).tabs[t].access == Blank <==> d.tabs[t].access == Blank || Loses(d, n, t)
  {
    if d.version < 5 {
      if !d.tabs[t].access.Missing? {
        PresentKept(d, t, if n < LENGTH then n else LENGTH);
      } else if n < LENGTH {
        var f := SomeFirstMissing(d, t);
        StoppedAccess(d, f, n, t);
      } else {
        CompletedFills(d, n, t);
      }
    }
  }

  /** Main result, over any chain of opens: a table that was not empty at the start ends empty if
      and only if one of the opens lost its backfill. */
  lemma {:induction false} BlankIff(d: Disk, ns: seq<nat>, t: nat)
    requires Valid(d) && t < 3 && d.tabs[t].access != Blank
    ensures Reopened(d, ns).tabs[t].access == Blank <==> LostSometime(d, ns, t)
  {
    if ns == [] {
      assert Reopened(d, ns) == d;
    } else {
      var n := |ns| - 1;
      assert Reopened(d, ns) == Opened(Reopened(d, ns[..n]), ns[n]);
      hide Opened, Reopened, Loses, LostSometime;
      BlankIff(d, ns[..n], t);
      OpenBlankIff(Reopened(d, ns[..n]), ns[n], t);
      LostNext(d, ns, t);
    }
  }

  /** The `k`-th open lost the backfill of `t`. */
  predicate LostAt(d: Disk, ns: seq<nat>, t: nat, k: nat)
    requires Valid(d)
  {
    k < |ns| && Loses(Reopened(d, ns[..k]), ns[k], t)
  }

  ghost predicate LostSometime(d: Disk, ns: seq<nat>, t: nat)
    requires Valid(d)
  {
    exists k: nat :: LostAt(d, ns, t, k)
  }

  lemma LostPrefix(d: Disk, ns: seq<nat>, t: nat, k: nat)
    requires Valid(d) && ns != []
    ensures var n := |ns| - 1;
            LostAt(d, ns, t, k) <==> if k == n then Loses(Reopened(d, ns[..n]), ns[n], t) else LostAt(d, ns[..n], t, k)
  {
    hide Reopened, Loses;
    if k < |ns| - 1 {
      assert ns[..|ns| - 1][..k] == ns[..k];
    }
  }

  lemma LostNext(d: Disk, ns: seq<nat>, t: nat)
    requires Valid(d) && ns != []
    ensures var n := |ns| - 1;
            LostSometime(d, ns, t) <==> LostSometime(d, ns[..n], t) || Loses(Reopened(d, ns[..n]), ns[n], t)
  {
    hide Reopened, Loses, LostAt;
    var n := |ns| - 1;
    if Loses(Reopened(d, ns[..n]), ns[n], t) {
      LostPrefix(d, ns, t, n);
    } else if LostSometime(d, ns[..n], t) {
      var k: nat :| LostAt(d, ns[..n], t, k);
      LostWithin(d, ns[..n], t, k);
      LostPrefix(d, ns, t, k);
    } else if LostSometime(d, ns, t) {
      var k: nat :| LostAt(d, ns, t, k);
      LostPrefix(d, ns, t, k);
    }
  }

  lemma LostWithin(d: Disk, ns: seq<nat>, t: nat, k: nat)
    requires Valid(d) && LostAt(d, ns, t, k)
    ensures k < |ns|
  {}

  /** Exactly when an interrupted open costs a table its backfill for good: it was the first
      without the column, and the column was added before the process died. */
  lemma BackfillLostIff(d: Disk, f: nat, n: nat, t: nat)
    requires Valid(d) && FirstMissing(d, f) && d.version < 5 && n < LENGTH
    requires t < 3 && d.tabs[t].access.Missing?
    ensures Opened(Opened(d, n), LENGTH).tabs[t].access == if t == f && n >= 3 * f + 2 then Blank else Filled
  {
    StoppedAccess(d, f, n, t);
    CompletedFills(Opened(d, n), LENGTH, t);
  }
}
