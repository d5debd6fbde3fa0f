/** The process-tree search that refuses keyboard input into a control terminal
    (src/agent/orchestrator.py, `_process_tree_contains`). The rows read from `/proc`
    are a parameter; pids may repeat and parent links may form cycles. */
module ProcessTree {

  datatype Proc = Proc(pid: int, ppid: int, details: string)

  // --- what the two maps mean --------------------------------------------------

  /** The children of `p`, in the order their rows were read. */
  function ChildrenOf(procs: seq<Proc>, p: int): seq<int> {
    if procs == [] then []
    else
      var last := procs[|procs| - 1];
      var rest := ChildrenOf(procs[..|procs| - 1], p);
      if last.ppid == p then rest + [last.pid] else rest
  }

  /** The details of `p`: those of its last row, or nothing when it has none. */
  function DetailsOf(procs: seq<Proc>, p: int): string {
    if procs == [] then ""
    else
      var last := procs[|procs| - 1];
      if last.pid == p then last.details else DetailsOf(procs[..|procs| - 1], p)
  }

  function Kids(children: map<int, seq<int>>, p: int): seq<int> {
    if p in children then children[p] else []
  }

  function Text(candidates: map<int, string>, p: int): string {
    if p in candidates then candidates[p] else ""
  }

  method BuildMaps(procs: seq<Proc>) returns (children: map<int, seq<int>>, candidates: map<int, string>)
    ensures forall p :: Kids(children, p) == ChildrenOf(procs, p)
    ensures forall p :: Text(candidates, p) == DetailsOf(procs, p)
  {
    children, candidates := map[], map[];
    for i := 0 to |procs|
      invariant forall p :: Kids(children, p) == ChildrenOf(procs[..i], p)
      invariant forall p :: Text(candidates, p) == DetailsOf(procs[..i], p)
    {
      var row := procs[i];
      children := children[row.ppid := Kids(children, row.ppid) + [row.pid]];
      candidates := candidates[row.pid := row.details];
      assert procs[..i + 1][..i] == procs[..i];
    }
    assert procs[..|procs|] == procs;
  }

  // --- markers -------------------------------------------------------------------

  predicate Occurs(marker: string, details: string) {
    exists i :: 0 <= i <= |details| - |marker| && OccursAt(marker, details, i)
  }

  predicate OccursAt(marker: string, details: string, i: nat) {
    i + |marker| <= |details| && details[i..i + |marker|] == marker
  }

  predicate Hit(candidates: map<int, string>, markers: set<string>, p: int) {
    exists marker :: marker in markers && Occurs(marker, Text(candidates, p))
  }

  // --- reachability ----------------------------------------------------------------

  ghost predicate IsPath(children: map<int, seq<int>>, path: seq<int>) {
    |path| > 0 && forall i :: 0 < i < |path| ==> path[i] in Kids(children, path[i - 1])
  }

  ghost predicate Reachable(children: map<int, seq<int>>, start: int, p: int) {
    exists path :: IsPath(children, path) && path[0] == start && path[|path| - 1] == p
  }

  lemma ReachableSelf(children: map<int, seq<int>>, start: int)
    ensures Reachable(children, start, start)
  {
    assert IsPath(children, [start]);
  }

  lemma ReachableChild(children: map<int, seq<int>>, start: int, p: int, kid: int)
    requires Reachable(children, start, p) && kid in Kids(children, p)
    ensures Reachable(children, start, kid)
  {
    var path :| IsPath(children, path) && path[0] == start && path[|path| - 1] == p;
    assert IsPath(children, path + [kid]);
  }

  /** Nothing outside a set closed under children is reachable from inside it. */
  lemma {:induction false} ClosedHoldsPath(children: map<int, seq<int>>, closed: set<int>, path: seq<int>)
    requires IsPath(children, path) && path[0] in closed
    requires forall p, kid :: p in closed && kid in Kids(children, p) ==> kid in closed
    ensures path[|path| - 1] in closed
  {
    if |path| > 1 {
      var shorter := path[..|path| - 1];
      ClosedHoldsPath(children, closed, shorter);
      assert path[|path| - 1] in Kids(children, shorter[|shorter| - 1]);
    }
  }

  function Everyone(children: map<int, seq<int>>, start: int): set<int> {
    {start} + set p, kid | p in children && kid in children[p] :: kid
  }

  // --- the search --------------------------------------------------------------------

  /** Main result: the loop ends on every finite map, cycles and duplicates included, and
      answers whether some reachable pid carries a marker. */
  method Search(children: map<int, seq<int>>, candidates: map<int, string>, start: int, markers: set<string>)
    returns (found: bool)
    ensures found <==> exists p :: Reachable(children, start, p) && Hit(candidates, markers, p)
  {
    var stack := [start];
    var seen: set<int> := {};
    ReachableSelf(children, start);
    while stack != []
      invariant forall i :: 0 <= i < |stack| ==> Reachable(children, start, stack[i])
      invariant forall i :: 0 <= i < |stack| ==> stack[i] in Everyone(children, start)
      invariant forall p :: p in seen ==> !Hit(candidates, markers, p)
      invariant forall p, kid :: p in seen && kid in Kids(children, p) ==> kid in seen || kid in stack
      invariant start in seen || start in stack
      decreases Everyone(children, start) - seen, |stack|
    {
      var current := stack[|stack| - 1];
      ghost var below := stack[..|stack| - 1];
      assert stack == below + [current];
      stack := stack[..|stack| - 1];
      if current !in seen {
        seen := seen + {current};
        if Hit(candidates, markers, current) {
          return true;
        }
        forall kid | kid in Kids(children, current)
          ensures Reachable(children, start, kid) && kid in Everyone(children, start)
        {
          ReachableChild(children, start, current, kid);
        }
        stack := stack + Kids(children, current);
      }
    }
    forall p | Reachable(children, start, p)
      ensures !Hit(candidates, markers, p)
    {
      var path :| IsPath(children, path) && path[0] == start && path[|path| - 1] == p;
      ClosedHoldsPath(children, seen, path);
    }
    return false;
  }

  /** A chain of rows, each a child of the one before. */
  ghost predicate Descends(procs: seq<Proc>, chain: seq<int>) {
    |chain| > 0 && forall i :: 0 < i < |chain| ==> Proc?(procs, chain[i], chain[i - 1])
  }

  ghost predicate Proc?(procs: seq<Proc>, pid: int, ppid: int) {
    exists row :: row in procs && row.pid == pid && row.ppid == ppid
  }

  lemma {:induction false} ChildrenAreRows(procs: seq<Proc>, p: int, kid: int)
    ensures kid in ChildrenOf(procs, p) <==> Proc?(procs, kid, p)
  {
    if procs != [] {
      var rest, last := procs[..|procs| - 1], procs[|procs| - 1];
      ChildrenAreRows(rest, p, kid);
      assert procs == rest + [last];
    }
  }

  /** The last row of `p` that was read is row `k`. */
  ghost predicate LastRow(procs: seq<Proc>, p: int, k: nat) {
    k < |procs| && procs[k].pid == p && forall j :: k < j < |procs| ==> procs[j].pid != p
  }

  /** The marker occurs in the last row of `p`; a process without a row shows nothing. */
  ghost predicate Shows(procs: seq<Proc>, p: int, marker: string) {
    if exists row :: row in procs && row.pid == p
    then exists k: nat :: LastRow(procs, p, k) && Occurs(marker, procs[k].details)
    else marker == ""
  }

  lemma {:induction false} DetailsAreLastRow(procs: seq<Proc>, p: int, k: nat)
    requires LastRow(procs, p, k)
    ensures DetailsOf(procs, p) == procs[k].details
  {
    var n := |procs| - 1;
    if k < n {
      assert procs[n].pid != p;
      DetailsAreLastRow(procs[..n], p, k);
    }
  }

  lemma {:induction false} LastRowOrNone(procs: seq<Proc>, p: int) returns (k: nat)
    ensures (exists row :: row in procs && row.pid == p) ==> LastRow(procs, p, k)
    ensures (forall row :: row in procs ==> row.pid != p) ==> DetailsOf(procs, p) == ""
  {
    k := 0;
    if procs != [] {
      var n := |procs| - 1;
      assert procs == procs[..n] + [procs[n]];
      if procs[n].pid == p {
        k := n;
      } else {
        k := LastRowOrNone(procs[..n], p);
      }
    }
  }

  lemma OccursInNothing(marker: string)
    ensures Occurs(marker, "") <==> marker == ""
  {
    if marker == "" {
      assert OccursAt(marker, "", 0);
    }
  }

  lemma ShowsIff(procs: seq<Proc>, p: int, marker: string)
    ensures Occurs(marker, DetailsOf(procs, p)) <==> Shows(procs, p, marker)
  {
    var k := LastRowOrNone(procs, p);
    if exists row :: row in procs && row.pid == p {
      DetailsAreLastRow(procs, p, k);
      forall j: nat | LastRow(procs, p, j)
        ensures j == k
      {}
    } else {
      OccursInNothing(marker);
    }
  }

  /** Some process below `pid`, or `pid` itself, carries a marker. */
  ghost predicate TreeContains(procs: seq<Proc>, pid: int, markers: set<string>) {
    exists chain, marker ::
      && Descends(procs, chain) && chain[0] == pid
      && marker in markers && Shows(procs, chain[|chain| - 1], marker)
  }

  lemma PathsAreChains(procs: seq<Proc>, children: map<int, seq<int>>, path: seq<int>)
    requires forall p :: Kids(children, p) == ChildrenOf(procs, p)
    ensures IsPath(children, path) <==> Descends(procs, path)
  {
    forall i | 0 < i < |path|
      ensures path[i] in Kids(children, path[i - 1]) <==> Proc?(procs, path[i], path[i - 1])
    {
      ChildrenAreRows(procs, path[i - 1], path[i]);
    }
  }

  lemma HitMeansContains(procs: seq<Proc>, children: map<int, seq<int>>, candidates: map<int, string>,
                         pid: int, markers: set<string>)
    requires forall p :: Kids(children, p) == ChildrenOf(procs, p)
    requires forall p :: Text(candidates, p) == DetailsOf(procs, p)
    ensures (exists p :: Reachable(children, pid, p) && Hit(candidates, markers, p)) <==>
            TreeContains(procs, pid, markers)
  {
    if p :| Reachable(children, pid, p) && Hit(candidates, markers, p) {
      var path :| IsPath(children, path) && path[0] == pid && path[|path| - 1] == p;
      var marker :| marker in markers && Occurs(marker, Text(candidates, p));
      PathsAreChains(procs, children, path);
      ShowsIff(procs, p, marker);
      assert Descends(procs, path) && Shows(procs, path[|path| - 1], marker);
    }
    if TreeContains(procs, pid, markers) {
      var chain, marker :|
        && Descends(procs, chain) && chain[0] == pid
        && marker in markers && Shows(procs, chain[|chain| - 1], marker);
      ShowsIff(procs, chain[|chain| - 1], marker);
      PathsAreChains(procs, children, chain);
      assert Reachable(children, pid, chain[|chain| - 1]) && Hit(candidates, markers, chain[|chain| - 1]);
    }
  }

  /** The whole function: true exactly when a chain of parent links from `pid` ends in a
      process whose last row contains a marker. */
  method ProcessTreeContains(procs: seq<Proc>, pid: int, markers: set<string>) returns (found: bool)
    ensures found <==> TreeContains(procs, pid, markers)
  {
    var children, candidates := BuildMaps(procs);
    found := Search(children, candidates, pid, markers);
    HitMeansContains(procs, children, candidates, pid, markers);
  }
}
