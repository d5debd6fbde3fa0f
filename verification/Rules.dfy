/** Watch rules: the user's file and the file of approved learned rules are merged on load
    (src/agent/daemon/watcher_service.py:39-81), and approving a proposal appends to the
    latter (src/agent/learning/api.py:121-140, 229-240). */
module Rules {
  import opened Sequences

  // the text of the pair (on, match)
  type Key = nat

  // a validated rule
  type Rule = nat

  /** A mapping in a rule list, with the rule it validates to, if it does. */
  datatype Entry = Entry(key: Key, rule: Option<Rule>)

  /** What a document says under `rules`: a list of mappings (or no such key), a list or other
      iterable with something else in it, a null, or nothing usable: the document does not
      parse, is no mapping, or holds a number there. */
  datatype Document = List(entries: seq<Entry>) | Mixed(isList: bool) | Null | Broken

  type File = Option<Document>

  const TEMPLATE := List([])

  // --- deduplication ---------------------------------------------------------------------------

  function Keys(s: seq<Entry>): set<Key> {
    set e | e in s :: e.key
  }

  /** The entries of `s` whose key is not in `taken`. */
  function Unless(s: seq<Entry>, taken: set<Key>): seq<Entry> {
    if s == [] then []
    else Unless(s[..|s| - 1], taken) + if s[|s| - 1].key in taken then [] else [s[|s| - 1]]
  }

  function Firsts(s: seq<Entry>): seq<Entry> {
    if s == [] then []
    else Firsts(s[..|s| - 1]) + Unless([s[|s| - 1]], Keys(s[..|s| - 1]))
  }

  lemma KeysConcat(s: seq<Entry>, t: seq<Entry>)
    ensures Keys(s + t) == Keys(s) + Keys(t)
  {
    assert forall e :: e in s + t <==> e in s || e in t;
  }

  lemma UnlessOne(e: Entry, taken: set<Key>)
    ensures Unless([e], taken) == if e.key in taken then [] else [e]
  {
    assert [e][..0] == [];
  }

  lemma UnlessSnoc(s: seq<Entry>, e: Entry, taken: set<Key>)
    ensures Unless(s + [e], taken) == if e.key in taken then Unless(s, taken) else Unless(s, taken) + [e]
  {
    assert (s + [e])[..|s|] == s;
  }

  lemma FirstsSnoc(s: seq<Entry>, e: Entry)
    ensures Firsts(s + [e]) == if e.key in Keys(s) then Firsts(s) else Firsts(s) + [e]
  {
    assert (s + [e])[..|s|] == s;
    UnlessOne(e, Keys(s));
  }

  /** No earlier entry has the key of entry `i`. */
  ghost predicate FirstAt(s: seq<Entry>, i: nat)
    requires i < |s|
  {
    forall j :: 0 <= j < i ==> s[j].key != s[i].key
  }

  /** An entry that is the first of its key survives. */
  lemma {:induction false} FirstSurvives(s: seq<Entry>, i: nat)
    requires i < |s| && FirstAt(s, i)
    ensures s[i] in Firsts(s)
  {
    var n := |s| - 1;
    assert s == s[..n] + [s[n]];
    FirstsSnoc(s[..n], s[n]);
    if i < n {
      FirstSurvives(s[..n], i);
    } else {
      assert s[n].key !in Keys(s[..n]);
    }
  }

  /** Only such entries survive. */
  lemma {:induction false} SurvivorIsFirst(s: seq<Entry>, e: Entry) returns (i: nat)
    requires e in Firsts(s)
    ensures i < |s| && s[i] == e && FirstAt(s, i)
  {
    var n := |s| - 1;
    assert s == s[..n] + [s[n]];
    FirstsSnoc(s[..n], s[n]);
    if e in Firsts(s[..n]) {
      i := SurvivorIsFirst(s[..n], e);
    } else {
      i := n;
      assert forall j :: 0 <= j < n ==> s[j] in s[..n] && s[j].key in Keys(s[..n]);
    }
  }

  /** The survivors keep their order, and every key has exactly one. */
  lemma {:induction false} FirstsInOrder(s: seq<Entry>)
    ensures Subsequence(Firsts(s), s)
    ensures Keys(Firsts(s)) == Keys(s)
    ensures forall i, j :: 0 <= i < j < |Firsts(s)| ==> Firsts(s)[i].key != Firsts(s)[j].key
  {
    if s != [] {
      var n := |s| - 1;
      FirstsInOrder(s[..n]);
      assert s == s[..n] + [s[n]];
      FirstsSnoc(s[..n], s[n]);
      KeysConcat(s[..n], [s[n]]);
      KeysConcat(Firsts(s[..n]), [s[n]]);
      SubsequenceSnoc(Firsts(s[..n]), s[..n], s[n]);
      SubsequenceSkip(Firsts(s[..n]), s[..n], s[n]);
      hide Firsts, Subsequence, Keys;
      DistinctKeysSnoc(Firsts(s[..n]), s[n]);
    }
  }

  lemma DistinctKeysSnoc(s: seq<Entry>, e: Entry)
    requires forall i, j :: 0 <= i < j < |s| ==> s[i].key != s[j].key
    ensures e.key !in Keys(s) ==> forall i, j :: 0 <= i < j < |s + [e]| ==> (s + [e])[i].key != (s + [e])[j].key
  {
    forall i | 0 <= i < |s|
      ensures s[i].key in Keys(s)
    {
      assert s[i] in s;
    }
  }

  /** Whatever comes first wins: later entries only add keys nobody has yet. */
  lemma {:induction false} FirstsConcat(s: seq<Entry>, t: seq<Entry>)
    ensures Firsts(s + t) == Firsts(s) + Unless(Firsts(t), Keys(s))
  {
    hide Firsts, Unless, Keys;
    if t == [] {
      FirstsConcatNone(s);
      assert s + t == s;
    } else {
      var n := |t| - 1;
      FirstsConcat(s, t[..n]);
      FirstsConcatSnoc(s, t[..n], t[n]);
      assert t == t[..n] + [t[n]];
    }
  }

  lemma FirstsConcatNone(s: seq<Entry>)
    ensures Firsts(s) == Firsts(s) + Unless(Firsts([]), Keys(s))
  {}

  lemma FirstsConcatSnoc(s: seq<Entry>, t: seq<Entry>, e: Entry)
    requires Firsts(s + t) == Firsts(s) + Unless(Firsts(t), Keys(s))
    ensures Firsts(s + (t + [e])) == Firsts(s) + Unless(Firsts(t + [e]), Keys(s))
  {
    hide Firsts, Unless, Keys;
    assert s + (t + [e]) == (s + t) + [e];
    FirstsSnoc(s + t, e);
    FirstsSnoc(t, e);
    KeysConcat(s, t);
    UnlessSnoc(Firsts(t), e, Keys(s));
  }

  lemma {:induction false} UnlessEmptyIff(s: seq<Entry>, taken: set<Key>)
    ensures Unless(s, taken) == [] <==> Keys(s) <= taken
  {
    if s != [] {
      var n := |s| - 1;
      UnlessEmptyIff(s[..n], taken);
      assert s == s[..n] + [s[n]];
      KeysConcat(s[..n], [s[n]]);
      assert Keys([s[n]]) == {s[n].key};
    }
  }

  /** Appending entries changes nothing if and only if all their keys are there already. */
  lemma AppendUnchangedIff(s: seq<Entry>, t: seq<Entry>)
    ensures Firsts(s + t) == Firsts(s) <==> Keys(t) <= Keys(s)
  {
    FirstsConcat(s, t);
    UnlessEmptyIff(Firsts(t), Keys(s));
    FirstsInOrder(t);
  }

  lemma NoEntries()
    ensures Firsts([]) == [] && Keys([]) == {}
  {}

  lemma KeysSnoc(s: seq<Entry>, e: Entry)
    ensures Keys(s + [e]) == Keys(s) + {e.key}
  {
    KeysConcat(s, [e]);
    assert Keys([e]) == {e.key};
  }

  method Dedup(raws: seq<Entry>) returns (deduped: seq<Entry>)
    ensures deduped == Firsts(raws)
  {
    hide Firsts, Keys;
    var seen: set<Key> := {};
    deduped := [];
    NoEntries();
    for i := 0 to |raws|
      invariant deduped == Firsts(raws[..i])
      invariant seen == Keys(raws[..i])
    {
      assert raws[..i + 1] == raws[..i] + [raws[i]];
      FirstsSnoc(raws[..i], raws[i]);
      KeysSnoc(raws[..i], raws[i]);
      if raws[i].key !in seen {
        seen := seen + {raws[i].key};
        deduped := deduped + [raws[i]];
      }
    }
    assert raws[..|raws|] == raws;
  }

  function Validated(s: seq<Entry>): seq<Rule> {
    Pick((e: Entry) => e.rule, s)
  }

  method Validate(deduped: seq<Entry>) returns (rules: seq<Rule>)
    ensures rules == Validated(deduped)
  {
    rules := [];
    for i := 0 to |deduped|
      invariant rules == Validated(deduped[..i])
    {
      assert deduped[..i + 1] == deduped[..i] + [deduped[i]];
      PickSnoc((e: Entry) => e.rule, deduped[..i], deduped[i]);
      if deduped[i].rule.Some? {
        rules := rules + [deduped[i].rule.value];
      }
    }
    assert deduped[..|deduped|] == deduped;
  }

  /** The rules a list of mappings yields: one for each entry that is the first of its key and
      validates, in the order of the entries. */
  ghost predicate Lists(rules: seq<Rule>, s: seq<Entry>) {
    exists ps: seq<nat> :: Positions(ps, rules, s)
  }

  ghost predicate Positions(ps: seq<nat>, rules: seq<Rule>, s: seq<Entry>) {
    && |ps| == |rules|
    && (forall k, l :: 0 <= k < l < |ps| ==> ps[k] < ps[l])
    && (forall k :: 0 <= k < |ps| ==> ps[k] < |s| && FirstAt(s, ps[k]) && s[ps[k]].rule == Some(rules[k]))
    && (forall i :: 0 <= i < |s| && FirstAt(s, i) && s[i].rule.Some? ==> exists k :: 0 <= k < |ps| && ps[k] == i)
  }

  lemma FirstAtPrefix(s: seq<Entry>, e: Entry, i: nat)
    requires i <= |s|
    ensures FirstAt(s + [e], i) <==> if i == |s| then e.key !in Keys(s) else FirstAt(s, i)
  {
    var more := s + [e];
    forall j | 0 <= j < |s|
      ensures more[j] == s[j] && s[j].key in Keys(s)
    {
      assert s[j] in s;
    }
    if i == |s| {
      if e.key in Keys(s) {
        var q :| q in s && q.key == e.key;
        var j :| 0 <= j < |s| && s[j] == q;
        assert more[j].key == more[i].key;
      }
    } else if FirstAt(s, i) {
      assert forall j :: 0 <= j < i ==> more[j].key != more[i].key;
    } else {
      var j :| 0 <= j < i && s[j].key == s[i].key;
      assert more[j].key == more[i].key;
    }
  }

  lemma PositionsSkip(ps: seq<nat>, rules: seq<Rule>, s: seq<Entry>, e: Entry)
    requires Positions(ps, rules, s) && (e.key in Keys(s) || e.rule.None?)
    ensures Positions(ps, rules, s + [e])
  {
    forall i | 0 <= i <= |s|
      ensures FirstAt(s + [e], i) <==> if i == |s| then e.key !in Keys(s) else FirstAt(s, i)
    {
      FirstAtPrefix(s, e, i);
    }
    hide FirstAt, Keys;
  }

  lemma PositionsTake(ps: seq<nat>, rules: seq<Rule>, s: seq<Entry>, e: Entry)
    requires Positions(ps, rules, s) && e.key !in Keys(s) && e.rule.Some?
    ensures Positions(ps + [|s|], rules + [e.rule.value], s + [e])
  {
    forall i | 0 <= i <= |s|
      ensures FirstAt(s + [e], i) <==> if i == |s| then e.key !in Keys(s) else FirstAt(s, i)
    {
      FirstAtPrefix(s, e, i);
    }
    hide FirstAt, Keys;
    var qs := ps + [|s|];
    forall i | 0 <= i < |s + [e]| && FirstAt(s + [e], i) && (s + [e])[i].rule.Some?
      ensures exists k :: 0 <= k < |qs| && qs[k] == i
    {
      if i == |s| {
        assert qs[|ps|] == i;
      } else {
        var k :| 0 <= k < |ps| && ps[k] == i;
        assert qs[k] == i;
      }
    }
  }

  /** Deduplicating and validating yields exactly that list. */
  lemma {:induction false} ValidatedLists(s: seq<Entry>) returns (ps: seq<nat>)
    ensures Positions(ps, Validated(Firsts(s)), s)
  {
    if s == [] {
      ps := [];
      assert Firsts(s) == [] && Validated([]) == [];
    } else {
      var n := |s| - 1;
      var e := s[n];
      assert s == s[..n] + [e];
      FirstsSnoc(s[..n], e);
      PickSnoc((x: Entry) => x.rule, Firsts(s[..n]), e);
      ps := ValidatedLists(s[..n]);
      hide Firsts, Keys, Positions;
      if e.key in Keys(s[..n]) || e.rule.None? {
        PositionsSkip(ps, Validated(Firsts(s[..n])), s[..n], e);
        assert Validated(Firsts(s)) == Validated(Firsts(s[..n]));
      } else {
        PositionsTake(ps, Validated(Firsts(s[..n])), s[..n], e);
        assert Validated(Firsts(s)) == Validated(Firsts(s[..n])) + [e.rule.value];
        ps := ps + [n];
      }
    }
  }

  lemma EmptyList()
    ensures Validated(Firsts([])) == []
  {}

  lemma LoadLists(s: seq<Entry>)
    ensures Lists(Validated(Firsts(s)), s)
  {
    var ps := ValidatedLists(s);
    hide Positions;
  }

  // --- the files ---------------------------------------------------------------------------------

  /** What a file contributes: its mappings, or none when it stops the load. A missing or
      unusable file of learned rules contributes nothing and stops nothing. */
  function Learned(f: File): Option<seq<Entry>> {
    match f
    case Some(List(es)) => Some(es)
    case Some(Mixed(_)) => None
    case _ => Some([])
  }

  function User(f: File): Option<seq<Entry>> {
    match f
    case Some(List(es)) => Some(es)
    case Some(Null) => Some([])
    case _ => None
  }

  /** The rules in force after a load. */
  function Loaded(user: File, learned: File): seq<Rule> {
    if User(user).Some? && Learned(learned).Some?
    then Validated(Firsts(User(user).value + Learned(learned).value))
    else []
  }

  datatype Status = Proposed | Approved | Rejected

  datatype Proposal = Proposal(id: nat, block: Document, status: Status)

  datatype Reply = Done | KeyError | OtherError

  /** What appending a proposal's block leaves in the file, if it does not raise. A missing
      file is started; a null under `rules` cannot be extended, nor can a text or a mapping. */
  function Appended(f: File, block: Document): Option<Document> {
    var base := if f.Some? then f.value else List([]);
    match (base, block)
    case (List(es), List(ns)) => Some(List(es + ns))
    case (List(_), Mixed(_)) => Some(Mixed(true))
    case (Mixed(true), List(_)) => Some(Mixed(true))
    case (Mixed(true), Mixed(_)) => Some(Mixed(true))
    case _ => None
  }

  /** Position of the first proposal with this id. */
  function Find(proposals: seq<Proposal>, id: nat): (i: nat)
    ensures i <= |proposals|
    ensures i < |proposals| ==> proposals[i].id == id
    ensures forall j :: 0 <= j < i ==> proposals[j].id != id
  {
    if proposals == [] || proposals[0].id == id then 0 else 1 + Find(proposals[1..], id)
  }

  datatype Files = Files(user: File, learned: File, proposals: seq<Proposal>)

  function Approve(w: Files, id: nat): (Files, Reply) {
    var i := Find(w.proposals, id);
    if i == |w.proposals| then (w, KeyError)
    else
      var to := Appended(w.learned, w.proposals[i].block);
      if to.None? then (w, OtherError)
      else (w.(learned := to, proposals := w.proposals[i := w.proposals[i].(status := Approved)]), Done)
  }

  /** The rule files and the proposals of the store. */
  class RuleFiles {
    var user: File
    var learned: File
    var proposals: seq<Proposal>

    function View(): Files
      reads this
    {
      Files(user, learned, proposals)
    }

    constructor (user: File, learned: File, proposals: seq<Proposal>)
      ensures View() == Files(user, learned, proposals)
    {
      this.user, this.learned, this.proposals := user, learned, proposals;
    }

    /** A load changes nothing on disk, except that it writes a template where there was no
        user file. */
    method LoadRules() returns (rules: seq<Rule>)
      modifies this`user
      ensures rules == Loaded(old(user), learned)
      ensures match (old(user), learned)
              case (Some(List(us)), Some(List(ls))) => Lists(rules, us + ls)
              case (Some(List(_)), Some(Mixed(_))) => rules == []
              case (Some(List(us)), _) => Lists(rules, us)
              case (Some(Null), Some(List(ls))) => Lists(rules, ls)
              case _ => rules == []
      ensures user == if old(user).None? then Some(TEMPLATE) else old(user)
    {
      if user.None? {
        user := Some(TEMPLATE);
        return [];
      }
      if !(user.value.List? || user.value.Null?) {
        return [];
      }
      var raws := if user.value.List? then user.value.entries else [];
      if learned.Some? {
        match learned.value
        case List(es) => raws := raws + es;
        case Mixed(_) => return [];
        case _ =>
      }
      assert raws == User(user).value + Learned(learned).value;
      var deduped := Dedup(raws);
      rules := Validate(deduped);
      LoadLists(raws);
      hide Lists, Firsts, Validated;
      EmptyList();
      assert forall s: seq<Entry> :: s + [] == s && [] + s == s;
    }

    method ApproveRule(id: nat) returns (reply: Reply)
      modifies this`learned, this`proposals
      ensures (View(), reply) == Approve(old(View()), id)
      ensures reply == KeyError <==> forall j :: 0 <= j < |old(proposals)| ==> old(proposals)[j].id != id
      ensures reply != Done ==> learned == old(learned) && proposals == old(proposals)
      ensures forall i :: 0 <= i < |old(proposals)| && FirstWith(old(proposals), id, i) ==>
                ApprovedAs(old(learned), old(proposals), i, reply, learned, proposals)
    {
      var i := 0;
      while i < |proposals| && proposals[i].id != id
        invariant i <= |proposals|
        invariant forall j :: 0 <= j < i ==> proposals[j].id != id
      {
        i := i + 1;
      }
      FindIs(proposals, id, i);
      if i == |proposals| {
        return KeyError;
      }
      var to := Appended(learned, proposals[i].block);
      if to.None? {
        return OtherError;
      }
      assert forall k :: 0 <= k < |proposals| && FirstWith(proposals, id, k) ==> k == i;
      if proposals[i].block.List? {
        assert [] + proposals[i].block.entries == proposals[i].block.entries;
      }
      learned := to;
      proposals := proposals[i := proposals[i].(status := Approved)];
      return Done;
    }
  }

  predicate FirstWith(proposals: seq<Proposal>, id: nat, i: nat) {
    i < |proposals| && proposals[i].id == id && forall j :: 0 <= j < i ==> proposals[j].id != id
  }

  /** What approving proposal `i` does: its mappings go to the end of the file, which is started
      if missing, and only it becomes approved; what cannot be extended is an error. */
  predicate ApprovedAs(was: File, before: seq<Proposal>, i: nat, reply: Reply, now: File, after: seq<Proposal>)
    requires i < |before|
  {
    var marked := before[i := before[i].(status := Approved)];
    match (was, before[i].block)
    case (None, List(ns)) => reply == Done && now == Some(List(ns)) && after == marked
    case (Some(List(es)), List(ns)) => reply == Done && now == Some(List(es + ns)) && after == marked
    case (None, Mixed(_)) => reply == Done && now == Some(Mixed(true)) && after == marked
    case (Some(List(_)), Mixed(_)) => reply == Done && now == Some(Mixed(true)) && after == marked
    case (Some(Mixed(true)), List(_)) => reply == Done && now == was && after == marked
    case (Some(Mixed(true)), Mixed(_)) => reply == Done && now == was && after == marked
    case _ => reply == OtherError
  }

  lemma FindIs(proposals: seq<Proposal>, id: nat, i: nat)
    requires i <= |proposals| && (i < |proposals| ==> proposals[i].id == id)
    requires forall j :: 0 <= j < i ==> proposals[j].id != id
    ensures Find(proposals, id) == i
  {}

  // --- what the load and the approvals add up to ---------------------------------------------------

  /** A user's list and a learned list load as the user's first entries per key and then the
      learned first entries whose key no user entry has. */
  lemma UserListWins(us: seq<Entry>, ls: seq<Entry>)
    ensures Loaded(Some(List(us)), Some(List(ls))) == Validated(Firsts(us)) + Validated(Unless(Firsts(ls), Keys(us)))
    ensures Lists(Validated(Firsts(us)), us) && Lists(Loaded(Some(List(us)), Some(List(ls))), us + ls)
  {
    UserRulesWin(Some(List(us)), Some(List(ls)));
    LoadLists(us);
    LoadLists(us + ls);
    hide Lists, Firsts, Validated, Unless, Keys;
  }

  /** The user's rules come first and win: a learned rule is loaded only if the user has no
      rule, valid or not, for the same event and match. */
  lemma UserRulesWin(user: File, learned: File)
    requires User(user).Some? && Learned(learned).Some?
    ensures var (us, ls) := (User(user).value, Learned(learned).value);
            Loaded(user, learned) == Validated(Firsts(us)) + Validated(Unless(Firsts(ls), Keys(us)))
  {
    var us, ls := User(user).value, Learned(learned).value;
    FirstsConcat(us, ls);
    hide Firsts, Unless;
    PickConcat((e: Entry) => e.rule, Firsts(us), Unless(Firsts(ls), Keys(us)));
  }

  /** Approving a proposal leaves the merged entries as they are if and only if every key of
      its block is there already. */
  lemma ApprovalUnchangedIff(w: Files, id: nat)
    requires User(w.user).Some? && Learned(w.learned).Some? && Approve(w, id).1.Done?
    requires w.proposals[Find(w.proposals, id)].block.List?
    ensures var (us, ls) := (User(w.user).value, Learned(w.learned).value);
            var w' := Approve(w, id).0;
            && Learned(w'.learned).Some?
            && (Firsts(us + Learned(w'.learned).value) == Firsts(us + ls)
                <==> Keys(w.proposals[Find(w.proposals, id)].block.entries) <= Keys(us + ls))
  {
    var us, ls := User(w.user).value, Learned(w.learned).value;
    var ns := w.proposals[Find(w.proposals, id)].block.entries;
    hide Find, Firsts, Keys;
    AppendUnchangedIff(us + ls, ns);
    assert us + (ls + ns) == us + ls + ns;
  }

  /** The file already has every key of the block, or is past loading and stays so. */
  predicate Wrote(learned: File, block: Document) {
    learned == Some(Mixed(true)) ||
    (learned.Some? && learned.value.List? && block.List? && Keys(block.entries) <= Keys(learned.value.entries))
  }

  lemma AppendedWrote(f: File, block: Document)
    requires Appended(f, block).Some?
    ensures Wrote(Appended(f, block), block)
    ensures forall b :: Wrote(f, b) ==> Wrote(Appended(f, block), b)
  {
    if f.Some? && f.value.List? && block.List? {
      KeysConcat(f.value.entries, block.entries);
    }
    if f.None? && block.List? {
      KeysConcat([], block.entries);
    }
  }

  /** A block that was written before changes nothing when written again. */
  lemma RewriteUnchanged(user: File, learned: File, block: Document)
    requires Wrote(learned, block) && Appended(learned, block).Some?
    ensures Loaded(user, Appended(learned, block)) == Loaded(user, learned)
  {
    hide Firsts, Keys, Validated;
    if learned.value.List? && User(user).Some? {
      MergeUnchanged(User(user).value, learned.value.entries, block.entries);
    }
  }

  lemma MergeUnchanged(us: seq<Entry>, ls: seq<Entry>, ns: seq<Entry>)
    requires Keys(ns) <= Keys(ls)
    ensures Firsts(us + (ls + ns)) == Firsts(us + ls)
  {
    hide Firsts, Keys;
    KeysConcat(us, ls);
    AppendUnchangedIff(us + ls, ns);
    assert us + (ls + ns) == us + ls + ns;
  }

  function ApproveMany(w: Files, ids: seq<nat>): Files {
    if ids == [] then w else Approve(ApproveMany(w, ids[..|ids| - 1]), ids[|ids| - 1]).0
  }

  /** Approvals keep the ids and blocks of the proposals, the user's file, and what was written. */
  lemma ApproveKeeps(w: Files, id: nat, other: nat, b: Document)
    ensures var w' := Approve(w, id).0;
            && w'.user == w.user
            && Find(w'.proposals, other) == Find(w.proposals, other) && |w'.proposals| == |w.proposals|
            && (Find(w.proposals, other) < |w.proposals| ==>
                  w'.proposals[Find(w.proposals, other)].block == w.proposals[Find(w.proposals, other)].block)
            && (Wrote(w.learned, b) ==> Wrote(w'.learned, b))
  {
    var w' := Approve(w, id).0;
    var i := Find(w.proposals, other);
    if Approve(w, id).1.Done? {
      AppendedWrote(w.learned, w.proposals[Find(w.proposals, id)].block);
    }
    hide Appended, Wrote;
    FindIs(w'.proposals, other, i);
  }

  ghost predicate Written(w: Files, id: nat) {
    var i := Find(w.proposals, id);
    i < |w.proposals| && Wrote(w.learned, w.proposals[i].block)
  }

  lemma ApproveKeepsWritten(w: Files, id: nat, other: nat)
    requires Written(w, other)
    ensures Written(Approve(w, id).0, other)
  {
    ApproveKeeps(w, id, other, w.proposals[Find(w.proposals, other)].block);
  }

  lemma {:induction false} StaysWritten(w: Files, ids: seq<nat>, id: nat)
    requires Written(w, id)
    ensures Written(ApproveMany(w, ids), id)
  {
    if ids != [] {
      StaysWritten(w, ids[..|ids| - 1], id);
      hide Written, Approve;
      ApproveKeepsWritten(ApproveMany(w, ids[..|ids| - 1]), ids[|ids| - 1], id);
    }
  }

  /** Once a proposal has been approved, approving it again changes nothing that is loaded, no
      matter which approvals came in between and whether this one succeeds. */
  lemma ReapprovalChangesNothing(w: Files, ids: seq<nat>, id: nat)
    requires Approve(w, id).1.Done?
    ensures var later := ApproveMany(Approve(w, id).0, ids);
            var again := Approve(later, id).0;
            Loaded(again.user, again.learned) == Loaded(later.user, later.learned)
  {
    var w1 := Approve(w, id).0;
    var i := Find(w.proposals, id);
    AppendedWrote(w.learned, w.proposals[i].block);
    ApproveKeeps(w, id, id, w.proposals[i].block);
    assert Written(w1, id);
    StaysWritten(w1, ids, id);
    hide Loaded, Wrote, Appended, ApproveMany;
    var later := ApproveMany(w1, ids);
    if Approve(later, id).1.Done? {
      RewriteUnchanged(later.user, later.learned, later.proposals[Find(later.proposals, id)].block);
    }
  }

  /** So a run of repeated approvals, however long, loads like the first one. */
  lemma {:induction false} RepeatedApproval(w: Files, id: nat, ids: seq<nat>)
    requires Approve(w, id).1.Done? && forall k :: 0 <= k < |ids| ==> ids[k] == id
    ensures var w1, wn := Approve(w, id).0, ApproveMany(Approve(w, id).0, ids);
            Loaded(wn.user, wn.learned) == Loaded(w1.user, w1.learned)
  {
    if ids != [] {
      var n := |ids| - 1;
      RepeatedApproval(w, id, ids[..n]);
      ReapprovalChangesNothing(w, ids[..n], id);
      assert ids[n] == id;
    }
  }
}
