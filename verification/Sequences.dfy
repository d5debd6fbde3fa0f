/** Sequence vocabulary shared by the protocol modules. */
module Sequences {

  datatype Option<+T> = None | Some(value: T)

  function ToSeq<T>(o: Option<T>): seq<T> {
    if o.Some? then [o.value] else []
  }

  /** What `f` picks out of `s`, in order. */
  function Pick<S, T>(f: S -> Option<T>, s: seq<S>): seq<T> {
    if s == [] then [] else Pick(f, s[..|s| - 1]) + ToSeq(f(s[|s| - 1]))
  }

  lemma {:induction false} PickConcat<S, T>(f: S -> Option<T>, a: seq<S>, b: seq<S>)
    ensures Pick(f, a + b) == Pick(f, a) + Pick(f, b)
  {
    if b == [] {
      assert a + b == a && Pick(f, b) == [];
    } else {
      var c, x := b[..|b| - 1], b[|b| - 1];
      assert b == c + [x] && a + b == (a + c) + [x];
      hide Pick;
      PickConcat(f, a, c);
      PickSnoc(f, a + c, x);
      PickSnoc(f, c, x);
    }
  }

  lemma PickOne<S, T>(f: S -> Option<T>, x: S)
    ensures Pick(f, [x]) == ToSeq(f(x))
  {
    assert [x][..0] == [];
  }

  lemma PickSnoc<S, T>(f: S -> Option<T>, s: seq<S>, x: S)
    ensures Pick(f, s + [x]) == Pick(f, s) + ToSeq(f(x))
  {
    assert (s + [x])[..|s|] == s;
  }

  lemma PickHead<S, T>(f: S -> Option<T>, s: seq<S>)
    requires s != []
    ensures Pick(f, s) == ToSeq(f(s[0])) + Pick(f, s[1..])
  {
    assert s == [s[0]] + s[1..];
    PickConcat(f, [s[0]], s[1..]);
    PickOne(f, s[0]);
  }

  lemma {:induction false} PickMember<S, T>(f: S -> Option<T>, s: seq<S>, x: S)
    requires x in s && f(x).Some?
    ensures f(x).value in Pick(f, s)
  {
    if x != s[|s| - 1] {
      PickMember(f, s[..|s| - 1], x);
    }
  }

  lemma {:induction false} PickOrigin<S, T>(f: S -> Option<T>, s: seq<S>, y: T) returns (x: S)
    requires y in Pick(f, s)
    ensures x in s && f(x) == Some(y)
  {
    var before, last := s[..|s| - 1], s[|s| - 1];
    if y in Pick(f, before) {
      x := PickOrigin(f, before, y);
    } else {
      x := last;
    }
  }

  /** Picking twice is picking with the composed choice. */
  lemma {:induction false} PickTwice<R(!new), S, T>(f: R -> Option<S>, g: S -> Option<T>, h: R -> Option<T>, s: seq<R>)
    requires forall x :: h(x) == if f(x).Some? then g(f(x).value) else None
    ensures Pick(g, Pick(f, s)) == Pick(h, s)
  {
    if s != [] {
      hide Pick;
      var before, last := s[..|s| - 1], s[|s| - 1];
      PickTwice(f, g, h, before);
      assert s == before + [last];
      PickSnoc(f, before, last);
      PickSnoc(h, before, last);
      if f(last).Some? {
        PickSnoc(g, Pick(f, before), f(last).value);
      } else {
        assert Pick(f, s) == Pick(f, before);
      }
    }
  }

  ghost predicate Distinct<T>(s: seq<T>) {
    forall i, j :: 0 <= i < j < |s| ==> s[i] != s[j]
  }

  /** `a` is `b` with some elements left out. */
  predicate Subsequence<T(==)>(a: seq<T>, b: seq<T>) {
    a == [] ||
    (b != [] && (Subsequence(a, b[..|b| - 1]) ||
                 (a[|a| - 1] == b[|b| - 1] && Subsequence(a[..|a| - 1], b[..|b| - 1]))))
  }

  lemma SubsequenceSkip<T>(a: seq<T>, b: seq<T>, x: T)
    requires Subsequence(a, b)
    ensures Subsequence(a, b + [x])
  {
    assert (b + [x])[..|b|] == b;
  }

  lemma SubsequenceSnoc<T>(a: seq<T>, b: seq<T>, x: T)
    requires Subsequence(a, b)
    ensures Subsequence(a + [x], b + [x])
  {
    assert (b + [x])[..|b|] == b && (a + [x])[..|a|] == a;
  }

  lemma {:induction false} SubsequenceDelete<T>(pre: seq<T>, x: T, post: seq<T>, b: seq<T>)
    requires Subsequence(pre + [x] + post, b)
    ensures Subsequence(pre + post, b)
    decreases |b|
  {
    var a := pre + [x] + post;
    if b != [] && pre + post != [] {
      var rest := b[..|b| - 1];
      if Subsequence(a, rest) {
        SubsequenceDelete(pre, x, post, rest);
      } else if post == [] {
        assert a[..|a| - 1] == pre + post;
      } else {
        assert a[..|a| - 1] == pre + [x] + post[..|post| - 1];
        SubsequenceDelete(pre, x, post[..|post| - 1], rest);
        assert (pre + post)[..|pre + post| - 1] == pre + post[..|post| - 1];
      }
    }
  }

  lemma {:induction false} SubsequencePrefix<T>(a: seq<T>, tail: seq<T>, b: seq<T>)
    requires Subsequence(a + tail, b)
    ensures Subsequence(a, b)
  {
    if tail == [] {
      assert a + tail == a;
    } else {
      var n := |tail| - 1;
      assert a + tail == a + tail[..n] + [tail[n]] + [];
      SubsequenceDelete(a + tail[..n], tail[n], [], b);
      assert a + tail[..n] + [] == a + tail[..n];
      SubsequencePrefix(a, tail[..n], b);
    }
  }
}
