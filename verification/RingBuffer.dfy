/** The audio ring buffer (src/agent/voice/ring_buffer.py).

    `Ring` is the value of the three mutable fields; `RingBuffer` is the class that
    changes them in place. Every statement about many writes is made about `Ring`;
    the class methods are proved to compute exactly the `Ring` functions. */
module RingBuffers {

  // float32 samples, only copied and zeroed by the buffer
  type Sample = real

  datatype Ring = Ring(buffer: seq<Sample>, pos: nat, full: bool)

  function Zeros(n: nat): seq<Sample> {
    seq(n, _ => 0.0)
  }

  /** The last `n` samples of `s`. */
  function LastN(s: seq<Sample>, n: nat): seq<Sample>
    requires n <= |s|
  {
    s[|s| - n..]
  }

  /** What an ideal recorder of capacity `cap`, zero-filled at the start, holds after `history`. */
  function Window(history: seq<Sample>, cap: nat): seq<Sample> {
    LastN(Zeros(cap) + history, cap)
  }

  /** The buffer unrolled from its write position. */
  function Rotation(r: Ring): seq<Sample>
    requires r.pos <= |r.buffer|
  {
    r.buffer[r.pos..] + r.buffer[..r.pos]
  }

  predicate WellFormed(r: Ring) {
    r.pos < |r.buffer|
  }

  function Empty(cap: nat): Ring {
    Ring(Zeros(cap), 0, false)
  }

  // --- write ------------------------------------------------------------------

  function Overwrite(buf: seq<Sample>, at: nat, data: seq<Sample>): (out: seq<Sample>)
    requires at + |data| <= |buf|
    ensures |out| == |buf|
    ensures forall i :: 0 <= i < |buf| ==> out[i] == if at <= i < at + |data| then data[i - at] else buf[i]
  {
    buf[..at] + data + buf[at + |data|..]
  }

  /** The slice assignments of `write`: one slice, or two when the chunk wraps. */
  function StoreSlices(buf: seq<Sample>, pos: nat, data: seq<Sample>): (out: seq<Sample>)
    requires pos < |buf| && |data| < |buf|
    ensures |out| == |buf|
    ensures forall i :: 0 <= i < |buf| ==>
              out[i] == if pos <= i < pos + |data| then data[i - pos]
                        else if i + |buf| < pos + |data| then data[i + |buf| - pos]
                        else buf[i]
  {
    var space := |buf| - pos;
    if |data| <= space then
      Overwrite(buf, pos, data)
    else
      Overwrite(Overwrite(buf, pos, data[..space]), 0, data[space..])
  }

  lemma MulMonotone(m: nat, a: int, b: int)
    ensures a <= b ==> m * a <= m * b
  {}

  lemma AdvanceIsModulo(pos: nat, n: nat, cap: nat)
    requires pos < cap && n < cap
    ensures (pos + n) % cap == Advance(pos, n, cap)
  {
    var x := pos + n;
    var q := x / cap;
    assert x == cap * q + x % cap;
    MulMonotone(cap, q, 0);
    MulMonotone(cap, 1, q);
    MulMonotone(cap, 2, q);
  }

  /** The write position after a chunk of `n` samples shorter than the buffer. */
  function Advance(pos: nat, n: nat, cap: nat): nat
    requires pos < cap && n < cap
  {
    if pos + n < cap then pos + n else pos + n - cap
  }

  /** The write position after any chunk. */
  function NextPos(r: Ring, n: nat): nat
    requires WellFormed(r)
  {
    if n == 0 then r.pos else if n >= |r.buffer| then 0 else Advance(r.pos, n, |r.buffer|)
  }

  /** `_full` as the code computes it: line 43 looks at the position after advancing it. */
  predicate CodeFlag(r: Ring, n: nat)
    requires WellFormed(r)
  {
    var next := NextPos(r, n);
    r.full || (n > 0 && (n >= |r.buffer| || next == 0 || next + n >= |r.buffer|))
  }

  /** `_full` decided from the position before the write. */
  predicate OldPosFlag(r: Ring, n: nat)
    requires WellFormed(r)
  {
    r.full || r.pos + n >= |r.buffer|
  }

  function WriteWith(r: Ring, data: seq<Sample>, flag: bool): Ring
    requires WellFormed(r)
  {
    var cap := |r.buffer|;
    if |data| == 0 then
      r
    else if |data| >= cap then
      Ring(LastN(data, cap), 0, true)
    else
      Ring(StoreSlices(r.buffer, r.pos, data), NextPos(r, |data|), flag)
  }

  function Write(r: Ring, data: seq<Sample>): Ring
    requires WellFormed(r)
  {
    WriteWith(r, data, CodeFlag(r, |data|))
  }

  /** `write` with the flag decided from the old position. */
  function WriteOldPos(r: Ring, data: seq<Sample>): Ring
    requires WellFormed(r)
  {
    WriteWith(r, data, OldPosFlag(r, |data|))
  }

  function Read(r: Ring): seq<Sample>
    requires WellFormed(r)
  {
    if !r.full && r.pos == 0 then []
    else if r.full then Rotation(r)
    else r.buffer[..r.pos]
  }

  function Len(r: Ring): nat {
    if r.full then |r.buffer| else r.pos
  }

  // --- the rotation invariant ---------------------------------------------------

  /** What every write keeps: the unrolled buffer is the recorder's window, and while
      `_full` is unset and the history is short the position counts the samples. */
  ghost predicate Holds(r: Ring, history: seq<Sample>) {
    && WellFormed(r)
    && Rotation(r) == Window(history, |r.buffer|)
    && (!r.full && |history| < |r.buffer| ==> r.pos == |history|)
    && (!r.full && r.pos == 0 ==> history == [])
  }

  /** Where sample `i` of the unrolled buffer sits. */
  function Slot(pos: nat, i: nat, cap: nat): nat
    requires pos < cap && i < cap
  {
    if pos + i < cap then pos + i else pos + i - cap
  }

  lemma RotationAt(r: Ring)
    requires WellFormed(r)
    ensures |Rotation(r)| == |r.buffer|
    ensures forall i :: 0 <= i < |r.buffer| ==> Rotation(r)[i] == r.buffer[Slot(r.pos, i, |r.buffer|)]
  {}

  lemma StoreRotates(r: Ring, data: seq<Sample>, flag: bool)
    requires WellFormed(r) && |data| < |r.buffer|
    ensures Rotation(Ring(StoreSlices(r.buffer, r.pos, data), Advance(r.pos, |data|, |r.buffer|), flag)) ==
            Rotation(r)[|data|..] + data
  {
    var cap, n := |r.buffer|, |data|;
    var w := Ring(StoreSlices(r.buffer, r.pos, data), Advance(r.pos, n, cap), flag);
    RotationAt(r);
    RotationAt(w);
    forall i | 0 <= i < cap
      ensures Rotation(w)[i] == (Rotation(r)[n..] + data)[i]
    {
      var at := Slot(w.pos, i, cap);
      if i < cap - n {
        assert at == Slot(r.pos, n + i, cap);
        assert w.buffer[at] == r.buffer[at];
      } else {
        assert w.buffer[at] == data[i - (cap - n)];
      }
    }
  }

  lemma WindowAppend(history: seq<Sample>, data: seq<Sample>, cap: nat)
    ensures Window(history + data, cap) ==
            if |data| >= cap then LastN(data, cap) else Window(history, cap)[|data|..] + data
  {
    assert Zeros(cap) + (history + data) == Zeros(cap) + history + data;
  }

  lemma WriteKeeps(r: Ring, history: seq<Sample>, data: seq<Sample>, flag: bool)
    requires Holds(r, history)
    requires r.full ==> flag
    requires 0 < |data| < |r.buffer| && NextPos(r, |data|) == 0 ==> flag
    ensures var w := WriteWith(r, data, flag); |w.buffer| == |r.buffer| && Holds(w, history + data)
  {
    var cap, n := |r.buffer|, |data|;
    WindowAppend(history, data, cap);
    if n == 0 {
      assert history + data == history;
    } else if n < cap {
      StoreRotates(r, data, flag);
    }
  }

  // --- every sequence of writes ---------------------------------------------------

  function Concat(chunks: seq<seq<Sample>>): seq<Sample> {
    if chunks == [] then [] else Concat(chunks[..|chunks| - 1]) + chunks[|chunks| - 1]
  }

  /** The ring after writing `chunks` into an empty ring of capacity `cap`. */
  function WriteAll(cap: nat, chunks: seq<seq<Sample>>): (r: Ring)
    requires cap > 0
    ensures WellFormed(r) && |r.buffer| == cap
  {
    if chunks == [] then Empty(cap) else Write(WriteAll(cap, chunks[..|chunks| - 1]), chunks[|chunks| - 1])
  }

  function WriteAllOldPos(cap: nat, chunks: seq<seq<Sample>>): (r: Ring)
    requires cap > 0
    ensures WellFormed(r) && |r.buffer| == cap
  {
    if chunks == [] then Empty(cap)
    else WriteOldPos(WriteAllOldPos(cap, chunks[..|chunks| - 1]), chunks[|chunks| - 1])
  }

  /** Main result: for every sequence of chunk sizes the unrolled buffer holds the last
      `cap` of the initial zeros followed by everything written. */
  lemma {:induction false} RotationInvariant(cap: nat, chunks: seq<seq<Sample>>)
    requires cap > 0
    ensures Holds(WriteAll(cap, chunks), Concat(chunks))
    ensures Rotation(WriteAll(cap, chunks)) == Window(Concat(chunks), cap)
  {
    if chunks == [] {
      assert Zeros(cap) + [] == Zeros(cap);
    } else {
      var before := chunks[..|chunks| - 1];
      RotationInvariant(cap, before);
      var r, data := WriteAll(cap, before), chunks[|chunks| - 1];
      WriteKeeps(r, Concat(before), data, CodeFlag(r, |data|));
    }
  }

  /** `read` never invents a sample: it is always a suffix of that window. */
  lemma ReadIsSuffix(cap: nat, chunks: seq<seq<Sample>>)
    requires cap > 0
    ensures var out := Read(WriteAll(cap, chunks));
            |out| == Len(WriteAll(cap, chunks)) <= cap && out == LastN(Window(Concat(chunks), cap), |out|)
  {
    RotationInvariant(cap, chunks);
    var r := WriteAll(cap, chunks);
    assert Rotation(r)[|r.buffer| - r.pos..] == r.buffer[..r.pos];
  }

  // --- the documented contract: the last min(total, capacity) samples ------------------

  ghost predicate Exact(r: Ring, history: seq<Sample>)
    requires WellFormed(r)
  {
    Read(r) == LastN(history, if |history| < |r.buffer| then |history| else |r.buffer|)
  }

  lemma ExactIffFlagTrue(r: Ring, history: seq<Sample>)
    requires Holds(r, history)
    ensures Exact(r, history) <==> (r.full <==> |history| >= |r.buffer|)
  {
    var cap := |r.buffer|;
    if r.full {
      assert |Read(r)| == cap;
      if |history| >= cap {
        assert Window(history, cap) == LastN(history, cap);
      }
    } else {
      assert |Read(r)| == r.pos;
      if |history| < cap {
        assert r.pos == |history|;
        assert Rotation(r)[cap - r.pos..] == r.buffer[..r.pos];
        assert Window(history, cap)[cap - r.pos..] == history;
      }
    }
  }

  /** The caller-side guard under which one `write` keeps `read` exact: the chunk is
      empty or covers the buffer, the flag is already set, or advancing by `n` twice
      crosses the capacity exactly as often as advancing once. */
  predicate FlagGuard(r: Ring, n: nat) {
    var cap := |r.buffer|;
    || n == 0
    || n >= cap
    || r.full
    || r.pos + n == cap
    || (r.pos + n < cap && r.pos + 2 * n < cap)
    || (r.pos + n > cap && r.pos + 2 * n >= 2 * cap)
  }

  /** Testing the advanced position is wrong for some chunks. From an exact ring, the
      next `read` is exact if and only if the guard held before the write. */
  lemma WriteExactIff(r: Ring, history: seq<Sample>, data: seq<Sample>)
    requires Holds(r, history) && Exact(r, history)
    ensures WellFormed(Write(r, data))
    ensures Exact(Write(r, data), history + data) <==> FlagGuard(r, |data|)
  {
    var w := Write(r, data);
    WriteKeeps(r, history, data, CodeFlag(r, |data|));
    ExactIffFlagTrue(r, history);
    ExactIffFlagTrue(w, history + data);
    assert |data| == 0 ==> history + data == history;
    FlagRightIff(r, |history|, |data|);
  }

  /** From any ring, exact or not: the next `read` is exact if and only if the flag the code
      sets is the right one, so a ring read wrongly once is right again from the first write
      whose flag is. */
  lemma WriteExactFromAny(r: Ring, history: seq<Sample>, data: seq<Sample>)
    requires Holds(r, history)
    ensures WellFormed(Write(r, data))
    ensures Exact(Write(r, data), history + data) <==>
            (CodeFlag(r, |data|) <==> |history| + |data| >= |r.buffer|)
  {
    WriteKeeps(r, history, data, CodeFlag(r, |data|));
    ExactIffFlagTrue(Write(r, data), history + data);
    assert |data| == 0 ==> history + data == history;
  }

  lemma FlagRightIff(r: Ring, total: nat, n: nat)
    requires WellFormed(r)
    requires r.full <==> total >= |r.buffer|
    requires !r.full ==> r.pos == total
    ensures (CodeFlag(r, n) <==> total + n >= |r.buffer|) <==> FlagGuard(r, n)
  {}

  /** Set too early: one sample into a ring of two reads back a zero that was never written. */
  lemma FlagSetEarly()
    ensures Read(WriteAll(2, [[7.0]])) == [0.0, 7.0]
    ensures !Exact(WriteAll(2, [[7.0]]), [7.0])
  {
    assert [[7.0]][..0] == [];
    assert WriteAll(2, [[7.0]]) == Write(Empty(2), [7.0]);
  }

  lemma WriteAllSnoc(cap: nat, chunks: seq<seq<Sample>>, data: seq<Sample>)
    requires cap > 0
    ensures WriteAll(cap, chunks + [data]) == Write(WriteAll(cap, chunks), data)
  {
    assert (chunks + [data])[..|chunks|] == chunks;
  }

  lemma ThreeSingles()
    ensures WriteAll(5, [] + [[1.0]] + [[2.0]] + [[3.0]]) == Ring([1.0, 2.0, 3.0, 0.0, 0.0], 3, false)
  {
    WriteAllSnoc(5, [], [1.0]);
    WriteAllSnoc(5, [] + [[1.0]], [2.0]);
    WriteAllSnoc(5, [] + [[1.0]] + [[2.0]], [3.0]);
    assert WriteAll(5, []) == Ring([0.0, 0.0, 0.0, 0.0, 0.0], 0, false);
    hide WriteAll;
    assert WriteAll(5, [] + [[1.0]]) == Ring([1.0, 0.0, 0.0, 0.0, 0.0], 1, false);
    assert WriteAll(5, [] + [[1.0]] + [[2.0]]) == Ring([1.0, 2.0, 0.0, 0.0, 0.0], 2, false);
  }

  /** Missed on a wrap: three single samples and then three at once into a ring of five read
      back one sample, not the last five. */
  lemma FlagMissedOnWrap()
    ensures Read(WriteAll(5, [[1.0], [2.0], [3.0], [4.0, 5.0, 6.0]])) == [6.0]
    ensures !Exact(WriteAll(5, [[1.0], [2.0], [3.0], [4.0, 5.0, 6.0]]), [1.0, 2.0, 3.0, 4.0, 5.0, 6.0])
  {
    ThreeSingles();
    WriteAllSnoc(5, [] + [[1.0]] + [[2.0]] + [[3.0]], [4.0, 5.0, 6.0]);
    assert [] + [[1.0]] + [[2.0]] + [[3.0]] + [[4.0, 5.0, 6.0]] == [[1.0], [2.0], [3.0], [4.0, 5.0, 6.0]];
    hide WriteAll;
    assert WriteAll(5, [[1.0], [2.0], [3.0], [4.0, 5.0, 6.0]]) == Ring([6.0, 2.0, 3.0, 4.0, 5.0], 1, false);
  }

  /** With a fixed chunk size below the capacity, as a microphone callback delivers it,
      `read` is exact at every moment but one: when the next chunk would fill the buffer. */
  lemma FixedChunkExactIff(cap: nat, n: nat, chunks: seq<seq<Sample>>)
    requires 0 < n < cap
    requires forall i :: 0 <= i < |chunks| ==> |chunks[i]| == n
    ensures Exact(WriteAll(cap, chunks), Concat(chunks)) <==>
            !(|Concat(chunks)| < cap <= |Concat(chunks)| + n)
  {
    FixedChunkFlag(cap, n, chunks);
    RotationInvariant(cap, chunks);
    ExactIffFlagTrue(WriteAll(cap, chunks), Concat(chunks));
  }

  lemma {:induction false} FixedChunkFlag(cap: nat, n: nat, chunks: seq<seq<Sample>>)
    requires 0 < n < cap
    requires forall i :: 0 <= i < |chunks| ==> |chunks[i]| == n
    ensures WriteAll(cap, chunks).full <==> |Concat(chunks)| + n >= cap
  {
    if chunks != [] {
      var before := chunks[..|chunks| - 1];
      FixedChunkFlag(cap, n, before);
      RotationInvariant(cap, before);
      FixedChunkStep(WriteAll(cap, before), Concat(before), n);
    }
  }

  lemma FixedChunkStep(r: Ring, history: seq<Sample>, n: nat)
    requires Holds(r, history) && 0 < n < |r.buffer|
    requires r.full <==> |history| + n >= |r.buffer|
    ensures CodeFlag(r, n) <==> |history| + n + n >= |r.buffer|
  {}

  /** With the flag decided from the old position the documented contract holds after
      every sequence of writes. */
  lemma {:induction false} OldPosAlwaysExact(cap: nat, chunks: seq<seq<Sample>>)
    requires cap > 0
    ensures Holds(WriteAllOldPos(cap, chunks), Concat(chunks))
    ensures WriteAllOldPos(cap, chunks).full <==> |Concat(chunks)| >= cap
    ensures Exact(WriteAllOldPos(cap, chunks), Concat(chunks))
  {
    if chunks == [] {
      assert Zeros(cap) + [] == Zeros(cap);
    } else {
      var before := chunks[..|chunks| - 1];
      OldPosAlwaysExact(cap, before);
      var r, data := WriteAllOldPos(cap, before), chunks[|chunks| - 1];
      WriteKeeps(r, Concat(before), data, OldPosFlag(r, |data|));
    }
    ExactIffFlagTrue(WriteAllOldPos(cap, chunks), Concat(chunks));
  }

  // --- the class --------------------------------------------------------------------

  class RingBuffer {
    const buffer: array<Sample>
    var pos: nat
    var full: bool
    ghost var history: seq<Sample>

    ghost predicate Valid()
      reads this, buffer
    {
      Holds(View(), history)
    }

    function View(): Ring
      reads this, buffer
    {
      Ring(buffer[..], pos, full)
    }

    constructor (capacity: nat)
      requires capacity > 0
      ensures Valid() && fresh(buffer) && View() == Empty(capacity) && history == []
    {
      buffer := new Sample[capacity](_ => 0.0);
      pos, full, history := 0, false, [];
      new;
      assert buffer[..] == Zeros(capacity);
      assert Zeros(capacity) + [] == Zeros(capacity);
      assert Rotation(View()) == Zeros(capacity);
    }

    /** NumPy slice assignment. */
    method AssignSlice(at: nat, data: seq<Sample>)
      requires at + |data| <= buffer.Length
      modifies buffer
      ensures buffer[..] == Overwrite(old(buffer[..]), at, data)
    {
      forall i | 0 <= i < |data| {
        buffer[at + i] := data[i];
      }
    }

    method AssignWrapped(data: seq<Sample>)
      requires pos < buffer.Length && |data| < buffer.Length
      modifies buffer
      ensures buffer[..] == StoreSlices(old(buffer[..]), pos, data)
    {
      var space := buffer.Length - pos;
      if |data| <= space {
        AssignSlice(pos, data);
      } else {
        AssignSlice(pos, data[..space]);
        AssignSlice(0, data[space..]);
      }
    }

    /** The body of `write` under the lock. */
    method WriteLocked(data: seq<Sample>)
      requires WellFormed(View()) && |data| > 0
      modifies this`pos, this`full, buffer
      ensures View() == Write(old(View()), data)
    {
      var n, cap := |data|, buffer.Length;
      if n >= cap {
        AssignSlice(0, data[n - cap..]);
        pos, full := 0, true;
        return;
      }
      AssignWrapped(data);
      AdvanceIsModulo(pos, n, cap);
      pos := (pos + n) % cap;
      if pos == 0 || (!full && pos + n >= cap) {
        full := true;
      }
    }

    method WriteChunk(data: seq<Sample>)
      requires Valid()
      modifies this, buffer
      ensures Valid()
      ensures View() == Write(old(View()), data)
      ensures history == old(history) + data
    {
      WriteKeeps(View(), history, data, CodeFlag(View(), |data|));
      if |data| != 0 {
        WriteLocked(data);
      }
      history := history + data;
    }

    method ReadAll() returns (out: seq<Sample>)
      requires Valid()
      ensures out == Read(View())
    {
      if !full && pos == 0 {
        out := [];
      } else if full {
        out := buffer[pos..] + buffer[..pos];
      } else {
        out := buffer[..pos];
        assert buffer[..][..pos] == buffer[..pos];
      }
    }

    method Clear()
      requires Valid()
      modifies this, buffer
      ensures Valid()
      ensures View() == Empty(buffer.Length) && history == []
    {
      forall i | 0 <= i < buffer.Length {
        buffer[i] := 0.0;
      }
      pos, full, history := 0, false, [];
      assert buffer[..] == Zeros(buffer.Length);
      assert Zeros(buffer.Length) + [] == Zeros(buffer.Length);
      assert Rotation(View()) == Zeros(buffer.Length);
    }

    method Length() returns (n: nat)
      requires Valid()
      ensures n == |Read(View())|
    {
      n := if full then buffer.Length else pos;
    }
  }
}
