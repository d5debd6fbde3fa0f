/** The sliding-window limiter (src/agent/safety/rate_limit.py).

    `CheckBucket` is one `check` on one kind's bucket; `Bucket`, `Admits` and `Log` replay a
    whole sequence of request times for one kind since its bucket was last cleared. The
    theorems are about replays; the class is proved to be the replay of its own history. */
module RateLimit {
  import opened Sequences

  datatype Limit = Limit(max: int, window: real)

  datatype Outcome = Outcome(bucket: seq<real>, allowed: bool)

  // --- one check ------------------------------------------------------------------

  /** Drop timestamps from the front while they are outside the window. */
  function Evict(bucket: seq<real>, cutoff: real): seq<real> {
    if bucket != [] && bucket[0] <= cutoff then Evict(bucket[1..], cutoff) else bucket
  }

  function CheckBucket(bucket: seq<real>, now: real, lim: Limit): Outcome {
    var kept := Evict(bucket, now - lim.window);
    if |kept| >= lim.max then Outcome(kept, false) else Outcome(kept + [now], true)
  }

  // --- replaying a sequence of requests ----------------------------------------------

  ghost predicate Sorted(ts: seq<real>) {
    forall i, j :: 0 <= i < j < |ts| ==> ts[i] <= ts[j]
  }

  /** Nondecreasing times, none after `now`. */
  predicate Past(ts: seq<real>, now: real) {
    ts == [] || (ts[|ts| - 1] <= now && Past(ts[..|ts| - 1], ts[|ts| - 1]))
  }

  lemma {:induction false} PastSorted(ts: seq<real>, now: real)
    requires Past(ts, now)
    ensures Sorted(ts) && forall i :: 0 <= i < |ts| ==> ts[i] <= now
  {
    if ts != [] {
      PastSorted(ts[..|ts| - 1], ts[|ts| - 1]);
    }
  }

  lemma {:induction false} SortedPast(ts: seq<real>)
    requires Sorted(ts) && ts != []
    ensures Past(ts, ts[|ts| - 1])
  {
    if |ts| > 1 {
      SortedPast(ts[..|ts| - 1]);
    }
  }

  function Bucket(ts: seq<real>, lim: Limit): seq<real> {
    if ts == [] then [] else CheckBucket(Bucket(ts[..|ts| - 1], lim), ts[|ts| - 1], lim).bucket
  }

  /** Whether a request at `now`, after requests at `ts`, is admitted. */
  predicate Admits(ts: seq<real>, now: real, lim: Limit) {
    CheckBucket(Bucket(ts, lim), now, lim).allowed
  }

  /** All admitted timestamps, none ever evicted. */
  function Log(ts: seq<real>, lim: Limit): seq<real> {
    if ts == [] then []
    else
      var before := ts[..|ts| - 1];
      var now := ts[|ts| - 1];
      if Admits(before, now, lim) then Log(before, lim) + [now] else Log(before, lim)
  }

  /** The entries of `log` inside the window that starts after `cutoff`. */
  function Recent(log: seq<real>, cutoff: real): seq<real> {
    if log == [] then []
    else
      var rest := Recent(log[..|log| - 1], cutoff);
      if log[|log| - 1] > cutoff then rest + [log[|log| - 1]] else rest
  }

  // --- the log refinement ---------------------------------------------------------------

  lemma {:induction false} EvictIsRecent(bucket: seq<real>, cutoff: real)
    requires Sorted(bucket)
    ensures Evict(bucket, cutoff) == Recent(bucket, cutoff)
  {
    if bucket != [] {
      if bucket[0] <= cutoff {
        EvictIsRecent(bucket[1..], cutoff);
        RecentDropHead(bucket, cutoff);
      } else {
        RecentKeepsAll(bucket, cutoff);
      }
    }
  }

  lemma {:induction false} RecentKeepsAll(log: seq<real>, cutoff: real)
    requires forall i :: 0 <= i < |log| ==> log[i] > cutoff
    ensures Recent(log, cutoff) == log
  {
    if log != [] {
      RecentKeepsAll(log[..|log| - 1], cutoff);
    }
  }

  lemma {:induction false} RecentDropHead(log: seq<real>, cutoff: real)
    requires log != [] && log[0] <= cutoff
    ensures Recent(log, cutoff) == Recent(log[1..], cutoff)
  {
    if |log| > 1 {
      RecentDropHead(log[..|log| - 1], cutoff);
      assert log[..|log| - 1][1..] == log[1..][..|log| - 2];
    } else {
      assert log[..|log| - 1] == [] && log[1..] == [];
    }
  }

  lemma {:induction false} RecentTwice(log: seq<real>, c: real, d: real)
    requires c <= d
    ensures Recent(Recent(log, c), d) == Recent(log, d)
  {
    if log != [] {
      var before, last := log[..|log| - 1], log[|log| - 1];
      RecentTwice(before, c, d);
      if last > c {
        assert Recent(log, c)[..|Recent(before, c)|] == Recent(before, c);
      }
    }
  }

  lemma {:induction false} RecentPast(log: seq<real>, cutoff: real, now: real)
    requires Past(log, now)
    ensures Past(Recent(log, cutoff), now)
  {
    if log != [] {
      RecentPast(log[..|log| - 1], cutoff, log[|log| - 1]);
    }
  }

  lemma EvictOfRecent(log: seq<real>, c: real, d: real)
    requires Sorted(log) && c <= d
    ensures Evict(Recent(log, c), d) == Recent(log, d)
  {
    if log != [] {
      var now := log[|log| - 1];
      SortedPast(log);
      RecentPast(log, c, now);
      PastSorted(Recent(log, c), now);
    }
    EvictIsRecent(Recent(log, c), d);
    RecentTwice(log, c, d);
  }

  lemma {:induction false} LogPast(ts: seq<real>, now: real, lim: Limit)
    requires Past(ts, now)
    ensures Past(Log(ts, lim), now)
  {
    if ts != [] {
      LogPast(ts[..|ts| - 1], ts[|ts| - 1], lim);
    }
  }

  /** Between resets the bucket is the full admission log cut to the window of the last request. */
  lemma {:induction false} BucketIsRecentLog(ts: seq<real>, lim: Limit)
    requires ts != [] && Past(ts, ts[|ts| - 1]) && lim.window > 0.0
    ensures Bucket(ts, lim) == Recent(Log(ts, lim), ts[|ts| - 1] - lim.window)
    decreases |ts|, 0
  {
    var before, now := ts[..|ts| - 1], ts[|ts| - 1];
    EvictedIsRecentLog(before, now, lim);
    var kept := Evict(Bucket(before, lim), now - lim.window);
    if Admits(before, now, lim) {
      assert Log(ts, lim)[..|Log(before, lim)|] == Log(before, lim);
    }
  }

  /** Main result: at any later `now` the bucket after eviction is exactly the admission
      log filtered to `(now - window, now]`. */
  lemma {:induction false} EvictedIsRecentLog(ts: seq<real>, now: real, lim: Limit)
    requires Past(ts, now) && lim.window > 0.0
    ensures Evict(Bucket(ts, lim), now - lim.window) == Recent(Log(ts, lim), now - lim.window)
    decreases |ts|, 1
  {
    if ts != [] {
      hide Log, Recent, Evict;
      BucketIsRecentLog(ts, lim);
      LogPast(ts, now, lim);
      PastSorted(Log(ts, lim), now);
      EvictOfRecent(Log(ts, lim), ts[|ts| - 1] - lim.window, now - lim.window);
    }
  }

  /** Main result: a request is admitted if and only if the admission log has fewer than
      `max` entries in the window that ends now. */
  lemma AdmitsIffRecent(ts: seq<real>, now: real, lim: Limit)
    requires Past(ts, now) && lim.window > 0.0
    ensures Admits(ts, now, lim) <==> |Recent(Log(ts, lim), now - lim.window)| < lim.max
  {
    EvictedIsRecentLog(ts, now, lim);
  }

  // --- how many admissions any interval can hold ---------------------------------------

  /** The number of entries `x` of `log` with `lo <= x < hi`. */
  function CountIn(log: seq<real>, lo: real, hi: real): nat {
    if log == [] then 0
    else CountIn(log[..|log| - 1], lo, hi) + if lo <= log[|log| - 1] < hi then 1 else 0
  }

  /** At most `max` entries in every half-open window of length `w`, at any real start. */
  ghost predicate WithinWindows(log: seq<real>, max: int, w: real) {
    forall lo: real :: InWindow(log, lo, w) <= max
  }

  function InWindow(log: seq<real>, lo: real, w: real): nat {
    CountIn(log, lo, lo + w)
  }

  /** Entry `i + max` is at least a window later than entry `i`. */
  ghost predicate Spaced(log: seq<real>, max: nat, w: real) {
    forall i :: 0 <= i < |log| - max ==> log[i] + w <= log[i + max]
  }

  /** On a sorted log, counting the window is looking at one entry. */
  lemma {:induction false} RecentFewerIff(log: seq<real>, cutoff: real, m: nat)
    requires Sorted(log) && m > 0
    ensures |Recent(log, cutoff)| < m <==> (|log| < m || log[|log| - m] <= cutoff)
  {
    if log != [] {
      var before, last := log[..|log| - 1], log[|log| - 1];
      if last <= cutoff {
        RecentNone(log, cutoff);
      } else if m > 1 {
        RecentFewerIff(before, cutoff, m - 1);
      }
    }
  }

  lemma {:induction false} RecentNone(log: seq<real>, cutoff: real)
    requires forall i :: 0 <= i < |log| ==> log[i] <= cutoff
    ensures Recent(log, cutoff) == []
  {
    if log != [] {
      RecentNone(log[..|log| - 1], cutoff);
    }
  }

  /** The admission test in terms of one entry of the log. */
  lemma AdmitsIff(ts: seq<real>, now: real, lim: Limit)
    requires Past(ts, now) && lim.window > 0.0 && lim.max > 0
    ensures var log := Log(ts, lim);
            Admits(ts, now, lim) <==> |log| < lim.max || log[|log| - lim.max] <= now - lim.window
  {
    hide Log, Admits;
    var log, cutoff := Log(ts, lim), now - lim.window;
    assert Sorted(log) by {
      LogPast(ts, now, lim);
      PastSorted(log, now);
    }
    assert Admits(ts, now, lim) <==> |Recent(log, cutoff)| < lim.max by {
      AdmitsIffRecent(ts, now, lim);
    }
    RecentFewerIff(log, cutoff, lim.max);
  }

  /** The reference rule: keep the whole log and admit when the entry `max` places back
      has left the window. */
  function Reference(ts: seq<real>, max: nat, w: real): seq<real>
    requires max > 0
  {
    if ts == [] then []
    else
      var log := Reference(ts[..|ts| - 1], max, w);
      var now := ts[|ts| - 1];
      if |log| < max || log[|log| - max] <= now - w then log + [now] else log
  }

  lemma {:induction false} LogIsReference(ts: seq<real>, now: real, lim: Limit)
    requires Past(ts, now) && lim.window > 0.0 && lim.max > 0
    ensures Log(ts, lim) == Reference(ts, lim.max, lim.window)
  {
    if ts != [] {
      LogIsReference(ts[..|ts| - 1], ts[|ts| - 1], lim);
      AdmitsIff(ts[..|ts| - 1], ts[|ts| - 1], lim);
    }
  }

  lemma {:induction false} ReferencePast(ts: seq<real>, now: real, max: nat, w: real)
    requires Past(ts, now) && max > 0
    ensures Past(Reference(ts, max, w), now)
  {
    if ts != [] {
      ReferencePast(ts[..|ts| - 1], ts[|ts| - 1], max, w);
    }
  }

  lemma {:induction false} ReferenceSpaced(ts: seq<real>, max: nat, w: real)
    requires max > 0
    ensures Spaced(Reference(ts, max, w), max, w)
  {
    if ts != [] {
      ReferenceSpaced(ts[..|ts| - 1], max, w);
    }
  }

  lemma {:induction false} CountAtMost(log: seq<real>, lo: real, hi: real, m: nat)
    requires Sorted(log)
    requires |log| <= m || log[|log| - 1 - m] < lo
    ensures CountIn(log, lo, hi) <= m
  {
    if log != [] {
      var before := log[..|log| - 1];
      if m > 0 {
        CountAtMost(before, lo, hi, m - 1);
      } else {
        CountAtMost(before, lo, hi, 0);
      }
    }
  }

  lemma {:induction false} SpacedWindow(log: seq<real>, lo: real, hi: real, max: nat, w: real)
    requires Sorted(log) && Spaced(log, max, w) && hi <= lo + w
    ensures CountIn(log, lo, hi) <= max
  {
    if log != [] {
      var last := log[|log| - 1];
      if last < hi && |log| > max {
        assert log[|log| - 1 - max] + w <= log[|log| - 1 - max + max];
        CountAtMost(log, lo, hi, max);
      } else if |log| <= max {
        CountAtMost(log, lo, hi, max);
      } else {
        SpacedWindow(log[..|log| - 1], lo, hi, max, w);
      }
    }
  }

  lemma {:induction false} CountRun(log: seq<real>, lo: real, hi: real, i: nat, j: nat)
    requires i <= j <= |log|
    requires forall k :: i <= k < j ==> lo <= log[k] < hi
    ensures CountIn(log, lo, hi) >= j - i
  {
    if log != [] {
      CountRun(log[..|log| - 1], lo, hi, if i < |log| then i else i - 1, if j < |log| then j else j - 1);
    }
  }

  /** Bounding every window and spacing the entries are the same thing. */
  lemma WithinWindowsIffSpaced(log: seq<real>, max: nat, w: real)
    requires Sorted(log)
    ensures WithinWindows(log, max, w) <==> Spaced(log, max, w)
  {
    if Spaced(log, max, w) {
      forall lo: real
        ensures InWindow(log, lo, w) <= max
      {
        SpacedWindow(log, lo, lo + w, max, w);
      }
    }
    if WithinWindows(log, max, w) {
      forall i | 0 <= i < |log| - max
        ensures log[i] + w <= log[i + max]
      {
        assert InWindow(log, log[i], w) <= max;
        if log[i + max] < log[i] + w {
          CountRun(log, log[i], log[i] + w, i, i + max + 1);
        }
      }
    }
  }

  /** Main result: whatever the request times, every half-open window of the configured
      length holds at most `max` admissions. */
  lemma AdmissionsWithinWindows(ts: seq<real>, lim: Limit)
    requires Sorted(ts) && lim.window > 0.0
    ensures WithinWindows(Log(ts, lim), if lim.max > 0 then lim.max else 0, lim.window)
  {
    if ts != [] && lim.max > 0 {
      var now := ts[|ts| - 1];
      SortedPast(ts);
      LogPast(ts, now, lim);
      PastSorted(Log(ts, lim), now);
      LogIsReference(ts, now, lim);
      ReferenceSpaced(ts, lim.max, lim.window);
      WithinWindowsIffSpaced(Log(ts, lim), lim.max, lim.window);
    } else if ts != [] {
      NothingAdmitted(ts, lim);
    }
  }

  lemma {:induction false} NothingAdmitted(ts: seq<real>, lim: Limit)
    requires lim.max <= 0
    ensures Log(ts, lim) == []
  {
    if ts != [] {
      NothingAdmitted(ts[..|ts| - 1], lim);
    }
  }

  lemma {:induction false} CountSplit(log: seq<real>, lo: real, mid: real, hi: real)
    requires lo <= mid <= hi
    ensures CountIn(log, lo, hi) == CountIn(log, lo, mid) + CountIn(log, mid, hi)
  {
    if log != [] {
      CountSplit(log[..|log| - 1], lo, mid, hi);
    }
  }

  lemma MulMonotone(a: real, b: real, w: real)
    requires w > 0.0
    ensures a <= b ==> a * w <= b * w
    ensures a < b ==> a * w < b * w
  {
    if a < b {
      assert (b - a) * w > 0.0;
    }
  }

  lemma {:induction false} CountInLength(log: seq<real>, lo: real, hi: real, max: nat, w: real, k: nat)
    requires WithinWindows(log, max, w) && w > 0.0
    requires lo <= hi <= lo + k as real * w
    ensures CountIn(log, lo, hi) <= max * k
    decreases k
  {
    if k == 0 {
      CountEmpty(log, lo, hi);
    } else {
      var mid := if hi < lo + w then hi else lo + w;
      CountSplit(log, lo, mid, hi);
      assert InWindow(log, lo, w) <= max;
      CountSplit(log, lo, mid, lo + w);
      assert k as real * w == (k - 1) as real * w + w;
      MulMonotone(0.0, (k - 1) as real, w);
      CountInLength(log, mid, hi, max, w, k - 1);
      assert max * k == max * (k - 1) + max;
    }
  }

  lemma {:induction false} CountEmpty(log: seq<real>, lo: real, hi: real)
    requires hi <= lo
    ensures CountIn(log, lo, hi) == 0
  {
    if log != [] {
      CountEmpty(log[..|log| - 1], lo, hi);
    }
  }

  /** Main result: an interval that `k` windows cover holds at most `max * k` admissions;
      with the least such `k` this is `max * ceil(length / window)`. */
  lemma AdmissionsInAnyLength(ts: seq<real>, lim: Limit, lo: real, hi: real, k: nat)
    requires Sorted(ts) && lim.window > 0.0 && lim.max >= 0
    requires lo <= hi <= lo + k as real * lim.window
    ensures CountIn(Log(ts, lim), lo, hi) <= lim.max * k
  {
    AdmissionsWithinWindows(ts, lim);
    CountInLength(Log(ts, lim), lo, hi, lim.max, lim.window, k);
  }

  // --- no other rule within the same windows admits more ----------------------------------

  /** The requests picked by `pick`. */
  function Select(ts: seq<real>, pick: seq<bool>): seq<real>
    requires |pick| == |ts|
  {
    if ts == [] then []
    else
      var rest := Select(ts[..|ts| - 1], pick[..|ts| - 1]);
      if pick[|ts| - 1] then rest + [ts[|ts| - 1]] else rest
  }

  lemma {:induction false} SelectPast(ts: seq<real>, pick: seq<bool>, now: real)
    requires |pick| == |ts| && Past(ts, now)
    ensures Past(Select(ts, pick), now)
  {
    if ts != [] {
      SelectPast(ts[..|ts| - 1], pick[..|ts| - 1], ts[|ts| - 1]);
    }
  }

  /** The exchange step made an invariant: the limiter has admitted at least as many
      requests, and its j-th admission is never later than the other rule's j-th pick. */
  lemma {:induction false} StaysAhead(ts: seq<real>, pick: seq<bool>, end: real, max: nat, w: real)
    requires |pick| == |ts| && Past(ts, end) && max > 0
    requires Spaced(Select(ts, pick), max, w)
    ensures Ahead(Reference(ts, max, w), Select(ts, pick))
  {
    if ts != [] {
      var before, now := ts[..|ts| - 1], ts[|ts| - 1];
      var other := Select(before, pick[..|before|]);
      var mine := Reference(before, max, w);
      assert Past(before, now);
      assert Select(ts, pick) == if pick[|ts| - 1] then other + [now] else other;
      assert Reference(ts, max, w) ==
             if |mine| < max || mine[|mine| - max] <= now - w then mine + [now] else mine;
      SpacedPrefix(other, Select(ts, pick), max, w);
      hide Select, Reference, Past, Spaced;
      StaysAhead(before, pick[..|before|], now, max, w);
      ReferencePast(before, now, max, w);
      PastSorted(mine, now);
      if pick[|ts| - 1] {
        AheadStep(mine, other, now, max, w);
      }
    }
  }

  ghost predicate Ahead(mine: seq<real>, other: seq<real>) {
    |mine| >= |other| && forall j :: 0 <= j < |other| ==> mine[j] <= other[j]
  }

  lemma SpacedPrefix(some: seq<real>, all: seq<real>, max: nat, w: real)
    requires some <= all && Spaced(all, max, w)
    ensures Spaced(some, max, w)
  {
    forall i | 0 <= i < |some| - max
      ensures some[i] + w <= some[i + max]
    {
      assert all[i] + w <= all[i + max];
    }
  }

  lemma AheadStep(mine: seq<real>, other: seq<real>, now: real, max: nat, w: real)
    requires max > 0 && Ahead(mine, other)
    requires forall i :: 0 <= i < |mine| ==> mine[i] <= now
    requires Spaced(other + [now], max, w)
    ensures var admitted := |mine| < max || mine[|mine| - max] <= now - w;
            Ahead(if admitted then mine + [now] else mine, other + [now])
  {
    var c := |other|;
    if |mine| == c >= max {
      assert (other + [now])[c - max] + w <= (other + [now])[c - max + max];
    }
  }

  lemma {:induction false} SelectPrefix(ts: seq<real>, pick: seq<bool>, n: nat)
    requires |pick| == |ts| && n <= |ts|
    ensures Select(ts[..n], pick[..n]) <= Select(ts, pick)
    decreases |ts|
  {
    if n < |ts| {
      SelectPrefix(ts[..|ts| - 1], pick[..|ts| - 1], n);
      assert ts[..|ts| - 1][..n] == ts[..n] && pick[..|ts| - 1][..n] == pick[..n];
    } else {
      assert ts[..n] == ts && pick[..n] == pick;
    }
  }

  /** Main result: for nondecreasing request times, no other choice of those requests
      that keeps at most `max` per half-open window has admitted more after any prefix. */
  lemma GreedyOptimal(ts: seq<real>, pick: seq<bool>, lim: Limit, n: nat)
    requires |pick| == |ts| && Sorted(ts) && lim.window > 0.0 && n <= |ts|
    requires WithinWindows(Select(ts, pick), lim.max, lim.window)
    ensures |Log(ts[..n], lim)| >= |Select(ts[..n], pick[..n])|
  {
    var all, some := Select(ts, pick), Select(ts[..n], pick[..n]);
    SelectPrefix(ts, pick, n);
    if n > 0 && lim.max > 0 {
      SortedPast(ts);
      SelectPast(ts, pick, ts[|ts| - 1]);
      PastSorted(all, ts[|ts| - 1]);
      WithinWindowsIffSpaced(all, lim.max, lim.window);
      SpacedPrefix(some, all, lim.max, lim.window);
      SortedPast(ts[..n]);
      LogIsReference(ts[..n], ts[n - 1], lim);
      StaysAhead(ts[..n], pick[..n], ts[n - 1], lim.max, lim.window);
    } else if n > 0 && all != [] {
      assert InWindow(all, all[0], lim.window) <= lim.max;
      CountRun(all, all[0], all[0] + lim.window, 0, 1);
    }
  }

  // --- what one more request does to a replay ------------------------------------------------

  /** `bucket` is the replay of the requests `ts`, all made by `clock`. */
  ghost predicate Tracks(bucket: seq<real>, ts: seq<real>, lim: Limit, clock: real) {
    bucket == Bucket(ts, lim) && Past(ts, clock)
  }

  lemma TracksCheck(bucket: seq<real>, ts: seq<real>, lim: Limit, clock: real, now: real)
    requires Tracks(bucket, ts, lim, clock) && clock <= now
    ensures Tracks(CheckBucket(bucket, now, lim).bucket, ts + [now], lim, now)
    ensures CheckBucket(bucket, now, lim).allowed == Admits(ts, now, lim)
  {
    assert (ts + [now])[..|ts|] == ts;
  }

  lemma TracksLater(bucket: seq<real>, ts: seq<real>, lim: Limit, clock: real, now: real)
    requires Tracks(bucket, ts, lim, clock) && clock <= now
    ensures Tracks(bucket, ts, lim, now)
  {}

  lemma FreshTracks(lim: Limit, clock: real)
    ensures Tracks([], [], lim, clock)
  {}

  // --- configuration ----------------------------------------------------------------------

  const GUI_KINDS: seq<string> := ["type_text", "key", "mouse_move", "click", "scroll"]
  const TERMINAL := "terminal_command"
  const OTHER := "other"
  const FALLBACK := Limit(60, 60.0)

  const DEFAULT_LIMITS: map<string, Limit> :=
    map["type_text" := Limit(30, 60.0), "key" := Limit(30, 60.0), "mouse_move" := Limit(30, 60.0),
        "click" := Limit(30, 60.0), "scroll" := Limit(30, 60.0), "terminal_command" := Limit(10, 60.0)]

  datatype RateLimitConfig = RateLimitConfig(gui: int, terminal: int, other: int)

  function LimitFor(limits: map<string, Limit>, kind: string): Limit {
    if kind in limits then limits[kind]
    else if OTHER in limits then limits[OTHER]
    else FALLBACK
  }

  lemma DefaultsInNumbers()
    ensures forall kind ::
              LimitFor(DEFAULT_LIMITS, kind) ==
              if kind in {"type_text", "key", "mouse_move", "click", "scroll"} then Limit(30, 60.0)
              else if kind == "terminal_command" then Limit(10, 60.0)
              else Limit(60, 60.0)
  {}

  method BuildLimits(cfg: Option<RateLimitConfig>) returns (limits: map<string, Limit>)
    ensures cfg.None? ==> limits == DEFAULT_LIMITS && forall kind ::
              LimitFor(limits, kind) ==
              if kind in {"type_text", "key", "mouse_move", "click", "scroll"} then Limit(30, 60.0)
              else if kind == "terminal_command" then Limit(10, 60.0)
              else Limit(60, 60.0)
    ensures cfg.Some? ==> forall kind ::
              LimitFor(limits, kind) ==
              if kind in GUI_KINDS then Limit(cfg.value.gui, 60.0)
              else if kind == TERMINAL then Limit(cfg.value.terminal, 60.0)
              else Limit(cfg.value.other, 60.0)
  {
    if cfg.None? {
      DefaultsInNumbers();
      return DEFAULT_LIMITS;
    }
    limits := map[];
    for i := 0 to |GUI_KINDS|
      invariant limits.Keys == set k | k in GUI_KINDS[..i]
      invariant forall k :: k in limits ==> limits[k] == Limit(cfg.value.gui, 60.0)
    {
      limits := limits[GUI_KINDS[i] := Limit(cfg.value.gui, 60.0)];
    }
    assert GUI_KINDS[..|GUI_KINDS|] == GUI_KINDS;
    limits := limits[TERMINAL := Limit(cfg.value.terminal, 60.0)];
    if OTHER !in limits {
      limits := limits[OTHER := Limit(cfg.value.other, 60.0)];
    }
  }

  // --- the class ----------------------------------------------------------------------------

  class RateLimiter {
    var limits: map<string, Limit>
    var buckets: map<string, seq<real>>
    // request times per kind since the buckets were last cleared
    ghost var requests: map<string, seq<real>>
    ghost var clock: real

    ghost predicate Valid()
      reads this
    {
      && buckets.Keys == requests.Keys
      && forall kind :: kind in requests ==> Tracks(buckets[kind], requests[kind], LimitFor(limits, kind), clock)
    }

    ghost function Requests(kind: string): seq<real>
      reads this
    {
      if kind in requests then requests[kind] else []
    }

    constructor (given: map<string, Limit>)
      ensures Valid() && requests == map[]
      ensures limits == if given == map[] then DEFAULT_LIMITS else given
    {
      limits := if given == map[] then DEFAULT_LIMITS else given;
      buckets, requests, clock := map[], map[], 0.0;
    }

    /** One `check` at time `now` of a clock that never runs backwards. */
    method Check(kind: string, now: real) returns (allowed: bool)
      requires Valid() && clock <= now
      modifies this
      ensures Valid() && clock == now && limits == old(limits)
      ensures requests == old(requests)[kind := old(Requests(kind)) + [now]]
      ensures allowed == Admits(old(Requests(kind)), now, LimitFor(limits, kind))
    {
      hide Tracks, Bucket, Past, Admits, CheckBucket;
      var lim := LimitFor(limits, kind);
      ghost var past := Requests(kind);
      forall k | k in requests
        ensures Tracks(buckets[k], requests[k], LimitFor(limits, k), now)
      {
        TracksLater(buckets[k], requests[k], LimitFor(limits, k), clock, now);
      }
      if kind !in buckets {
        FreshTracks(lim, now);
        buckets := buckets[kind := []];
      }
      TracksCheck(buckets[kind], past, lim, now, now);
      var next;
      next, allowed := CheckOne(buckets[kind], now, lim);
      buckets := buckets[kind := next];
      requests := requests[kind := past + [now]];
      clock := now;
    }

    /** The eviction loop and the size test on the kind's own bucket. */
    static method CheckOne(given: seq<real>, now: real, lim: Limit) returns (bucket: seq<real>, allowed: bool)
      ensures Outcome(bucket, allowed) == CheckBucket(given, now, lim)
    {
      var cutoff := now - lim.window;
      bucket := given;
      while bucket != [] && bucket[0] <= cutoff
        invariant Evict(bucket, cutoff) == Evict(given, cutoff)
      {
        bucket := bucket[1..];
      }
      if |bucket| >= lim.max {
        return bucket, false;
      }
      return bucket + [now], true;
    }

    method Reset()
      modifies this
      ensures Valid() && requests == map[] && limits == old(limits) && clock == old(clock)
    {
      buckets, requests := map[], map[];
    }

    method Reconfigure(cfg: RateLimitConfig)
      modifies this
      ensures Valid() && requests == map[] && clock == old(clock)
      ensures forall kind ::
                LimitFor(limits, kind) ==
                if kind in GUI_KINDS then Limit(cfg.gui, 60.0)
                else if kind == TERMINAL then Limit(cfg.terminal, 60.0)
                else Limit(cfg.other, 60.0)
    {
      limits := BuildLimits(Some(cfg));
      buckets, requests := map[], map[];
    }
  }
}
