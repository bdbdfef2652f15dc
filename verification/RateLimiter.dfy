/** The fixed-window rate limiter: its table, what the table is a summary of, and what the
    summary guarantees over any sliding interval. */
module RateLimiter {
  import opened Wrappers

  const WINDOW_SECONDS: real := 60.0

  /** The length of `k` windows. */
  function Windows(k: nat): (r: real)
    ensures r >= 0.0
  {
    if k == 0 then 0.0 else Windows(k - 1) + WINDOW_SECONDS
  }

  datatype WindowKey = WindowKey(bucket: string, key: string)

  datatype Window = Window(start: real, count: nat)

  type Table = map<WindowKey, Window>

  /** The window of one key after one more call. */
  function Advance(w: Option<Window>, now: real): Window {
    if w.None? || now - w.value.start >= WINDOW_SECONDS then Window(now, 1)
    else Window(w.value.start, w.value.count + 1)
  }

  function Lookup(t: Table, k: WindowKey): Option<Window> {
    if k in t then Some(t[k]) else None
  }

  // ---- traces ----

  datatype Call = Call(key: WindowKey, now: real)

  function TableAfter(t: Table, calls: seq<Call>): Table {
    if calls == [] then t
    else
      var before := TableAfter(t, calls[..|calls| - 1]);
      var last := calls[|calls| - 1];
      before[last.key := Advance(Lookup(before, last.key), last.now)]
  }

  /** Whether the limiter accepts call `i` of a trace that starts from an empty table. */
  predicate Accepts(calls: seq<Call>, i: nat, limit: int)
    requires i < |calls|
  {
    Advance(Lookup(TableAfter(map[], calls[..i]), calls[i].key), calls[i].now).count <= limit
  }

  // ---- one key at a time ----

  /** The times of the calls of one key. */
  function TimesOf(calls: seq<Call>, k: WindowKey): seq<real> {
    if calls == [] then []
    else
      var last := calls[|calls| - 1];
      TimesOf(calls[..|calls| - 1], k) + if last.key == k then [last.now] else []
  }

  /** The window of a limiter that has only ever seen one key. */
  function WindowAfter(ts: seq<real>): Option<Window> {
    if ts == [] then None else Some(Advance(WindowAfter(ts[..|ts| - 1]), ts[|ts| - 1]))
  }

  lemma {:induction false} KeysAreIndependent(calls: seq<Call>, k: WindowKey)
    ensures Lookup(TableAfter(map[], calls), k) == WindowAfter(TimesOf(calls, k))
  {
    if calls != [] {
      KeysAreIndependent(calls[..|calls| - 1], k);
      var ts := TimesOf(calls[..|calls| - 1], k);
      var last := calls[|calls| - 1];
      assert (ts + [last.now])[..|ts|] == ts;
      assert ts + [] == ts;
    }
  }

  // ---- the specification that keeps every timestamp ----

  /** The first call at or after `i` that is a whole window later than call `s`, or the end. */
  function NextStart(ts: seq<real>, s: nat, i: nat): (n: nat)
    requires s < i <= |ts|
    ensures i <= n <= |ts|
    ensures forall j :: i <= j < n ==> ts[j] - ts[s] < WINDOW_SECONDS
    ensures n < |ts| ==> ts[n] - ts[s] >= WINDOW_SECONDS
    decreases |ts| - i
  {
    if i == |ts| || ts[i] - ts[s] >= WINDOW_SECONDS then i else NextStart(ts, s, i + 1)
  }

  /** Rebuild the windows from the whole history, the first one starting at `s`: where the last one starts. */
  function LastStart(ts: seq<real>, s: nat): (n: nat)
    requires s < |ts|
    ensures s <= n < |ts|
    decreases |ts| - s
  {
    var n := NextStart(ts, s, s + 1);
    if n == |ts| then s else LastStart(ts, n)
  }

  /** The decision on the last call of a history: how many calls its window holds so far. */
  predicate SpecAccepts(ts: seq<real>, limit: int)
    requires ts != []
  {
    |ts| - LastStart(ts, 0) <= limit
  }

  /** One more call either opens a window or joins the last one. */
  lemma {:induction false} LastStartAppend(ts: seq<real>, t: real, s: nat)
    requires s < |ts|
    ensures LastStart(ts + [t], s) ==
      if t - ts[LastStart(ts, s)] >= WINDOW_SECONDS then |ts| else LastStart(ts, s)
    decreases |ts| - s
  {
    NextStartAppend(ts, t, s, s + 1);
    var n := NextStart(ts, s, s + 1);
    if n < |ts| { LastStartAppend(ts, t, n); }
  }

  lemma {:induction false} NextStartAppend(ts: seq<real>, t: real, s: nat, i: nat)
    requires s < i <= |ts|
    ensures
      var n := NextStart(ts, s, i);
      NextStart(ts + [t], s, i) ==
        if n < |ts| then n else if t - ts[s] >= WINDOW_SECONDS then |ts| else |ts| + 1
    decreases |ts| - i
  {
    if i < |ts| && ts[i] - ts[s] < WINDOW_SECONDS { NextStartAppend(ts, t, s, i + 1); }
  }

  /** The (start, count) pair is exactly that summary of the history. */
  lemma {:induction false} PairSummarisesHistory(ts: seq<real>)
    requires ts != []
    ensures WindowAfter(ts) == Some(Window(ts[LastStart(ts, 0)], |ts| - LastStart(ts, 0)))
  {
    var init := ts[..|ts| - 1];
    assert ts == init + [ts[|ts| - 1]];
    if init != [] {
      PairSummarisesHistory(init);
      LastStartAppend(init, ts[|ts| - 1], 0);
    }
  }

  /** Refinement: on every trace, of any number of keys, in any order, the table decides each call as
      the timestamp-keeping specification decides it on that key's calls alone. */
  lemma TableRefinesHistory(calls: seq<Call>, i: nat, limit: int)
    requires i < |calls|
    ensures TimesOf(calls[..i + 1], calls[i].key) != []
    ensures Accepts(calls, i, limit) == SpecAccepts(TimesOf(calls[..i + 1], calls[i].key), limit)
  {
    var k := calls[i].key;
    assert calls[..i + 1][..i] == calls[..i];
    var before := TimesOf(calls[..i], k);
    var ts := TimesOf(calls[..i + 1], k);
    assert ts == before + [calls[i].now] && ts[..|ts| - 1] == before;
    KeysAreIndependent(calls[..i], k);
    PairSummarisesHistory(ts);
  }

  lemma OneMoreCall(calls: seq<Call>, call: Call, limit: int)
    ensures
      var w := Advance(Lookup(TableAfter(map[], calls), call.key), call.now);
      && TableAfter(map[], calls + [call]) == TableAfter(map[], calls)[call.key := w]
      && TimesOf(calls + [call], call.key) == TimesOf(calls, call.key) + [call.now]
      && (w.count <= limit) == SpecAccepts(TimesOf(calls, call.key) + [call.now], limit)
  {
    var more := calls + [call];
    assert more[..|calls|] == calls && more[..|calls| + 1] == more;
    TableRefinesHistory(more, |calls|, limit);
  }

  // ---- the limiter ----

  class FixedWindowRateLimiter {
    var windows: Table

    /** Every call so far, for the specification only. */
    ghost var history: seq<Call>

    ghost predicate Valid()
      reads this
    {
      windows == TableAfter(map[], history)
    }

    constructor ()
      ensures Valid() && history == []
    {
      windows, history := map[], [];
    }

    /** False stands for raising `RateLimitExceededError`; the lock makes each call one step. The answer
        is the one the timestamp-keeping specification gives on this key's calls. */
    method Check(bucket: string, key: string, limit: int, now: real) returns (accepted: bool)
      requires Valid()
      modifies this
      ensures Valid() && history == old(history) + [Call(WindowKey(bucket, key), now)]
      ensures TimesOf(history, WindowKey(bucket, key)) == TimesOf(old(history), WindowKey(bucket, key)) + [now]
      ensures accepted == SpecAccepts(TimesOf(history, WindowKey(bucket, key)), limit)
    {
      var k := WindowKey(bucket, key);
      var start, count := now, 0;
      if k in windows { start, count := windows[k].start, windows[k].count; }
      if now - start >= WINDOW_SECONDS { start, count := now, 0; }
      count := count + 1;
      windows := windows[k := Window(start, count)];
      accepted := count <= limit;
      OneMoreCall(history, Call(k, now), limit);
      history := history + [Call(k, now)];
    }

    method Reset()
      modifies this
      ensures Valid() && history == []
    {
      windows, history := map[], [];
    }
  }

  // ---- the sliding bound ----

  predicate Sorted(ts: seq<real>) {
    forall i, j :: 0 <= i < j < |ts| ==> ts[i] <= ts[j]
  }

  /** No call is counted in a window that started after it. */
  predicate Timely(w: Option<Window>, ts: seq<real>)
    decreases |ts|
  {
    ts == [] || ((w.Some? ==> w.value.start <= ts[0]) && Timely(Some(Advance(w, ts[0])), ts[1..]))
  }

  lemma {:induction false} SortedIsTimely(w: Option<Window>, ts: seq<real>)
    requires Sorted(ts) && (w.Some? && ts != [] ==> w.value.start <= ts[0])
    ensures Timely(w, ts)
    decreases |ts|
  {
    if ts != [] { SortedIsTimely(Some(Advance(w, ts[0])), ts[1..]); }
  }

  /** From a window `w`, the number of the calls `ts` that are accepted and fall in `[lo, hi)`. */
  function AcceptedFrom(w: Option<Window>, ts: seq<real>, limit: int, lo: real, hi: real): nat
    decreases |ts|
  {
    if ts == [] then 0
    else
      var next := Advance(w, ts[0]);
      (if next.count <= limit && lo <= ts[0] < hi then 1 else 0) + AcceptedFrom(Some(next), ts[1..], limit, lo, hi)
  }

  /** What is left of a window's allowance. */
  function Remaining(w: Window, limit: int): nat {
    if w.count < limit then limit - w.count else 0
  }

  lemma {:induction false} NoneAfter(w: Window, ts: seq<real>, limit: int, lo: real, hi: real)
    requires Timely(Some(w), ts) && hi <= w.start
    ensures AcceptedFrom(Some(w), ts, limit, lo, hi) == 0
    decreases |ts|
  {
    if ts != [] { NoneAfter(Advance(Some(w), ts[0]), ts[1..], limit, lo, hi); }
  }

  /** If at most `m` further windows can start before `hi`, at most `m` more allowances are spent. */
  lemma {:induction false} SpentBefore(w: Window, ts: seq<real>, limit: nat, lo: real, hi: real, m: nat)
    requires Timely(Some(w), ts)
    requires hi <= w.start + Windows(m + 1)
    ensures AcceptedFrom(Some(w), ts, limit, lo, hi) <= Remaining(w, limit) + m * limit
    decreases |ts|
  {
    if ts != [] {
      var next := Advance(Some(w), ts[0]);
      if ts[0] - w.start < WINDOW_SECONDS {
        SpentBefore(next, ts[1..], limit, lo, hi, m);
      } else if ts[0] >= hi {
        NoneAfter(next, ts[1..], limit, lo, hi);
      } else {
        SpentBefore(next, ts[1..], limit, lo, hi, m - 1);
        assert m * limit == (m - 1) * limit + limit;
      }
    }
  }

  /** From any window that has already seen a call, or from none. */
  lemma {:induction false} SpentWithin(w: Option<Window>, ts: seq<real>, limit: nat, lo: real, k: nat)
    requires Timely(w, ts) && limit >= 1 && (w.Some? ==> w.value.count >= 1)
    ensures AcceptedFrom(w, ts, limit, lo, lo + Windows(k)) <= k * limit + limit - 1
    decreases |ts|
  {
    var hi := lo + Windows(k);
    if ts != [] {
      var next := Advance(w, ts[0]);
      if ts[0] < lo {
        SpentWithin(Some(next), ts[1..], limit, lo, k);
      } else if w.Some? && ts[0] - w.value.start < WINDOW_SECONDS {
        SpentBefore(w.value, ts, limit, lo, hi, k);
      } else if ts[0] >= hi {
        NoneAfter(next, ts[1..], limit, lo, hi);
      } else {
        SpentBefore(next, ts[1..], limit, lo, hi, k - 1);
        assert k * limit == (k - 1) * limit + limit;
      }
    }
  }

  /** Accepted calls of key `k` in `[lo, hi)` on an interleaved trace. */
  function AcceptedIn(calls: seq<Call>, k: WindowKey, limit: int, lo: real, hi: real): nat {
    if calls == [] then 0
    else
      var i := |calls| - 1;
      AcceptedIn(calls[..i], k, limit, lo, hi) +
      if calls[i].key == k && lo <= calls[i].now < hi && Accepts(calls, i, limit) then 1 else 0
  }

  lemma {:induction false} AcceptedFromAppend(w: Option<Window>, ts: seq<real>, t: real, limit: int, lo: real, hi: real)
    ensures AcceptedFrom(w, ts + [t], limit, lo, hi) == AcceptedFrom(w, ts, limit, lo, hi) +
      if Advance(FoldFrom(w, ts), t).count <= limit && lo <= t < hi then 1 else 0
    decreases |ts|
  {
    if ts == [] {
    } else {
      assert (ts + [t])[1..] == ts[1..] + [t];
      AcceptedFromAppend(Some(Advance(w, ts[0])), ts[1..], t, limit, lo, hi);
    }
  }

  function FoldFrom(w: Option<Window>, ts: seq<real>): Option<Window>
    decreases |ts|
  {
    if ts == [] then w else FoldFrom(Some(Advance(w, ts[0])), ts[1..])
  }

  lemma {:induction false} FoldAppend(w: Option<Window>, ts: seq<real>, t: real)
    ensures FoldFrom(w, ts + [t]) == Some(Advance(FoldFrom(w, ts), t))
    decreases |ts|
  {
    if ts != [] {
      assert (ts + [t])[1..] == ts[1..] + [t];
      FoldAppend(Some(Advance(w, ts[0])), ts[1..], t);
    }
  }

  lemma {:induction false} FoldIsWindowAfter(ts: seq<real>)
    ensures FoldFrom(None, ts) == WindowAfter(ts)
  {
    if ts != [] {
      FoldIsWindowAfter(ts[..|ts| - 1]);
      FoldAppend(None, ts[..|ts| - 1], ts[|ts| - 1]);
      assert ts == ts[..|ts| - 1] + [ts[|ts| - 1]];
    }
  }

  lemma {:induction false} CountsAgree(calls: seq<Call>, k: WindowKey, limit: int, lo: real, hi: real)
    ensures AcceptedIn(calls, k, limit, lo, hi) == AcceptedFrom(None, TimesOf(calls, k), limit, lo, hi)
  {
    if calls != [] {
      var i := |calls| - 1;
      var ts := TimesOf(calls[..i], k);
      CountsAgree(calls[..i], k, limit, lo, hi);
      KeysAreIndependent(calls[..i], k);
      FoldIsWindowAfter(ts);
      AcceptedFromAppend(None, ts, calls[i].now, limit, lo, hi);
      assert ts + [] == ts;
    }
  }

  ghost predicate InOrder(calls: seq<Call>) {
    forall i, j :: 0 <= i < j < |calls| ==> calls[i].now <= calls[j].now
  }

  lemma {:induction false} TimesSorted(calls: seq<Call>, k: WindowKey)
    requires InOrder(calls)
    ensures Sorted(TimesOf(calls, k))
    ensures forall i :: 0 <= i < |TimesOf(calls, k)| ==> TimesOf(calls, k)[i] <= calls[|calls| - 1].now
  {
    if calls != [] { TimesSorted(calls[..|calls| - 1], k); }
  }

  /** How many calls of one key may get through in an interval of `k` windows' length. */
  function Allowance(limit: int, k: nat): nat {
    if limit >= 1 && k >= 1 then (k + 1) * limit - 1 else 0
  }

  /** Accepted calls of one key in the half-open interval of `k` windows' length that starts at `lo`. */
  function AcceptedWithin(calls: seq<Call>, key: WindowKey, limit: int, lo: real, k: nat): nat {
    AcceptedIn(calls, key, limit, lo, lo + Windows(k))
  }

  predicate MeetsBound(calls: seq<Call>, key: WindowKey, limit: int, lo: real, k: nat) {
    AcceptedWithin(calls, key, limit, lo, k) <= Allowance(limit, k)
  }

  /** Whatever other keys do, and however the calls of one key are spaced, the bound is met as long as
      no call is counted in a window that started after it. That is enough, but not necessary: see
      `BoundHoldsExactly`. */
  lemma SlidingBoundIfTimely(calls: seq<Call>, key: WindowKey, limit: int, lo: real, k: nat)
    requires Timely(None, TimesOf(calls, key))
    ensures MeetsBound(calls, key, limit, lo, k)
  {
    CountsAgree(calls, key, limit, lo, lo + Windows(k));
    TimelyMeetsBound(TimesOf(calls, key), limit, lo, k);
  }

  lemma TimelyMeetsBound(ts: seq<real>, limit: int, lo: real, k: nat)
    requires Timely(None, ts)
    ensures AcceptedFrom(None, ts, limit, lo, lo + Windows(k)) <= Allowance(limit, k)
  {
    if k == 0 {
      NoneInEmpty(None, ts, limit, lo);
    } else if limit >= 1 {
      SpentWithin(None, ts, limit, lo, k);
      assert (k + 1) * limit == k * limit + limit;
    } else {
      NothingAccepted(None, ts, limit, lo, lo + Windows(k));
    }
  }

  /** Sliding bound: it is met by all calls that reach the table in order of time. */
  lemma SlidingBound(calls: seq<Call>, key: WindowKey, limit: int, lo: real, k: nat)
    requires InOrder(calls)
    ensures MeetsBound(calls, key, limit, lo, k)
  {
    TimesSorted(calls, key);
    SortedIsTimely(None, TimesOf(calls, key));
    SlidingBoundIfTimely(calls, key, limit, lo, k);
  }

  lemma {:induction false} NoneInEmpty(w: Option<Window>, ts: seq<real>, limit: int, lo: real)
    ensures AcceptedFrom(w, ts, limit, lo, lo) == 0
    decreases |ts|
  {
    if ts != [] { NoneInEmpty(Some(Advance(w, ts[0])), ts[1..], limit, lo); }
  }

  lemma {:induction false} NothingAccepted(w: Option<Window>, ts: seq<real>, limit: int, lo: real, hi: real)
    requires limit <= 0
    ensures AcceptedFrom(w, ts, limit, lo, hi) == 0
    decreases |ts|
  {
    if ts != [] { NothingAccepted(Some(Advance(w, ts[0])), ts[1..], limit, lo, hi); }
  }

  /** When a rejected call moves its window's start: only when the limit admits no call at all, and then
      exactly when the window is over. */
  lemma RejectedKeepsStart(w: Window, now: real, limit: int)
    requires Advance(Some(w), now).count > limit
    ensures Advance(Some(w), now).start != w.start <==> limit <= 0 && now - w.start >= WINDOW_SECONDS
    ensures Advance(Some(w), now).start == w.start <==> Advance(Some(w), now) == Window(w.start, w.count + 1)
  {
  }

  // ---- the bound is attained ----

  function Burst(t: real, n: nat): seq<real> {
    if n == 0 then [] else [t] + Burst(t, n - 1)
  }

  /** `n` full bursts, one at the start of each window from `t` on. */
  function Bursts(limit: nat, t: real, n: nat): seq<real>
    decreases n
  {
    if n == 0 then [] else Burst(t, limit) + Bursts(limit, t + WINDOW_SECONDS, n - 1)
  }

  /** One call opens a window, `limit - 1` follow just before it closes, then `k` full bursts. */
  function WorstCase(limit: nat, k: nat): seq<real>
    requires limit >= 1
  {
    [0.0] + Burst(59.0, limit - 1) + Bursts(limit, WINDOW_SECONDS, k)
  }

  /** A burst that fits in what is left of a window is accepted in full. */
  lemma {:induction false} BurstAccepted(w: Window, t: real, n: nat, rest: seq<real>, limit: nat, lo: real, hi: real)
    requires lo <= t < hi && 0.0 <= t - w.start < WINDOW_SECONDS && w.count + n <= limit
    ensures AcceptedFrom(Some(w), Burst(t, n) + rest, limit, lo, hi) ==
      n + AcceptedFrom(Some(Window(w.start, w.count + n)), rest, limit, lo, hi)
    decreases n
  {
    if n == 0 {
      assert Burst(t, 0) + rest == rest;
    } else {
      assert (Burst(t, n) + rest)[1..] == Burst(t, n - 1) + rest;
      BurstAccepted(Window(w.start, w.count + 1), t, n - 1, rest, limit, lo, hi);
    }
  }

  /** A full burst just after a window has closed is accepted in full, and fills the new window. */
  lemma NextBurstAccepted(w: Window, t: real, rest: seq<real>, limit: nat, lo: real, hi: real)
    requires limit >= 1 && w.start + WINDOW_SECONDS == t && lo <= t < hi
    ensures AcceptedFrom(Some(w), Burst(t, limit) + rest, limit, lo, hi) ==
      limit + AcceptedFrom(Some(Window(t, limit)), rest, limit, lo, hi)
  {
    var ts := Burst(t, limit) + rest;
    assert ts[0] == t && ts[1..] == Burst(t, limit - 1) + rest;
    BurstAccepted(Window(t, 1), t, limit - 1, rest, limit, lo, hi);
  }

  lemma {:induction false} BurstsAccepted(w: Window, limit: nat, t: real, n: nat, lo: real, hi: real)
    requires limit >= 1 && w.start + WINDOW_SECONDS == t && lo <= t && t + Windows(n) < hi + WINDOW_SECONDS
    ensures AcceptedFrom(Some(w), Bursts(limit, t, n), limit, lo, hi) == n * limit
    decreases n
  {
    if n > 0 {
      NextBurstAccepted(w, t, Bursts(limit, t + WINDOW_SECONDS, n - 1), limit, lo, hi);
      BurstsAccepted(Window(t, limit), limit, t + WINDOW_SECONDS, n - 1, lo, hi);
      assert n * limit == (n - 1) * limit + limit;
    }
  }

  lemma {:induction false} BurstSorted(t: real, n: nat)
    ensures |Burst(t, n)| == n && forall i :: 0 <= i < n ==> Burst(t, n)[i] == t
  {
    if n > 0 { BurstSorted(t, n - 1); }
  }

  lemma {:induction false} BurstsSorted(limit: nat, t: real, n: nat)
    ensures Sorted(Bursts(limit, t, n))
    ensures forall i :: 0 <= i < |Bursts(limit, t, n)| ==> t <= Bursts(limit, t, n)[i]
    decreases n
  {
    if n > 0 {
      BurstSorted(t, limit);
      BurstsSorted(limit, t + WINDOW_SECONDS, n - 1);
    }
  }

  lemma WorstCaseSorted(limit: nat, k: nat)
    requires limit >= 1
    ensures Sorted(WorstCase(limit, k))
  {
    BurstSorted(59.0, limit - 1);
    BurstsSorted(limit, WINDOW_SECONDS, k);
  }

  lemma WorstCaseAccepted(limit: nat, k: nat, hi: real)
    requires limit >= 1 && 59.0 < hi && Windows(k) < hi
    ensures AcceptedFrom(None, WorstCase(limit, k), limit, 59.0, hi) == limit - 1 + k * limit
  {
    var ts, rest := WorstCase(limit, k), Bursts(limit, WINDOW_SECONDS, k);
    assert ts[0] == 0.0 && ts[1..] == Burst(59.0, limit - 1) + rest;
    BurstAccepted(Window(0.0, 1), 59.0, limit - 1, rest, limit, 59.0, hi);
    BurstsAccepted(Window(0.0, limit), limit, WINDOW_SECONDS, k, 59.0, hi);
  }

  /** A trace of calls of one key. */
  function CallsAt(key: WindowKey, ts: seq<real>): (calls: seq<Call>)
    ensures |calls| == |ts| && forall i :: 0 <= i < |ts| ==> calls[i] == Call(key, ts[i])
  {
    seq(|ts|, i requires 0 <= i < |ts| => Call(key, ts[i]))
  }

  lemma {:induction false} TimesOfCallsAt(key: WindowKey, ts: seq<real>)
    ensures TimesOf(CallsAt(key, ts), key) == ts
  {
    if ts != [] {
      TimesOfCallsAt(key, ts[..|ts| - 1]);
      assert CallsAt(key, ts)[..|ts| - 1] == CallsAt(key, ts[..|ts| - 1]);
    }
  }

  lemma CountAt(key: WindowKey, ts: seq<real>, limit: int, lo: real, hi: real)
    ensures AcceptedIn(CallsAt(key, ts), key, limit, lo, hi) == AcceptedFrom(None, ts, limit, lo, hi)
  {
    hide AcceptedFrom, AcceptedIn, TimesOf, CallsAt;
    TimesOfCallsAt(key, ts);
    CountsAgree(CallsAt(key, ts), key, limit, lo, hi);
  }

  /** The sliding bound cannot be improved: for every key, every limit and every number of windows there
      are calls, in order of time, that attain it. */
  lemma SlidingBoundIsTight(key: WindowKey, limit: int, k: nat)
    ensures exists calls, lo :: InOrder(calls) && AcceptedWithin(calls, key, limit, lo, k) == Allowance(limit, k)
  {
    hide AcceptedFrom, Advance, Accepts;
    var hi := 59.0 + Windows(k);
    if limit >= 1 && k >= 1 {
      var calls := CallsAt(key, WorstCase(limit, k));
      WorstCaseSorted(limit, k);
      WorstCaseAccepted(limit, k, hi);
      CountAt(key, WorstCase(limit, k), limit, 59.0, hi);
      assert (k + 1) * limit == k * limit + limit;
      assert InOrder(calls) && AcceptedWithin(calls, key, limit, 59.0, k) == Allowance(limit, k);
    } else {
      assert InOrder([]) && AcceptedWithin([], key, limit, 59.0, k) == Allowance(limit, k);
    }
  }

  // ---- calls that reach the table late ----

  /** The clock is read before the lock is taken, so calls can reach the table out of order. No call is
      more than `d` earlier than one that reached the table before it. */
  ghost predicate LateBy(calls: seq<Call>, d: real) {
    forall i, j :: 0 <= i < j < |calls| ==> calls[i].now - calls[j].now <= d
  }

  /** With a limit of one, an accepted call opens a window and no other is accepted in it: what was
      accepted is a whole window apart, whatever order the calls came in. */
  lemma {:induction false} OneEach(w: Window, ts: seq<real>, lo: real, hi: real, m: nat)
    requires w.count >= 1 && hi <= w.start + Windows(m + 1)
    ensures AcceptedFrom(Some(w), ts, 1, lo, hi) <= m
    decreases |ts|
  {
    if ts != [] {
      var next := Advance(Some(w), ts[0]);
      if next.count == 1 && ts[0] < hi {
        OneEach(next, ts[1..], lo, hi, m - 1);
      } else {
        OneEach(next, ts[1..], lo, hi, m);
      }
    }
  }

  lemma {:induction false} OneEachWithin(w: Option<Window>, ts: seq<real>, lo: real, k: nat)
    requires w.Some? ==> w.value.count >= 1
    ensures AcceptedFrom(w, ts, 1, lo, lo + Windows(k)) <= k
    decreases |ts|
  {
    var hi := lo + Windows(k);
    if ts != [] {
      var next := Advance(w, ts[0]);
      if next.count == 1 && lo <= ts[0] < hi {
        OneEach(next, ts[1..], lo, hi, k - 1);
      } else {
        OneEachWithin(Some(next), ts[1..], lo, k);
      }
    }
  }

  lemma LimitOneIsSafe(calls: seq<Call>, key: WindowKey, limit: int, lo: real, k: nat)
    requires limit <= 1
    ensures MeetsBound(calls, key, limit, lo, k)
  {
    var ts, hi := TimesOf(calls, key), lo + Windows(k);
    CountsAgree(calls, key, limit, lo, hi);
    if limit == 1 { OneEachWithin(None, ts, lo, k); } else { NothingAccepted(None, ts, limit, lo, hi); }
  }

  /** A window opens at 0 and is filled just before 60; the next is filled at 60; one call opens a third at
      120, and the calls that read the clock before it, but come after it, are counted there. */
  function LateTrace(limit: nat, d: real): seq<real>
    requires limit >= 2
  {
    [0.0] + (Burst(60.0 - d / 2.0, limit - 1) + (Burst(60.0, limit) + ([120.0] + (Burst(120.0 - d, limit - 1) + []))))
  }

  lemma LateTraceIsLate(limit: nat, d: real, i: nat, j: nat)
    requires limit >= 2 && 0.0 < d <= 1.0 && i < j < |LateTrace(limit, d)|
    ensures LateTrace(limit, d)[i] - LateTrace(limit, d)[j] <= d
  {
    BurstSorted(60.0 - d / 2.0, limit - 1);
    BurstSorted(60.0, limit);
    BurstSorted(120.0 - d, limit - 1);
  }

  lemma LateTraceAccepted(limit: nat, d: real)
    requires limit >= 2 && 0.0 < d <= 1.0
    ensures AcceptedFrom(None, LateTrace(limit, d), limit, 60.0 - d / 2.0, 120.0 - d / 2.0) == 3 * limit - 2
  {
    var lo, hi := 60.0 - d / 2.0, 120.0 - d / 2.0;
    var last := Burst(120.0 - d, limit - 1) + [];
    var third := [120.0] + last;
    var second := Burst(60.0, limit) + third;
    var ts := LateTrace(limit, d);
    assert ts[0] == 0.0 && ts[1..] == Burst(lo, limit - 1) + second;
    BurstAccepted(Window(0.0, 1), lo, limit - 1, second, limit, lo, hi);
    SecondBurst(Window(0.0, limit), third, limit, lo, hi);
    assert third[0] == 120.0 && third[1..] == last;
    LateBurst(Window(120.0, 1), 120.0 - d, limit - 1, [], limit, lo, hi);
  }

  lemma SecondBurst(w: Window, rest: seq<real>, limit: nat, lo: real, hi: real)
    requires limit >= 1 && w.start == 0.0 && lo <= 60.0 < hi
    ensures AcceptedFrom(Some(w), Burst(60.0, limit) + rest, limit, lo, hi) ==
      limit + AcceptedFrom(Some(Window(60.0, limit)), rest, limit, lo, hi)
  {
    NextBurstAccepted(w, 60.0, rest, limit, lo, hi);
  }

  /** Late calls are counted in the window they find, not in the one their time falls in. */
  lemma {:induction false} LateBurst(w: Window, t: real, n: nat, rest: seq<real>, limit: nat, lo: real, hi: real)
    requires lo <= t < hi && t <= w.start && w.count + n <= limit
    ensures AcceptedFrom(Some(w), Burst(t, n) + rest, limit, lo, hi) ==
      n + AcceptedFrom(Some(Window(w.start, w.count + n)), rest, limit, lo, hi)
    decreases n
  {
    if n == 0 {
      assert Burst(t, 0) + rest == rest;
    } else {
      assert (Burst(t, n) + rest)[1..] == Burst(t, n - 1) + rest;
      LateBurst(Window(w.start, w.count + 1), t, n - 1, rest, limit, lo, hi);
    }
  }

  /** However small the delay, it is enough: with a limit of two or more there are calls, none of them
      later than `d`, of which `3 * limit - 2` are accepted in one window's length. */
  lemma LateCallsBreakTheBound(key: WindowKey, limit: int, d: real)
    requires limit >= 2 && d > 0.0
    ensures exists calls, lo ::
      LateBy(calls, d) && AcceptedWithin(calls, key, limit, lo, 1) == 3 * limit - 2 > Allowance(limit, 1)
  {
    hide AcceptedFrom, AcceptedIn, Advance, Accepts;
    var late := if d < 1.0 then d else 1.0;
    var ts, lo := LateTrace(limit, late), 60.0 - late / 2.0;
    var calls := CallsAt(key, ts);
    assert LateBy(calls, d) by {
      forall i, j | 0 <= i < j < |calls| ensures calls[i].now - calls[j].now <= d {
        LateTraceIsLate(limit, late, i, j);
      }
    }
    assert AcceptedWithin(calls, key, limit, lo, 1) == 3 * limit - 2 by {
      LateTraceAccepted(limit, late);
      CountAt(key, ts, limit, lo, 120.0 - late / 2.0);
    }
  }

  /** All traces whose calls are at most `d` late meet the bound, for this limit. */
  ghost predicate BoundedUpTo(limit: int, d: real) {
    forall calls, key, lo, k :: LateBy(calls, d) ==> MeetsBound(calls, key, limit, lo, k)
  }

  /** Exactly when the limiter meets its bound: no lateness at all can be tolerated, unless the limit is
      too small for lateness to matter. */
  lemma BoundHoldsExactly(limit: int, d: real)
    ensures BoundedUpTo(limit, d) <==> d <= 0.0 || limit <= 1
  {
    hide AcceptedIn;
    if limit <= 1 {
      forall calls, key, lo, k ensures MeetsBound(calls, key, limit, lo, k) {
        LimitOneIsSafe(calls, key, limit, lo, k);
      }
    } else if d <= 0.0 {
      forall calls, key, lo, k | LateBy(calls, d) ensures MeetsBound(calls, key, limit, lo, k) {
        assert InOrder(calls);
        SlidingBound(calls, key, limit, lo, k);
      }
    } else {
      var key := WindowKey("", "");
      LateCallsBreakTheBound(key, limit, d);
      var calls, lo :| LateBy(calls, d) && AcceptedWithin(calls, key, limit, lo, 1) > Allowance(limit, 1);
      assert !MeetsBound(calls, key, limit, lo, 1);
    }
  }
}
