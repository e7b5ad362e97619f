/**
 * The host's side of loss reports: counter differences and the range to mark, and what they
 * cover when some reports never arrive.
 */
module LossHost {
  import opened Numbers
  import opened LossDevice
  import opened LossReports

  // ----- the tracker

  datatype Tracker = Tracker(last: seq<nat>, havePrev: bool, nextNum: nat, prevEnd: nat, skipped: nat)

  /** A range to mark, and what each channel lost; one with 0 is not marked. */
  datatype Marked = Marked(start: nat, end: nat, lost: seq<nat>)

  function Fresh(n: nat): Tracker {
    Tracker(Zeros(n), false, 0, 0, 0)
  }

  /** The difference modulo 2^32 of two counters. */
  function Minus(now: nat, last: nat): nat {
    (now - last) % WRAP
  }

  function NowOf(last: seq<nat>, lost: seq<nat>): (r: seq<nat>)
    ensures |r| == |last|
  {
    seq(|last|, i requires 0 <= i < |last| => if i < |lost| then lost[i] else last[i])
  }

  function Differences(now: seq<nat>, last: seq<nat>): (r: seq<nat>)
    requires |now| == |last|
    ensures |r| == |last|
  {
    seq(|last|, i requires 0 <= i < |last| => Minus(now[i], last[i]))
  }

  /**
   * The tracker after one report and the range to mark. A number other than the expected one
   * widens the range down to where the previous report stopped, or down to 0.
   */
  function Take(t: Tracker, num: nat, lost: seq<nat>, start: nat, end: nat): (Tracker, Marked) {
    var now := NowOf(t.last, lost);
    var skip := num != t.nextNum;
    (Tracker(now, true, (num + 1) % WRAP, end, if skip then t.skipped + 1 else t.skipped),
     Marked(if !skip then start else if t.havePrev then t.prevEnd else 0, end, Differences(now, t.last)))
  }

  /** Takes over a report's counters, number and end without marking anything. */
  function Base(t: Tracker, num: nat, lost: seq<nat>, end: nat): Tracker {
    t.(last := NowOf(t.last, lost), havePrev := true, nextNum := (num + 1) % WRAP, prevEnd := end)
  }

  class LossTracker {
    var last: seq<nat>
    var lost: seq<nat>
    var havePrev: bool
    var nextNum: nat
    var prevEnd: nat
    var skipped: nat

    function View(): Tracker
      reads this
    {
      Tracker(last, havePrev, nextNum, prevEnd, skipped)
    }

    constructor (n: nat)
      ensures View() == Fresh(n)
    {
      last, lost, havePrev, nextNum, prevEnd, skipped := Zeros(n), Zeros(n), false, 0, 0, 0;
    }

    method TakeReport(num: nat, counters: seq<nat>, start: nat, end: nat) returns (out: Marked)
      modifies this
      ensures (View(), out) == Take(old(View()), num, counters, start, end)
    {
      ghost var was := last;
      var from := start;
      if num != nextNum {
        skipped := skipped + 1;
        from := if havePrev then prevEnd else 0;
      }
      ghost var s := skipped;
      lost := last;
      for i := 0 to |last|
        invariant |last| == |lost| == |was| && skipped == s
        invariant forall k :: 0 <= k < i ==> last[k] == NowOf(was, counters)[k] && lost[k] == Minus(last[k], was[k])
        invariant forall k :: i <= k < |was| ==> last[k] == was[k]
      {
        var now := if i < |counters| then counters[i] else last[i];
        lost := lost[i := Minus(now, last[i])];
        last := last[i := now];
      }
      assert last == NowOf(was, counters) && lost == Differences(last, was);
      havePrev, nextNum, prevEnd := true, (num + 1) % WRAP, end;
      out := Marked(from, end, lost);
    }

    method SetBase(num: nat, counters: seq<nat>, end: nat)
      modifies this`last, this`havePrev, this`nextNum, this`prevEnd
      ensures View() == Base(old(View()), num, counters, end)
    {
      ghost var was := last;
      for i := 0 to |last|
        invariant |last| == |was|
        invariant forall k :: 0 <= k < i ==> last[k] == NowOf(was, counters)[k]
        invariant forall k :: i <= k < |was| ==> last[k] == was[k]
      {
        if i < |counters| {
          last := last[i := counters[i]];
        }
      }
      assert last == NowOf(was, counters);
      havePrev, nextNum, prevEnd := true, (num + 1) % WRAP, end;
    }
  }

  // ----- positions

  /** A difference of two 32-bit numbers, as a signed one. */
  function Signed(d: int): int {
    var m := d % WRAP;
    if m >= WRAP / 2 then m - WRAP else m
  }

  /** The tick of a position; its grid count is unwrapped around the grid point the host is at. */
  function TickOf(at: nat, c: nat, p: Pos): nat {
    var g := at + Signed(p.grid - at);
    (if g < 0 then 0 else g) * c + p.off
  }

  lemma {:induction false} GridSplit(c: nat, x: nat)
    requires c > 0
    ensures 0 <= x / c && 0 <= x % c && x / c * c + x % c == x
  {
    var q, r := x / c, x % c;
    assert x == c * q + r;
    assert q >= 0;
    assert c * q == q * c;
  }

  lemma {:induction false} GridSmaller(c: nat, q: nat)
    requires c > 0
    ensures q <= q * c
  {
  }

  lemma {:induction false} MoreGrid(c: nat, g: nat, h: nat)
    requires c > 0 && g < h
    ensures g * c < h * c
  {
    assert h * c == g * c + (h - g) * c;
    GridSmaller(c, h - g);
  }

  lemma {:induction false} SameGrid(c: nat, g: nat, h: nat)
    requires c > 0 && g * c == h * c
    ensures g == h
  {
    if g < h {
      MoreGrid(c, g, h);
    }
    if h < g {
      MoreGrid(c, h, g);
    }
  }

  /** When the host, at grid point at, reads the tick of a position back. */
  predicate Readable(c: nat, at: nat, tick: nat)
    requires c > 0
  {
    tick / WRAP % c == 0 && -(WRAP / 2) <= tick / c - at < WRAP / 2
  }

  lemma {:induction false} ModUnique(a: int, b: int, m: nat)
    requires m > 0 && a % m == b % m
    ensures exists j: int :: a == b + j * m
  {
    assert a == b + (a / m - b / m) * m;
  }

  /** Grid counts that agree modulo 2^32 have the tick right when the wraps are whole ones of the grid. */
  lemma {:induction false} WrapsOfGrid(c: nat, tick: nat, j: nat)
    requires c > 0 && tick / WRAP == j * c
    ensures tick / c == j * WRAP + tick % WRAP / c && tick % c == tick % WRAP % c
  {
    var r := tick % WRAP;
    GridSplit(c, r);
    var g := j * WRAP + r / c;
    assert j * c * WRAP == j * WRAP * c;
    assert tick == g * c + r % c;
    Quotient(c, tick, g, r % c);
  }

  lemma {:induction false} Quotient(c: nat, x: nat, q: nat, r: nat)
    requires c > 0 && r < c && x == q * c + r
    ensures x / c == q && x % c == r
  {
    GridSplit(c, x);
    if x / c < q {
      MoreGrid(c, x / c + 1, q + 1);
      assert (x / c + 1) * c == x / c * c + c;
      assert (q + 1) * c == q * c + c;
      GridStep(c, x / c, q);
    }
    if q < x / c {
      GridStep(c, q, x / c);
    }
    SameGrid(c, x / c, q);
  }

  lemma {:induction false} GridStep(c: nat, g: nat, h: nat)
    requires c > 0 && g < h
    ensures g * c + c <= h * c
  {
    assert g * c + c == (g + 1) * c;
    if g + 1 < h {
      MoreGrid(c, g + 1, h);
    }
  }

  /** The grid point the host unwraps a position's to. */
  function GridFor(at: nat, grid: nat): int {
    at + Signed(grid - at)
  }

  /** It is the one within 2^31 of the host's. */
  lemma {:induction false} GridForIs(at: nat, grid: nat, g: int)
    requires g % WRAP == grid % WRAP && -(WRAP / 2) <= g - at < WRAP / 2
    ensures GridFor(at, grid) == g
  {
  }

  lemma {:induction false} GridForNear(at: nat, grid: nat)
    ensures GridFor(at, grid) % WRAP == grid % WRAP && -(WRAP / 2) <= GridFor(at, grid) - at < WRAP / 2
  {
  }

  /**
   * The host reads a position back exactly when its own grid point is within 2^31 of the
   * position's and the 2^32-tick wraps before it are a whole number of wraps of the grid count.
   */
  lemma {:induction false} PositionExact(c: nat, tick: nat, at: nat)
    requires c > 0
    ensures TickOf(at, c, PosOf(c, tick)) == tick <==> Readable(c, at, tick)
  {
    if Readable(c, at, tick) {
      ReadsBack(c, tick, at);
    } else if TickOf(at, c, PosOf(c, tick)) == tick {
      OnlyIfReadable(c, tick, at);
    }
  }

  lemma {:induction false} ReadsBack(c: nat, tick: nat, at: nat)
    requires c > 0 && Readable(c, at, tick)
    ensures TickOf(at, c, PosOf(c, tick)) == tick
  {
    var q, r := tick / WRAP, tick % WRAP;
    GridSplit(c, q);
    WrapsOfGrid(c, tick, q / c);
    GridSplit(c, r);
    GridSplit(c, tick);
    GridForIs(at, r / c, tick / c);
  }

  lemma {:induction false} OnlyIfReadable(c: nat, tick: nat, at: nat)
    requires c > 0 && TickOf(at, c, PosOf(c, tick)) == tick
    ensures Readable(c, at, tick)
  {
    var q, r := tick / WRAP, tick % WRAP;
    GridSplit(c, r);
    var p := r / c;
    var g := GridFor(at, p);
    GridForNear(at, p);
    ModUnique(g, p, WRAP);
    var j: int :| g == p + j * WRAP;
    assert tick == (if g < 0 then 0 else g) * c + r % c;
    hide GridFor, TickOf, PosOf, Readable;
    Signs(c, p);
    assert q * WRAP + p * c + r % c == (if g < 0 then 0 else g) * c + r % c;
    assert g < 0 ==> p * c == 0;
    assert g >= 0;
    WholeWraps(c, q, p, g, r % c, j);
    MultipleMod(c, j);
    WrapsOfGrid(c, tick, j);
    MakeReadable(c, at, tick, g, j);
  }

  lemma {:induction false} Signs(c: nat, j: int)
    requires c > 0
    ensures (j < 0 ==> j * c < 0) && (j * c == 0 ==> j == 0)
  {
    if j < 0 {
      GridSmaller(c, -j);
      assert j * c == -(-j * c);
    }
    if j > 0 {
      GridSmaller(c, j);
    }
  }

  lemma {:induction false} MakeReadable(c: nat, at: nat, tick: nat, g: int, j: nat)
    requires c > 0 && j * c % c == 0 && tick / WRAP == j * c && g == tick / c && -(WRAP / 2) <= g - at < WRAP / 2
    ensures Readable(c, at, tick)
  {
  }

  lemma {:induction false} WholeWraps(c: nat, q: nat, p: nat, g: nat, r: nat, j: int)
    requires c > 0 && q * WRAP + p * c + r == g * c + r && g == p + j * WRAP
    ensures j >= 0 && q == j * c
  {
    assert g * c == p * c + j * c * WRAP;
    assert q * WRAP == j * c * WRAP;
    Signs(c, j);
  }

  lemma {:induction false} MultipleMod(c: nat, j: nat)
    requires c > 0
    ensures j * c % c == 0
  {
    Quotient(c, j * c, j, 0);
  }

  /** Past 2^32 ticks a position no longer says which tick it was. */
  lemma {:induction false} PositionWraps(c: nat, tick: nat)
    requires c > 0
    ensures PosOf(c, tick + WRAP) == PosOf(c, tick)
  {
  }

  // ----- what the ranges cover

  /** The first loss report k does not tell of, reports 0 to k - 1 telling of those before. */
  function CutAt(s: Story, k: nat): nat {
    if k < |s.cuts| then s.cuts[k] else 0
  }

  /** Drops on channel i in losses 0 to m - 1. */
  function TotalAt(s: Story, m: nat, i: nat): nat {
    if 0 < m <= |s.losses| && i < |s.losses[m - 1].total| then s.losses[m - 1].total[i] else 0
  }

  /** Losses in order, counts growing, and the reports of them: what the device promises. */
  predicate Told(u: Setup, s: Story) {
    Fits(u) && SentOk(u, s) && Timeline(u.n, Begin(u).d.clean, s)
  }

  lemma {:induction false} SentIs(u: Setup, s: Story, k: nat)
    requires Told(u, s) && k < |s.sent|
    ensures k + 1 < |s.cuts| && s.cuts[k] < s.cuts[k + 1] <= |s.losses|
    ensures s.sent[k].num == k % WRAP && s.sent[k].lost == Wrapped(s.losses[s.cuts[k + 1] - 1].total) && |s.sent[k].lost| == u.n
  {
    assert s.sent[k] == ReportFor(u, s.losses, s.cuts[k], s.cuts[k + 1], k);
    hide PosOf, Wrapped;
  }

  /** The drops grow, and stay within what is counted. */
  lemma {:induction false} TotalsGrow(u: Setup, s: Story, m: nat, n: nat, i: nat)
    requires Told(u, s) && m <= n <= |s.losses| && i < u.n
    ensures TotalAt(s, m, i) <= TotalAt(s, n, i)
  {
    hide SentOk;
  }

  lemma {:induction false} CutsAscend(u: Setup, s: Story, j: nat, k: nat)
    requires Told(u, s) && j <= k < |s.cuts|
    ensures s.cuts[j] <= s.cuts[k] <= |s.losses|
    decreases k
  {
    if j < k {
      CutsAscend(u, s, j, k - 1);
      assert s.cuts[k - 1] < s.cuts[k];
    }
  }

  /** A report that arrives: which one, and the grid point the host is at. */
  datatype Arrival = Arrival(k: nat, at: nat)

  /** A report as the host takes it, its positions read as ticks at its grid point. */
  function TakeSent(u: Setup, t: Tracker, s: Story, a: Arrival): (Tracker, Marked) {
    if a.k < |s.sent| then
      var r := s.sent[a.k];
      Take(t, r.num, r.lost, TickOf(a.at, u.c, r.start), TickOf(a.at, u.c, r.end))
    else (t, Marked(0, 0, []))
  }

  /** The first loss not told of after report prev. */
  function FirstAfter(s: Story, prev: Option<nat>): nat {
    if prev.None? then 0 else CutAt(s, prev.value + 1)
  }

  function NextAfter(prev: Option<nat>): nat {
    if prev.None? then 0 else prev.value + 1
  }

  /** The tracker's counters are those of report prev, or zero before any. */
  predicate KnowsCounts(u: Setup, t: Tracker, s: Story, prev: Option<nat>) {
    && |t.last| == u.n && (forall i :: 0 <= i < u.n ==> t.last[i] == TotalAt(s, FirstAfter(s, prev), i) % WRAP)
    && (prev.Some? ==> prev.value < |s.sent|)
  }

  /** And it knows that report's number and end. */
  predicate Knows(u: Setup, t: Tracker, s: Story, prev: Option<nat>) {
    && KnowsCounts(u, t, s, prev) && t.havePrev == prev.Some? && t.nextNum == NextAfter(prev) % WRAP
    && (prev.Some? ==> 0 < FirstAfter(s, prev) <= |s.losses| && t.prevEnd == s.losses[FirstAfter(s, prev) - 1].end)
  }

  lemma {:induction false} FreshKnows(u: Setup, s: Story)
    ensures Knows(u, Fresh(u.n), s, None)
  {
  }

  /** A report can come after report prev, under 2^32 drops on each channel later. */
  predicate Close(u: Setup, s: Story, prev: Option<nat>, k: nat) {
    && NextAfter(prev) <= k < |s.sent|
    && forall i :: 0 <= i < u.n ==> TotalAt(s, CutAt(s, k + 1), i) < TotalAt(s, FirstAfter(s, prev), i) + WRAP
  }

  /** Fewer than 2^32 reports were lost before it, and the host reads the positions it uses back. */
  predicate Clear(u: Setup, s: Story, prev: Option<nat>, a: Arrival) {
    && u.c > 0 && CutAt(s, a.k) < CutAt(s, a.k + 1) <= |s.losses| && a.k < NextAfter(prev) + WRAP
    && Readable(u.c, a.at, s.losses[CutAt(s, a.k + 1) - 1].end)
    && (a.k == NextAfter(prev) ==> Readable(u.c, a.at, s.losses[CutAt(s, a.k)].start))
  }

  /** The counters of a report are now the tracker's. */
  lemma {:induction false} TakeCounts(u: Setup, t: Tracker, s: Story, prev: Option<nat>, a: Arrival)
    requires Told(u, s) && KnowsCounts(u, t, s, prev) && Close(u, s, prev, a.k)
    ensures KnowsCounts(u, TakeSent(u, t, s, a).0, s, Some(a.k))
  {
    SentIs(u, s, a.k);
    assert NowOf(t.last, s.sent[a.k].lost) == s.sent[a.k].lost;
    assert |s.losses[s.cuts[a.k + 1] - 1].total| == u.n;
    hide PosOf, Timeline, SentOk, ReportFor, TickOf;
  }

  /** The positions of a report, read where they can be, are the ticks of the losses it tells of. */
  lemma {:induction false} TicksRead(u: Setup, s: Story, prev: Option<nat>, a: Arrival)
    requires Told(u, s) && a.k < |s.sent| && Clear(u, s, prev, a)
    ensures TickOf(a.at, u.c, s.sent[a.k].end) == s.losses[CutAt(s, a.k + 1) - 1].end
    ensures a.k == NextAfter(prev) ==> TickOf(a.at, u.c, s.sent[a.k].start) == s.losses[CutAt(s, a.k)].start
  {
    assert s.sent[a.k] == ReportFor(u, s.losses, s.cuts[a.k], s.cuts[a.k + 1], a.k);
    PositionExact(u.c, s.losses[CutAt(s, a.k + 1) - 1].end, a.at);
    PositionExact(u.c, s.losses[CutAt(s, a.k)].start, a.at);
    hide TickOf, PosOf, Wrapped, Timeline, Readable, SentOk;
  }

  lemma {:induction false} CloseSent(u: Setup, s: Story, prev: Option<nat>, k: nat)
    requires Close(u, s, prev, k)
    ensures k < |s.sent|
  {
  }

  /** A report brings the tracker to it. */
  lemma {:induction false} TakeKnows(u: Setup, t: Tracker, s: Story, prev: Option<nat>, a: Arrival)
    requires Told(u, s) && Knows(u, t, s, prev) && Close(u, s, prev, a.k) && Clear(u, s, prev, a)
    ensures Knows(u, TakeSent(u, t, s, a).0, s, Some(a.k))
  {
    TakeCounts(u, t, s, prev, a);
    CloseSent(u, s, prev, a.k);
    TicksRead(u, s, prev, a);
    SentIs(u, s, a.k);
    ModPlus(a.k % WRAP, a.k, 1);
    hide Told, Close, TickOf, KnowsCounts, Wrapped, Readable, Clear;
  }

  lemma {:induction false} MinusWraps(a: nat, b: nat)
    requires b <= a < b + WRAP
    ensures Minus(a % WRAP, b % WRAP) == a - b
  {
  }

  /** The counts of a report are exactly the drops since the one before it that arrived. */
  lemma {:induction false} CountsExact(u: Setup, t: Tracker, s: Story, prev: Option<nat>, a: Arrival, i: nat)
    requires Told(u, s) && KnowsCounts(u, t, s, prev) && Close(u, s, prev, a.k) && i < u.n
    ensures |TakeSent(u, t, s, a).1.lost| == u.n
    ensures TakeSent(u, t, s, a).1.lost[i] + TotalAt(s, FirstAfter(s, prev), i) == TotalAt(s, CutAt(s, a.k + 1), i)
  {
    SentIs(u, s, a.k);
    assert NowOf(t.last, s.sent[a.k].lost) == s.sent[a.k].lost;
    assert |s.losses[s.cuts[a.k + 1] - 1].total| == u.n;
    if prev.Some? {
      CutsAscend(u, s, prev.value + 1, a.k + 1);
    }
    TotalsGrow(u, s, FirstAfter(s, prev), s.cuts[a.k + 1], i);
    MinusWraps(TotalAt(s, CutAt(s, a.k + 1), i), TotalAt(s, FirstAfter(s, prev), i));
    hide PosOf, Timeline, SentOk, ReportFor, Minus, TickOf;
  }

  /** Loss m, on channel i, is in a marked range with a count. */
  predicate Covered(s: Story, x: Marked, m: nat, i: nat) {
    m < |s.losses| && x.start <= s.losses[m].start && s.losses[m].end <= x.end && i < |x.lost| && x.lost[i] > 0
  }

  /** Loss m dropped records of channel i. */
  predicate Hit(s: Story, m: nat, i: nat) {
    m < |s.losses| && TotalAt(s, m, i) < TotalAt(s, m + 1, i)
  }

  /** The range of a report reaches from the first loss not told of yet to the last it tells of. */
  lemma {:induction false} RangeReaches(u: Setup, t: Tracker, s: Story, prev: Option<nat>, a: Arrival, m: nat)
    requires Told(u, s) && Knows(u, t, s, prev) && Close(u, s, prev, a.k) && Clear(u, s, prev, a)
    requires FirstAfter(s, prev) <= m < CutAt(s, a.k + 1)
    ensures m < |s.losses|
    ensures TakeSent(u, t, s, a).1.start <= s.losses[m].start && s.losses[m].end <= TakeSent(u, t, s, a).1.end
  {
    var k := a.k;
    SentIs(u, s, k);
    TicksRead(u, s, prev, a);
    Numbered(k, NextAfter(prev));
    assert m < s.cuts[k + 1] - 1 ==> s.losses[m].end < s.losses[s.cuts[k + 1] - 1].start;
    if prev.Some? {
      assert s.losses[CutAt(s, prev.value + 1) - 1].end < s.losses[m].start;
    } else if k == 0 {
      assert s.cuts[0] == 0;
      assert m > 0 ==> s.losses[0].end < s.losses[m].start;
    }
    hide PosOf, Wrapped, SentOk, ReportFor, TickOf, Readable, KnowsCounts;
  }

  /** Numbers modulo 2^32 tell close ones apart. */
  lemma {:induction false} Numbered(k: nat, next: nat)
    requires next <= k < next + WRAP
    ensures k % WRAP == next % WRAP <==> k == next
  {
  }

  lemma {:induction false} OneCovered(u: Setup, t: Tracker, s: Story, prev: Option<nat>, a: Arrival, m: nat, i: nat)
    requires Told(u, s) && Knows(u, t, s, prev) && Close(u, s, prev, a.k) && Clear(u, s, prev, a) && i < u.n
    requires FirstAfter(s, prev) <= m < CutAt(s, a.k + 1) && Hit(s, m, i)
    ensures Covered(s, TakeSent(u, t, s, a).1, m, i)
  {
    SentIs(u, s, a.k);
    RangeReaches(u, t, s, prev, a, m);
    CountsExact(u, t, s, prev, a, i);
    TotalsGrow(u, s, FirstAfter(s, prev), m, i);
    TotalsGrow(u, s, m + 1, CutAt(s, a.k + 1), i);
    hide Told, Knows, Close, TakeSent, FirstAfter, TotalAt;
  }

  /** Reports received, in order, each within 2^32 drops of the one before. */
  predicate Received(u: Setup, s: Story, prev: Option<nat>, arrived: seq<Arrival>)
    decreases |arrived|
  {
    arrived == [] || (Close(u, s, prev, arrived[0].k) && Received(u, s, Some(arrived[0].k), arrived[1..]))
  }

  predicate AllClear(u: Setup, s: Story, prev: Option<nat>, arrived: seq<Arrival>)
    decreases |arrived|
  {
    arrived == [] || (Clear(u, s, prev, arrived[0]) && AllClear(u, s, Some(arrived[0].k), arrived[1..]))
  }

  function TakeAll(u: Setup, t: Tracker, s: Story, arrived: seq<Arrival>): (r: seq<Marked>)
    ensures |r| == |arrived|
    decreases |arrived|
  {
    if arrived == [] then []
    else
      var (v, x) := TakeSent(u, t, s, arrived[0]);
      [x] + TakeAll(u, v, s, arrived[1..])
  }

  /** The first loss none of the reports tells of. */
  function ToldBy(s: Story, arrived: seq<Arrival>): nat {
    if arrived == [] then 0 else CutAt(s, arrived[|arrived| - 1].k + 1)
  }

  function Counts(xs: seq<Marked>, i: nat): nat {
    if xs == [] then 0 else (if i < |xs[0].lost| then xs[0].lost[i] else 0) + Counts(xs[1..], i)
  }

  /**
   * Whatever reports arrive, as long as each is within 2^32 drops and reports of the one before
   * it and its positions can be read back: each loss the last of them covers lies, on each
   * channel it dropped records of, in a marked range with a count.
   */
  lemma {:induction false} AllCovered(u: Setup, t: Tracker, s: Story, prev: Option<nat>, arrived: seq<Arrival>, m: nat, i: nat)
    returns (j: nat)
    requires Told(u, s) && Knows(u, t, s, prev) && i < u.n
    requires Received(u, s, prev, arrived) && AllClear(u, s, prev, arrived)
    requires FirstAfter(s, prev) <= m < ToldBy(s, arrived) && Hit(s, m, i)
    ensures j < |arrived| && Covered(s, TakeAll(u, t, s, arrived)[j], m, i)
    decreases |arrived|
  {
    hide Told, Knows, Close, Clear, TakeSent, Hit, Covered, CutAt;
    var a := arrived[0];
    if m < CutAt(s, a.k + 1) {
      OneCovered(u, t, s, prev, a, m, i);
      j := 0;
    } else {
      TakeKnows(u, t, s, prev, a);
      j := AllCovered(u, TakeSent(u, t, s, a).0, s, Some(a.k), arrived[1..], m, i);
      j := j + 1;
    }
  }

  /** And the counts add up to all the drops the reports cover, wherever their positions are. */
  lemma {:induction false} CountsAddUp(u: Setup, t: Tracker, s: Story, prev: Option<nat>, arrived: seq<Arrival>, i: nat)
    requires Told(u, s) && KnowsCounts(u, t, s, prev) && Received(u, s, prev, arrived) && arrived != [] && i < u.n
    ensures Counts(TakeAll(u, t, s, arrived), i) + TotalAt(s, FirstAfter(s, prev), i) == TotalAt(s, ToldBy(s, arrived), i)
    decreases |arrived|
  {
    hide Told, KnowsCounts, Close, TakeSent, CutAt, TotalAt;
    var a := arrived[0];
    CountsExact(u, t, s, prev, a, i);
    TakeCounts(u, t, s, prev, a);
    var v := TakeSent(u, t, s, a).0;
    assert TakeAll(u, t, s, arrived)[1..] == TakeAll(u, v, s, arrived[1..]);
    if |arrived| > 1 {
      CountsAddUp(u, v, s, Some(a.k), arrived[1..], i);
    }
  }

  // ----- end to end

  /** The device's run keeps what the host relies on. */
  lemma {:induction false} DeviceTells(u: Setup, ms: seq<Move>)
    requires Fits(u)
    ensures Told(u, Run(u, Begin(u), ms).s)
  {
    BeginInv(u);
    RunInv(u, Begin(u), ms);
    var w := Run(u, Begin(u), ms);
    hide Run, Conserved, SlicesOk, HandOk, SnapshotOk, ReportOk, SpiOk, SentOk;
    TimelineClosed(u, w.d.clean, w.s);
  }

  lemma {:induction false} TimelineClosed(u: Setup, c: Clean, s: Story)
    requires Fits(u) && Timeline(u.n, c, s)
    ensures Timeline(u.n, Begin(u).d.clean, s)
  {
  }

  /**
   * End to end: after any interleaving of the device's steps and the host's reads, and for any
   * of the reports sent that arrive, loss m lies, on every channel i it dropped records of, in
   * a range the host marks with a count, if the last report that arrived covers it. The range
   * is what the host reads out of the report's positions at the grid point it is at.
   */
  lemma {:induction false} EndToEnd(u: Setup, ms: seq<Move>, arrived: seq<Arrival>, m: nat, i: nat) returns (j: nat)
    requires Fits(u) && i < u.n && Received(u, Run(u, Begin(u), ms).s, None, arrived)
    requires AllClear(u, Run(u, Begin(u), ms).s, None, arrived)
    requires m < ToldBy(Run(u, Begin(u), ms).s, arrived) && Hit(Run(u, Begin(u), ms).s, m, i)
    ensures j < |arrived|
    ensures Covered(Run(u, Begin(u), ms).s, TakeAll(u, Fresh(u.n), Run(u, Begin(u), ms).s, arrived)[j], m, i)
  {
    DeviceTells(u, ms);
    hide *;
    FreshKnows(u, Run(u, Begin(u), ms).s);
    NothingBefore(Run(u, Begin(u), ms).s);
    j := AllCovered(u, Fresh(u.n), Run(u, Begin(u), ms).s, None, arrived, m, i);
  }

  lemma {:induction false} NothingBefore(s: Story)
    ensures FirstAfter(s, None) == 0
  {
  }

  // ----- and no more

  /** The report taken before the j-th of those that arrive. */
  function Previous(prev: Option<nat>, arrived: seq<Arrival>, j: nat): Option<nat>
    requires j < |arrived|
  {
    if j == 0 then prev else Some(arrived[j - 1].k)
  }

  /**
   * The range of report k, taken after report prev: from the first loss it newly tells of to the
   * last, or, after reports that did not arrive, from the end of the last loss told of before, or
   * from 0 if none was.
   */
  predicate RangeIs(s: Story, prev: Option<nat>, k: nat, x: Marked) {
    && CutAt(s, k) < CutAt(s, k + 1) <= |s.losses| && FirstAfter(s, prev) <= |s.losses|
    && x.end == s.losses[CutAt(s, k + 1) - 1].end
    && x.start == (
      if k == NextAfter(prev) then s.losses[CutAt(s, k)].start
      else if FirstAfter(s, prev) == 0 then 0
      else s.losses[FirstAfter(s, prev) - 1].end)
  }

  lemma {:induction false} OneRange(u: Setup, t: Tracker, s: Story, prev: Option<nat>, a: Arrival)
    requires Told(u, s) && Knows(u, t, s, prev) && Close(u, s, prev, a.k) && Clear(u, s, prev, a)
    ensures RangeIs(s, prev, a.k, TakeSent(u, t, s, a).1)
  {
    SentIs(u, s, a.k);
    TicksRead(u, s, prev, a);
    Numbered(a.k, NextAfter(prev));
    hide PosOf, Wrapped, SentOk, ReportFor, TickOf, Readable, KnowsCounts, Timeline;
  }

  /** Each range is exactly that, over whatever reports arrive. */
  lemma {:induction false} RangesExact(u: Setup, t: Tracker, s: Story, prev: Option<nat>, arrived: seq<Arrival>, j: nat)
    requires Told(u, s) && Knows(u, t, s, prev) && j < |arrived|
    requires Received(u, s, prev, arrived) && AllClear(u, s, prev, arrived)
    ensures RangeIs(s, Previous(prev, arrived, j), arrived[j].k, TakeAll(u, t, s, arrived)[j])
    decreases |arrived|
  {
    hide Told, Knows, Close, Clear, TakeSent, CutAt, RangeIs;
    var a := arrived[0];
    if j == 0 {
      OneRange(u, t, s, prev, a);
    } else {
      TakeKnows(u, t, s, prev, a);
      RangesExact(u, TakeSent(u, t, s, a).0, s, Some(a.k), arrived[1..], j - 1);
    }
  }

  predicate InLoss(s: Story, tick: nat) {
    exists m :: 0 <= m < |s.losses| && s.losses[m].start <= tick <= s.losses[m].end
  }

  /** A tick between losses that are both among losses m to n - 1. */
  predicate BetweenLosses(s: Story, m: nat, n: nat, tick: nat) {
    exists l :: m <= l < n - 1 && n <= |s.losses| && s.losses[l].end < tick < s.losses[l + 1].start
  }

  lemma {:induction false} FindGap(s: Story, m: nat, n: nat, tick: nat)
    requires m < n <= |s.losses| && s.losses[m].start <= tick <= s.losses[n - 1].end && !InLoss(s, tick)
    ensures BetweenLosses(s, m, n, tick)
    decreases n - m
  {
    assert tick > s.losses[m].end;
    if s.losses[m + 1].start <= tick {
      FindGap(s, m + 1, n, tick);
    }
  }

  /** A tick marked in no loss is between two losses of one report, or after a report not received. */
  predicate Excused(s: Story, prev: Option<nat>, k: nat, x: Marked, tick: nat) {
    x.start <= tick <= x.end && !InLoss(s, tick) ==>
      k != NextAfter(prev) || BetweenLosses(s, CutAt(s, k), CutAt(s, k + 1), tick)
  }

  lemma {:induction false} RangeExcused(s: Story, prev: Option<nat>, k: nat, x: Marked, tick: nat)
    requires RangeIs(s, prev, k, x)
    ensures Excused(s, prev, k, x, tick)
  {
    hide CutAt, InLoss, BetweenLosses;
    if x.start <= tick <= x.end && !InLoss(s, tick) && k == NextAfter(prev) {
      FindGap(s, CutAt(s, k), CutAt(s, k + 1), tick);
    }
  }

  /**
   * After any run of the device and for any of its reports that arrive, the j-th range marked is
   * exactly the report's; so a tick marked though it lies in no loss lies between two losses of
   * that one report, or after a report that did not arrive.
   */
  lemma {:induction false} MarksNoMore(u: Setup, ms: seq<Move>, arrived: seq<Arrival>, j: nat, tick: nat)
    requires Fits(u) && j < |arrived|
    requires Received(u, Run(u, Begin(u), ms).s, None, arrived) && AllClear(u, Run(u, Begin(u), ms).s, None, arrived)
    ensures
      var s := Run(u, Begin(u), ms).s;
      var x, prev := TakeAll(u, Fresh(u.n), s, arrived)[j], Previous(None, arrived, j);
      RangeIs(s, prev, arrived[j].k, x) && Excused(s, prev, arrived[j].k, x, tick)
  {
    DeviceTells(u, ms);
    var s := Run(u, Begin(u), ms).s;
    hide *;
    FreshKnows(u, s);
    RangesExact(u, Fresh(u.n), s, None, arrived, j);
    RangeExcused(s, Previous(None, arrived, j), arrived[j].k, TakeAll(u, Fresh(u.n), s, arrived)[j], tick);
  }
}
