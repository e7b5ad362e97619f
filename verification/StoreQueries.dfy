/**
 * The fast queries of the store agree with reading every tick, in every state a run reaches
 * whose records and heartbeats come in tick order: a level is unknown only between the start
 * of a loss and the first information after one, the unknown flag says whether some tick
 * reads unknown, and the loss flag whether some reported loss overlaps.
 */
module StoreQueries {
  import opened Numbers
  import opened StoreChannel
  import opened StoreTruth
  import opened StoreRuns

  // ----- what holds besides the promise

  predicate Before(m: seq<Mark>, next: nat) {
    forall x :: x in m ==> x.tick < next
  }

  /** Everything known is in the past. */
  predicate Past(c: Chan, ring: seq<Mark>, next: nat) {
    && next <= OPEN && Before(c.recs, next) && Before(c.anchors, next) && Before(ring, next)
    && forall s :: s in c.spans ==> s.known == OPEN || s.known < next
  }

  /** No information makes the level known before the span's end. */
  ghost predicate Tight(info: set<nat>, s: Gap) {
    forall t :: t in info ==> t < s.from || t >= s.known
  }

  ghost predicate AllTight(c: Chan) {
    forall s :: s in c.spans ==> Tight(Info(c), s)
  }

  /** A loss, or what is before the capture. */
  predicate Cause(losses: set<Ival>, a: nat, b: nat) {
    && (a == 0 || exists l :: l in losses && l.start == a)
    && (b == 0 || exists l :: l in losses && l.end + 1 == b)
  }

  predicate Sourced(losses: set<Ival>, s: Gap) {
    Cause(losses, s.start, s.from) && (s.start == 0 || s.start < s.from)
  }

  predicate AllSourced(spans: seq<Gap>, losses: set<Ival>) {
    forall s :: s in spans ==> Sourced(losses, s)
  }

  predicate FromStart(spans: seq<Gap>) {
    exists s :: s in spans && s.start == 0
  }

  predicate Hole(spans: seq<Gap>, t: nat) {
    exists s :: s in spans && s.start <= t < s.from
  }

  /** What no record or heartbeat made known yet is in a span. */
  predicate Rooted(c: Chan) {
    && (!c.dropped ==> FromStart(c.spans))
    && (c.dropped && c.base == UNKNOWN ==> Hole(c.spans, c.cover))
  }

  predicate IvalsOk(s: seq<Ival>) {
    && (forall i, j :: 0 <= i < j < |s| ==> s[i].end + 1 < s[j].start)
    && (forall i :: 0 <= i < |s| ==> s[i].start <= s[i].end)
  }

  predicate InIvals(s: seq<Ival>, x: nat) {
    exists l :: l in s && l.start <= x <= l.end
  }

  /** From the cover on the intervals hold the ticks of the losses. */
  ghost predicate IvalsMean(c: Chan, h: History) {
    forall x: nat :: (c.dropped ==> x >= c.cover) ==> (InIvals(c.ivals, x) <==> Lost(h, x))
  }

  ghost predicate Exact(t: Track) {
    && Past(t.c, t.ring, t.next) && AllTight(t.c) && AllSourced(t.c.spans, t.h.losses)
    && Rooted(t.c) && IvalsOk(t.c.ivals) && IvalsMean(t.c, t.h)
  }

  // ----- what the invariants say of the queries

  ghost predicate InSpan(spans: seq<Gap>, x: nat) {
    exists s :: s in spans && s.start <= x < s.known
  }

  /** With information at or before a tick outside the spans, the level is known. */
  lemma InfoKnown(c: Chan, tick: nat, p: nat)
    requires Ascending(c.recs) && Ascending(c.anchors)
    requires forall x :: x in c.recs || x in c.anchors ==> x.level < 2
    requires p in Info(c) && p <= tick && (c.dropped ==> c.cover <= p)
    requires var lo := CountStarted(c.spans, tick); !(lo > 0 && tick < c.spans[lo - 1].known)
    ensures LevelAt(c, tick) != UNKNOWN
  {
    LastCounted(c.recs, tick);
    LastCounted(c.anchors, tick);
    hide CountLe, Ticks, Ascending, CountStarted;
  }

  lemma NotStarted(s: seq<Gap>, tick: nat)
    requires SpansOk(s)
    ensures
      var lo := CountStarted(s, tick);
      (lo > 0 && tick < s[lo - 1].known) <==> InSpan(s, tick)
  {
    var lo := CountStarted(s, tick);
    if lo > 0 && tick < s[lo - 1].known {
      assert s[lo - 1] in s;
    }
    if InSpan(s, tick) {
      var x :| x in s && x.start <= tick < x.known;
      StartedLast(s, tick, x);
    }
  }

  /** The span at a tick not known is there for want of information. */
  lemma RootInfo(t: Track, right: Rule, tick: nat) returns (p: nat)
    requires TrackSafe(t, right) && Exact(t) && tick < OPEN
    requires !InSpan(t.c.spans, tick) && (t.c.dropped ==> tick >= t.c.cover && t.c.base == UNKNOWN)
    ensures p in Info(t.c) && p <= tick && (t.c.dropped ==> t.c.cover <= p)
  {
    hide Info, Sorted, AllTrue, LossesCovered, EndsCovered, AllHeld, IvalsMean, AllTight, AllSourced;
    var s: Gap;
    if t.c.dropped {
      s :| s in t.c.spans && s.start <= t.c.cover < s.from;
    } else {
      s :| s in t.c.spans && s.start == 0;
    }
    assert SpansOk(t.c.spans) by { SortedSpans(t.c, t.ring); }
    SpanOf(t.c.spans, s);
    p := s.known;
  }

  /** A level reads unknown exactly before the cover and inside the spans. */
  lemma UnknownIff(t: Track, right: Rule, tick: nat)
    requires TrackSafe(t, right) && Exact(t) && tick < OPEN
    ensures LevelAt(t.c, tick) == UNKNOWN <==> (t.c.dropped && tick < t.c.cover) || InSpan(t.c.spans, tick)
  {
    hide LevelAt, Info, SpansOk, InSpan, CountStarted, Exact, Safe;
    SafeSorted(t, right);
    SortedSpans(t.c, t.ring);
    hide Sorted, AllTrue;
    if !(t.c.dropped && tick < t.c.cover) && !InSpan(t.c.spans, tick) {
      KnownHere(t, right, tick);
    } else {
      UnknownThere(t.c, tick);
    }
  }

  lemma SafeSorted(t: Track, right: Rule)
    requires TrackSafe(t, right)
    ensures Sorted(t.c, t.ring) && AllTrue(t.c, t.ring, right)
  {
  }

  lemma UnknownThere(c: Chan, tick: nat)
    requires SpansOk(c.spans) && ((c.dropped && tick < c.cover) || InSpan(c.spans, tick))
    ensures LevelAt(c, tick) == UNKNOWN
  {
    NotStarted(c.spans, tick);
    hide InSpan, SpansOk, CountStarted, CountLt;
  }

  lemma KnownHere(t: Track, right: Rule, tick: nat)
    requires TrackSafe(t, right) && Exact(t) && tick < OPEN && SpansOk(t.c.spans)
    requires !(t.c.dropped && tick < t.c.cover) && !InSpan(t.c.spans, tick)
    ensures LevelAt(t.c, tick) != UNKNOWN
  {
    NotStarted(t.c.spans, tick);
    hide LevelAt, Info, SpansOk, InSpan, CountStarted;
    SafeSorted(t, right);
    if t.c.dropped && t.c.base != UNKNOWN {
      hide Safe, Exact;
      BaseKnown(t.c, t.ring, right, tick);
    } else {
      var p := RootInfo(t, right, tick);
      hide Safe, Exact, Ascending, NonDescending;
      InfoKnown(t.c, tick, p);
    }
  }

  lemma BaseKnown(c: Chan, ring: seq<Mark>, right: Rule, tick: nat)
    requires Sorted(c, ring) && AllTrue(c, ring, right) && c.dropped && tick >= c.cover && c.base != UNKNOWN
    requires var lo := CountStarted(c.spans, tick); !(lo > 0 && tick < c.spans[lo - 1].known)
    ensures LevelAt(c, tick) != UNKNOWN
  {
    hide Ascending, NonDescending, SpansOk, CountStarted, CountLt;
    var k, a := CountLe(c.recs, tick), CountLe(c.anchors, tick);
    assert k > 0 ==> c.recs[k - 1] in c.recs;
    assert a > 0 ==> c.anchors[a - 1] in c.anchors;
  }

  /**
   * Nothing is unknown without cause: from the cover on a level is unknown only between the
   * start of a loss (or of the capture) and the first record or kept heartbeat after a loss.
   */
  lemma KnownUnlessLost(t: Track, right: Rule, tick: nat) returns (a: nat, b: nat)
    requires TrackSafe(t, right) && Exact(t) && tick < OPEN && (t.c.dropped ==> tick >= t.c.cover)
    requires LevelAt(t.c, tick) == UNKNOWN
    ensures Cause(t.h.losses, a, b) && a <= tick
    ensures forall i :: i in Info(t.c) && b <= i ==> tick < i
  {
    UnknownIff(t, right, tick);
    var s :| s in t.c.spans && s.start <= tick < s.known;
    a, b := s.start, s.from;
    assert Sourced(t.h.losses, s) && Tight(Info(t.c), s);
  }

  /** A flagged range has an unknown tick: its first, or the start of the gap that is flagged. */
  lemma UnknownFound(t: Track, right: Rule, a: nat, b: nat) returns (q: nat)
    requires TrackSafe(t, right) && Exact(t) && a <= b < OPEN && UnknownIn(t.c, a, b)
    ensures a <= q <= b && LevelAt(t.c, q) == UNKNOWN
  {
    hide LevelAt, CountStarted, TrackSafe, Exact, Sorted, AllTrue, InSpan;
    var c := t.c;
    var lo := CountStarted(c.spans, b);
    SafeSorted(t, right);
    SortedSpans(c, t.ring);
    if c.dropped && a < c.cover {
      q := a;
    } else {
      var s := c.spans[lo - 1];
      q := Max(a, s.start);
      NotEmpty(t, lo - 1);
      InOne(c.spans, lo - 1, q);
    }
    UnknownThere(c, q);
  }

  lemma NotEmpty(t: Track, k: nat)
    requires Exact(t) && SpansOk(t.c.spans) && k < |t.c.spans|
    ensures t.c.spans[k].start == 0 || t.c.spans[k].start < t.c.spans[k].known
  {
    var s := t.c.spans[k];
    assert s in t.c.spans && Sourced(t.h.losses, s) && GapOk(s);
  }

  lemma InOne(spans: seq<Gap>, k: nat, x: nat)
    requires k < |spans| && spans[k].start <= x < spans[k].known
    ensures InSpan(spans, x)
  {
  }

  lemma UnknownFlagged(t: Track, right: Rule, a: nat, b: nat, q: nat)
    requires TrackSafe(t, right) && Exact(t) && a <= q <= b < OPEN && LevelAt(t.c, q) == UNKNOWN
    ensures UnknownIn(t.c, a, b)
  {
    hide LevelAt, CountStarted;
    SortedSpans(t.c, t.ring);
    hide TrackSafe;
    UnknownIff(t, right, q);
    if !(t.c.dropped && q < t.c.cover) {
      var s :| s in t.c.spans && s.start <= q < s.known;
      StartedLast(t.c.spans, b, s);
    }
  }

  /** The unknown flag says whether some tick from a to b reads unknown. */
  lemma UnknownInExact(t: Track, right: Rule, a: nat, b: nat)
    requires TrackSafe(t, right) && Exact(t) && a <= b < OPEN
    ensures UnknownIn(t.c, a, b) <==> exists q :: a <= q <= b && LevelAt(t.c, q) == UNKNOWN
  {
    hide LevelAt, TrackSafe, UnknownIn, Exact;
    if UnknownIn(t.c, a, b) {
      var q := UnknownFound(t, right, a, b);
    }
    if q :| a <= q <= b && LevelAt(t.c, q) == UNKNOWN {
      UnknownFlagged(t, right, a, b, q);
    }
  }

  /** The loss flag says whether some reported loss overlaps ticks a to b. */
  lemma LossInExact(t: Track, a: nat, b: nat)
    requires Exact(t) && a <= b && (t.c.dropped ==> a >= t.c.cover)
    ensures LossIn(t.c, a, b) <==> exists l :: l in t.h.losses && l.start <= l.end && l.start <= b && a <= l.end
  {
    var v := t.c.ivals;
    var lo := CountIvals(v, b);
    hide Past, AllTight, AllSourced, Rooted, CountIvals;
    if LossIn(t.c, a, b) {
      var x := Max(a, v[lo - 1].start);
      assert v[lo - 1] in v && v[lo - 1].start <= x <= v[lo - 1].end;
      assert InIvals(v, x) && Lost(t.h, x);
      var l :| l in t.h.losses && l.start <= x <= l.end;
    }
    if l :| l in t.h.losses && l.start <= l.end && l.start <= b && a <= l.end {
      var x := Max(a, l.start);
      assert Lost(t.h, x) && InIvals(v, x);
      var i :| i in v && i.start <= x <= i.end;
      var k :| 0 <= k < |v| && v[k] == i;
      assert k < lo;
      assert k < lo - 1 ==> v[k].end + 1 < v[lo - 1].start;
    }
  }

  // ----- every step keeps the invariants

  /** Records after all before them, heartbeats not before them. */
  predicate InOrder(t: Track, op: Op) {
    match op
    case Put(tick, level) => t.next <= tick
    case Beat(tick, level) => t.next <= tick + 1
    case _ => true
  }

  predicate AllInOrder(t: Track, late: nat, ops: seq<Op>)
    decreases |ops|
  {
    ops == [] || (InOrder(t, ops[0]) && AllInOrder(Step(t, late, ops[0]), late, ops[1..]))
  }

  lemma BeginExact()
    ensures Exact(BEGIN)
  {
    assert Gap(0, 0, OPEN) in BEGIN.c.spans;
  }

  /** Closing the open span: the spans are the old ones, one perhaps now ending at tick. */
  ghost predicate ClosedAt(a: seq<Gap>, b: seq<Gap>, tick: nat) {
    && (forall x :: x in b ==> Closes(a, x, tick))
    && (forall x :: x in a ==> x in b || x.(known := tick) in b)
  }

  predicate Closes(a: seq<Gap>, x: Gap, tick: nat) {
    || (x in a && (x.known == OPEN ==> tick < x.from))
    || (x.known == tick && x.from <= tick && x.(known := OPEN) in a)
  }

  lemma CloseOpenIs(s: seq<Gap>, tick: nat)
    requires SpansOk(s)
    ensures ClosedAt(s, CloseOpen(s, tick), tick)
  {
    var t := CloseOpen(s, tick);
    var n := |s|;
    forall x | x in t
      ensures Closes(s, x, tick)
    {
      var i :| 0 <= i < |t| && t[i] == x;
      if i < n - 1 {
        assert s[i].known < s[n - 1].start && GapOk(s[n - 1]) && s[i] in s;
      } else {
        assert s[n - 1] in s;
        assert s[n - 1].known == OPEN ==> s[n - 1] == s[n - 1].(known := OPEN);
      }
    }
    forall x | x in s
      ensures x in t || x.(known := tick) in t
    {
      var i :| 0 <= i < |s| && s[i] == x;
      assert t[i] in t;
    }
  }

  /** New information at tick, which closes the open span if it can. */
  lemma NewsExact(a: seq<Gap>, b: seq<Gap>, info: set<nat>, tick: nat, next: nat, losses: set<Ival>)
    requires ClosedAt(a, b, tick) && next <= tick + 1 && next <= OPEN
    requires forall s :: s in a ==> Tight(info, s) && (s.known == OPEN || s.known < next)
    requires (forall i :: i in info ==> i < next) && AllSourced(a, losses)
    ensures forall s :: s in b ==> Tight(info + {tick}, s) && (s.known == OPEN || s.known < tick + 1)
    ensures AllSourced(b, losses)
    ensures FromStart(a) ==> FromStart(b)
    ensures forall x: nat :: Hole(a, x) ==> Hole(b, x)
  {
    forall s | s in b
      ensures Tight(info + {tick}, s) && (s.known == OPEN || s.known < tick + 1)
    {
      if s in a {
        assert Tight(info, s);
      } else {
        assert Tight(info, s.(known := OPEN));
      }
    }
    forall s | s in b
      ensures Sourced(losses, s)
    {
      assert s in a || s.(known := OPEN) in a;
    }
    if FromStart(a) {
      var s :| s in a && s.start == 0;
      assert s in b || s.(known := tick) in b;
    }
    forall x: nat | Hole(a, x)
      ensures Hole(b, x)
    {
      var s :| s in a && s.start <= x < s.from;
      assert s in b || s.(known := tick) in b;
    }
  }

  lemma InfoBefore(c: Chan, next: nat)
    requires Before(c.recs, next) && Before(c.anchors, next)
    ensures forall i :: i in Info(c) ==> i < next
  {
  }

  /** What news at tick leaves of the invariants. */
  lemma NewsParts(c: Chan, d: Chan, ring: seq<Mark>, tick: nat, next: nat, losses: set<Ival>)
    requires Past(c, ring, next) && AllTight(c) && AllSourced(c.spans, losses) && Rooted(c)
    requires next <= tick + 1 && tick < OPEN && SameTrim(c, d)
    requires ClosedAt(c.spans, d.spans, tick) && Info(d) == Info(c) + {tick}
    ensures AllTight(d) && AllSourced(d.spans, losses) && Rooted(d)
    ensures forall s :: s in d.spans ==> s.known == OPEN || s.known < tick + 1
  {
    InfoBefore(c, next);
    hide ClosedAt, Info, Tight, FromStart, Hole, AllSourced, Before;
    NewsExact(c.spans, d.spans, Info(c), tick, next, losses);
  }

  lemma PutExact(t: Track, late: nat, tick: nat, level: nat, right: Rule)
    requires TrackSafe(t, right) && Exact(t) && Accepts(t.c, tick) && t.next <= tick
    ensures Exact(Step(t, late, Put(tick, level)))
  {
    var d := ApplyRecord(t.c, tick, level);
    assert d.spans == CloseOpen(t.c.spans, tick) && tick < OPEN && SameTrim(t.c, d);
    SafeSorted(t, right);
    PutPast(t.c, t.ring, tick, level, t.next);
    hide TrackSafe, Sorted, AllTrue, CloseOpen, Past, IvalsOk, AllTight, Rooted, IvalsMean, AllSourced, Accepts, Info, SameTrim, ClosedAt;
    SortedSpans(t.c, t.ring);
    CloseOpenIs(t.c.spans, tick);
    PutInfo(t.c, tick, level);
    NewsParts(t.c, d, t.ring, tick, t.next, t.h.losses);
    MakePast(d, t.ring, tick + 1);
    MeansSame(t.c, d, t.h, t.h.(recs := t.h.recs + {tick}));
  }

  lemma MakePast(d: Chan, ring: seq<Mark>, next: nat)
    requires next <= OPEN && Before(d.recs, next) && Before(d.anchors, next) && Before(ring, next)
    requires forall s :: s in d.spans ==> s.known == OPEN || s.known < next
    ensures Past(d, ring, next)
  {
  }

  lemma PutPast(c: Chan, ring: seq<Mark>, tick: nat, level: nat, next: nat)
    requires Past(c, ring, next) && next <= tick
    ensures Before(ApplyRecord(c, tick, level).recs, tick + 1) && Before(c.anchors, tick + 1) && Before(ring, tick + 1)
  {
  }

  lemma PutInfo(c: Chan, tick: nat, level: nat)
    ensures Info(ApplyRecord(c, tick, level)) == Info(c) + {tick}
  {
    hide Ticks;
    TicksOfConcat(c.recs, [Mark(tick, level % 2)]);
    TicksOfOne(Mark(tick, level % 2));
  }

  lemma MeansSame(c: Chan, d: Chan, g: History, h: History)
    requires IvalsMean(c, g) && c.ivals == d.ivals && g.losses == h.losses && c.dropped == d.dropped && c.cover == d.cover
    ensures IvalsMean(d, h)
  {
    hide InIvals;
    assert forall x :: Lost(g, x) == Lost(h, x);
  }

  lemma BeatExact(t: Track, late: nat, tick: nat, level: nat, right: Rule)
    requires TrackSafe(t, right) && Exact(t) && t.next <= tick + 1 && tick < OPEN
    ensures Exact(Step(t, late, Beat(tick, level)))
  {
    var d := ApplyBeat(t.c, tick, level);
    BeatRing(t.ring, tick, level, t.next, late);
    if Keeps(t.c, tick, level) {
      assert SpansOk(t.c.spans) by { SortedSpans(t.c, t.ring); }
      CloseOpenIs(t.c.spans, tick);
      BeatInfo(t.c, tick, level);
      AnchorPutBefore(t.c.anchors, Mark(tick, level), tick + 1);
      hide TrackSafe, ClosedAt, SpansOk, CloseOpen, Info, IvalsOk, AllTight, Rooted, IvalsMean, AllSourced, Keeps, AnchorPut, Held;
      NewsParts(t.c, d, t.ring, tick, t.next, t.h.losses);
      MeansSame(t.c, d, t.h, t.h);
    } else {
      hide TrackSafe, IvalsOk, AllTight, Rooted, IvalsMean, AllSourced, Keeps, Held;
    }
  }

  lemma BeatRing(ring: seq<Mark>, tick: nat, level: nat, next: nat, late: nat)
    requires Before(ring, next) && next <= tick + 1
    ensures Before(Held(ring, tick, late) + [Mark(tick, level)], tick + 1)
  {
    var e := HeldIsSuffix(ring, tick, late);
    forall x | x in ring[e..] + [Mark(tick, level)]
      ensures x.tick < tick + 1
    {
      assert x in ring || x == Mark(tick, level);
    }
  }

  lemma BeatInfo(c: Chan, tick: nat, level: nat)
    requires Keeps(c, tick, level)
    ensures Info(ApplyBeat(c, tick, level)) == Info(c) + {tick}
  {
    hide Ticks;
    AnchorPutTicks(c.anchors, Mark(tick, level));
  }

  lemma AnchorPutBefore(a: seq<Mark>, m: Mark, next: nat)
    requires m.tick < next && forall x :: x in a ==> x.tick < next
    ensures Before(AnchorPut(a, m), next)
  {
    forall x | x in AnchorPut(a, m)
      ensures x == m || x in a
    {
    }
  }

  // ----- losses

  lemma {:induction false} MergeLeftSourced(c: Chan, ring: seq<Mark>, left: seq<Gap>, n: Gap, losses: set<Ival>)
    requires AllSourced(left, losses) && Cause(losses, n.start, n.from)
    ensures var m := MergeLeft(c, ring, left, n).1; Cause(losses, m.start, m.from)
    decreases |left|
  {
    hide Resolve;
    if left != [] && left[|left| - 1].known >= n.start {
      var a := left[|left| - 1];
      assert a in left && Sourced(losses, a);
      var from := Max(a.from, n.from);
      MergeLeftSourced(c, ring, left[..|left| - 1], Gap(a.start, from, Resolve(c, ring, from)), losses);
    }
  }

  lemma {:induction false} MergeRightSourced(c: Chan, ring: seq<Mark>, n: Gap, right: seq<Gap>, losses: set<Ival>)
    requires AllSourced(right, losses) && Cause(losses, n.start, n.from)
    ensures var m := MergeRight(c, ring, n, right).0; Cause(losses, m.start, m.from)
    decreases |right|
  {
    hide Resolve;
    if right != [] && right[0].start <= n.known {
      assert right[0] in right && Sourced(losses, right[0]);
      var from := Max(n.from, right[0].from);
      MergeRightSourced(c, ring, Gap(n.start, from, Resolve(c, ring, from)), right[1..], losses);
    }
  }

  lemma SpansWithSourced(c: Chan, ring: seq<Mark>, l: Ival, losses: set<Ival>)
    requires SpansOk(c.spans) && AllSourced(c.spans, losses) && l in losses && l.start <= l.end < OPEN
    ensures AllSourced(SpansWith(c, ring, l.start, l.end + 1).0, losses)
  {
    hide *;
    var sm := SpansWith(c, ring, l.start, l.end + 1);
    SpansWithTakesUp(c, ring, l.start, l.end + 1);
    OneCause(losses, l);
    NewSourced(c, ring, l.start, l.end + 1, losses);
    StillSourced(c.spans, sm.0, sm.1, losses);
  }

  lemma StillSourced(a: seq<Gap>, b: seq<Gap>, m: Gap, losses: set<Ival>)
    requires TookUp(a, b, m) && AllSourced(a, losses) && Cause(losses, m.start, m.from) && m.start < m.from
    ensures AllSourced(b, losses)
  {
    hide Cause;
    TookUpParts(a, b, m);
    forall x | x in b
      ensures Sourced(losses, x)
    {
      assert x == m || (x in a && Sourced(losses, x));
    }
  }

  lemma NewSourced(c: Chan, ring: seq<Mark>, start: nat, from: nat, losses: set<Ival>)
    requires AllSourced(c.spans, losses) && Cause(losses, start, from)
    ensures var m := SpansWith(c, ring, start, from).1; Cause(losses, m.start, m.from)
  {
    hide Resolve, CountStarted, MergeLeft, MergeRight, Sourced, Cause;
    var p := CountStarted(c.spans, start);
    var n := Gap(start, from, Resolve(c, ring, from));
    MergeLeftSourced(c, ring, c.spans[..p], n, losses);
    MergeRightSourced(c, ring, MergeLeft(c, ring, c.spans[..p], n).1, c.spans[p..], losses);
  }

  lemma OneCause(losses: set<Ival>, l: Ival)
    requires l in losses
    ensures Cause(losses, l.start, l.end + 1)
  {
  }

  lemma MoreSources(spans: seq<Gap>, losses: set<Ival>, more: set<Ival>)
    requires AllSourced(spans, losses) && losses <= more
    ensures AllSourced(spans, more)
  {
    forall s | s in spans
      ensures Sourced(more, s)
    {
      assert Sourced(losses, s);
      if s.start != 0 {
        var l :| l in losses && l.start == s.start;
        assert l in more;
      }
      if s.from != 0 {
        var l :| l in losses && l.end + 1 == s.from;
        assert l in more;
      }
    }
  }

  lemma ResolveIsLeast(c: Chan, ring: seq<Mark>, from: nat, next: nat)
    requires Ascending(c.recs) && Ascending(c.anchors) && Past(c, ring, next)
    ensures var k := Resolve(c, ring, from); (k == OPEN || k < next) && forall i :: i in Info(c) ==> i < from || i >= k
  {
    FirstFromIsLeast(c.recs, from, OPEN);
    FirstFromIsLeast(c.anchors, from, FirstFrom(c.recs, from, OPEN));
    var k := CountLt(ring, from);
    assert k < |ring| ==> ring[k] in ring;
    InfoBefore(c, next);
    hide Ascending, FirstFrom;
    assert Resolve(c, ring, from) <= Grounded(c, from) by { ResolveCases(c, ring, from); }
    GroundedIsInfo(c, from);
    ResolveCases(c, ring, from);
    hide Resolve, Grounded;
  }

  lemma FirstFromIsLeast(m: seq<Mark>, from: nat, limit: nat)
    requires Ascending(m)
    ensures
      var k := FirstFrom(m, from, limit);
      k <= limit && forall t :: t in Ticks(m) ==> t < from || t >= k
  {
    var k := CountLt(m, from);
    forall t | t in Ticks(m) && t >= from
      ensures k < |m| && m[k].tick <= t
    {
      var x :| x in m && x.tick == t;
      var i :| 0 <= i < |m| && m[i] == x;
    }
  }

  lemma Apart(s: seq<Gap>, x: Gap, y: Gap)
    requires SpansOk(s) && x in s && y in s && x != y
    ensures x.known < y.start || y.known < x.start
  {
    var i :| 0 <= i < |s| && s[i] == x;
    var j :| 0 <= j < |s| && s[j] == y;
  }

  /** The spans after a loss end where the first information at or after their from is. */
  lemma SpanAddTight(c: Chan, ring: seq<Mark>, start: nat, from: nat, next: nat)
    requires SpansOk(c.spans) && Ascending(c.recs) && Ascending(c.anchors) && start <= from <= OPEN
    requires Past(c, ring, next) && AllTight(c)
    ensures
      var d := SpanAdd(c, ring, start, from);
      && AllTight(d) && Before(d.anchors, next) && d.recs == c.recs
      && forall s :: s in d.spans ==> s.known == OPEN || s.known < next
  {
    var d := SpanAdd(c, ring, start, from);
    var (spans, m) := SpansWith(c, ring, start, from);
    SpansWithTakesUp(c, ring, start, from);
    ResolveIsLeast(c, ring, m.from, next);
    SpanAddInfo(c, ring, start, from, next);
    hide SpansWith, SpanAdd, Resolve, Info, TookUp, Ascending, SpansOk, Before;
    TookUpParts(c.spans, spans, m);
    NewTight(c.spans, spans, m, Info(c), Info(d), next);
  }

  lemma NewTight(a: seq<Gap>, b: seq<Gap>, m: Gap, info: set<nat>, more: set<nat>, next: nat)
    requires SpansOk(b) && m in b && (forall x :: x in b ==> x == m || x in a) && more <= info + {m.known}
    requires forall s :: s in a ==> Tight(info, s) && (s.known == OPEN || s.known < next)
    requires Tight(info, m) && (m.known == OPEN || m.known < next)
    ensures forall s :: s in b ==> Tight(more, s) && (s.known == OPEN || s.known < next)
  {
    forall s | s in b
      ensures Tight(more, s) && (s.known == OPEN || s.known < next)
    {
      if s != m {
        Apart(b, s, m);
        assert Tight(info, s);
        assert GapOk(m) && GapOk(s) by { SpanOf(b, m); SpanOf(b, s); }
      }
    }
  }

  lemma SpanAddInfo(c: Chan, ring: seq<Mark>, start: nat, from: nat, next: nat)
    requires Past(c, ring, next)
    requires SpansWith(c, ring, start, from).1.known == Resolve(c, ring, SpansWith(c, ring, start, from).1.from)
    ensures
      var d := SpanAdd(c, ring, start, from);
      var (spans, m) := SpansWith(c, ring, start, from);
      && d.recs == c.recs && d.spans == spans && Before(d.anchors, next) && Info(d) <= Info(c) + {m.known}
  {
    hide SpansWith, Grounded, AnchorPut, Ticks;
    var m := SpansWith(c, ring, start, from).1;
    var k := CountLt(ring, m.from);
    if m.known != OPEN && k < |ring| && ring[k].tick < Grounded(c, m.from) {
      ResolveCases(c, ring, m.from);
      assert ring[k] in ring;
      AnchorPutTicks(c.anchors, Mark(m.known, ring[k].level));
      AnchorPutBefore(c.anchors, Mark(m.known, ring[k].level), next);
    }
  }

  lemma SpanAddRooted(c: Chan, ring: seq<Mark>, start: nat, from: nat)
    requires SpansOk(c.spans) && start <= from <= OPEN && Rooted(c)
    ensures Rooted(SpanAdd(c, ring, start, from)) && SameTrim(c, SpanAdd(c, ring, start, from))
  {
    var (spans, m) := SpansWith(c, ring, start, from);
    SpansWithTakesUp(c, ring, start, from);
    hide SpansWith, Resolve, Grounded, AnchorPut, SpansOk, TookUp;
    RootsKept(c.spans, spans, m, c.cover);
    hide FromStart, Hole;
  }

  lemma RootsKept(a: seq<Gap>, b: seq<Gap>, m: Gap, x: nat)
    requires TookUp(a, b, m)
    ensures (FromStart(a) ==> FromStart(b)) && (Hole(a, x) ==> Hole(b, x))
  {
    if FromStart(a) {
      var s :| s in a && s.start == 0;
      assert s in b || Absorbs(m, s);
    }
    if Hole(a, x) {
      var s :| s in a && s.start <= x < s.from;
      assert s in b || Absorbs(m, s);
    }
  }

  lemma {:induction false} JoinRightIs(i: Ival, right: seq<Ival>)
    requires IvalsOk(right) && i.start <= i.end && forall k :: 0 <= k < |right| ==> i.start <= right[k].start
    ensures JoinRight(i, right) != [] && IvalsOk(JoinRight(i, right)) && JoinRight(i, right)[0].start == i.start
    ensures forall x: nat :: InIvals(JoinRight(i, right), x) <==> i.start <= x <= i.end || InIvals(right, x)
    decreases |right|
  {
    if right != [] && right[0].start <= i.end + 1 {
      var n := Ival(i.start, Max(i.end, right[0].end));
      JoinRightIs(n, right[1..]);
      HeadIvals(right);
    } else {
      assert ([i] + right)[0] == i && ([i] + right)[1..] == right;
      HeadIvals([i] + right);
    }
  }

  lemma HeadIvals(s: seq<Ival>)
    requires s != []
    ensures forall x: nat :: InIvals(s, x) <==> s[0].start <= x <= s[0].end || InIvals(s[1..], x)
  {
    forall x: nat | InIvals(s, x)
      ensures s[0].start <= x <= s[0].end || InIvals(s[1..], x)
    {
      var l :| l in s && l.start <= x <= l.end;
      assert l == s[0] || l in s[1..];
    }
    forall x: nat | InIvals(s[1..], x)
      ensures InIvals(s, x)
    {
      var l :| l in s[1..] && l.start <= x <= l.end;
      assert l in s;
    }
  }

  lemma JoinIvals(a: seq<Ival>, b: seq<Ival>)
    ensures forall x: nat :: InIvals(a + b, x) <==> InIvals(a, x) || InIvals(b, x)
  {
    forall x: nat | InIvals(a, x)
      ensures InIvals(a + b, x)
    {
      var l :| l in a && l.start <= x <= l.end;
      assert l in a + b;
    }
    forall x: nat | InIvals(b, x)
      ensures InIvals(a + b, x)
    {
      var l :| l in b && l.start <= x <= l.end;
      assert l in a + b;
    }
    forall x: nat | InIvals(a + b, x)
      ensures InIvals(a, x) || InIvals(b, x)
    {
      var l :| l in a + b && l.start <= x <= l.end;
      assert l in a || l in b;
    }
  }

  /** The intervals after a loss hold its ticks and those they held, sorted and apart. */
  lemma IvalAddIs(s: seq<Ival>, start: nat, end: nat)
    requires IvalsOk(s) && start <= end
    ensures IvalsOk(IvalAdd(s, start, end))
    ensures forall x: nat :: InIvals(IvalAdd(s, start, end), x) <==> InIvals(s, x) || start <= x <= end
  {
    var p := CountIvals(s, start);
    hide CountIvals;
    forall k | 0 <= k < |s| - p
      ensures start < s[p..][k].start
    {
      assert s[p..][k] == s[p + k] && (k > 0 ==> s[p].end + 1 < s[p + k].start);
    }
    var joins := p > 0 && s[p - 1].end + 1 >= start;
    var q := if joins then p - 1 else p;
    var i := if joins then Ival(s[q].start, Max(s[q].end, end)) else Ival(start, end);
    assert q > 0 ==> s[q - 1].end + 1 < i.start;
    assert IvalAdd(s, start, end) == s[..q] + JoinRight(i, s[p..]);
    assert IvalsOk(s[p..]);
    hide *;
    JoinRightIs(i, s[p..]);
    FrontIvals(s, q, i.start, JoinRight(i, s[p..]));
    IvalAddTicks(s, p, q, i, JoinRight(i, s[p..]));
    JoinedTicks(s, q, joins, i, start, end);
  }

  /** Joined to an interval it meets, a loss adds its own ticks. */
  lemma JoinedTicks(s: seq<Ival>, q: nat, joins: bool, i: Ival, start: nat, end: nat)
    requires start <= end
    requires joins ==> q < |s| && s[q].start <= start <= s[q].end + 1 && i == Ival(s[q].start, Max(s[q].end, end))
    requires !joins ==> i == Ival(start, end)
    ensures forall x: nat :: InIvals(s, x) || i.start <= x <= i.end <==> InIvals(s, x) || start <= x <= end
  {
    if joins {
      forall x: nat | s[q].start <= x <= s[q].end
        ensures InIvals(s, x)
      {
        assert s[q] in s;
      }
    }
  }

  lemma IvalAddTicks(s: seq<Ival>, p: nat, q: nat, i: Ival, r: seq<Ival>)
    requires q <= p <= |s| && p <= q + 1
    requires q < p ==> i.start == s[q].start && s[q].end <= i.end
    requires forall x: nat :: InIvals(r, x) <==> i.start <= x <= i.end || InIvals(s[p..], x)
    ensures forall x: nat :: InIvals(s[..q] + r, x) <==> InIvals(s, x) || i.start <= x <= i.end
  {
    hide InIvals;
    assert s == s[..p] + s[p..];
    JoinIvals(s[..p], s[p..]);
    JoinIvals(s[..q], r);
    if q < p {
      assert s[..p] == s[..q] + [s[q]];
      JoinIvals(s[..q], [s[q]]);
      OneIval(s[q]);
    } else {
      assert s[..p] == s[..q];
    }
  }

  lemma OneIval(i: Ival)
    ensures forall x: nat :: InIvals([i], x) <==> i.start <= x <= i.end
  {
    assert i in [i];
  }

  lemma FrontIvals(s: seq<Ival>, q: nat, start: nat, r: seq<Ival>)
    requires IvalsOk(s) && q <= |s| && IvalsOk(r) && r != [] && r[0].start == start
    requires q > 0 ==> s[q - 1].end + 1 < start
    ensures IvalsOk(s[..q] + r)
  {
    var t := s[..q] + r;
    forall i, j | 0 <= i < j < |t|
      ensures t[i].end + 1 < t[j].start
    {
      assert i < q - 1 ==> s[i].end + 1 < s[q - 1].start;
      assert j > q ==> r[0].end + 1 < r[j - q].start;
    }
  }

  lemma LossMeans(c: Chan, d: Chan, h: History, l: Ival)
    requires IvalsOk(c.ivals) && IvalsMean(c, h) && l.start <= l.end && SameTrim(c, d)
    requires d.ivals == IvalAdd(c.ivals, l.start, l.end)
    ensures IvalsOk(d.ivals) && IvalsMean(d, h.(losses := h.losses + {l}))
  {
    IvalAddIs(c.ivals, l.start, l.end);
    var g := h.(losses := h.losses + {l});
    forall x: nat
      ensures Lost(g, x) <==> Lost(h, x) || l.start <= x <= l.end
    {
      if Lost(h, x) {
        var k :| k in h.losses && k.start <= x <= k.end;
        assert k in g.losses;
      }
      if l.start <= x <= l.end {
        assert l in g.losses;
      }
    }
    hide InIvals, Lost, IvalAdd;
  }

  lemma LoseExact(t: Track, start: nat, end: nat, right: Rule)
    requires TrackSafe(t, right) && Exact(t) && start <= end < OPEN
    ensures Exact(t.(c := ApplyLoss(t.c, t.ring, start, end), h := t.h.(losses := t.h.losses + {Ival(start, end)})))
  {
    SafeSorted(t, right);
    LoseExactParts(t, start, end);
    hide *;
    MakeExact(t.(c := ApplyLoss(t.c, t.ring, start, end), h := t.h.(losses := t.h.losses + {Ival(start, end)})));
  }

  lemma LoseExactParts(t: Track, start: nat, end: nat)
    requires Sorted(t.c, t.ring) && Exact(t) && start <= end < OPEN
    ensures
      var u := ApplyLoss(t.c, t.ring, start, end);
      var h := t.h.(losses := t.h.losses + {Ival(start, end)});
      && Past(u, t.ring, t.next) && AllTight(u) && AllSourced(u.spans, h.losses)
      && Rooted(u) && IvalsOk(u.ivals) && IvalsMean(u, h)
  {
    hide *;
    LossIs(t.c, t.ring, start, end);
    ExactParts(t);
    SortedParts(t.c, t.ring);
    LoseTight(t, start, end);
    LoseSourced(t, start, end);
    SpanAddRooted(t.c, t.ring, start, end + 1);
    SameTrims(t.c, SpanAdd(t.c, t.ring, start, end + 1), ApplyLoss(t.c, t.ring, start, end));
    LossMeans(t.c, ApplyLoss(t.c, t.ring, start, end), t.h, Ival(start, end));
  }

  lemma LoseTight(t: Track, start: nat, end: nat)
    requires Sorted(t.c, t.ring) && Exact(t) && start <= end < OPEN
    ensures var u := ApplyLoss(t.c, t.ring, start, end); Past(u, t.ring, t.next) && AllTight(u) && Rooted(u)
  {
    hide *;
    LossIs(t.c, t.ring, start, end);
    ExactParts(t);
    SortedParts(t.c, t.ring);
    SpanAddTight(t.c, t.ring, start, end + 1, t.next);
    SpanAddRooted(t.c, t.ring, start, end + 1);
    LossParts(t.c, SpanAdd(t.c, t.ring, start, end + 1), ApplyLoss(t.c, t.ring, start, end), t.ring, t.next);
  }

  lemma LoseSourced(t: Track, start: nat, end: nat)
    requires Sorted(t.c, t.ring) && Exact(t) && start <= end < OPEN
    ensures AllSourced(ApplyLoss(t.c, t.ring, start, end).spans, t.h.losses + {Ival(start, end)})
  {
    hide *;
    LossIs(t.c, t.ring, start, end);
    ExactParts(t);
    SortedParts(t.c, t.ring);
    MoreSources(t.c.spans, t.h.losses, t.h.losses + {Ival(start, end)});
    SpansWithSourced(t.c, t.ring, Ival(start, end), t.h.losses + {Ival(start, end)});
    SpanAddSpans(t.c, t.ring, start, end + 1);
  }

  lemma SameTrims(c: Chan, d: Chan, u: Chan)
    requires SameTrim(c, d) && u == d.(ivals := u.ivals)
    ensures SameTrim(c, u)
  {
  }

  lemma LossIs(c: Chan, ring: seq<Mark>, start: nat, end: nat)
    ensures ApplyLoss(c, ring, start, end) == SpanAdd(c, ring, start, end + 1).(ivals := IvalAdd(c.ivals, start, end))
  {
  }

  lemma SpanAddSpans(c: Chan, ring: seq<Mark>, start: nat, from: nat)
    ensures SpanAdd(c, ring, start, from).spans == SpansWith(c, ring, start, from).0
  {
    hide SpansWith, Grounded, AnchorPut, CountLt;
  }

  lemma ExactParts(t: Track)
    requires Exact(t)
    ensures Past(t.c, t.ring, t.next) && AllTight(t.c) && AllSourced(t.c.spans, t.h.losses)
    ensures Rooted(t.c) && IvalsOk(t.c.ivals) && IvalsMean(t.c, t.h)
  {
  }

  lemma MakeExact(t: Track)
    requires Past(t.c, t.ring, t.next) && AllTight(t.c) && AllSourced(t.c.spans, t.h.losses)
    requires Rooted(t.c) && IvalsOk(t.c.ivals) && IvalsMean(t.c, t.h)
    ensures Exact(t)
  {
  }

  lemma SortedParts(c: Chan, ring: seq<Mark>)
    requires Sorted(c, ring)
    ensures SpansOk(c.spans) && Ascending(c.recs) && Ascending(c.anchors)
  {
  }

  lemma LossParts(c: Chan, d: Chan, u: Chan, ring: seq<Mark>, next: nat)
    requires Past(c, ring, next) && AllTight(d) && Rooted(d) && u == d.(ivals := u.ivals)
    requires Before(d.anchors, next) && d.recs == c.recs
    requires forall s :: s in d.spans ==> s.known == OPEN || s.known < next
    ensures Past(u, ring, next) && AllTight(u) && Rooted(u)
  {
    hide Tight, FromStart, Hole;
    assert Info(u) == Info(d);
  }

  // ----- trims

  lemma {:induction false} IvalsAfterIs(s: seq<Ival>, t: nat)
    requires IvalsOk(s)
    ensures IvalsOk(IvalsAfter(s, t)) && forall x: nat :: x >= t ==> (InIvals(IvalsAfter(s, t), x) <==> InIvals(s, x))
    decreases |s|
  {
    if s != [] && s[0].end < t {
      IvalsAfterIs(s[1..], t);
      HeadIvals(s);
    }
  }

  /** Where the trim leaves the base unknown a span holds it. */
  lemma TrimRooted(t: Track, right: Rule, at: nat)
    requires TrackSafe(t, right) && Exact(t) && TrimTick(t.c, at)
    ensures Rooted(TrimTo(t.c, at))
  {
    var c := t.c;
    var d := TrimTo(c, at);
    SafeSorted(t, right);
    SortedParts(c, t.ring);
    hide Sorted, AllTrue;
    SpansAfterKeeps(c.spans, at);
    TrimToParts(c, at);
    hide SpansAfter, IvalsAfter, CountLe;
    if d.base == UNKNOWN {
      if c.dropped && at <= c.cover {
        hide LevelAt, Safe, SpansOk;
        var s :| s in c.spans && s.start <= c.cover < s.from;
        SpanOf(c.spans, s);
        assert s in d.spans;
      } else {
        assert LevelAt(c, at) == UNKNOWN && d.cover == at;
        hide LevelAt, TrimTo;
        BelowOpen(t, right, at);
        UnknownIff(t, right, at);
        AtHole(t, right, at);
        var s :| s in c.spans && s.start <= at < s.from;
        SpanOf(c.spans, s);
        assert s in d.spans;
      }
    }
  }

  lemma BelowOpen(t: Track, right: Rule, at: nat)
    requires TrackSafe(t, right) && TrimTick(t.c, at) && (t.c.dropped ==> at > t.c.cover)
    ensures at < OPEN
  {
    if at !in Info(t.c) {
      var l :| l in t.c.ivals && l.end == at;
      assert Shielded(t.c.spans, Ival(l.end, l.end));
      var s :| s in t.c.spans && s.start <= l.end && l.end < s.from;
      SpanOf(t.c.spans, s);
    }
  }

  lemma AtHole(t: Track, right: Rule, at: nat)
    requires TrackSafe(t, right) && Exact(t) && TrimTick(t.c, at) && InSpan(t.c.spans, at)
    requires t.c.dropped ==> at > t.c.cover
    ensures Hole(t.c.spans, at)
  {
    if at in Info(t.c) {
      var s :| s in t.c.spans && s.start <= at < s.known;
      assert Tight(Info(t.c), s);
    } else {
      var l :| l in t.c.ivals && l.end == at;
      assert Shielded(t.c.spans, Ival(l.end, l.end));
    }
  }

  /** What a trim, with the oldest records possibly gone too, leaves of the invariants. */
  lemma TrimParts(t: Track, d: Chan, at: nat)
    requires Exact(t) && TrimsTo(t.c, d, at) && SpansOk(t.c.spans)
    ensures Past(d, t.ring, t.next) && AllTight(d) && AllSourced(d.spans, t.h.losses)
    ensures IvalsOk(d.ivals) && IvalsMean(d, t.h)
  {
    SpansAfterKeeps(t.c.spans, at);
    IvalsAfterIs(t.c.ivals, at);
    hide SpansAfter, IvalsAfter, Rooted, SpansOk, Sourced, Tight, InIvals, Lost, IvalsOk;
    assert Info(d) <= Info(t.c);
    forall s | s in d.spans
      ensures Tight(Info(d), s)
    {
      assert Tight(Info(t.c), s);
      LessTight(Info(t.c), Info(d), s);
    }
  }

  lemma LessTight(info: set<nat>, less: set<nat>, s: Gap)
    requires Tight(info, s) && less <= info
    ensures Tight(less, s)
  {
  }

  lemma TrimExact(t: Track, right: Rule, at: nat)
    requires TrackSafe(t, right) && Exact(t) && TrimTick(t.c, at)
    ensures Exact(t.(c := TrimTo(t.c, at)))
  {
    SafeSorted(t, right);
    hide *;
    SortedParts(t.c, t.ring);
    TrimIs(t.c, at);
    TrimParts(t, TrimTo(t.c, at), at);
    TrimRooted(t, right, at);
    MakeExact(t.(c := TrimTo(t.c, at)));
  }

  lemma DropIs(c: Chan, n: nat)
    requires 0 < n <= |c.recs| && Ascending(c.recs) && Ascending(c.anchors)
    ensures TrimsTo(c, DropBlock(c, n), c.recs[n - 1].tick)
    ensures DropBlock(c, n) == TrimTo(c, c.recs[n - 1].tick).(recs := c.recs[n..])
  {
    RecsAfter(c.recs, n);
    TrimIs(c, c.recs[n - 1].tick);
    TrimToParts(c, c.recs[n - 1].tick);
    hide TrimTo, Ascending, SpansAfter, IvalsAfter, CountLt;
  }

  lemma DropExact(t: Track, right: Rule, n: nat)
    requires TrackSafe(t, right) && Exact(t) && 0 < n <= |t.c.recs|
    ensures Exact(t.(c := DropBlock(t.c, n)))
  {
    SafeSorted(t, right);
    var at := t.c.recs[n - 1].tick;
    var d := TrimTo(t.c, at);
    assert TrimTick(t.c, at) by {
      assert t.c.recs[n - 1] in t.c.recs;
    }
    hide *;
    SortedParts(t.c, t.ring);
    DropIs(t.c, n);
    TrimParts(t, DropBlock(t.c, n), at);
    TrimRooted(t, right, at);
    DropRooted(d, DropBlock(t.c, n));
    MakeExact(t.(c := DropBlock(t.c, n)));
  }

  lemma DropRooted(d: Chan, e: Chan)
    requires Rooted(d) && e == d.(recs := e.recs)
    ensures Rooted(e)
  {
  }

  // ----- whole runs

  lemma StepExact(t: Track, late: nat, op: Op, right: Rule)
    requires TrackSafe(t, right) && Exact(t) && Allowed(t, op, right) && InOrder(t, op)
    ensures Exact(Step(t, late, op))
  {
    hide TrackSafe, Exact, ApplyRecord, ApplyBeat, ApplyLoss, TrimTo, DropBlock, Held;
    match op
    case Put(tick, level) =>
      if Accepts(t.c, tick) {
        PutExact(t, late, tick, level, right);
      }
    case Beat(tick, level) =>
      BeatExact(t, late, tick, level, right);
    case Lose(start, end) =>
      if start <= end {
        LoseExact(t, start, end, right);
      }
    case TrimAnchor(i) =>
      if i < |t.c.anchors| {
        assert t.c.anchors[i] in t.c.anchors;
        TrimExact(t, right, t.c.anchors[i].tick);
      }
    case TrimLoss(i) =>
      if i < |t.c.ivals| {
        assert t.c.ivals[i] in t.c.ivals;
        TrimExact(t, right, t.c.ivals[i].end);
      }
    case Drop(n) =>
      if 0 < n <= |t.c.recs| {
        DropExact(t, right, n);
      }
  }

  lemma {:induction false} RunExact(t: Track, late: nat, ops: seq<Op>, right: Rule)
    requires TrackSafe(t, right) && Exact(t) && AllAllowed(t, late, ops, right) && AllInOrder(t, late, ops)
    ensures TrackSafe(Run(t, late, ops), right) && Exact(Run(t, late, ops))
    decreases |ops|
  {
    hide TrackSafe, Exact, Step, Allowed, InOrder;
    if ops != [] {
      StepSafe(t, late, ops[0], right);
      StepExact(t, late, ops[0], right);
      RunExact(Step(t, late, ops[0]), late, ops[1..], right);
    }
  }

  ghost function Everything(): Rule {
    (tick: nat, level: nat) => true
  }

  /**
   * After every run in tick order, whatever levels it has, the flags of a column say what
   * reading its ticks one by one would say, from the cover on.
   */
  lemma FlagsExact(late: nat, ops: seq<Op>, a: nat, b: nat)
    requires AllAllowed(BEGIN, late, ops, Everything()) && AllInOrder(BEGIN, late, ops) && a <= b < OPEN
    ensures
      var t := Run(BEGIN, late, ops);
      && (UnknownIn(t.c, a, b) <==> exists q :: a <= q <= b && LevelAt(t.c, q) == UNKNOWN)
      && ((t.c.dropped ==> a >= t.c.cover) ==>
           (LossIn(t.c, a, b) <==> exists l :: l in t.h.losses && l.start <= l.end && l.start <= b && a <= l.end))
  {
    var t := Run(BEGIN, late, ops);
    BeginSafe(Everything());
    BeginExact();
    hide TrackSafe, Exact, LevelAt, UnknownIn, LossIn, AllAllowed, AllInOrder;
    RunExact(BEGIN, late, ops, Everything());
    UnknownInExact(t, Everything(), a, b);
    if t.c.dropped ==> a >= t.c.cover {
      LossInExact(t, a, b);
    }
  }

  /**
   * The store says unknown only where it must: after every run in tick order, a level from
   * the cover on is unknown only with no record and no kept heartbeat between the end of some
   * loss (or the start of the capture) and its tick, and after the start of some loss.
   */
  lemma RunKnownUnlessLost(late: nat, ops: seq<Op>, tick: nat) returns (a: nat, b: nat)
    requires AllAllowed(BEGIN, late, ops, Everything()) && AllInOrder(BEGIN, late, ops) && tick < OPEN
    requires var c := Run(BEGIN, late, ops).c; LevelAt(c, tick) == UNKNOWN && (c.dropped ==> tick >= c.cover)
    ensures
      var t := Run(BEGIN, late, ops);
      && Cause(t.h.losses, a, b) && a <= tick
      && forall i :: i in Info(t.c) && b <= i ==> tick < i
  {
    BeginSafe(Everything());
    BeginExact();
    hide TrackSafe, Exact, LevelAt, AllAllowed, AllInOrder;
    RunExact(BEGIN, late, ops, Everything());
    a, b := KnownUnlessLost(Run(BEGIN, late, ops), Everything(), tick);
  }

  /** How many records come at ticks from a to before b, one by one. */
  function CountIn(m: seq<Mark>, a: nat, b: nat): nat {
    if m == [] then 0 else CountIn(m[..|m| - 1], a, b) + if a <= m[|m| - 1].tick < b then 1 else 0
  }

  lemma {:induction false} CountInIs(m: seq<Mark>, a: nat, b: nat)
    requires Ascending(m) && a <= b
    ensures CountLt(m, a) <= CountLt(m, b) && CountIn(m, a, b) == CountLt(m, b) - CountLt(m, a)
    decreases |m|
  {
    if m != [] {
      var front := m[..|m| - 1];
      CountInIs(front, a, b);
      CountLtFront(m, a);
      CountLtFront(m, b);
    }
  }

  lemma CountLtFront(m: seq<Mark>, tick: nat)
    requires Ascending(m) && m != []
    ensures CountLt(m, tick) == if m[|m| - 1].tick < tick then |m| else CountLt(m[..|m| - 1], tick)
  {
    if m[|m| - 1].tick < tick {
      CountLtIs(m, tick, |m|);
    } else {
      var j := CountLt(m[..|m| - 1], tick);
      assert forall i :: 0 <= i < |m| - 1 ==> m[i] == m[..|m| - 1][i];
      CountLtIs(m, tick, j);
    }
  }

  /** The facts about the channel that a column is made of. */
  predicate Facts(c: Chan, losses: set<Ival>, a: nat, b: nat)
    requires a < b
  {
    && CountLt(c.recs, a) <= CountLt(c.recs, b) && CountIn(c.recs, a, b) == CountLt(c.recs, b) - CountLt(c.recs, a)
    && (UnknownIn(c, a, b - 1) <==> exists q :: a <= q <= b - 1 && LevelAt(c, q) == UNKNOWN)
    && ((c.dropped ==> a >= c.cover) ==>
         (LossIn(c, a, b - 1) <==> exists l :: l in losses && l.start <= l.end && l.start <= b - 1 && a <= l.end))
  }

  lemma ColumnRecords(late: nat, ops: seq<Op>, a: nat, b: nat)
    requires AllAllowed(BEGIN, late, ops, Everything()) && a <= b
    ensures
      var recs := Run(BEGIN, late, ops).c.recs;
      CountLt(recs, a) <= CountLt(recs, b) && CountIn(recs, a, b) == CountLt(recs, b) - CountLt(recs, a)
  {
    var t := Run(BEGIN, late, ops);
    BeginSafe(Everything());
    RunSafe(BEGIN, late, ops, Everything());
    assert Ascending(t.c.recs) by { SafeSorted(t, Everything()); SortedParts(t.c, t.ring); }
    hide *;
    CountInIs(t.c.recs, a, b);
  }

  lemma FactsExact(late: nat, ops: seq<Op>, a: nat, b: nat)
    requires AllAllowed(BEGIN, late, ops, Everything()) && AllInOrder(BEGIN, late, ops) && a < b <= OPEN
    ensures Facts(Run(BEGIN, late, ops).c, Run(BEGIN, late, ops).h.losses, a, b)
  {
    hide Run, AllAllowed, AllInOrder, CountIn, CountLt, LevelAt, UnknownIn, LossIn, Everything;
    FlagsExact(late, ops, a, b - 1);
    ColumnRecords(late, ops, a, b);
  }
}
