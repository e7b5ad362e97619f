/**
 * The store never reports a wrong level: whatever the order of records, heartbeats, losses
 * and trims, a held level is unknown or the true one.
 */
module StoreTruth {
  import opened Numbers
  import opened StoreChannel

  /** The true level of the channel at the end of every tick. */
  type Signal = nat -> nat

  /** Which levels are right at the end of which tick. */
  type Rule = (nat, nat) -> bool

  function Says(signal: Signal): Rule {
    (tick: nat, level: nat) => signal(tick) == level
  }

  /** The records the store took, by tick, and the losses reported on the channel. */
  datatype History = History(recs: set<nat>, losses: set<Ival>)

  ghost function Ticks(m: seq<Mark>): set<nat> {
    set x | x in m :: x.tick
  }

  ghost predicate True(m: seq<Mark>, right: Rule) {
    forall x :: x in m ==> x.level < 2 && right(x.tick, x.level) && x.tick < OPEN
  }

  predicate Lost(h: History, x: nat) {
    exists l :: l in h.losses && l.start <= x <= l.end
  }

  /** Up to tick w every change was recorded or lies in a reported loss. */
  ghost predicate Explained(signal: Signal, h: History, w: nat) {
    forall x: nat :: 0 < x <= w && signal(x) != signal(x - 1) ==> x in h.recs || Lost(h, x)
  }

  /** Ticks a record or an anchor gives the level at. */
  ghost function Info(c: Chan): set<nat> {
    Ticks(c.recs) + Ticks(c.anchors)
  }

  predicate GapOk(n: Gap) {
    n.start <= n.from <= n.known <= OPEN
  }

  /** Sorted and apart, so that only the last span can be open. */
  predicate SpansOk(s: seq<Gap>) {
    && (forall i, j :: 0 <= i < j < |s| ==> s[i].known < s[j].start)
    && (forall i :: 0 <= i < |s| ==> GapOk(s[i]))
  }

  predicate Trimmed(c: Chan, t: nat) {
    c.dropped && t <= c.cover
  }

  /** Where a span ends there is a record or an anchor, if it is not trimmed away. */
  ghost predicate AllGrounded(c: Chan) {
    forall s :: s in c.spans ==> s.known == OPEN || Trimmed(c, s.known) || s.known in Info(c)
  }

  predicate Absorbs(m: Gap, x: Gap) {
    m.start <= x.start && x.from <= m.from
  }

  /** A span keeps the ticks of the loss unknown past its end. */
  predicate Shielded(spans: seq<Gap>, l: Ival) {
    exists s :: s in spans && s.start <= l.start && l.end < s.from
  }

  /** A loss is older than all that is held, or shielded. */
  predicate LossesCovered(c: Chan, losses: set<Ival>) {
    forall l :: l in losses ==> Trimmed(c, l.end + 1) || Shielded(c.spans, l)
  }

  /** The ends of the loss intervals read unknown. */
  predicate EndsCovered(c: Chan) {
    forall l :: l in c.ivals ==> Trimmed(c, l.end + 1) || Shielded(c.spans, Ival(l.end, l.end))
  }

  ghost predicate AllHeld(c: Chan, h: History) {
    forall x :: x in h.recs ==> Trimmed(c, x) || x in Ticks(c.recs)
  }

  ghost predicate Sorted(c: Chan, ring: seq<Mark>) {
    && Ascending(c.recs) && Ascending(c.anchors) && NonDescending(ring)
    && (c.recs != [] ==> c.haveLast && c.recs[|c.recs| - 1].tick <= c.lastTick)
    && SpansOk(c.spans)
  }

  ghost predicate AllTrue(c: Chan, ring: seq<Mark>, right: Rule) {
    && True(c.recs, right) && True(c.anchors, right) && True(ring, right)
    && (c.dropped ==> c.base == UNKNOWN || right(c.cover, c.base))
  }

  /** The store's promise, as an invariant of every operation. */
  ghost predicate Safe(c: Chan, ring: seq<Mark>, right: Rule, h: History) {
    && Sorted(c, ring) && AllTrue(c, ring, right)
    && AllGrounded(c) && LossesCovered(c, h.losses) && EndsCovered(c) && AllHeld(c, h)
  }

  // ----- the promise

  lemma {:induction false} Steady(signal: Signal, h: History, w: nat, p: nat, q: nat)
    requires Explained(signal, h, w) && p <= q <= w
    requires forall x :: p < x <= q ==> x !in h.recs && !Lost(h, x)
    ensures signal(p) == signal(q)
    decreases q
  {
    if p < q {
      Steady(signal, h, w, p, q - 1);
      assert q !in h.recs && !Lost(h, q);
    }
  }

  lemma SpansAscend(s: seq<Gap>)
    requires SpansOk(s)
    ensures forall i, j :: 0 <= i < j < |s| ==> s[i].start <= s[j].start && s[i].known < s[j].start && s[i].known <= s[j].known
  {
    forall i, j | 0 <= i < j < |s|
      ensures s[i].start <= s[j].start && s[i].known < s[j].start && s[i].known <= s[j].known
    {
      assert GapOk(s[i]) && GapOk(s[j]);
    }
  }

  /** The last span starting at or before a tick is the only one that can hold it. */
  lemma StartedLast(s: seq<Gap>, tick: nat, x: Gap)
    requires SpansOk(s) && x in s && x.start <= tick
    ensures
      var lo := CountStarted(s, tick);
      lo > 0 && x.known <= s[lo - 1].known && (x.known < s[lo - 1].start || x == s[lo - 1])
  {
    hide SpansOk;
    SpansAscend(s);
    var i :| 0 <= i < |s| && s[i] == x;
    var lo := CountStarted(s, tick);
    assert i < lo;
  }

  /** A tick in a span reads unknown. */
  lemma InSpanUnknown(c: Chan, tick: nat, x: Gap)
    requires SpansOk(c.spans) && x in c.spans && x.start <= tick < x.known
    ensures LevelAt(c, tick) == UNKNOWN
  {
    StartedLast(c.spans, tick, x);
  }

  /** The newest information at or before tick that is not before the cover. */
  ghost predicate Newest(c: Chan, tick: nat, p: nat) {
    && p <= tick
    && (c.dropped ==> p >= c.cover)
    && forall t :: t in Info(c) && t <= tick && (c.dropped ==> t >= c.cover) ==> t <= p
  }

  /** The last mark counted is the newest of those at or before a tick. */
  lemma LastCounted(m: seq<Mark>, tick: nat)
    requires NonDescending(m)
    ensures
      var k := CountLe(m, tick);
      && (k > 0 ==> m[k - 1] in m && m[k - 1].tick <= tick)
      && (forall t :: t in Ticks(m) && t <= tick ==> k > 0 && t <= m[k - 1].tick)
  {
    var k := CountLe(m, tick);
    forall t | t in Ticks(m) && t <= tick
      ensures k > 0 && t <= m[k - 1].tick
    {
      var x :| x in m && x.tick == t;
      var i :| 0 <= i < |m| && m[i] == x;
    }
  }

  /** A known level is the true level at the newest information. */
  lemma KnownFromNewest(c: Chan, ring: seq<Mark>, right: Rule, tick: nat) returns (p: nat)
    requires Sorted(c, ring) && AllTrue(c, ring, right) && (c.dropped ==> tick >= c.cover)
    requires LevelAt(c, tick) != UNKNOWN
    ensures Newest(c, tick, p) && right(p, LevelAt(c, tick))
  {
    LastCounted(c.recs, tick);
    LastCounted(c.anchors, tick);
    hide SpansOk, CountLe, Ticks, Ascending, NonDescending, CountStarted;
    var k, a := CountLe(c.recs, tick), CountLe(c.anchors, tick);
    if k > 0 && (a == 0 || c.anchors[a - 1].tick < c.recs[k - 1].tick) && (!c.dropped || c.recs[k - 1].tick >= c.cover) {
      p := c.recs[k - 1].tick;
    } else if a > 0 && (!c.dropped || c.anchors[a - 1].tick >= c.cover) {
      p := c.anchors[a - 1].tick;
    } else {
      p := c.cover;
    }
  }

  /** Between the newest information and a known tick there is no record and no loss. */
  lemma NothingMissed(c: Chan, ring: seq<Mark>, right: Rule, h: History, tick: nat, p: nat, x: nat)
    requires Safe(c, ring, right, h) && LevelAt(c, tick) != UNKNOWN
    requires Newest(c, tick, p) && p < x <= tick < OPEN && (c.dropped ==> tick >= c.cover)
    ensures x !in h.recs && !Lost(h, x)
  {
    NotRecorded(c, h, tick, p, x);
    if Lost(h, x) {
      var l :| l in h.losses && l.start <= x <= l.end;
      NotInLoss(c, tick, p, x, l, h.losses);
    }
  }

  lemma NotRecorded(c: Chan, h: History, tick: nat, p: nat, x: nat)
    requires AllHeld(c, h) && Newest(c, tick, p) && p < x <= tick
    ensures x !in h.recs
  {
    hide Ticks;
    assert x in Ticks(c.recs) ==> x in Info(c);
  }

  lemma NotInLoss(c: Chan, tick: nat, p: nat, x: nat, l: Ival, losses: set<Ival>)
    requires SpansOk(c.spans) && AllGrounded(c) && LossesCovered(c, losses) && l in losses
    requires LevelAt(c, tick) != UNKNOWN && Newest(c, tick, p) && p < x <= tick < OPEN
    ensures !(l.start <= x <= l.end)
  {
    hide LevelAt, Info, SpansOk;
    if l.start <= x <= l.end && !Trimmed(c, l.end + 1) {
      var s :| s in c.spans && s.start <= l.start && l.end < s.from;
      SpanOf(c.spans, s);
      if tick < s.known {
        InSpanUnknown(c, tick, s);
      }
    }
  }

  lemma SpanOf(s: seq<Gap>, x: Gap)
    requires SpansOk(s) && x in s
    ensures GapOk(x)
  {
  }

  /**
   * The store never reports a wrong level: in every state the invariant reaches, at every
   * tick held and arrived up to which each missing change lies in a reported loss, the level
   * is unknown or the true one.
   */
  lemma NeverWrong(c: Chan, ring: seq<Mark>, signal: Signal, h: History, w: nat, tick: nat)
    requires Safe(c, ring, Says(signal), h) && Explained(signal, h, w)
    requires tick <= w && tick < OPEN && (c.dropped ==> tick >= c.cover)
    ensures LevelAt(c, tick) == UNKNOWN || LevelAt(c, tick) == signal(tick)
  {
    if LevelAt(c, tick) != UNKNOWN {
      var p := KnownFromNewest(c, ring, Says(signal), tick);
      forall x | p < x <= tick
        ensures x !in h.recs && !Lost(h, x)
      {
        NothingMissed(c, ring, Says(signal), h, tick, p, x);
      }
      Steady(signal, h, w, p, tick);
    }
  }

  // ----- spans

  lemma ResolveBounds(c: Chan, ring: seq<Mark>, from: nat)
    requires from <= OPEN
    ensures from <= Resolve(c, ring, from) <= OPEN
  {
  }

  lemma {:induction false} MergeLeftAbsorbs(c: Chan, ring: seq<Mark>, left: seq<Gap>, n: Gap)
    requires SpansOk(left) && GapOk(n) && n.known == Resolve(c, ring, n.from)
    requires forall i :: 0 <= i < |left| ==> left[i].start <= n.start
    ensures
      var (l, m) := MergeLeft(c, ring, left, n);
      && |l| <= |left| && l == left[..|l|]
      && GapOk(m) && m.known == Resolve(c, ring, m.from) && Absorbs(m, n)
      && (l != [] ==> l[|l| - 1].known < m.start)
      && (forall i :: |l| <= i < |left| ==> Absorbs(m, left[i]))
    decreases |left|
  {
    hide Resolve;
    if left != [] && left[|left| - 1].known >= n.start {
      var a := left[|left| - 1];
      var from := Max(a.from, n.from);
      ResolveBounds(c, ring, from);
      var front := left[..|left| - 1];
      forall i | 0 <= i < |front|
        ensures front[i].start <= a.start
      {
        assert left[i].known < left[|left| - 1].start;
      }
      MergeLeftAbsorbs(c, ring, front, Gap(a.start, from, Resolve(c, ring, from)));
    }
  }

  lemma {:induction false} MergeRightAbsorbs(c: Chan, ring: seq<Mark>, n: Gap, right: seq<Gap>)
    requires SpansOk(right) && GapOk(n) && n.known == Resolve(c, ring, n.from)
    requires forall i :: 0 <= i < |right| ==> n.start <= right[i].start
    ensures
      var (m, r) := MergeRight(c, ring, n, right);
      && |r| <= |right| && r == right[|right| - |r|..]
      && GapOk(m) && m.known == Resolve(c, ring, m.from) && Absorbs(m, n) && m.start == n.start
      && (r != [] ==> m.known < r[0].start)
      && (forall i :: 0 <= i < |right| - |r| ==> Absorbs(m, right[i]))
    decreases |right|
  {
    hide Resolve;
    if right != [] && right[0].start <= n.known {
      var from := Max(n.from, right[0].from);
      ResolveBounds(c, ring, from);
      var q := Gap(n.start, from, Resolve(c, ring, from));
      MergeRightAbsorbs(c, ring, q, right[1..]);
      var (m, r) := MergeRight(c, ring, q, right[1..]);
      assert right[1..][|right| - 1 - |r|..] == right[|right| - |r|..];
      forall i | 0 <= i < |right| - |r|
        ensures Absorbs(m, right[i])
      {
        if i > 0 {
          assert right[i] == right[1..][i - 1];
        }
      }
    }
  }

  predicate AbsorbedIn(spans: seq<Gap>, x: Gap) {
    exists m :: m in spans && Absorbs(m, x)
  }

  /** Every span is still there or has been taken up by the new one. */
  ghost predicate TookUp(old_: seq<Gap>, now: seq<Gap>, m: Gap) {
    && m in now
    && (forall x :: x in old_ ==> x in now || Absorbs(m, x))
    && (forall x :: x in now ==> x == m || x in old_)
  }

  lemma Split(s: seq<Gap>, tick: nat)
    requires SpansOk(s)
    ensures
      var p := CountStarted(s, tick);
      && SpansOk(s[..p]) && SpansOk(s[p..])
      && (forall i :: 0 <= i < p ==> s[..p][i].start <= tick)
      && (forall i :: 0 <= i < |s| - p ==> s[p..][i].start > tick)
  {
    hide CountStarted;
    var p := CountStarted(s, tick);
    forall i | p <= i < |s|
      ensures s[i].start > tick
    {
      assert i > p ==> s[p].known < s[i].start;
    }
    assert forall i :: 0 <= i < |s| - p ==> s[p..][i] == s[p + i];
  }

  lemma SpansWithTakesUp(c: Chan, ring: seq<Mark>, start: nat, from: nat)
    requires SpansOk(c.spans) && start <= from <= OPEN
    ensures
      var (s, m) := SpansWith(c, ring, start, from);
      && SpansOk(s) && TookUp(c.spans, s, m)
      && GapOk(m) && m.start <= start && from <= m.from && m.known == Resolve(c, ring, m.from)
  {
    hide MergeLeft, MergeRight, Resolve, SpansOk, TookUp, CountStarted;
    var p := CountStarted(c.spans, start);
    var n := Gap(start, from, Resolve(c, ring, from));
    ResolveBounds(c, ring, from);
    Split(c.spans, start);
    MergeLeftAbsorbs(c, ring, c.spans[..p], n);
    var (left, n1) := MergeLeft(c, ring, c.spans[..p], n);
    MergeRightAbsorbs(c, ring, n1, c.spans[p..]);
    var (m, right) := MergeRight(c, ring, n1, c.spans[p..]);
    Middle(c.spans, p, |left|, n1, m, |right|);
    Joined(c.spans, left, m, right);
  }

  /** What the new span took up on its left and then on its right, it took up. */
  lemma Middle(s: seq<Gap>, p: nat, l: nat, n: Gap, m: Gap, r: nat)
    requires l <= p && r <= |s| - p && p <= |s| && Absorbs(m, n)
    requires forall i :: l <= i < p ==> Absorbs(n, s[..p][i])
    requires forall i :: 0 <= i < |s| - p - r ==> Absorbs(m, s[p..][i])
    ensures forall i :: l <= i < |s| - r ==> Absorbs(m, s[i])
  {
    forall i | l <= i < |s| - r
      ensures Absorbs(m, s[i])
    {
      if i < p {
        assert s[..p][i] == s[i];
      } else {
        assert s[p..][i - p] == s[i];
      }
    }
  }

  lemma Joined(s: seq<Gap>, left: seq<Gap>, m: Gap, right: seq<Gap>)
    requires SpansOk(s) && |left| + |right| <= |s| && left == s[..|left|] && right == s[|s| - |right|..]
    requires GapOk(m) && (left != [] ==> left[|left| - 1].known < m.start) && (right != [] ==> m.known < right[0].start)
    requires forall i :: |left| <= i < |s| - |right| ==> Absorbs(m, s[i])
    ensures SpansOk(left + [m] + right) && TookUp(s, left + [m] + right, m)
  {
    JoinedTakes(s, left, m, right);
    hide TookUp, Absorbs;
    assert SpansOk(left) by { Part(s, 0, |left|); }
    assert SpansOk(right) by { Part(s, |s| - |right|, |s|); }
    hide SpansOk;
    JoinedOk(left, m, right);
  }

  lemma Part(s: seq<Gap>, i: nat, j: nat)
    requires SpansOk(s) && i <= j <= |s|
    ensures SpansOk(s[i..j])
  {
  }

  lemma JoinedTakes(s: seq<Gap>, left: seq<Gap>, m: Gap, right: seq<Gap>)
    requires |left| + |right| <= |s| && left == s[..|left|] && right == s[|s| - |right|..]
    requires forall i :: |left| <= i < |s| - |right| ==> Absorbs(m, s[i])
    ensures TookUp(s, left + [m] + right, m)
  {
    hide Absorbs;
    var t := left + [m] + right;
    forall x | x in s
      ensures x in t || Absorbs(m, x)
    {
      var i :| 0 <= i < |s| && s[i] == x;
      if i < |left| {
        assert t[i] == x;
      } else if i >= |s| - |right| {
        assert t[|left| + 1 + (i - (|s| - |right|))] == x;
      }
    }
    assert t[|left|] == m;
  }

  lemma JoinedOk(left: seq<Gap>, m: Gap, right: seq<Gap>)
    requires SpansOk(left) && SpansOk(right) && GapOk(m)
    requires (left != [] ==> left[|left| - 1].known < m.start) && (right != [] ==> m.known < right[0].start)
    ensures SpansOk(left + [m] + right)
  {
    SpansAscend(left);
    SpansAscend(right);
    var t := left + [m] + right;
    var n := |left|;
    forall i, j | 0 <= i < j < |t|
      ensures t[i].known < t[j].start
    {
      if i < n {
        assert t[i] == left[i] && left[i].known <= left[n - 1].known;
      }
      if j > n {
        assert t[j] == right[j - n - 1] && right[0].start <= right[j - n - 1].start;
      }
    }
    forall i | 0 <= i < |t|
      ensures GapOk(t[i])
    {
      assert i < n ==> t[i] == left[i];
      assert i > n ==> t[i] == right[i - n - 1];
    }
  }

  // ----- what carries over

  /** Spans only grow: what a span held unknown stays held. */
  ghost predicate KeepsSpans(a: seq<Gap>, b: seq<Gap>) {
    forall x :: x in a ==> AbsorbedIn(b, x)
  }

  lemma ShieldStays(a: seq<Gap>, b: seq<Gap>, l: Ival)
    requires Shielded(a, l) && KeepsSpans(a, b)
    ensures Shielded(b, l)
  {
    var s :| s in a && s.start <= l.start && l.end < s.from;
    assert AbsorbedIn(b, s);
    var m :| m in b && Absorbs(m, s);
  }

  predicate SameTrim(c: Chan, d: Chan) {
    c.dropped == d.dropped && c.cover == d.cover && c.base == d.base
  }

  lemma CoversStay(c: Chan, d: Chan, losses: set<Ival>)
    requires SameTrim(c, d) && KeepsSpans(c.spans, d.spans) && c.ivals == d.ivals
    requires LossesCovered(c, losses) && EndsCovered(c)
    ensures LossesCovered(d, losses) && EndsCovered(d)
  {
    hide KeepsSpans, Shielded;
    forall l | l in losses && !Trimmed(d, l.end + 1)
      ensures Shielded(d.spans, l)
    {
      ShieldStays(c.spans, d.spans, l);
    }
    forall l | l in d.ivals && !Trimmed(d, l.end + 1)
      ensures Shielded(d.spans, Ival(l.end, l.end))
    {
      ShieldStays(c.spans, d.spans, Ival(l.end, l.end));
    }
  }

  lemma GroundedStays(c: Chan, d: Chan)
    requires SameTrim(c, d) && AllGrounded(c) && Info(c) <= Info(d)
    requires forall x :: x in d.spans ==> x in c.spans || x.known == OPEN || x.known in Info(d)
    ensures AllGrounded(d)
  {
    hide Info;
  }

  lemma TicksOfConcat(a: seq<Mark>, b: seq<Mark>)
    ensures Ticks(a + b) == Ticks(a) + Ticks(b)
  {
    forall t | t in Ticks(a) + Ticks(b)
      ensures t in Ticks(a + b)
    {
      if t in Ticks(a) {
        var x :| x in a && x.tick == t;
        assert x in a + b;
      } else {
        var x :| x in b && x.tick == t;
        assert x in a + b;
      }
    }
  }

  lemma AnchorPutKeeps(a: seq<Mark>, m: Mark, right: Rule)
    requires Ascending(a) && True(a, right) && m.level < 2 && right(m.tick, m.level) && m.tick < OPEN
    ensures Ascending(AnchorPut(a, m)) && True(AnchorPut(a, m), right)
    ensures Ticks(AnchorPut(a, m)) == Ticks(a) + {m.tick}
  {
    AnchorPutAscends(a, m);
    AnchorPutTicks(a, m);
    hide Ascending, Ticks, CountLt;
    forall x | x in AnchorPut(a, m)
      ensures x == m || x in a
    {
    }
  }

  lemma AnchorPutTicks(a: seq<Mark>, m: Mark)
    ensures Ticks(AnchorPut(a, m)) == Ticks(a) + {m.tick}
  {
    hide Ticks, CountLt;
    var p := CountLe(a, m.tick);
    if p > 0 && a[p - 1].tick == m.tick {
      assert AnchorPut(a, m) == a[..p - 1] + [m] + a[p..];
      assert a == a[..p - 1] + [a[p - 1]] + a[p..];
      TicksOfThree(a[..p - 1], m, a[p..]);
      TicksOfThree(a[..p - 1], a[p - 1], a[p..]);
    } else {
      TicksOfThree(a[..p], m, a[p..]);
      assert a == a[..p] + a[p..];
      TicksOfConcat(a[..p], a[p..]);
    }
  }

  lemma TicksOfThree(a: seq<Mark>, m: Mark, b: seq<Mark>)
    ensures Ticks(a + [m] + b) == Ticks(a) + {m.tick} + Ticks(b)
  {
    TicksOfOne(m);
    TicksOfConcat(a, [m]);
    TicksOfConcat(a + [m], b);
  }

  lemma AnchorPutAscends(a: seq<Mark>, m: Mark)
    requires Ascending(a)
    ensures Ascending(AnchorPut(a, m))
  {
    var p := CountLe(a, m.tick);
    forall i | p <= i < |a|
      ensures a[i].tick > m.tick
    {
      assert i > p ==> a[p].tick < a[i].tick;
    }
    if p > 0 && a[p - 1].tick != m.tick {
      forall i | 0 <= i < p
        ensures a[i].tick < m.tick
      {
        assert i < p - 1 ==> a[i].tick < a[p - 1].tick;
      }
    }
  }

  lemma CloseOpenKeeps(s: seq<Gap>, tick: nat)
    requires SpansOk(s) && tick < OPEN
    ensures
      var t := CloseOpen(s, tick);
      && SpansOk(t) && KeepsSpans(s, t)
      && (forall x :: x in t ==> x in s || x.known == tick)
  {
    var t := CloseOpen(s, tick);
    assert |t| == |s|;
    forall i, j | 0 <= i < j < |t|
      ensures t[i].known < t[j].start
    {
      assert s[i].known < s[j].start;
    }
    forall x | x in s
      ensures AbsorbedIn(t, x)
    {
      var i :| 0 <= i < |s| && s[i] == x;
      assert t[i] in t && Absorbs(t[i], x);
    }
  }

  // ----- what every operation keeps

  /** A true record keeps the promise. */
  lemma RecordSafe(c: Chan, ring: seq<Mark>, right: Rule, h: History, tick: nat, level: nat)
    requires Safe(c, ring, right, h) && Accepts(c, tick) && level < 2 && right(tick, level)
    ensures Safe(ApplyRecord(c, tick, level), ring, right, h.(recs := h.recs + {tick}))
  {
    hide Ticks, SpansOk, LossesCovered, EndsCovered, AllGrounded, KeepsSpans, CloseOpen;
    var d := ApplyRecord(c, tick, level);
    var m := Mark(tick, level);
    CloseOpenKeeps(c.spans, tick);
    TicksOfConcat(c.recs, [m]);
    assert Ticks([m]) == {tick} by { TicksOfOne(m); }
    GroundedStays(c, d);
    CoversStay(c, d, h.losses);
    RecordSorted(c, ring, tick, level);
  }

  lemma TicksOfOne(m: Mark)
    ensures Ticks([m]) == {m.tick}
  {
    assert m in [m];
  }

  lemma RecordSorted(c: Chan, ring: seq<Mark>, tick: nat, level: nat)
    requires Sorted(c, ring) && Accepts(c, tick)
    ensures Sorted(ApplyRecord(c, tick, level), ring)
  {
    CloseOpenKeeps(c.spans, tick);
    hide SpansOk, CloseOpen;
    forall i | 0 <= i < |c.recs|
      ensures c.recs[i].tick < tick
    {
      assert i < |c.recs| - 1 ==> c.recs[i].tick < c.recs[|c.recs| - 1].tick;
    }
  }

  /** A held heartbeat joins the ring, and old ones may leave it. */
  lemma RingSafe(c: Chan, ring: seq<Mark>, right: Rule, h: History, m: Mark, evict: nat)
    requires Safe(c, ring, right, h) && m.level < 2 && right(m.tick, m.level) && m.tick < OPEN
    requires evict <= |ring| && forall i :: 0 <= i < |ring| ==> ring[i].tick <= m.tick
    ensures Safe(c, ring[evict..] + [m], right, h)
  {
    hide SpansOk, LossesCovered, EndsCovered, AllGrounded, AllHeld;
  }

  /** A true heartbeat keeps the promise. */
  lemma BeatSafe(c: Chan, ring: seq<Mark>, right: Rule, h: History, tick: nat, level: nat)
    requires Safe(c, ring, right, h) && level < 2 && right(tick, level) && tick < OPEN
    ensures Safe(ApplyBeat(c, tick, level), ring, right, h)
  {
    hide Ticks, SpansOk, LossesCovered, EndsCovered, AllGrounded, KeepsSpans, CloseOpen, AnchorPut, Keeps;
    if Keeps(c, tick, level) {
      var d := ApplyBeat(c, tick, level);
      CloseOpenKeeps(c.spans, tick);
      AnchorPutKeeps(c.anchors, Mark(tick, level), right);
      GroundedStays(c, d);
      CoversStay(c, d, h.losses);
    }
  }

  /** A span resolved to a tick that is not open ends at a held record, anchor or heartbeat. */
  lemma GroundedIsInfo(c: Chan, from: nat)
    ensures Grounded(c, from) == OPEN || Grounded(c, from) in Info(c)
  {
    var i, j := CountLt(c.recs, from), CountLt(c.anchors, from);
    assert i < |c.recs| ==> c.recs[i] in c.recs;
    assert j < |c.anchors| ==> c.anchors[j] in c.anchors;
  }

  lemma ResolveCases(c: Chan, ring: seq<Mark>, from: nat)
    ensures
      var k := CountLt(ring, from);
      Resolve(c, ring, from) ==
        if k < |ring| && ring[k].tick < Grounded(c, from) then ring[k].tick else Grounded(c, from)
  {
  }

  lemma TookUpKeeps(a: seq<Gap>, b: seq<Gap>, m: Gap)
    requires TookUp(a, b, m)
    ensures KeepsSpans(a, b)
  {
    forall x | x in a
      ensures AbsorbedIn(b, x)
    {
      if x in b {
        assert Absorbs(x, x);
      }
    }
  }

  lemma SpanAddSafe(c: Chan, ring: seq<Mark>, right: Rule, h: History, start: nat, from: nat)
    requires Safe(c, ring, right, h) && start < from <= OPEN
    ensures
      var d := SpanAdd(c, ring, start, from);
      && Safe(d, ring, right, h) && d.ivals == c.ivals && SameTrim(c, d)
      && Shielded(d.spans, Ival(start, from - 1))
  {
    hide SpansWith, Resolve, Grounded, SpansOk, Ticks, AllGrounded, LossesCovered, EndsCovered, AnchorPut, TookUp, KeepsSpans;
    var (spans, m) := SpansWith(c, ring, start, from);
    SpansWithTakesUp(c, ring, start, from);
    TookUpKeeps(c.spans, spans, m);
    ResolveCases(c, ring, m.from);
    GroundedIsInfo(c, m.from);
    var d := SpanAdd(c, ring, start, from);
    var k := CountLt(ring, m.from);
    if m.known != OPEN && k < |ring| && ring[k].tick < Grounded(c, m.from) {
      assert ring[k] in ring;
      AnchorPutKeeps(c.anchors, Mark(m.known, ring[k].level), right);
    }
    TookUpParts(c.spans, spans, m);
    assert Info(c) <= Info(d);
    assert m.known == OPEN || m.known in Info(d);
    GroundedStays(c, d);
    CoversStay(c, d, h.losses);
    assert m in d.spans && m.start <= start && from - 1 < m.from;
  }

  lemma TookUpParts(a: seq<Gap>, b: seq<Gap>, m: Gap)
    requires TookUp(a, b, m)
    ensures m in b && forall x :: x in b ==> x == m || x in a
  {
  }

  lemma {:induction false} JoinRightEnds(i: Ival, right: seq<Ival>, x: Ival)
    requires x in JoinRight(i, right)
    ensures x.end == i.end || exists r :: r in right && r.end == x.end
    decreases |right|
  {
    if right != [] && right[0].start <= i.end + 1 {
      var n := Ival(i.start, Max(i.end, right[0].end));
      JoinRightEnds(n, right[1..], x);
      if x.end == n.end {
        assert right[0] in right;
      } else {
        var r :| r in right[1..] && r.end == x.end;
        assert r in right;
      }
    }
  }

  /** The ends of the intervals are ends of losses. */
  lemma IvalAddEnds(ivals: seq<Ival>, start: nat, end: nat, x: Ival)
    requires x in IvalAdd(ivals, start, end)
    ensures x.end == end || exists r :: r in ivals && r.end == x.end
  {
    var p := CountIvals(ivals, start);
    var joins := p > 0 && ivals[p - 1].end + 1 >= start;
    var i := if joins then Ival(ivals[p - 1].start, Max(ivals[p - 1].end, end)) else Ival(start, end);
    if x in JoinRight(i, ivals[p..]) {
      JoinRightEnds(i, ivals[p..], x);
      if x.end != i.end {
        var r :| r in ivals[p..] && r.end == x.end;
        assert r in ivals;
      } else if joins {
        assert ivals[p - 1] in ivals;
      }
    }
  }

  /** A reported loss keeps the promise, however late it comes. */
  lemma LossSafe(c: Chan, ring: seq<Mark>, right: Rule, h: History, start: nat, end: nat)
    requires Safe(c, ring, right, h) && start <= end < OPEN
    ensures Safe(ApplyLoss(c, ring, start, end), ring, right, h.(losses := h.losses + {Ival(start, end)}))
  {
    hide SpanAdd, IvalAdd, Safe, Shielded;
    SpanAddSafe(c, ring, right, h, start, end + 1);
    forall l | l in IvalAdd(c.ivals, start, end)
      ensures l.end == end || exists r :: r in c.ivals && r.end == l.end
    {
      IvalAddEnds(c.ivals, start, end, l);
    }
    IvalsSafe(SpanAdd(c, ring, start, end + 1), ApplyLoss(c, ring, start, end), ring, right, h, Ival(start, end));
  }

  lemma IvalsSafe(d: Chan, e: Chan, ring: seq<Mark>, right: Rule, h: History, new_: Ival)
    requires Safe(d, ring, right, h) && e == d.(ivals := e.ivals) && new_.start <= new_.end
    requires Shielded(d.spans, new_)
    requires forall l :: l in e.ivals ==> l.end == new_.end || exists r :: r in d.ivals && r.end == l.end
    ensures Safe(e, ring, right, h.(losses := h.losses + {new_}))
  {
    SortedApart(d, e, ring, right, h);
    ShieldsEnd(d.spans, new_.start, new_.end);
    hide Sorted, AllTrue, AllGrounded, AllHeld, Shielded;
    forall l | l in e.ivals && !Trimmed(e, l.end + 1)
      ensures Shielded(e.spans, Ival(l.end, l.end))
    {
      if l.end != new_.end {
        var r :| r in d.ivals && r.end == l.end;
        assert Trimmed(d, r.end + 1) || Shielded(d.spans, Ival(r.end, r.end));
      }
    }
  }

  lemma ShieldsEnd(spans: seq<Gap>, start: nat, end: nat)
    requires start <= end && Shielded(spans, Ival(start, end))
    ensures Shielded(spans, Ival(end, end))
  {
    var s :| s in spans && s.start <= start && end < s.from;
    assert s.start <= end;
  }

  lemma SortedApart(d: Chan, e: Chan, ring: seq<Mark>, right: Rule, h: History)
    requires Sorted(d, ring) && AllTrue(d, ring, right) && AllGrounded(d) && AllHeld(d, h)
    requires e == d.(ivals := e.ivals)
    ensures Sorted(e, ring) && AllTrue(e, ring, right) && AllGrounded(e) && AllHeld(e, h)
  {
    hide Ticks, SpansOk, Ascending, NonDescending, True;
  }

  // ----- trimming

  lemma {:induction false} SpansAfterKeeps(s: seq<Gap>, t: nat)
    requires SpansOk(s)
    ensures
      var r := SpansAfter(s, t);
      && SpansOk(r) && (forall x :: x in r ==> x in s)
      && (forall x :: x in s && x.known > t ==> x in r)
      && (forall x :: x in r ==> x.known > t)
    decreases |s|
  {
    if s != [] && s[0].known <= t {
      SpansAfterKeeps(s[1..], t);
    } else {
      forall x | x in s
        ensures x.known > t
      {
        var i :| 0 <= i < |s| && s[i] == x;
        assert i > 0 ==> s[0].known < s[i].start;
      }
    }
  }

  lemma {:induction false} IvalsAfterKeeps(s: seq<Ival>, t: nat)
    ensures forall x :: x in IvalsAfter(s, t) ==> x in s
  {
    if s != [] && s[0].end < t {
      IvalsAfterKeeps(s[1..], t);
    }
  }

  /** The ticks the store trims at: a record's, an anchor's, or the end of a loss. */
  ghost predicate TrimTick(c: Chan, t: nat) {
    t in Info(c) || exists l :: l in c.ivals && l.end == t
  }

  /** Trimmed at such a tick, the base is unknown or true, whatever is still to be reported. */
  lemma BaseIsTrue(c: Chan, ring: seq<Mark>, right: Rule, h: History, t: nat)
    requires Safe(c, ring, right, h) && TrimTick(c, t) && (c.dropped ==> t > c.cover)
    ensures LevelAt(c, t) == UNKNOWN || right(t, LevelAt(c, t))
  {
    hide LevelAt, Info, Ticks, AllTrue, AllGrounded, LossesCovered, AllHeld, Ascending, NonDescending;
    if LevelAt(c, t) != UNKNOWN {
      var p := KnownFromNewest(c, ring, right, t);
      if t !in Info(c) {
        var l :| l in c.ivals && l.end == t;
        var s :| s in c.spans && s.start <= t && t < s.from;
        SpanOf(c.spans, s);
        InSpanUnknown(c, t, s);
      }
    }
  }

  lemma {:induction false} AfterCount(m: seq<Mark>, tick: nat)
    requires Ascending(m)
    ensures
      var r := m[CountLe(m, tick)..];
      && Ascending(r) && (forall x :: x in r ==> x in m) && (forall x :: x in m && x.tick > tick ==> x in r)
  {
    var k := CountLe(m, tick);
    forall x | x in m && x.tick > tick
      ensures x in m[k..]
    {
      var i :| 0 <= i < |m| && m[i] == x;
      assert m[k..][i - k] == x;
    }
  }

  /** What is left after a trim at t, with the oldest records possibly gone too. */
  ghost predicate TrimsTo(c: Chan, d: Chan, t: nat) {
    && d.dropped && t <= d.cover && (c.dropped ==> c.cover <= d.cover)
    && d.ivals == IvalsAfter(c.ivals, t) && d.spans == SpansAfter(c.spans, t)
    && (forall x :: x in d.recs ==> x in c.recs) && (forall x :: x in c.recs && x.tick > d.cover ==> x in d.recs)
    && (forall x :: x in d.anchors ==> x in c.anchors) && (forall x :: x in c.anchors && x.tick > d.cover ==> x in d.anchors)
  }

  lemma TrimCovers(c: Chan, d: Chan, h: History, t: nat)
    requires SpansOk(c.spans) && TrimsTo(c, d, t)
    requires LossesCovered(c, h.losses) && EndsCovered(c) && AllHeld(c, h) && AllGrounded(c)
    ensures LossesCovered(d, h.losses) && EndsCovered(d) && AllHeld(d, h) && AllGrounded(d)
  {
    SpansAfterKeeps(c.spans, t);
    IvalsAfterKeeps(c.ivals, t);
    hide SpansAfter, IvalsAfter, SpansOk;
    forall l: Ival | (Trimmed(c, l.end + 1) || Shielded(c.spans, l))
      ensures Trimmed(d, l.end + 1) || Shielded(d.spans, l)
    {
      if !Trimmed(c, l.end + 1) {
        var s :| s in c.spans && s.start <= l.start && l.end < s.from;
        SpanOf(c.spans, s);
        if s.known > t {
          assert s in d.spans;
        }
      }
    }
    forall x | x in d.spans && x.known != OPEN && !Trimmed(d, x.known)
      ensures x.known in Info(d)
    {
      assert x.known in Info(c);
      if x.known in Ticks(c.recs) {
        var r :| r in c.recs && r.tick == x.known;
        assert r in d.recs;
      } else {
        var r :| r in c.anchors && r.tick == x.known;
        assert r in d.anchors;
      }
    }
    forall x | x in h.recs && !Trimmed(d, x)
      ensures x in Ticks(d.recs)
    {
      var r :| r in c.recs && r.tick == x;
      assert r in d.recs;
    }
  }

  /** Trimming at a record, an anchor or a loss's end keeps the promise. */
  lemma TrimSafe(c: Chan, ring: seq<Mark>, right: Rule, h: History, t: nat)
    requires Safe(c, ring, right, h) && TrimTick(c, t)
    ensures Safe(TrimTo(c, t), ring, right, h)
  {
    var d := TrimTo(c, t);
    TrimToParts(c, t);
    TrimSorted(c, ring, t);
    TrimTrue(c, ring, right, h, t);
    TrimIs(c, t);
    hide TrimTo, Sorted, AllTrue, LossesCovered, EndsCovered, AllGrounded, AllHeld, TrimsTo;
    assert SpansOk(c.spans) by { SortedSpans(c, ring); }
    TrimCovers(c, d, h, t);
  }

  lemma SortedSpans(c: Chan, ring: seq<Mark>)
    requires Sorted(c, ring)
    ensures SpansOk(c.spans)
  {
  }

  lemma TrimSorted(c: Chan, ring: seq<Mark>, t: nat)
    requires Sorted(c, ring)
    ensures Sorted(TrimTo(c, t), ring)
  {
    TrimToParts(c, t);
    AfterCount(c.anchors, t);
    SpansAfterKeeps(c.spans, t);
    hide TrimTo, CountLe, SpansAfter, SpansOk, Ascending, NonDescending;
  }

  lemma TrimTrue(c: Chan, ring: seq<Mark>, right: Rule, h: History, t: nat)
    requires Safe(c, ring, right, h) && TrimTick(c, t)
    ensures AllTrue(TrimTo(c, t), ring, right)
  {
    if !c.dropped || t > c.cover {
      BaseIsTrue(c, ring, right, h, t);
    }
    hide LevelAt, CountLe, SpansAfter, IvalsAfter, SpansOk, Ascending, NonDescending;
    hide LossesCovered, EndsCovered, AllGrounded, AllHeld;
  }

  lemma TrimIs(c: Chan, t: nat)
    requires Ascending(c.anchors)
    ensures TrimsTo(c, TrimTo(c, t), t)
  {
    TrimToParts(c, t);
    AfterCount(c.anchors, t);
    hide TrimTo, CountLe, SpansAfter, IvalsAfter;
  }

  /** So does dropping the oldest records up to one of them. */
  lemma DropSafe(c: Chan, ring: seq<Mark>, right: Rule, h: History, n: nat)
    requires Safe(c, ring, right, h) && 0 < n <= |c.recs|
    ensures Safe(DropBlock(c, n), ring, right, h)
  {
    var t := c.recs[n - 1].tick;
    assert TrimTick(c, t) by {
      assert c.recs[n - 1] in c.recs;
    }
    TrimSafe(c, ring, right, h, t);
    TrimToParts(c, t);
    RecsAfter(c.recs, n);
    hide TrimTo, LossesCovered, EndsCovered, AllGrounded, AllHeld;
    var d := TrimTo(c, t);
    DropSorted(d, ring, right, n);
    DropInfo(d, DropBlock(c, n), h, t);
  }

  lemma RecsAfter(recs: seq<Mark>, n: nat)
    requires Ascending(recs) && 0 < n <= |recs|
    ensures Ascending(recs[n..]) && (forall x :: x in recs[n..] ==> x in recs)
    ensures forall x :: x in recs && x.tick > recs[n - 1].tick ==> x in recs[n..]
  {
    forall x | x in recs && x.tick > recs[n - 1].tick
      ensures x in recs[n..]
    {
      var i :| 0 <= i < |recs| && recs[i] == x;
      assert recs[n..][i - n] == x;
    }
  }

  lemma DropSorted(d: Chan, ring: seq<Mark>, right: Rule, n: nat)
    requires Sorted(d, ring) && AllTrue(d, ring, right) && 0 < n <= |d.recs|
    ensures Sorted(d.(recs := d.recs[n..]), ring) && AllTrue(d.(recs := d.recs[n..]), ring, right)
  {
    RecsAfter(d.recs, n);
    hide SpansOk, NonDescending;
  }

  lemma TrimToParts(c: Chan, t: nat)
    ensures
      var d := TrimTo(c, t);
      && d.recs == c.recs && d.haveLast == c.haveLast && d.lastTick == c.lastTick
      && d.dropped && t <= d.cover && (c.dropped ==> c.cover <= d.cover)
      && d.anchors == c.anchors[CountLe(c.anchors, t)..]
      && d.spans == SpansAfter(c.spans, t) && d.ivals == IvalsAfter(c.ivals, t)
  {
  }

  /** Records at or before the cover can go: the base stands for them. */
  lemma DropInfo(d: Chan, e: Chan, h: History, t: nat)
    requires d.dropped && t <= d.cover && e == d.(recs := e.recs)
    requires forall x :: x in e.recs ==> x in d.recs
    requires forall x :: x in d.recs && x.tick > t ==> x in e.recs
    requires AllGrounded(d) && LossesCovered(d, h.losses) && EndsCovered(d) && AllHeld(d, h)
    ensures AllGrounded(e) && LossesCovered(e, h.losses) && EndsCovered(e) && AllHeld(e, h)
  {
    forall s | s in e.spans && s.known != OPEN && !Trimmed(e, s.known)
      ensures s.known in Info(e)
    {
      if s.known in Ticks(d.recs) {
        var x :| x in d.recs && x.tick == s.known;
        assert x in e.recs;
      }
    }
    forall x | x in h.recs && !Trimmed(e, x)
      ensures x in Ticks(e.recs)
    {
      var r :| r in d.recs && r.tick == x;
      assert r in e.recs;
    }
  }
}
