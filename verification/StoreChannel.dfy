/**
 * One channel of the store as values: its records, kept heartbeats (anchors), spans of
 * unknown level and loss intervals, and what each operation makes of them. The classes in
 * Store.dfy do the same in place.
 */
module StoreChannel {
  import opened Numbers

  const UNKNOWN := 2

  /** The end of a span that is not known yet. */
  const OPEN: nat := 0xFFFF_FFFF_FFFF_FFFF

  /** A tick and the level from then on; what gives it may be a change or an observation. */
  datatype Mark = Mark(tick: nat, level: nat)

  /** A stretch [start, known) of unknown level; nothing before from may end it. */
  datatype Gap = Gap(start: nat, from: nat, known: nat)

  /** Ticks start to end, inclusive. */
  datatype Ival = Ival(start: nat, end: nat)

  datatype Chan = Chan(
    recs: seq<Mark>,
    dropped: bool, cover: nat, base: nat,
    haveLast: bool, lastTick: nat, cur: nat,
    anchors: seq<Mark>, spans: seq<Gap>, ivals: seq<Ival>)

  predicate Ascending(m: seq<Mark>) {
    forall i, j :: 0 <= i < j < |m| ==> m[i].tick < m[j].tick
  }

  predicate NonDescending(m: seq<Mark>) {
    forall i, j :: 0 <= i < j < |m| ==> m[i].tick <= m[j].tick
  }

  // ----- searches

  /** How many marks at the front come before tick. */
  function CountLt(m: seq<Mark>, tick: nat): (k: nat)
    ensures k <= |m|
    ensures forall i :: 0 <= i < k ==> m[i].tick < tick
    ensures k < |m| ==> m[k].tick >= tick
  {
    if m == [] || m[0].tick >= tick then 0 else 1 + CountLt(m[1..], tick)
  }

  function CountLe(m: seq<Mark>, tick: nat): (k: nat)
    ensures k <= |m|
  {
    CountLt(m, tick + 1)
  }

  lemma CountLtIs(m: seq<Mark>, tick: nat, k: nat)
    requires k <= |m| && (forall i :: 0 <= i < k ==> m[i].tick < tick) && (k < |m| ==> m[k].tick >= tick)
    ensures k == CountLt(m, tick)
  {
  }

  /** How many spans at the front start at or before tick. */
  function CountStarted(s: seq<Gap>, tick: nat): (k: nat)
    ensures k <= |s|
    ensures forall i :: 0 <= i < k ==> s[i].start <= tick
    ensures k < |s| ==> s[k].start > tick
  {
    if s == [] || s[0].start > tick then 0 else 1 + CountStarted(s[1..], tick)
  }

  function CountIvals(s: seq<Ival>, tick: nat): (k: nat)
    ensures k <= |s|
    ensures forall i :: 0 <= i < k ==> s[i].start <= tick
    ensures k < |s| ==> s[k].start > tick
  {
    if s == [] || s[0].start > tick then 0 else 1 + CountIvals(s[1..], tick)
  }

  // ----- levels

  /** The last of the first k elements. */
  function Last<T>(s: seq<T>, k: nat): Option<T>
    requires k <= |s|
  {
    if k > 0 then Some(s[k - 1]) else None
  }

  /**
   * The level the candidates give: unknown before the cover or in a gap; else that of the later
   * of rec and anchor, the anchor winning a tie; else the base.
   */
  function Pick(dropped: bool, cover: nat, base: nat, tick: nat, span: Option<Gap>, rec: Option<Mark>, anchor: Option<Mark>): nat {
    if dropped && tick < cover then UNKNOWN
    else if span.Some? && tick < span.value.known then UNKNOWN
    else if rec.Some? && (anchor.None? || anchor.value.tick < rec.value.tick) && (!dropped || rec.value.tick >= cover)
    then rec.value.level
    else if anchor.Some? && (!dropped || anchor.value.tick >= cover) then anchor.value.level
    else if dropped then base
    else UNKNOWN
  }

  /** LevelAt, where the number k of records up to tick was counted before. */
  function LevelK(c: Chan, tick: nat, k: nat): nat
    requires k <= |c.recs|
  {
    Pick(c.dropped, c.cover, c.base, tick, Last(c.spans, CountStarted(c.spans, tick)), Last(c.recs, k),
         Last(c.anchors, CountLe(c.anchors, tick)))
  }

  function LevelAt(c: Chan, tick: nat): nat {
    LevelK(c, tick, CountLe(c.recs, tick))
  }

  /** Looks only at the cover and the last gap that starts by b; UnknownInExact says what it means. */
  predicate UnknownIn(c: Chan, a: nat, b: nat) {
    || (c.dropped && a < c.cover)
    || var lo := CountStarted(c.spans, b);
       lo > 0 && c.spans[lo - 1].known > a
  }

  /** Whether a loss overlaps ticks a to b, by the fast query. */
  predicate LossIn(c: Chan, a: nat, b: nat) {
    var lo := CountIvals(c.ivals, b);
    lo > 0 && c.ivals[lo - 1].end >= a
  }

  // ----- columns

  /** A column of ticks as drawn: the levels around it, its changes and what is not certain. */
  datatype Column = Column(start: nat, end: nat, changes: nat, loss: bool, unknown: bool, noData: bool)

  /** The level just before a tick, if it is held. */
  function Edge(c: Chan, oldest: nat, tick: nat): nat {
    if tick > 0 && tick - 1 >= oldest then LevelAt(c, tick - 1) else UNKNOWN
  }

  /** The records from tick a to before b, as a 32-bit number. */
  function Changes(m: seq<Mark>, a: nat, b: nat): nat {
    (CountLt(m, b) - CountLt(m, a)) % 0x1_0000_0000
  }

  /** The column from tick a to before tick b, of a store that holds oldest to wm. */
  function Drawn(c: Chan, oldest: nat, wm: Option<nat>, a: nat, b: nat): Column
    requires a <= b
  {
    Column(Edge(c, oldest, a), Edge(c, oldest, b), Changes(c.recs, a, b),
           b > a && LossIn(c, a, b - 1), b > a && UnknownIn(c, a, b - 1),
           b > a && (a < oldest || wm.None? || b - 1 > wm.value))
  }

  // ----- spans

  /** The first mark at or after from, as a tick; limit if none is earlier. */
  function FirstFrom(m: seq<Mark>, from: nat, limit: nat): nat {
    var k := CountLt(m, from);
    if k < |m| && m[k].tick < limit then m[k].tick else limit
  }

  /** The least tick from from on with a record or an anchor, OPEN if there is none. */
  function Grounded(c: Chan, from: nat): nat {
    FirstFrom(c.anchors, from, FirstFrom(c.recs, from, OPEN))
  }

  /** The same with the heartbeats held for late losses. */
  function Resolve(c: Chan, ring: seq<Mark>, from: nat): nat {
    FirstFrom(ring, from, Grounded(c, from))
  }

  function MergeLeft(c: Chan, ring: seq<Mark>, left: seq<Gap>, n: Gap): (seq<Gap>, Gap)
    decreases |left|
  {
    if left != [] && left[|left| - 1].known >= n.start then
      var a := left[|left| - 1];
      var from := Max(a.from, n.from);
      MergeLeft(c, ring, left[..|left| - 1], Gap(a.start, from, Resolve(c, ring, from)))
    else (left, n)
  }

  function MergeRight(c: Chan, ring: seq<Mark>, n: Gap, right: seq<Gap>): (Gap, seq<Gap>)
    decreases |right|
  {
    if right != [] && right[0].start <= n.known then
      var from := Max(n.from, right[0].from);
      MergeRight(c, ring, Gap(n.start, from, Resolve(c, ring, from)), right[1..])
    else (n, right)
  }

  /** Ordered insertion; the new anchor takes the place of one with its tick. */
  function AnchorPut(anchors: seq<Mark>, m: Mark): seq<Mark> {
    var p := CountLe(anchors, m.tick);
    if p > 0 && anchors[p - 1].tick == m.tick then anchors[p - 1 := m]
    else anchors[..p] + [m] + anchors[p..]
  }

  /** The spans with a new one from start on, merged with those it meets; and that one. */
  function SpansWith(c: Chan, ring: seq<Mark>, start: nat, from: nat): (seq<Gap>, Gap) {
    var p := CountStarted(c.spans, start);
    var (left, n) := MergeLeft(c, ring, c.spans[..p], Gap(start, from, Resolve(c, ring, from)));
    var (m, right) := MergeRight(c, ring, n, c.spans[p..]);
    (left + [m] + right, m)
  }

  /**
   * The channel with one gap more. If a mark in the ring is what ends the merged gap, that mark
   * becomes an anchor, since the ring will let go of it.
   */
  function SpanAdd(c: Chan, ring: seq<Mark>, start: nat, from: nat): Chan {
    var (spans, m) := SpansWith(c, ring, start, from);
    var d := c.(spans := spans);
    if m.known == OPEN then d.(cur := UNKNOWN)
    else
      var k := CountLt(ring, m.from);
      if k < |ring| && ring[k].tick < Grounded(c, m.from)
      then d.(anchors := AnchorPut(c.anchors, Mark(m.known, ring[k].level)))
      else d
  }

  // ----- loss intervals

  function JoinRight(i: Ival, right: seq<Ival>): seq<Ival>
    decreases |right|
  {
    if right != [] && right[0].start <= i.end + 1
    then JoinRight(Ival(i.start, Max(i.end, right[0].end)), right[1..])
    else [i] + right
  }

  /** A loss's ticks, merged with the intervals they meet. */
  function IvalAdd(ivals: seq<Ival>, start: nat, end: nat): seq<Ival> {
    var p := CountIvals(ivals, start);
    if p > 0 && ivals[p - 1].end + 1 >= start
    then ivals[..p - 1] + JoinRight(Ival(ivals[p - 1].start, Max(ivals[p - 1].end, end)), ivals[p..])
    else ivals[..p] + JoinRight(Ival(start, end), ivals[p..])
  }

  // ----- operations

  function NewChan(): Chan {
    Chan([], false, 0, 0, false, 0, UNKNOWN, [], [Gap(0, 0, OPEN)], [])
  }

  predicate Accepts(c: Chan, tick: nat) {
    (!c.haveLast || tick > c.lastTick) && tick <= OPEN / 2
  }

  /** The last span, if it is open, ends at tick. */
  function CloseOpen(spans: seq<Gap>, tick: nat): seq<Gap> {
    var n := |spans|;
    if n > 0 && spans[n - 1].known == OPEN && tick >= spans[n - 1].from
    then spans[n - 1 := spans[n - 1].(known := tick)]
    else spans
  }

  /** A record the store takes: the channel's next change of level. */
  function ApplyRecord(c: Chan, tick: nat, level: nat): Chan {
    c.(recs := c.recs + [Mark(tick, level % 2)], haveLast := true, lastTick := tick,
       cur := level % 2, spans := CloseOpen(c.spans, tick))
  }

  /** Whether a heartbeat is kept: it makes the level known, or contradicts the records. */
  predicate Keeps(c: Chan, tick: nat, level: nat) {
    var n := |c.spans|;
    if n > 0 && c.spans[n - 1].known == OPEN then tick >= c.spans[n - 1].from else c.cur != level
  }

  function ApplyBeat(c: Chan, tick: nat, level: nat): Chan {
    if Keeps(c, tick, level)
    then c.(spans := CloseOpen(c.spans, tick), anchors := AnchorPut(c.anchors, Mark(tick, level)), cur := level)
    else c
  }

  /** A loss on the channel. */
  function ApplyLoss(c: Chan, ring: seq<Mark>, start: nat, end: nat): Chan {
    SpanAdd(c, ring, start, end + 1).(ivals := IvalAdd(c.ivals, start, end))
  }

  /** The spans that end after t, and the intervals that do not end before it. */
  function SpansAfter(s: seq<Gap>, t: nat): seq<Gap> {
    if s != [] && s[0].known <= t then SpansAfter(s[1..], t) else s
  }

  function IvalsAfter(s: seq<Ival>, t: nat): seq<Ival> {
    if s != [] && s[0].end < t then IvalsAfter(s[1..], t) else s
  }

  /** Forgets everything that only speaks of ticks before t, leaving the level at t as the base. */
  function TrimTo(c: Chan, t: nat): Chan {
    var d := if !c.dropped || t > c.cover then c.(dropped := true, cover := t, base := LevelAt(c, t)) else c;
    d.(anchors := c.anchors[CountLe(c.anchors, t)..], spans := SpansAfter(c.spans, t), ivals := IvalsAfter(c.ivals, t))
  }

  /** Drops the n oldest records, a full block, keeping what came after the last of them. */
  function DropBlock(c: Chan, n: nat): Chan
    requires 0 < n <= |c.recs|
  {
    var d := TrimTo(c, c.recs[n - 1].tick);
    d.(recs := c.recs[n..])
  }
}
