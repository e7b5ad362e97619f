/**
 * One channel of the store as it runs: records packed in blocks, and sorted arrays of
 * anchors, spans and intervals changed in place. Every method is proved against
 * StoreChannel.
 */
module StoreLists {
  import opened Numbers
  import opened StoreChannel
  import opened StoreTruth
  import opened StoreQueries

  /** Records in a block. */
  const BLOCK := 65536

  function Packed(m: Mark): nat {
    2 * m.tick + m.level
  }

  // ----- searches

  lemma CountStartedIs(s: seq<Gap>, tick: nat, k: nat)
    requires k <= |s| && (forall i :: 0 <= i < k ==> s[i].start <= tick) && (k < |s| ==> s[k].start > tick)
    ensures k == CountStarted(s, tick)
  {
  }

  lemma CountIvalsIs(s: seq<Ival>, tick: nat, k: nat)
    requires k <= |s| && (forall i :: 0 <= i < k ==> s[i].start <= tick) && (k < |s| ==> s[k].start > tick)
    ensures k == CountIvals(s, tick)
  {
  }

  /** Binary search among anchors or held heartbeats. */
  method SearchMarks(m: seq<Mark>, tick: nat) returns (lo: nat)
    requires NonDescending(m)
    ensures lo == CountLt(m, tick)
  {
    lo := 0;
    var hi := |m|;
    while lo < hi
      invariant lo <= hi <= |m|
      invariant forall i :: 0 <= i < lo ==> m[i].tick < tick
      invariant forall i :: hi <= i < |m| ==> m[i].tick >= tick
    {
      var mid := (lo + hi) / 2;
      if m[mid].tick < tick {
        lo := mid + 1;
      } else {
        hi := mid;
      }
    }
    CountLtIs(m, tick, lo);
  }

  predicate StartsSorted(s: seq<Gap>) {
    forall i, j :: 0 <= i < j < |s| ==> s[i].start <= s[j].start
  }

  method SearchSpans(s: seq<Gap>, tick: nat) returns (lo: nat)
    requires StartsSorted(s)
    ensures lo == CountStarted(s, tick)
  {
    lo := 0;
    var hi := |s|;
    while lo < hi
      invariant lo <= hi <= |s|
      invariant forall i :: 0 <= i < lo ==> s[i].start <= tick
      invariant forall i :: hi <= i < |s| ==> s[i].start > tick
    {
      var mid := (lo + hi) / 2;
      if s[mid].start <= tick {
        lo := mid + 1;
      } else {
        hi := mid;
      }
    }
    CountStartedIs(s, tick, lo);
  }

  predicate IvalsSorted(s: seq<Ival>) {
    forall i, j :: 0 <= i < j < |s| ==> s[i].start <= s[j].start
  }

  method SearchIvals(s: seq<Ival>, tick: nat) returns (lo: nat)
    requires IvalsSorted(s)
    ensures lo == CountIvals(s, tick)
  {
    lo := 0;
    var hi := |s|;
    while lo < hi
      invariant lo <= hi <= |s|
      invariant forall i :: 0 <= i < lo ==> s[i].start <= tick
      invariant forall i :: hi <= i < |s| ==> s[i].start > tick
    {
      var mid := (lo + hi) / 2;
      if s[mid].start <= tick {
        lo := mid + 1;
      } else {
        hi := mid;
      }
    }
    CountIvalsIs(s, tick, lo);
  }

  /** Takes the intervals at the front of right that i meets into i. */
  method TakeIvals(i: Ival, right: seq<Ival>) returns (j: Ival, rest: seq<Ival>)
    ensures [j] + rest == JoinRight(i, right)
  {
    j, rest := i, right;
    while rest != [] && rest[0].start <= j.end + 1
      invariant JoinRight(j, rest) == JoinRight(i, right)
      decreases |rest|
    {
      j, rest := Ival(j.start, Max(j.end, rest[0].end)), rest[1..];
    }
  }

  method PlaceMark(m: seq<Mark>, tick: nat) returns (p: nat)
    requires Ascending(m)
    ensures p == CountLe(m, tick)
  {
    p := |m|;
    while p > 0 && m[p - 1].tick > tick
      invariant p <= |m|
      invariant forall i :: p <= i < |m| ==> m[i].tick > tick
    {
      p := p - 1;
    }
    CountLtIs(m, tick + 1, p);
  }

  method WithAnchor(anchors: seq<Mark>, m: Mark) returns (r: seq<Mark>)
    requires Ascending(anchors)
    ensures r == StoreChannel.AnchorPut(anchors, m)
  {
    hide Ascending, CountLt;
    var p := PlaceMark(anchors, m.tick);
    if p > 0 && anchors[p - 1].tick == m.tick {
      r := anchors[p - 1 := m];
    } else {
      r := anchors[..p] + [m] + anchors[p..];
    }
  }

  method PlaceIval(ivals: seq<Ival>, start: nat) returns (p: nat)
    requires IvalsOk(ivals)
    ensures p == CountIvals(ivals, start)
  {
    IvalsStartSorted(ivals);
    p := |ivals|;
    while p > 0 && ivals[p - 1].start > start
      invariant p <= |ivals|
      invariant forall i :: p <= i < |ivals| ==> ivals[i].start > start
    {
      p := p - 1;
    }
    CountIvalsIs(ivals, start, p);
  }

  /** The intervals with a loss's ticks, merged with those they meet. */
  method WithIval(ivals: seq<Ival>, start: nat, end: nat) returns (r: seq<Ival>)
    requires IvalsOk(ivals)
    ensures r == StoreChannel.IvalAdd(ivals, start, end)
  {
    hide IvalsOk, CountIvals, JoinRight;
    var p: nat := PlaceIval(ivals, start);
    var i, right := Ival(start, end), ivals[p..];
    if p > 0 && ivals[p - 1].end + 1 >= start {
      p := p - 1;
      i := Ival(ivals[p].start, Max(ivals[p].end, end));
    }
    i, right := TakeIvals(i, right);
    r := ivals[..p] + ([i] + right);
  }

  /** Ends the last span, if it is open and can end, at tick. */
  method CloseLast(spans: seq<Gap>, tick: nat) returns (s: seq<Gap>)
    ensures s == CloseOpen(spans, tick)
  {
    var n := |spans|;
    s := spans;
    if n > 0 && spans[n - 1].known == OPEN && tick >= spans[n - 1].from {
      s := spans[n - 1 := spans[n - 1].(known := tick)];
    }
  }

  /** The anchors after t, the spans that end after it, and the intervals that do not end before it. */
  method KeepAnchors(m: seq<Mark>, t: nat) returns (r: seq<Mark>)
    ensures r == m[CountLe(m, t)..]
  {
    var keep := 0;
    while keep < |m| && m[keep].tick <= t
      invariant keep <= |m|
      invariant forall i :: 0 <= i < keep ==> m[i].tick < t + 1
    {
      keep := keep + 1;
    }
    CountLtIs(m, t + 1, keep);
    r := m[keep..];
  }

  method KeepSpans(s: seq<Gap>, t: nat) returns (r: seq<Gap>)
    ensures r == SpansAfter(s, t)
  {
    var keep := 0;
    while keep < |s| && s[keep].known <= t
      invariant keep <= |s| && SpansAfter(s, t) == SpansAfter(s[keep..], t)
    {
      assert s[keep..][1..] == s[keep + 1..];
      keep := keep + 1;
    }
    r := s[keep..];
  }

  method KeepIvals(s: seq<Ival>, t: nat) returns (r: seq<Ival>)
    ensures r == IvalsAfter(s, t)
  {
    var keep := 0;
    while keep < |s| && s[keep].end < t
      invariant keep <= |s| && IvalsAfter(s, t) == IvalsAfter(s[keep..], t)
    {
      assert s[keep..][1..] == s[keep + 1..];
      keep := keep + 1;
    }
    r := s[keep..];
  }

  // ----- blocks of records

  /** blocks hold the records, all full but the last. */
  predicate InBlocks(blocks: seq<seq<nat>>, recs: seq<Mark>) {
    var n := |blocks|;
    && (forall i :: 0 <= i < n - 1 ==> |blocks[i]| == BLOCK)
    && (n > 0 ==> |blocks[n - 1]| <= BLOCK)
    && |recs| == (if n == 0 then 0 else (n - 1) * BLOCK + |blocks[n - 1]|)
    && forall k :: 0 <= k < |recs| ==> At(blocks, k) == Packed(recs[k])
  }

  /** The k-th value in the blocks; 0 past them. */
  function At(blocks: seq<seq<nat>>, k: nat): nat {
    if k / BLOCK < |blocks| && k % BLOCK < |blocks[k / BLOCK]| then blocks[k / BLOCK][k % BLOCK] else 0
  }

  /** Whether the block in use takes another record. */
  predicate Room(blocks: seq<seq<nat>>) {
    blocks != [] && |blocks[|blocks| - 1]| < BLOCK
  }

  lemma InBlocksAt(blocks: seq<seq<nat>>, recs: seq<Mark>, k: nat)
    requires InBlocks(blocks, recs) && k < |recs|
    ensures k / BLOCK < |blocks| && k % BLOCK < |blocks[k / BLOCK]|
    ensures blocks[k / BLOCK][k % BLOCK] == Packed(recs[k])
  {
    var n := |blocks|;
    assert k / BLOCK < n - 1 || (k / BLOCK == n - 1 && k % BLOCK == k - (n - 1) * BLOCK);
  }

  lemma AppendInBlocks(blocks: seq<seq<nat>>, recs: seq<Mark>, m: Mark)
    requires InBlocks(blocks, recs) && blocks != [] && |blocks[|blocks| - 1]| < BLOCK
    ensures
      var n := |blocks|;
      InBlocks(blocks[n - 1 := blocks[n - 1] + [Packed(m)]], recs + [m])
  {
    var n := |blocks|;
    var b := blocks[n - 1 := blocks[n - 1] + [Packed(m)]];
    forall k | 0 <= k < |recs| + 1
      ensures At(b, k) == Packed((recs + [m])[k])
    {
      if k < |recs| {
        InBlocksAt(blocks, recs, k);
      } else {
        assert k == (n - 1) * BLOCK + |blocks[n - 1]|;
      }
    }
  }

  lemma NewBlockInBlocks(blocks: seq<seq<nat>>, recs: seq<Mark>)
    requires InBlocks(blocks, recs) && (blocks != [] ==> |blocks[|blocks| - 1]| == BLOCK)
    ensures InBlocks(blocks + [[]], recs)
  {
    forall k | 0 <= k < |recs|
      ensures At(blocks + [[]], k) == Packed(recs[k])
    {
      InBlocksAt(blocks, recs, k);
    }
  }

  lemma DropInBlocks(blocks: seq<seq<nat>>, recs: seq<Mark>)
    requires InBlocks(blocks, recs) && |blocks| >= 2
    ensures |recs| >= BLOCK && InBlocks(blocks[1..], recs[BLOCK..])
  {
    forall k | 0 <= k < |recs| - BLOCK
      ensures At(blocks[1..], k) == Packed(recs[BLOCK..][k])
    {
      InBlocksAt(blocks, recs, k + BLOCK);
    }
  }

  // ----- a channel

  /** A heartbeat held for late losses ends a span that can be made known from on. */
  predicate HeldEnds(c: Chan, ring: seq<Mark>, from: nat) {
    var k := CountLt(ring, from);
    k < |ring| && ring[k].tick < Grounded(c, from)
  }

  /** Whether a held heartbeat ends a span that can be made known from on, and its level. */
  predicate Ends(c: Chan, ring: seq<Mark>, from: nat, beat: bool, level: nat) {
    beat == HeldEnds(c, ring, from) && (beat ==> level == ring[CountLt(ring, from)].level)
  }

  /** Records fit into 64 bits with their level. */
  predicate Packable(m: seq<Mark>) {
    forall x :: x in m ==> x.level < 2 && x.tick <= OPEN / 2
  }

  ghost predicate ListsOk(c: Chan) {
    && Ascending(c.recs) && Ascending(c.anchors) && SpansOk(c.spans) && IvalsOk(c.ivals) && Packable(c.recs)
    && (c.recs != [] ==> c.haveLast && c.recs[|c.recs| - 1].tick <= c.lastTick)
  }

  lemma SpansStartSorted(s: seq<Gap>)
    requires SpansOk(s)
    ensures StartsSorted(s)
  {
    SpansAscend(s);
  }

  lemma IvalsStartSorted(s: seq<Ival>)
    requires IvalsOk(s)
    ensures IvalsSorted(s)
  {
  }

  class Channel {
    var blocks: seq<seq<nat>>
    var first: nat
    var next: nat
    var dropped: bool
    var cover: nat
    var base: nat
    var haveLast: bool
    var lastTick: nat
    var cur: nat
    var anchors: seq<Mark>
    var spans: seq<Gap>
    var ivals: seq<Ival>
    ghost var recs: seq<Mark>

    ghost function View(): Chan
      reads this
    {
      Chan(recs, dropped, cover, base, haveLast, lastTick, cur, anchors, spans, ivals)
    }

    ghost predicate Valid()
      reads this
    {
      InBlocks(blocks, recs) && next == first + |recs| && ListsOk(View())
    }

    constructor ()
      ensures Valid() && View() == NewChan() && first == 0
    {
      blocks, first, next := [], 0, 0;
      dropped, cover, base := false, 0, 0;
      haveLast, lastTick, cur := false, 0, UNKNOWN;
      anchors, spans, ivals := [], [Gap(0, 0, OPEN)], [];
      recs := [];
    }

    /** What the searches rely on; a span may be about to be merged. */
    ghost predicate Searchable()
      reads this
    {
      && InBlocks(blocks, recs) && next == first + |recs|
      && Ascending(recs) && Packable(recs) && Ascending(anchors)
    }

    /** The k-th record held, unpacked. */
    method RecordAt(k: nat) returns (m: Mark)
      requires Searchable() && k < |recs|
      ensures m == recs[k]
    {
      InBlocksAt(blocks, recs, k);
      hide InBlocks, Ascending;
      assert recs[k] in recs;
      var v := blocks[k / BLOCK][k % BLOCK];
      m := Mark(v / 2, v % 2);
    }

    method Count(tick: nat) returns (lo: nat)
      requires Searchable()
      ensures lo == CountLt(recs, tick)
    {
      hide InBlocks, Packable;
      lo := 0;
      var hi := next - first;
      while lo < hi
        invariant lo <= hi <= |recs|
        invariant forall i :: 0 <= i < lo ==> recs[i].tick < tick
        invariant forall i :: hi <= i < |recs| ==> recs[i].tick >= tick
      {
        var mid := lo + (hi - lo) / 2;
        var m := RecordAt(mid);
        if m.tick < tick {
          lo := mid + 1;
        } else {
          hi := mid;
        }
      }
      CountLtIs(recs, tick, lo);
    }

    /** LevelK, by binary searches in the side lists. */
    method LevelOf(tick: nat, k: nat) returns (level: nat)
      requires Valid() && k <= |recs|
      ensures level == LevelK(View(), tick, k)
    {
      ListsParts(View());
      SpansStartSorted(spans);
      AscendingIsSorted(anchors);
      hide Valid, Searchable, ListsOk, CountLt, CountStarted, StartsSorted, NonDescending, Pick;
      var lo := SearchSpans(spans, tick);
      var a := SearchMarks(anchors, tick + 1);
      var rec: Option<Mark> := None;
      if k > 0 {
        var m := RecordAt(k - 1);
        rec := Some(m);
      }
      level := Pick(dropped, cover, base, tick, Last(spans, lo), rec, Last(anchors, a));
    }

    method Level(tick: nat) returns (level: nat)
      requires Valid()
      ensures level == LevelAt(View(), tick)
    {
      hide LevelK, InBlocks, SpansOk, IvalsOk;
      var k := Count(tick + 1);
      level := LevelOf(tick, k);
    }

    method Unknown(a: nat, b: nat) returns (r: bool)
      requires Valid()
      ensures r == UnknownIn(View(), a, b)
    {
      hide InBlocks, At, SpansOk, IvalsOk;
      if dropped && a < cover {
        return true;
      }
      SpansStartSorted(spans);
      var lo := SearchSpans(spans, b);
      r := lo > 0 && spans[lo - 1].known > a;
    }

    method Loss(a: nat, b: nat) returns (r: bool)
      requires Valid()
      ensures r == LossIn(View(), a, b)
    {
      hide InBlocks, At, SpansOk, IvalsOk;
      IvalsStartSorted(ivals);
      var lo := SearchIvals(ivals, b);
      r := lo > 0 && ivals[lo - 1].end >= a;
    }

    /** The level just before a tick, if it is held. */
    method EdgeAt(oldest: nat, tick: nat) returns (level: nat)
      requires Valid()
      ensures level == Edge(View(), oldest, tick)
    {
      hide Valid, StoreChannel.LevelAt;
      level := UNKNOWN;
      if tick > 0 && tick - 1 >= oldest {
        level := Level(tick - 1);
      }
    }

    /** What is carried from column to column: the records before tick a, and the level there. */
    ghost predicate Carries(oldest: nat, a: nat, k: nat, level: nat)
      reads this
    {
      k == CountLt(recs, a) && level == Edge(View(), oldest, a)
    }

    method Begin(oldest: nat, a: nat) returns (k: nat, level: nat)
      requires Valid()
      ensures Carries(oldest, a, k, level)
    {
      assert Searchable() by { SearchableNow(); }
      hide Valid, CountLt, Edge;
      k := Count(a);
      level := EdgeAt(oldest, a);
    }

    /** The same for tick b, past a. */
    method Carry(oldest: nat, b: nat) returns (kb: nat, lb: nat)
      requires Valid() && b > 0
      ensures Carries(oldest, b, kb, lb)
    {
      hide InBlocks, ListsOk, LevelK, CountLt;
      ListsParts(View());
      assert Searchable() by { SearchableNow(); }
      kb := Count(b);
      lb := UNKNOWN;
      if b - 1 >= oldest {
        lb := LevelOf(b - 1, kb);
      }
    }

    lemma SearchableNow()
      requires Valid()
      ensures Searchable()
    {
    }

    /** The column from a to before b, from what its left neighbour ended with. */
    method ColumnFrom(oldest: nat, wm: Option<nat>, a: nat, b: nat, ka: nat, la: nat)
      returns (col: Column, kb: nat, lb: nat)
      requires Valid() && a <= b && Carries(oldest, a, ka, la)
      ensures col == Drawn(View(), oldest, wm, a, b) && Carries(oldest, b, kb, lb)
    {
      hide Valid, CountLt, UnknownIn, LossIn, Edge;
      var loss, unknown, noData := false, false, false;
      kb, lb := ka, la;
      if b > a {
        kb, lb := Carry(oldest, b);
        loss := Loss(a, b - 1);
        unknown := Unknown(a, b - 1);
        noData := a < oldest || wm.None? || b - 1 > wm.value;
      }
      col := Column(la, lb, (kb - ka) % 0x1_0000_0000, loss, unknown, noData);
    }

    /** Resolve, and if its tick comes from the ring, that mark's level. */
    method SpanResolve(ghost c: Chan, ring: seq<Mark>, from: nat) returns (known: nat, beat: bool, level: nat)
      requires Searchable() && NonDescending(ring) && c.recs == recs && c.anchors == anchors
      ensures known == Resolve(c, ring, from) && Ends(c, ring, from, beat, level)
    {
      hide InBlocks, At, CountLt;
      known, beat, level := OPEN, false, 0;
      var k := Count(from);
      if k < next - first {
        var m := RecordAt(k);
        assert m in recs;
        known := m.tick;
      }
      var lo := SearchMarks(anchors, from);
      if lo < |anchors| && anchors[lo].tick < known {
        known := anchors[lo].tick;
      }
      lo := SearchMarks(ring, from);
      if lo < |ring| {
        if ring[lo].tick < known {
          known, beat, level := ring[lo].tick, true, ring[lo].level;
        }
      }
    }

    /** Where a span from start on belongs. */
    method SpanPlace(start: nat) returns (p: nat)
      requires SpansOk(spans)
      ensures p == CountStarted(spans, start)
    {
      SpansStartSorted(spans);
      hide SpansOk, CountStarted;
      p := |spans|;
      while p > 0 && spans[p - 1].start > start
        invariant p <= |spans|
        invariant forall i :: p <= i < |spans| ==> spans[i].start > start
      {
        p := p - 1;
      }
      CountStartedIs(spans, start, p);
    }

    /** Merges the span at at with those before it that it meets. */
    method MergeBefore(ghost c: Chan, ring: seq<Mark>, at: nat, beat0: bool, level0: nat)
      returns (p: nat, beat: bool, level: nat)
      requires Searchable() && NonDescending(ring) && c.recs == recs && c.anchors == anchors && at < |spans|
      requires Ends(c, ring, spans[at].from, beat0, level0)
      modifies this`spans
      ensures p < |spans| && spans[p + 1..] == old(spans[at + 1..])
      ensures (spans[..p], spans[p]) == MergeLeft(c, ring, old(spans[..at]), old(spans[at]))
      ensures Ends(c, ring, spans[p].from, beat, level)
    {
      hide InBlocks, At, CountLt, Resolve, Ends, Ascending, Packable, NonDescending;
      p, beat, level := at, beat0, level0;
      while p > 0 && spans[p - 1].known >= spans[p].start
        invariant p < |spans| && spans[p + 1..] == old(spans[at + 1..])
        invariant MergeLeft(c, ring, spans[..p], spans[p]) == MergeLeft(c, ring, old(spans[..at]), old(spans[at]))
        invariant Ends(c, ring, spans[p].from, beat, level)
      {
        var a := spans[p - 1];
        var from := Max(a.from, spans[p].from);
        var known: nat;
        known, beat, level := SpanResolve(c, ring, from);
        ghost var left := spans[..p];
        assert left[..p - 1] == spans[..p - 1] && left[p - 1] == a;
        ghost var right := spans[p + 1..];
        spans := spans[..p - 1] + [Gap(a.start, from, known)] + spans[p + 1..];
        p := p - 1;
        assert spans[..p] == left[..p] && spans[p + 1..] == right;
      }
    }

    /** Merges the span at p with those after it that it meets. */
    method MergeAfter(ghost c: Chan, ring: seq<Mark>, p: nat, beat0: bool, level0: nat)
      returns (beat: bool, level: nat)
      requires Searchable() && NonDescending(ring) && c.recs == recs && c.anchors == anchors && p < |spans|
      requires Ends(c, ring, spans[p].from, beat0, level0)
      modifies this`spans
      ensures p < |spans| && spans[..p] == old(spans[..p])
      ensures (spans[p], spans[p + 1..]) == MergeRight(c, ring, old(spans[p]), old(spans[p + 1..]))
      ensures Ends(c, ring, spans[p].from, beat, level)
    {
      hide InBlocks, At, CountLt, Resolve, Ends, Ascending, Packable, NonDescending;
      beat, level := beat0, level0;
      while p + 1 < |spans| && spans[p + 1].start <= spans[p].known
        invariant p < |spans| && spans[..p] == old(spans[..p])
        invariant MergeRight(c, ring, spans[p], spans[p + 1..]) == MergeRight(c, ring, old(spans[p]), old(spans[p + 1..]))
        invariant Ends(c, ring, spans[p].from, beat, level)
      {
        var a := spans[p];
        var from := Max(a.from, spans[p + 1].from);
        var known: nat;
        known, beat, level := SpanResolve(c, ring, from);
        ghost var right := spans[p + 1..];
        ghost var left := spans[..p];
        spans := spans[..p] + [Gap(a.start, from, known)] + spans[p + 2..];
        assert spans[..p] == left && spans[p + 1..] == right[1..];
      }
    }

    /** The specified SpanAdd on the arrays: one gap is put in and those it touches are taken out. */
    method SpanAdd(ring: seq<Mark>, start: nat, from: nat)
      requires Valid() && NonDescending(ring) && start <= from <= OPEN
      modifies this`spans, this`cur, this`anchors
      ensures Valid() && View() == StoreChannel.SpanAdd(old(View()), ring, start, from)
    {
      ghost var c := View();
      hide InBlocks, At, CountLt, Resolve, Ends, CountStarted, IvalsOk, Packable, Ascending, NonDescending, MergeLeft, MergeRight;
      SpansWithTakesUp(c, ring, start, from);
      hide SpansOk;
      var known, beat, level := SpanResolve(c, ring, from);
      var p := SpanPlace(start);
      var n := Gap(start, from, known);
      spans := spans[..p] + [n] + spans[p..];
      assert spans[..p] == c.spans[..p] && spans[p] == n && spans[p + 1..] == c.spans[p..];
      p, beat, level := MergeBefore(c, ring, p, beat, level);
      ghost var left := spans[..p];
      beat, level := MergeAfter(c, ring, p, beat, level);
      var m := spans[p];
      assert spans == left + [m] + spans[p + 1..];
      assert (spans, m) == SpansWith(c, ring, start, from);
      Finish(c, ring, m, beat, level);
    }

    /** The level after the span m: unknown, or the one a held heartbeat gives at its end. */
    method Finish(ghost c: Chan, ring: seq<Mark>, m: Gap, beat: bool, level: nat)
      requires Searchable() && m.known == Resolve(c, ring, m.from) && Ends(c, ring, m.from, beat, level)
      requires View() == c.(spans := spans) && ListsOk(View())
      modifies this`cur, this`anchors
      ensures Valid()
      ensures
        var k := CountLt(ring, m.from);
        View() == (if m.known == OPEN then c.(spans := spans, cur := UNKNOWN)
                   else if k < |ring| && ring[k].tick < Grounded(c, m.from)
                   then c.(spans := spans, anchors := StoreChannel.AnchorPut(c.anchors, Mark(m.known, ring[k].level)))
                   else c.(spans := spans))
    {
      hide InBlocks, At, CountLt, SpansOk, IvalsOk, Packable, Ascending;
      if m.known == OPEN {
        cur := UNKNOWN;
      } else if beat {
        AnchorPut(m.known, level);
      }
    }

    /** The specified AnchorPut, in place. */
    method AnchorPut(tick: nat, level: nat)
      requires Ascending(anchors)
      modifies this`anchors
      ensures anchors == StoreChannel.AnchorPut(old(anchors), Mark(tick, level)) && Ascending(anchors)
    {
      AnchorPutAscends(anchors, Mark(tick, level));
      hide Ascending, StoreChannel.AnchorPut;
      anchors := WithAnchor(anchors, Mark(tick, level));
    }

    /** A loss's ticks, merged with the intervals they meet. */
    method IvalAdd(start: nat, end: nat)
      requires IvalsOk(ivals) && start <= end
      modifies this`ivals
      ensures ivals == StoreChannel.IvalAdd(old(ivals), start, end) && IvalsOk(ivals)
    {
      IvalAddIs(ivals, start, end);
      hide IvalsOk, StoreChannel.IvalAdd;
      ivals := WithIval(ivals, start, end);
    }

    method AddBlock()
      requires Valid() && !Room(blocks)
      modifies this`blocks
      ensures Valid() && Room(blocks) && View() == old(View())
    {
      NewBlockInBlocks(blocks, recs);
      blocks := blocks + [[]];
    }

    /** A record, once there is room for it. */
    method Append(tick: nat, level: nat)
      requires Valid() && Room(blocks) && Accepts(View(), tick)
      modifies this
      ensures Valid() && View() == ApplyRecord(old(View()), tick, level) && first == old(first)
      ensures blocks != [] && blocks[|blocks| - 1] != []
    {
      AppendLists(View(), tick, level);
      hide InBlocks, ListsOk, CloseOpen, Accepts;
      var s := CloseLast(spans, tick);
      Push(Mark(tick, level % 2));
      haveLast, lastTick, cur, spans := true, tick, level % 2, s;
    }

    method Push(m: Mark)
      requires InBlocks(blocks, recs) && Room(blocks)
      modifies this`blocks, this`recs, this`next
      ensures InBlocks(blocks, recs) && recs == old(recs) + [m] && next == old(next) + 1
      ensures blocks != [] && blocks[|blocks| - 1] != []
    {
      AppendInBlocks(blocks, recs, m);
      hide InBlocks;
      var n := |blocks|;
      blocks, recs, next := blocks[n - 1 := blocks[n - 1] + [Packed(m)]], recs + [m], next + 1;
    }

    /** Lets go of the oldest block. */
    method Shift()
      requires Valid() && |blocks| >= 2
      modifies this`blocks, this`recs, this`first
      ensures BLOCK <= old(|recs|) && Valid() && first == old(first) + BLOCK
      ensures View() == old(View()).(recs := old(recs)[BLOCK..]) && blocks == old(blocks)[1..]
    {
      DropInBlocks(blocks, recs);
      DropLists(View(), BLOCK);
      hide InBlocks, ListsOk;
      blocks, recs, first := blocks[1..], recs[BLOCK..], first + BLOCK;
    }

    /**
     * A heartbeat: kept if it makes the level known, or contradicts the level by the records.
     */
    method Beat(tick: nat, level: nat)
      requires Valid() && tick < OPEN
      modifies this`spans, this`anchors, this`cur
      ensures Valid() && View() == ApplyBeat(old(View()), tick, level)
    {
      ghost var c := View();
      ListsParts(c);
      BeatLists(c, tick, level);
      hide InBlocks, At, ListsOk, StoreChannel.AnchorPut, Ascending;
      var n := |spans|;
      var keep := false;
      if n > 0 && spans[n - 1].known == OPEN {
        if tick >= spans[n - 1].from {
          spans := spans[n - 1 := spans[n - 1].(known := tick)];
          keep := true;
        }
      } else if cur != level {
        keep := true;
      }
      if keep {
        AnchorPut(tick, level);
        cur := level;
      }
    }

    /** A loss on the channel. */
    method Lose(ring: seq<Mark>, start: nat, end: nat)
      requires Valid() && NonDescending(ring) && start <= end < OPEN
      modifies this`spans, this`cur, this`anchors, this`ivals
      ensures Valid() && View() == ApplyLoss(old(View()), ring, start, end)
    {
      ghost var c := View();
      hide InBlocks, At, SpansOk, IvalsOk, Ascending, Packable, NonDescending, StoreChannel.SpanAdd, StoreChannel.IvalAdd;
      IvalAdd(start, end);
      ghost var i := ivals;
      SpanAdd(ring, start, end + 1);
      SpanAddApart(c, i, ring, start, end + 1);
    }

    /** The specified TrimTo, list by list. */
    method TrimTo(t: nat)
      requires Valid()
      modifies this
      ensures Valid() && View() == StoreChannel.TrimTo(old(View()), t)
      ensures blocks == old(blocks) && first == old(first) && next == old(next)
    {
      TrimLists(View(), t);
      hide InBlocks, At, ListsOk, LevelAt, CountLt, SpansAfter, IvalsAfter;
      Cover(t);
      Forget(t);
    }

    method Forget(t: nat)
      modifies this`anchors, this`spans, this`ivals
      ensures
        View() == var c := old(View());
                  c.(anchors := c.anchors[CountLe(c.anchors, t)..], spans := SpansAfter(c.spans, t), ivals := IvalsAfter(c.ivals, t))
    {
      hide CountLt, SpansAfter, IvalsAfter;
      anchors := KeepAnchors(anchors, t);
      spans := KeepSpans(spans, t);
      ivals := KeepIvals(ivals, t);
    }

    /** The base and the cover move up to t, unless the cover is past it. */
    method Cover(t: nat)
      requires Valid()
      modifies this`dropped, this`cover, this`base
      ensures
        View() == var c := old(View());
                  if !c.dropped || t > c.cover then c.(dropped := true, cover := t, base := LevelAt(c, t)) else c
    {
      hide InBlocks, ListsOk, LevelAt;
      if !dropped || t > cover {
        var level := Level(t);
        dropped, cover, base := true, t, level;
      }
    }

    /** The tick of the newest record of the oldest block, all of whose records are held. */
    method OldestBlock() returns (t: nat)
      requires Valid() && |blocks| >= 2
      ensures BLOCK <= |recs| && t == recs[BLOCK - 1].tick
    {
      DropInBlocks(blocks, recs);
      InBlocksAt(blocks, recs, BLOCK - 1);
      hide InBlocks, SpansOk, IvalsOk, Ascending;
      assert recs[BLOCK - 1] in recs;
      t := blocks[0][BLOCK - 1] / 2;
    }
  }

  lemma DropBlockIs(c: Chan, n: nat)
    requires 0 < n <= |c.recs|
    ensures
      var d := StoreChannel.TrimTo(c, c.recs[n - 1].tick);
      d.recs == c.recs && DropBlock(c, n) == d.(recs := d.recs[n..])
  {
    TrimToParts(c, c.recs[n - 1].tick);
    hide StoreChannel.TrimTo;
  }

  lemma ListsParts(c: Chan)
    requires ListsOk(c)
    ensures Ascending(c.recs) && Ascending(c.anchors) && SpansOk(c.spans) && IvalsOk(c.ivals)
  {
  }

  lemma BeatLists(c: Chan, tick: nat, level: nat)
    requires ListsOk(c) && tick < OPEN
    ensures ListsOk(ApplyBeat(c, tick, level))
  {
    CloseOpenKeeps(c.spans, tick);
    AnchorPutAscends(c.anchors, Mark(tick, level));
    hide SpansOk, IvalsOk, Ascending, Packable, KeepsSpans, StoreChannel.AnchorPut, CloseOpen;
  }

  lemma DropLists(d: Chan, n: nat)
    requires ListsOk(d) && 0 < n <= |d.recs|
    ensures ListsOk(d.(recs := d.recs[n..]))
  {
    RecsAfter(d.recs, n);
    hide SpansOk, IvalsOk, Ascending;
  }

  lemma SpanAddApart(c: Chan, i: seq<Ival>, ring: seq<Mark>, start: nat, from: nat)
    ensures
      StoreChannel.SpanAdd(c.(ivals := i), ring, start, from) == StoreChannel.SpanAdd(c, ring, start, from).(ivals := i)
  {
    SpansWithApart(c, i, ring, start, from);
    hide SpansWith, CountLt, StoreChannel.AnchorPut;
  }

  lemma SpansWithApart(c: Chan, i: seq<Ival>, ring: seq<Mark>, start: nat, from: nat)
    ensures SpansWith(c.(ivals := i), ring, start, from) == SpansWith(c, ring, start, from)
  {
    var p := CountStarted(c.spans, start);
    var n := Gap(start, from, Resolve(c, ring, from));
    var ln := MergeLeft(c, ring, c.spans[..p], n);
    MergeLeftApart(c, i, ring, c.spans[..p], n);
    MergeRightApart(c, i, ring, ln.1, c.spans[p..]);
    hide MergeLeft, MergeRight, CountStarted, CountLt;
  }

  lemma {:induction false} MergeLeftApart(c: Chan, i: seq<Ival>, ring: seq<Mark>, left: seq<Gap>, n: Gap)
    ensures MergeLeft(c.(ivals := i), ring, left, n) == MergeLeft(c, ring, left, n)
    decreases |left|
  {
    hide CountLt;
    if left != [] && left[|left| - 1].known >= n.start {
      var a := left[|left| - 1];
      var from := Max(a.from, n.from);
      MergeLeftApart(c, i, ring, left[..|left| - 1], Gap(a.start, from, Resolve(c, ring, from)));
    }
  }

  lemma {:induction false} MergeRightApart(c: Chan, i: seq<Ival>, ring: seq<Mark>, n: Gap, right: seq<Gap>)
    ensures MergeRight(c.(ivals := i), ring, n, right) == MergeRight(c, ring, n, right)
    decreases |right|
  {
    hide CountLt;
    if right != [] && right[0].start <= n.known {
      var from := Max(n.from, right[0].from);
      MergeRightApart(c, i, ring, Gap(n.start, from, Resolve(c, ring, from)), right[1..]);
    }
  }

  lemma TrimLists(c: Chan, t: nat)
    requires ListsOk(c)
    ensures ListsOk(StoreChannel.TrimTo(c, t))
  {
    TrimSortedLists(c, t);
    TrimToParts(c, t);
    IvalsAfterIs(c.ivals, t);
    hide StoreChannel.TrimTo, SpansOk, IvalsOk, Ascending, CountLt;
  }

  lemma TrimSortedLists(c: Chan, t: nat)
    requires Ascending(c.anchors) && SpansOk(c.spans)
    ensures Ascending(c.anchors[CountLe(c.anchors, t)..]) && SpansOk(SpansAfter(c.spans, t))
  {
    AfterCount(c.anchors, t);
    SpansAfterKeeps(c.spans, t);
  }

  lemma AscendingIsSorted(m: seq<Mark>)
    requires Ascending(m)
    ensures NonDescending(m)
  {
  }

  lemma PackableOf(c: Chan)
    requires ListsOk(c)
    ensures forall x :: x in c.recs ==> x.level < 2
  {
  }

  lemma AppendLists(c: Chan, tick: nat, level: nat)
    requires ListsOk(c) && Accepts(c, tick)
    ensures ListsOk(ApplyRecord(c, tick, level))
  {
    RecordSorted(c, [], tick, level);
    hide SpansOk, IvalsOk, Ascending, CloseOpen;
  }
}
