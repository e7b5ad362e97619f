/**
 * What trimming a channel costs: its levels from the trimmed tick on stay as they are, unless
 * a kept heartbeat contradicts the record of that very tick.
 */
module StoreTrims {
  import opened Numbers
  import opened StoreChannel
  import T = StoreTruth

  /** Marks and spans in order, and every span that ended does so at a record or an anchor. */
  predicate Ordered(c: Chan) {
    && Ascending(c.recs) && Ascending(c.anchors)
    && (forall i, j :: 0 <= i < j < |c.spans| ==> c.spans[i].start <= c.spans[j].start && c.spans[i].known <= c.spans[j].known)
  }

  predicate MarkAt(m: seq<Mark>, tick: nat) {
    exists x :: x in m && x.tick == tick
  }

  /** Spans that end after t end at a mark; the last one may be open. */
  predicate EndsMarked(c: Chan, t: nat) {
    forall s :: s in c.spans && t < s.known < OPEN ==> MarkAt(c.recs, s.known) || MarkAt(c.anchors, s.known)
  }

  function LastLe(m: seq<Mark>, tick: nat): Option<Mark> {
    Last(m, CountLe(m, tick))
  }

  function Started(s: seq<Gap>, tick: nat): Option<Gap> {
    Last(s, CountStarted(s, tick))
  }

  predicate Hidden(c: Chan, tick: nat) {
    Started(c.spans, tick).Some? && tick < Started(c.spans, tick).value.known
  }

  predicate Clash(r: Option<Mark>, a: Option<Mark>, t: nat) {
    r.Some? && a.Some? && r.value.tick == a.value.tick == t && r.value.level != a.value.level
  }

  /** A kept heartbeat says other than the record of its own tick, where the level is known. */
  predicate Contradicted(c: Chan, t: nat) {
    var r, a := LastLe(c.recs, t), LastLe(c.anchors, t);
    !Hidden(c, t) && Clash(r, a, t)
  }

  lemma {:induction false} LastLeIs(m: seq<Mark>, tick: nat)
    requires Ascending(m)
    ensures
      var l := LastLe(m, tick);
      && (l.Some? ==> l.value in m && l.value.tick <= tick && forall x :: x in m && x.tick <= tick ==> x.tick <= l.value.tick)
      && (l.None? ==> forall x :: x in m ==> x.tick > tick)
  {
    var k := CountLt(m, tick + 1);
    forall x | x in m
      ensures x.tick <= tick ==> k > 0 && x.tick <= m[k - 1].tick
    {
      var i :| 0 <= i < |m| && m[i] == x;
      assert k < |m| && i > k ==> m[k].tick < m[i].tick;
      assert i < k - 1 ==> m[i].tick < m[k - 1].tick;
    }
  }

  /** After letting go of the marks up to t, the last one up to a later tick. */
  lemma LastAfter(m: seq<Mark>, t: nat, q: nat)
    requires Ascending(m) && t <= q
    ensures
      var l := LastLe(m, q);
      LastLe(m[CountLe(m, t)..], q) == if l.Some? && l.value.tick > t then l else None
  {
    var k := CountLt(m, t + 1);
    var n := CountLt(m, q + 1);
    assert n >= k;
    var rest := m[k..];
    assert n < |m| ==> rest[n - k] == m[n];
    CountLtIs(rest, q + 1, n - k);
    assert n > k ==> m[n - 1].tick >= m[k].tick && rest[n - k - 1] == m[n - 1];
  }

  lemma {:induction false} StartedAfter(s: seq<Gap>, t: nat, q: nat)
    requires forall i, j :: 0 <= i < j < |s| ==> s[i].start <= s[j].start && s[i].known <= s[j].known
    ensures
      var l := Started(s, q);
      Started(SpansAfter(s, t), q) == if l.Some? && l.value.known > t then l else None
  {
    if s != [] && s[0].known <= t {
      StartedAfter(s[1..], t, q);
      var k := CountStarted(s, q);
      if k > 0 {
        assert CountStarted(s[1..], q) == k - 1;
        assert k > 1 ==> s[1..][k - 2] == s[k - 1];
      } else {
        assert |s| > 1 ==> s[1].start >= s[0].start;
      }
    } else if s != [] {
      var k := CountStarted(s, q);
      assert k > 1 ==> s[0].known <= s[k - 1].known;
    }
  }

  /** No mark from after t up to q: what holds at t holds at q. */
  lemma Quiet(m: seq<Mark>, t: nat, q: nat)
    requires Ascending(m) && t <= q && (LastLe(m, q).Some? ==> LastLe(m, q).value.tick <= t)
    ensures LastLe(m, q) == LastLe(m, t) && forall x: nat :: t < x <= q ==> !MarkAt(m, x)
  {
    LastLeIs(m, q);
    LastLeIs(m, t);
    var a, b := LastLe(m, q), LastLe(m, t);
    if a.Some? && b.Some? {
      var i :| 0 <= i < |m| && m[i] == a.value;
      var j :| 0 <= j < |m| && m[j] == b.value;
    }
  }

  /** With no mark in between, a level hidden at t stays hidden. */
  lemma QuietSpans(c: Chan, t: nat, q: nat)
    requires Ordered(c) && EndsMarked(c, t) && t <= q < OPEN && Hidden(c, t)
    requires forall x: nat :: t < x <= q ==> !MarkAt(c.recs, x) && !MarkAt(c.anchors, x)
    ensures Hidden(c, q)
  {
    var k, n := CountStarted(c.spans, t), CountStarted(c.spans, q);
    var s := c.spans[k - 1];
    assert s in c.spans && n >= k;
    assert s.known > q;
    assert k < n ==> c.spans[k - 1].known <= c.spans[n - 1].known;
  }

  lemma TrimParts(c: Chan, t: nat, q: nat)
    requires Ordered(c) && (c.dropped ==> t > c.cover) && t <= q
    ensures
      var d := TrimTo(c, t);
      var a, s := LastLe(c.anchors, q), Started(c.spans, q);
      && d.recs == c.recs && d.dropped && d.cover == t && d.base == LevelAt(c, t)
      && LastLe(d.anchors, q) == (if a.Some? && a.value.tick > t then a else None)
      && Started(d.spans, q) == (if s.Some? && s.value.known > t then s else None)
  {
    LastAfter(c.anchors, t, q);
    StartedAfter(c.spans, t, q);
  }

  predicate Same(c: Chan, t: nat, q: nat) {
    LevelAt(TrimTo(c, t), q) == LevelAt(c, q)
  }

  /** What is picked at q of a trimmed channel is what was picked there before. */
  lemma PickSame(dropped: bool, cover: nat, base: nat, t: nat, q: nat, s: Option<Gap>, r: Option<Mark>, a: Option<Mark>, kept: nat)
    requires (dropped ==> t > cover) && t <= q
    requires
      var quiet := !(s.Some? && q < s.value.known) && !(a.Some? && a.value.tick > t) && !(r.Some? && r.value.tick > t);
      quiet ==> kept == Pick(dropped, cover, base, q, s, r, a) && !Clash(r, a, t)
    ensures
      var s', a' := if s.Some? && s.value.known > t then s else None, if a.Some? && a.value.tick > t then a else None;
      Pick(true, t, kept, q, s', r, a') == Pick(dropped, cover, base, q, s, r, a)
  {
  }

  lemma LevelIs(c: Chan, q: nat)
    ensures LevelAt(c, q) == Pick(c.dropped, c.cover, c.base, q, Started(c.spans, q), LastLe(c.recs, q), LastLe(c.anchors, q))
  {
  }

  /** With no mark in between and the level known at the later tick, it is the same at both. */
  lemma QuietLevel(c: Chan, t: nat, q: nat)
    requires Ordered(c) && EndsMarked(c, t) && (c.dropped ==> t > c.cover) && t <= q < OPEN && !Contradicted(c, t) && !Hidden(c, q)
    requires LastLe(c.recs, q).Some? ==> LastLe(c.recs, q).value.tick <= t
    requires LastLe(c.anchors, q).Some? ==> LastLe(c.anchors, q).value.tick <= t
    ensures LevelAt(c, t) == LevelAt(c, q) && !Clash(LastLe(c.recs, q), LastLe(c.anchors, q), t)
  {
    Quiet(c.recs, t, q);
    Quiet(c.anchors, t, q);
    LevelIs(c, t);
    LevelIs(c, q);
    hide LastLe, CountLt, CountStarted, Started, Ordered, EndsMarked, MarkAt, LevelAt;
    if Hidden(c, t) {
      QuietSpans(c, t, q);
    }
  }

  lemma SameUnless(c: Chan, t: nat, q: nat)
    requires Ordered(c) && EndsMarked(c, t) && (c.dropped ==> t > c.cover) && t <= q < OPEN && !Contradicted(c, t)
    ensures Same(c, t, q)
  {
    hide Ordered, EndsMarked, LastLe, Started, Contradicted, TrimTo, LevelAt, Pick, Clash;
    TrimParts(c, t, q);
    LevelIs(c, q);
    LevelIs(TrimTo(c, t), q);
    var s, r, a := Started(c.spans, q), LastLe(c.recs, q), LastLe(c.anchors, q);
    if !(s.Some? && q < s.value.known) && !(a.Some? && a.value.tick > t) && !(r.Some? && r.value.tick > t) {
      QuietLevel(c, t, q);
    }
    PickSame(c.dropped, c.cover, c.base, t, q, s, r, a, LevelAt(c, t));
  }

  /**
   * Trimming to a tick keeps the level at every tick from there on, if and only if no kept
   * heartbeat contradicts the record of that tick.
   */
  lemma TrimKeepsLevels(c: Chan, t: nat)
    requires Ordered(c) && EndsMarked(c, t) && (c.dropped ==> t > c.cover) && t < OPEN
    ensures (forall q: nat :: t <= q < OPEN ==> Same(c, t, q)) <==> !Contradicted(c, t)
  {
    if Contradicted(c, t) {
      TrimParts(c, t, t);
      assert !Same(c, t, t);
    } else {
      forall q: nat | t <= q < OPEN
        ensures Same(c, t, q)
      {
        SameUnless(c, t, q);
      }
    }
  }

  lemma OneMark(m: Mark, q: nat)
    requires m.tick <= q
    ensures LastLe([m], q) == Some(m)
  {
    CountLtIs([m], q + 1, 1);
  }

  lemma OneSpan(s: Gap, q: nat)
    requires s.start <= q
    ensures Started([s], q) == Some(s)
  {
    assert [s][1..] == [];
  }

  /** A channel where it does not: its heartbeat says low where the record of its tick says high. */
  lemma TrimCanLose()
    ensures
      var c := ApplyBeat(ApplyRecord(NewChan(), 5, 1), 5, 0);
      Contradicted(c, 5) && LevelAt(c, 5) == 0 && LevelAt(TrimTo(c, 5), 5) == 1
  {
    var c := ApplyBeat(ApplyRecord(NewChan(), 5, 1), 5, 0);
    assert AnchorPut([], Mark(5, 0)) == [Mark(5, 0)];
    assert c.recs == [Mark(5, 1)] && c.anchors == [Mark(5, 0)] && c.spans == [Gap(0, 0, 5)] && !c.dropped;
    hide ApplyBeat, ApplyRecord, CountLt, CountStarted;
    OneMark(Mark(5, 1), 5);
    OneMark(Mark(5, 0), 5);
    OneSpan(Gap(0, 0, 5), 5);
    LevelIs(c, 5);
    hide LastLe, Started, LevelAt, TrimTo;
    TrimParts(c, 5, 5);
    LevelIs(TrimTo(c, 5), 5);
  }

  // ----- in the store

  lemma SafeIsOrdered(c: Chan, ring: seq<Mark>, right: T.Rule, h: T.History, t: nat)
    requires T.Safe(c, ring, right, h) && (c.dropped ==> t > c.cover)
    ensures Ordered(c) && EndsMarked(c, t)
  {
    T.SpansAscend(c.spans);
    forall s | s in c.spans && t < s.known < OPEN
      ensures MarkAt(c.recs, s.known) || MarkAt(c.anchors, s.known)
    {
      assert s.known in T.Info(c);
    }
  }

  /** So it is in every state the store's promise keeps. */
  lemma SafeTrims(c: Chan, ring: seq<Mark>, right: T.Rule, h: T.History, t: nat)
    requires T.Safe(c, ring, right, h) && (c.dropped ==> t > c.cover) && t < OPEN
    ensures (forall q: nat :: t <= q < OPEN ==> Same(c, t, q)) <==> !Contradicted(c, t)
  {
    SafeIsOrdered(c, ring, right, h, t);
    hide T.Safe, Ordered, EndsMarked, Same, Contradicted;
    TrimKeepsLevels(c, t);
  }

  /** Where records and heartbeats give the true levels, no trim changes a level it keeps. */
  lemma TrueTrims(c: Chan, ring: seq<Mark>, signal: T.Signal, h: T.History, t: nat)
    requires T.Safe(c, ring, T.Says(signal), h) && (c.dropped ==> t > c.cover) && t < OPEN
    ensures forall q: nat :: t <= q < OPEN ==> Same(c, t, q)
  {
    SafeIsOrdered(c, ring, T.Says(signal), h, t);
    LastLeIs(c.recs, t);
    LastLeIs(c.anchors, t);
    assert !Contradicted(c, t) by {
      hide LastLe, Ordered, EndsMarked;
    }
    hide T.Safe, Ordered, EndsMarked, Same, Contradicted;
    TrimKeepsLevels(c, t);
  }
}
