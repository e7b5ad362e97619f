/**
 * The store as a decoder group sees it, of what happened to it: every record a channel took,
 * how many of them went, and the lowest watermark. Records and heartbeats that come in order,
 * as the parsers give them, only ever add to it.
 */
module ReplayFeeds {
  import opened Numbers
  import MergeOrder
  import opened StoreChannel
  import opened StoreRuns
  import opened StoreMachine
  import opened StoreQueries
  import ReplayStore

  // ----- what a change does to one channel

  /** The channel takes this record. */
  predicate Takes(s: State, ch: Change, i: nat) {
    ch.Record? && ch.i == i && i < |s.views| && Accepts(s.views[i], ch.tick)
  }

  /** The channel's oldest n records go. */
  function Going(s: State, ch: Change, i: nat): nat {
    if ch.Trim? && ch.j == i && ch.op.Drop? && i < |s.views| && 0 < ch.op.n <= |s.views[i].recs| then ch.op.n else 0
  }

  lemma LastAfter(s: State, y: Layout, ch: Change, i: nat)
    requires Fits(s, y) && i < |s.views|
    ensures
      var c, d := s.views[i], After(s, y, ch).views[i];
      if Takes(s, ch, i) then d.haveLast && d.lastTick == ch.tick
      else d.haveLast == c.haveLast && d.lastTick == c.lastTick
  {
    if ch.Trim? {
      TrimKeepsLast(s, y, ch, i);
    } else if ch.Lost? {
      LossCover(s, y, ch.start, ch.end, ch.lost, i);
      LossKeeps(s.views[i], Marks(s.data[y.dc[i]].ring, i), ch.start, ch.end);
    }
    hide TrimTo, SpanAdd, IvalAdd, Marks, AnchorPut, CloseOpen, Keeps;
  }

  lemma LossKeeps(c: Chan, ring: seq<Mark>, start: nat, end: nat)
    ensures
      var d := ApplyLoss(c, ring, start, end);
      d.haveLast == c.haveLast && d.lastTick == c.lastTick && d.recs == c.recs
  {
    hide SpansWith, Grounded, AnchorPut, CountLt, IvalAdd;
  }

  lemma RecsAfter(s: State, y: Layout, ch: Change, i: nat)
    requires Fits(s, y) && i < |s.views|
    ensures
      var c, d := s.views[i], After(s, y, ch).views[i];
      d.recs == if Takes(s, ch, i) then c.recs + [Mark(ch.tick, ch.level % 2)] else c.recs[Going(s, ch, i)..]
  {
    if ch.Trim? && ch.j == i && CanTrim(s.views[i], ch.op) {
      TrimToCover(s.views[i], TickOf(s.views[i], ch.op));
    } else if ch.Lost? {
      LossKeeps(s.views[i], Marks(s.data[y.dc[i]].ring, i), ch.start, ch.end);
    }
    hide TrimTo, ApplyLoss, Marks, AnchorPut, CloseOpen, Keeps;
  }

  // ----- the records taken

  function Kept(s: State, y: Layout, chs: seq<Change>, i: nat): seq<MergeOrder.Entry>
    requires Fits(s, y)
    decreases |chs|
  {
    if chs == [] then []
    else
      (if Takes(s, chs[0], i) then [MergeOrder.Entry(chs[0].tick, i, chs[0].level % 2, false)] else [])
      + Kept(After(s, y, chs[0]), y, chs[1..], i)
  }

  /** How many of them went. */
  function Gone(s: State, y: Layout, chs: seq<Change>, i: nat): nat
    requires Fits(s, y)
    decreases |chs|
  {
    if chs == [] then 0 else Going(s, chs[0], i) + Gone(After(s, y, chs[0]), y, chs[1..], i)
  }

  lemma {:induction false} KeptConcat(s: State, y: Layout, a: seq<Change>, b: seq<Change>, i: nat)
    requires Fits(s, y)
    ensures Kept(s, y, a + b, i) == Kept(s, y, a, i) + Kept(AfterAll(s, y, a), y, b, i)
    decreases |a|
  {
    hide After, Takes;
    if a == [] {
      assert a + b == b;
    } else {
      assert (a + b)[0] == a[0] && (a + b)[1..] == a[1..] + b;
      KeptConcat(After(s, y, a[0]), y, a[1..], b, i);
    }
  }

  lemma {:induction false} KeptRises(s: State, y: Layout, chs: seq<Change>, i: nat)
    requires Fits(s, y) && i < |s.views|
    ensures ReplayStore.Rising(Kept(s, y, chs, i), i)
    ensures s.views[i].haveLast ==> forall e :: e in Kept(s, y, chs, i) ==> s.views[i].lastTick < e.tick
    decreases |chs|
  {
    hide After;
    if chs != [] {
      LastAfter(s, y, chs[0], i);
      KeptRises(After(s, y, chs[0]), y, chs[1..], i);
    }
  }

  /** The marks of some entries. */
  function MarksOf(es: seq<MergeOrder.Entry>): (r: seq<Mark>)
    ensures |r| == |es|
  {
    seq(|es|, k requires 0 <= k < |es| => Mark(es[k].tick, es[k].level))
  }

  /** What the channel holds is what it took, but for what went. */
  lemma {:induction false} HoldsTheRest(s: State, y: Layout, chs: seq<Change>, i: nat)
    requires Fits(s, y) && i < |s.views|
    ensures
      var all := s.views[i].recs + MarksOf(Kept(s, y, chs, i));
      Gone(s, y, chs, i) <= |all| && AfterAll(s, y, chs).views[i].recs == all[Gone(s, y, chs, i)..]
    decreases |chs|
  {
    hide After, Takes, Going;
    if chs == [] {
      assert s.views[i].recs + [] == s.views[i].recs;
    } else {
      var u := After(s, y, chs[0]);
      RecsAfter(s, y, chs[0], i);
      GoingFits(s, chs[0], i);
      HoldsTheRest(u, y, chs[1..], i);
      var all := s.views[i].recs + MarksOf(Kept(s, y, chs, i));
      var later := u.views[i].recs + MarksOf(Kept(u, y, chs[1..], i));
      var n := Going(s, chs[0], i);
      assert later == all[n..];
      assert later[Gone(u, y, chs[1..], i)..] == all[Gone(s, y, chs, i)..];
    }
  }

  lemma GoingFits(s: State, ch: Change, i: nat)
    requires i < |s.views|
    ensures Going(s, ch, i) <= |s.views[i].recs| && (Takes(s, ch, i) ==> Going(s, ch, i) == 0)
  {
  }

  // ----- watermarks

  /** The lowest watermark of the data channels, if each has one. */
  function LowestWm(data: seq<Data>): Option<nat> {
    if data == [] || data[|data| - 1].wm.None? then None
    else if |data| == 1 then data[0].wm
    else
      var w := LowestWm(data[..|data| - 1]);
      if w.None? then None else Some(Min(w.value, data[|data| - 1].wm.value))
  }

  lemma {:induction false} LowestIsLowest(data: seq<Data>)
    ensures LowestWm(data).Some? ==>
      (forall d :: 0 <= d < |data| ==> data[d].wm.Some? && LowestWm(data).value <= data[d].wm.value)
      && exists d :: 0 <= d < |data| && data[d].wm == LowestWm(data)
    ensures LowestWm(data).None? ==> data == [] || exists d :: 0 <= d < |data| && data[d].wm.None?
  {
    if data != [] && data[|data| - 1].wm.Some? && |data| > 1 {
      var front := data[..|data| - 1];
      LowestIsLowest(front);
      assert forall d :: 0 <= d < |front| ==> front[d] == data[d];
      if LowestWm(front).Some? {
        var d :| 0 <= d < |front| && front[d].wm == LowestWm(front);
        assert data[d].wm == LowestWm(front);
      } else {
        var d :| 0 <= d < |front| && front[d].wm.None?;
        assert data[d].wm.None?;
      }
    }
  }

  predicate Raised(a: seq<Data>, b: seq<Data>) {
    |a| == |b| && forall d :: 0 <= d < |a| && a[d].wm.Some? ==> b[d].wm.Some? && a[d].wm.value <= b[d].wm.value
  }

  lemma {:induction false} WmsRise(s: State, y: Layout, chs: seq<Change>)
    requires Fits(s, y)
    ensures Raised(s.data, AfterAll(s, y, chs).data)
    decreases |chs|
  {
    if chs != [] {
      assert Raised(s.data, After(s, y, chs[0]).data) by {
        hide BeatViews, LossViews, AfterTrim, Pushed;
      }
      hide After;
      WmsRise(After(s, y, chs[0]), y, chs[1..]);
    }
  }

  lemma LowestRises(a: seq<Data>, b: seq<Data>)
    requires Raised(a, b) && LowestWm(a).Some?
    ensures LowestWm(b).Some? && LowestWm(a).value <= LowestWm(b).value
  {
    LowestIsLowest(a);
    LowestIsLowest(b);
    hide LowestWm;
    if LowestWm(b).Some? {
      var d :| 0 <= d < |b| && b[d].wm == LowestWm(b);
      assert a[d].wm.Some?;
    }
  }

  // ----- in order

  lemma {:induction false} InOrderConcat(t: Track, late: nat, a: seq<Op>, b: seq<Op>)
    ensures AllInOrder(t, late, a + b) == (AllInOrder(t, late, a) && AllInOrder(Run(t, late, a), late, b))
    decreases |a|
  {
    hide Step, InOrder;
    if a == [] {
      assert a + b == b;
    } else {
      assert (a + b)[0] == a[0] && (a + b)[1..] == a[1..] + b;
      InOrderConcat(Step(t, late, a[0]), late, a[1..], b);
    }
  }

  /** The watermark of the channel's data channel is before what can still come. */
  predicate BeforeNext(s: State, y: Layout, t: Track, i: nat)
    requires Fits(s, y) && i < |s.views|
  {
    var wm := s.data[y.dc[i]].wm;
    wm.Some? ==> wm.value < t.next
  }

  /** One change: the channel's track goes on, and so does what can still come. */
  lemma ChangeGoesOn(s: State, y: Layout, t: Track, ch: Change, i: nat)
    requires Fits(s, y) && i < |s.views| && OnTrack(s, y, t, i) && BeforeNext(s, y, t, i)
    requires AllInOrder(t, y.late, OpsOf(s, y, ch, i))
    ensures
      var u, v := After(s, y, ch), Run(t, y.late, OpsOf(s, y, ch, i));
      OnTrack(u, y, v, i) && BeforeNext(u, y, v, i) && t.next <= v.next && (Takes(s, ch, i) ==> t.next <= ch.tick)
  {
    StepOnTrack(s, y, t, ch, i);
    var ops := OpsOf(s, y, ch, i);
    hide ApplyRecord, ApplyBeat, ApplyLoss, TrimTo, Marks, Pushed, Held, Accepts, DropBlock, BeatViews, LossViews, AfterTrim;
    if ops != [] {
      RunOne(t, y.late, ops[0]);
      assert ops == [ops[0]];
    }
  }

  /** Records that come in order are past everything before. */
  lemma {:induction false} KeptLater(s: State, y: Layout, t: Track, chs: seq<Change>, i: nat)
    requires Fits(s, y) && i < |s.views| && OnTrack(s, y, t, i) && BeforeNext(s, y, t, i)
    requires AllInOrder(t, y.late, AllOpsOf(s, y, chs, i))
    ensures forall e :: e in Kept(s, y, chs, i) ==> t.next <= e.tick
    ensures BeforeNext(AfterAll(s, y, chs), y, Run(t, y.late, AllOpsOf(s, y, chs, i)), i)
    decreases |chs|
  {
    hide OnTrack, BeforeNext, After, OpsOf, Step, Takes, AllInOrder;
    if chs != [] {
      var u := After(s, y, chs[0]);
      var ops, more := OpsOf(s, y, chs[0], i), AllOpsOf(u, y, chs[1..], i);
      InOrderConcat(t, y.late, ops, more);
      ChangeGoesOn(s, y, t, chs[0], i);
      KeptLater(u, y, Run(t, y.late, ops), chs[1..], i);
      RunConcat(t, y.late, ops, more);
    }
  }

  // ----- what a group sees

  /** The store after some changes, as a decoder group sees it. */
  function HeldOf(y: Layout, dcs: nat, chs: seq<Change>, losses: seq<ReplayStore.Loss>, level: (nat, nat) -> Option<nat>): ReplayStore.Held
    requires LayoutOk(y, dcs)
  {
    var n, s := |y.dc|, Empty(|y.dc|, dcs);
    var u := Reached(y, dcs, chs);
    ReplayStore.Held(seq(n, i requires 0 <= i < n => Kept(s, y, chs, i)), seq(n, i requires 0 <= i < n => Gone(s, y, chs, i)),
                     LowestWm(u.data), u.oldest, losses, level)
  }

  /** Every heartbeat's tick is a real one. */
  predicate RealTicks(chs: seq<Change>) {
    forall ch :: ch in chs && ch.Heartbeat? ==> ch.beat.tick < ReplayStore.TICK_END
  }

  predicate RealWms(data: seq<Data>) {
    forall d :: 0 <= d < |data| && data[d].wm.Some? ==> data[d].wm.value < ReplayStore.TICK_END
  }

  lemma WmReal(s: State, y: Layout, ch: Change)
    requires Fits(s, y) && RealWms(s.data) && (ch.Heartbeat? ==> ch.beat.tick < ReplayStore.TICK_END)
    ensures RealWms(After(s, y, ch).data)
  {
    hide BeatViews, LossViews, TrimOf, Pushed;
  }

  lemma {:induction false} WmsReal(s: State, y: Layout, chs: seq<Change>)
    requires Fits(s, y) && RealTicks(chs) && RealWms(s.data)
    ensures RealWms(AfterAll(s, y, chs).data)
    decreases |chs|
  {
    hide RealWms, After;
    if chs != [] {
      assert chs[0] in chs;
      WmReal(s, y, chs[0]);
      WmsReal(After(s, y, chs[0]), y, chs[1..]);
    }
  }

  /** A group sees of a channel what the store holds, numbered from the first record it took. */
  lemma HeldIsStore(y: Layout, dcs: nat, chs: seq<Change>, losses: seq<ReplayStore.Loss>, level: (nat, nat) -> Option<nat>)
    requires LayoutOk(y, dcs) && |y.dc| <= ReplayStore.CHANNELS_MAX && RealTicks(chs)
    ensures
      var h := HeldOf(y, dcs, chs, losses, level);
      && ReplayStore.Sound(h)
      && forall i :: 0 <= i < |y.dc| ==> Reached(y, dcs, chs).views[i].recs == MarksOf(h.recs[i][h.first[i]..])
  {
    var h, s := HeldOf(y, dcs, chs, losses, level), Empty(|y.dc|, dcs);
    hide AfterAll, Kept, Gone, LowestWm;
    forall i | 0 <= i < |y.dc|
      ensures h.first[i] <= |h.recs[i]| && ReplayStore.Rising(h.recs[i], i)
      ensures Reached(y, dcs, chs).views[i].recs == MarksOf(h.recs[i][h.first[i]..])
    {
      KeptRises(s, y, chs, i);
      HoldsTheRest(s, y, chs, i);
      var all := MarksOf(h.recs[i]);
      assert s.views[i].recs + all == all;
      assert all[h.first[i]..] == MarksOf(h.recs[i][h.first[i]..]);
    }
    assert RealWms(s.data);
    WmsReal(s, y, chs);
    var u := Reached(y, dcs, chs);
    LowestIsLowest(u.data);
    if h.wm.Some? {
      var d :| 0 <= d < |u.data| && u.data[d].wm == h.wm;
    }
  }

  /**
   * What comes in order only adds: as more happens to the store, a group sees the same records
   * and more, and none of those at or before the watermark it saw.
   */
  lemma HeldGrows(y: Layout, dcs: nat, a: seq<Change>, b: seq<Change>, losses: seq<ReplayStore.Loss>, more: seq<ReplayStore.Loss>,
                  level: (nat, nat) -> Option<nat>, after: (nat, nat) -> Option<nat>)
    requires LayoutOk(y, dcs) && forall i :: 0 <= i < |y.dc| ==> Orderly(y, dcs, a + b, i)
    ensures ReplayStore.Grows(HeldOf(y, dcs, a, losses, level), HeldOf(y, dcs, a + b, more, after))
  {
    var s := Empty(|y.dc|, dcs);
    var u := Reached(y, dcs, a);
    var h, k := HeldOf(y, dcs, a, losses, level), HeldOf(y, dcs, a + b, more, after);
    hide AfterAll, Kept, Gone, LowestWm, Orderly;
    AfterAllConcat(s, y, a, b);
    WmsRise(u, y, b);
    if h.wm.Some? {
      LowestRises(u.data, AfterAll(u, y, b).data);
    }
    forall i | 0 <= i < |y.dc|
      ensures ReplayStore.Longer(h.recs[i], k.recs[i], h.wm)
    {
      KeptConcat(s, y, a, b, i);
      AddedPast(y, dcs, a, b, i);
    }
  }

  lemma AddedPast(y: Layout, dcs: nat, a: seq<Change>, b: seq<Change>, i: nat)
    requires LayoutOk(y, dcs) && i < |y.dc| && Orderly(y, dcs, a + b, i)
    ensures
      var u := Reached(y, dcs, a);
      forall e :: e in Kept(u, y, b, i) ==> ReplayStore.Past(e, LowestWm(u.data))
  {
    var s := Empty(|y.dc|, dcs);
    var u := Reached(y, dcs, a);
    assert OnTrack(s, y, BEGIN, i) && BeforeNext(s, y, BEGIN, i);
    hide AfterAll, Kept, LowestWm, OnTrack, Run, AllInOrder, AllOpsOf;
    OpsConcat(s, y, a, b, i);
    var ops, more := AllOpsOf(s, y, a, i), AllOpsOf(u, y, b, i);
    InOrderConcat(BEGIN, y.late, ops, more);
    KeptLater(s, y, BEGIN, a, i);
    RunOnTrack(s, y, BEGIN, a, i);
    KeptLater(u, y, Run(BEGIN, y.late, ops), b, i);
    LowestIsLowest(u.data);
  }
}
