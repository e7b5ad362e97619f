/** Where the end-to-end result of loss reports stops: a loss past 2^32 ticks that the host's range misses. */
module LossLate {
  import opened Numbers
  import opened LossDevice
  import opened LossReports
  import opened LossHost

  /** One channel, a grid point every second tick. */
  const SMALL := Setup(1, 2)

  /** One dropped record, just past 2^32 ticks. */
  const LATE: nat := WRAP + 10

  /** It is counted, handed on, reported and read in full. */
  const DROPS: seq<Move> := [Drop(LATE, {0})]
  const CLOSES: seq<Move> := [Entry, FlushHalf]
  const COUNTS: seq<Move> := [FlushHalf, FlushDone, SnapSome]
  const ASKS: seq<Move> := [Turn, PollSpi, Turn, PollSpi]
  const DECIDES: seq<Move> := [SeeAcquired, SeeSemaphore, DecideReport]
  const FILLS: seq<Move> := [CopySome, CrcSome(true)]
  const GIVES: seq<Move> := [LoadReport, ReleaseSpi]
  const CLOCKS: seq<Move> := [HostStarts, HostEnds(true, true)]
  const SEES: seq<Move> := [Turn, PollSpi, SeeAcquired]
  const READS: seq<Move> := [SeeSemaphore, SeeAmount]
  const LATE_RUN := DROPS + CLOSES + COUNTS + ASKS + DECIDES + FILLS + GIVES + CLOCKS + SEES + READS

  lemma {:induction false} LateDropped()
    ensures
      var w, v := Begin(SMALL), Run(SMALL, Begin(SMALL), DROPS);
      && v.d.clean == Clean(Scan, 0, false, true, LATE, LATE, 1, [1], [0])
      && v.d.shared == w.d.shared && v.d.keep == w.d.keep && v.d.spi == w.d.spi
      && v.s == Story([], [1], [], [0], 0, 0, [])
  {
    var w0 := Begin(SMALL);
    var w1 := Next(SMALL, w0, Drop(LATE, {0}));
    assert Counted(Zeros(1), {0}) == [1] && Zeros(1) == [0];
    RunIs(SMALL, w0, DROPS, [w0, w1]);
  }

  lemma {:induction false} LateClosed(w: World)
    requires Sized(SMALL, w.d) && w.d.clean == Clean(Scan, 0, false, true, LATE, LATE, 1, [1], [0])
    ensures
      var v := Run(SMALL, w, CLOSES);
      && v.d.clean == Clean(Flush, 1, true, false, LATE, LATE, 1, [1], [1])
      && v.d.shared == w.d.shared && v.d.keep == w.d.keep && v.d.spi == w.d.spi
      && v.s == w.s.(losses := w.s.losses + [Loss(LATE, LATE, w.s.total)])
  {
    var ms := CLOSES;
    var w1 := Next(SMALL, w, Entry);
    var w2 := Next(SMALL, w1, FlushHalf);
    assert w1 == AfterEntry(w);
    assert w1.d.clean == Clean(Flush, 0, true, false, LATE, LATE, 1, [1], [0]);
    LateHalf();
    hide AfterFlush;
    RunIs(SMALL, w, ms, [w, w1, w2]);
  }

  lemma {:induction false} LateHalf()
    ensures
      AfterFlush(Clean(Flush, 0, true, false, LATE, LATE, 1, [1], [0])) == Clean(Flush, 1, true, false, LATE, LATE, 1, [1], [1])
  {
    assert [0][0 := 1] == [1];
  }

  lemma {:induction false} LateCounted(w: World)
    requires Sized(SMALL, w.d) && !w.d.shared.valid && !w.d.shared.copyBusy && |w.s.losses| == 1
    requires w.d.clean == Clean(Flush, 1, true, false, LATE, LATE, 1, [1], [1])
    ensures
      var v := Run(SMALL, w, COUNTS);
      && v.d.clean == Clean(Scan, 1, true, false, LATE, LATE, 0, Zeros(1), [1])
      && v.d.shared == Shared(true, false, false, Pos(5, 0), Pos(5, 0), [1])
      && v.d.keep == w.d.keep && v.d.spi == w.d.spi && v.s == w.s.(waiting := 1)
  {
    var ms := COUNTS;
    var w1 := Next(SMALL, w, ms[0]);
    var w2 := Next(SMALL, w1, ms[1]);
    var w3 := Next(SMALL, w2, ms[2]);
    assert w1.d.clean.lost == [1];
    assert w3.d.shared.lost == [1];
    RunIs(SMALL, w, ms, [w, w1, w2, w3]);
  }

  lemma {:induction false} RunIs(u: Setup, w: World, ms: seq<Move>, ws: seq<World>)
    requires |ws| == |ms| + 1 && ws[0] == w && forall k :: 0 <= k < |ms| ==> ws[k + 1] == Next(u, ws[k], ms[k])
    ensures Run(u, w, ms) == ws[|ms|]
    decreases |ms|
  {
    if ms != [] {
      RunIs(u, ws[1], ms[1..], ws[1..]);
    }
  }

  lemma {:induction false} LateAsked(w: World)
    requires Sized(SMALL, w.d) && w.d.keep.at == Other && !w.d.keep.requested
    requires w.d.shared.valid && w.d.spi == Spi(Host, false, false, false)
    ensures
      var v := Run(SMALL, w, ASKS);
      && v.d.clean == w.d.clean && v.d.shared == w.d.shared && v.s == w.s
      && v.d.keep == w.d.keep.(at := Acquired, requested := true) && v.d.spi == Spi(Cpu, true, false, false)
  {
    var ms := ASKS;
    var w1 := Next(SMALL, w, ms[0]);
    var w2 := Next(SMALL, w1, ms[1]);
    var w3 := Next(SMALL, w2, ms[2]);
    var w4 := Next(SMALL, w3, ms[3]);
    RunIs(SMALL, w, ms, [w, w1, w2, w3, w4]);
  }

  lemma {:induction false} LateDecided(w: World)
    requires Sized(SMALL, w.d) && w.d.keep.at == Acquired && !w.d.keep.loaded
    requires w.d.shared.valid && !w.d.shared.snapBusy && w.d.spi == Spi(Cpu, true, false, false)
    ensures
      var k, h := w.d.keep, w.d.shared;
      var v := Run(SMALL, w, DECIDES);
      && v.d.clean == w.d.clean && v.d.shared == h.(copyBusy := true, valid := false) && v.s == w.s.(held := w.s.waiting)
      && v.d.keep == k.(at := Copy, requested := false, start := h.start, i := 0, buf := k.buf.(num := k.num, start := h.start))
      && v.d.spi == Spi(Cpu, false, false, false)
  {
    var ms := DECIDES;
    var w1 := Next(SMALL, w, ms[0]);
    var w2 := Next(SMALL, w1, ms[1]);
    var w3 := Next(SMALL, w2, ms[2]);
    RunIs(SMALL, w, ms, [w, w1, w2, w3]);
  }

  lemma {:induction false} LateFilled(w: World)
    requires Sized(SMALL, w.d) && w.d.keep.at == Copy && w.d.keep.i == 0
    ensures
      var k, h := w.d.keep, w.d.shared;
      var v := Run(SMALL, w, FILLS);
      && v.d.clean == w.d.clean && v.d.shared == h.(copyBusy := false) && v.s == w.s && v.d.spi == w.d.spi
      && v.d.keep == k.(at := Load, loaded := true, i := 1, buf := k.buf.(end := h.end, lost := h.lost))
  {
    var ms := FILLS;
    var w1 := Next(SMALL, w, ms[0]);
    var w2 := Next(SMALL, w1, ms[1]);
    assert w1.d.keep.buf.lost == w.d.shared.lost;
    RunIs(SMALL, w, ms, [w, w1, w2]);
  }

  lemma {:induction false} LateGiven(w: World)
    requires Sized(SMALL, w.d) && w.d.keep.at == Load && w.d.keep.loaded
    ensures
      var v := Run(SMALL, w, GIVES);
      && v.d.clean == w.d.clean && v.d.shared == w.d.shared && v.d.keep == w.d.keep.(at := Other) && v.s == w.s
      && v.d.spi.holder == Host
  {
    var ms := GIVES;
    var w1 := Next(SMALL, w, ms[0]);
    var w2 := Next(SMALL, w1, ms[1]);
    RunIs(SMALL, w, ms, [w, w1, w2]);
  }

  lemma {:induction false} LateClocked(w: World)
    requires Sized(SMALL, w.d) && w.d.keep.at == Other && w.d.keep.loaded && w.d.spi.holder == Host
    ensures
      var v := Run(SMALL, w, CLOCKS);
      && v.d.clean == w.d.clean && v.d.shared == w.d.shared && v.d.keep == w.d.keep
      && v.d.spi == Spi(Cpu, true, true, true) && v.s == w.s.(given := w.s.given + [w.d.keep.buf])
  {
    var ms := CLOCKS;
    var w1 := Next(SMALL, w, ms[0]);
    var w2 := Next(SMALL, w1, ms[1]);
    RunIs(SMALL, w, ms, [w, w1, w2]);
  }

  lemma {:induction false} LateSeen(w: World)
    requires Sized(SMALL, w.d) && w.d.keep.at == Other && w.d.spi == Spi(Cpu, true, true, true) && !w.d.shared.valid
    ensures
      var v := Run(SMALL, w, SEES);
      && v.d.clean == w.d.clean && v.d.shared == w.d.shared && v.d.keep == w.d.keep.(at := Semaphore) && v.s == w.s
      && v.d.spi == Spi(Cpu, false, true, true)
  {
    var ms := SEES;
    var w1 := Next(SMALL, w, ms[0]);
    var w2 := Next(SMALL, w1, ms[1]);
    var w3 := Next(SMALL, w2, ms[2]);
    RunIs(SMALL, w, ms, [w, w1, w2, w3]);
  }

  lemma {:induction false} LateRead(w: World)
    requires Sized(SMALL, w.d) && w.d.keep.at == Semaphore && w.d.keep.loaded && w.d.spi == Spi(Cpu, false, true, true)
    ensures
      var v := Run(SMALL, w, READS);
      v.s == w.s.(sent := w.s.sent + [w.d.keep.buf], cuts := w.s.cuts + [w.s.held])
  {
    var ms := READS;
    var w1 := Next(SMALL, w, ms[0]);
    var w2 := Next(SMALL, w1, ms[1]);
    RunIs(SMALL, w, ms, [w, w1, w2]);
  }

  lemma {:induction false} RunBoth(u: Setup, w: World, a: seq<Move>, b: seq<Move>)
    ensures Run(u, w, a + b) == Run(u, Run(u, w, a), b)
    decreases |a|
  {
    hide Next;
    if a == [] {
      assert a + b == b;
    } else {
      assert (a + b)[0] == a[0] && (a + b)[1..] == a[1..] + b;
      RunBoth(u, Next(u, w, a[0]), a[1..], b);
    }
  }

  lemma {:induction false} LateHanded()
    ensures
      var v := Run(SMALL, Begin(SMALL), DROPS + CLOSES + COUNTS);
      && v.d.clean == Clean(Scan, 1, true, false, LATE, LATE, 0, Zeros(1), [1])
      && v.d.shared == Shared(true, false, false, Pos(5, 0), Pos(5, 0), [1])
      && v.d.keep == Begin(SMALL).d.keep && v.d.spi == Begin(SMALL).d.spi
      && v.s == Story([Loss(LATE, LATE, [1])], [1], [], [0], 0, 1, [])
  {
    LateDropped();
    var w := Run(SMALL, Begin(SMALL), DROPS);
    hide Run, DROPS, CLOSES, COUNTS;
    RunBoth(SMALL, Begin(SMALL), DROPS, CLOSES);
    LateClosed(w);
    RunBoth(SMALL, Begin(SMALL), DROPS + CLOSES, COUNTS);
    LateCounted(Run(SMALL, w, CLOSES));
  }

  lemma {:induction false} LateCopied()
    ensures
      var p := Pos(5, 0);
      var v := Run(SMALL, Begin(SMALL), DROPS + CLOSES + COUNTS + ASKS + DECIDES + FILLS);
      && Sized(SMALL, v.d) && !v.d.shared.valid
      && v.d.keep.at == Load && v.d.keep.loaded && v.d.keep.buf == Report(0, p, p, [1])
      && v.s == Story([Loss(LATE, LATE, [1])], [1], [], [0], 1, 1, [])
  {
    LateHanded();
    var w0, ms := Begin(SMALL), DROPS + CLOSES + COUNTS;
    var w1 := Run(SMALL, w0, ms);
    hide Run, DROPS, CLOSES, COUNTS, ASKS, DECIDES, FILLS;
    RunBoth(SMALL, w0, ms, ASKS);
    LateAsked(w1);
    var w2 := Run(SMALL, w1, ASKS);
    RunBoth(SMALL, w0, ms + ASKS, DECIDES);
    LateDecided(w2);
    RunBoth(SMALL, w0, ms + ASKS + DECIDES, FILLS);
    LateFilled(Run(SMALL, w2, DECIDES));
  }

  lemma {:induction false} LateStory()
    ensures
      var s := Run(SMALL, Begin(SMALL), LATE_RUN).s;
      s.losses == [Loss(LATE, LATE, [1])] && s.sent == [Report(0, Pos(5, 0), Pos(5, 0), [1])] && s.cuts == [0, 1]
  {
    LateCopied();
    var w0, ms := Begin(SMALL), DROPS + CLOSES + COUNTS + ASKS + DECIDES + FILLS;
    hide Run, Begin, DROPS, CLOSES, COUNTS, ASKS, DECIDES, FILLS, GIVES, CLOCKS, SEES, READS;
    var w1 := Run(SMALL, w0, ms);
    RunBoth(SMALL, w0, ms, GIVES);
    LateGiven(w1);
    var w2 := Run(SMALL, w1, GIVES);
    RunBoth(SMALL, w0, ms + GIVES, CLOCKS);
    LateClocked(w2);
    var w3 := Run(SMALL, w2, CLOCKS);
    RunBoth(SMALL, w0, ms + GIVES + CLOCKS, SEES);
    LateSeen(w3);
    RunBoth(SMALL, w0, ms + GIVES + CLOCKS + SEES, READS);
    LateRead(Run(SMALL, w3, SEES));
  }

  /**
   * Without the readable positions the end-to-end result fails: here the one report arrives,
   * with the host right at the loss's grid point, and its range still misses the loss.
   */
  lemma {:induction false} LateLossMissed()
    ensures
      var s, a := Run(SMALL, Begin(SMALL), LATE_RUN).s, [Arrival(0, LATE / 2)];
      && Received(SMALL, s, None, a) && 0 < ToldBy(s, a) && Hit(s, 0, 0)
      && TakeAll(SMALL, Fresh(1), s, a)[0].end < s.losses[0].start && !Covered(s, TakeAll(SMALL, Fresh(1), s, a)[0], 0, 0)
  {
    LateStory();
    hide Run, Begin;
    var s, a := Run(SMALL, Begin(SMALL), LATE_RUN).s, [Arrival(0, LATE / 2)];
    assert s.sent[0].end == Pos(5, 0) && TickOf(LATE / 2, 2, Pos(5, 0)) == 10;
    assert TotalAt(s, 1, 0) == 1;
    assert a[1..] == [];
  }
}
