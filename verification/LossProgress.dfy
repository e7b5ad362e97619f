/**
 * The device can always tell of its losses: from every state it can get into, housekeeping, the
 * cleanup and full reads by the host bring each finished loss into a sent report.
 */
module LossProgress {
  import opened Numbers
  import opened LossDevice
  import opened LossReports

  lemma {:induction false} RunConcat(u: Setup, w: World, a: seq<Move>, b: seq<Move>)
    ensures Run(u, w, a + b) == Run(u, Run(u, w, a), b)
    decreases |a|
  {
    hide Next;
    if a == [] {
      assert a + b == b;
    } else {
      assert (a + b)[0] == a[0] && (a + b)[1..] == a[1..] + b;
      RunConcat(u, Next(u, w, a[0]), a[1..], b);
    }
  }

  /** One step that can be taken, and what follows it. */
  lemma RunOne(u: Setup, w: World, m: Move, ms: seq<Move>)
    requires Inv(u, w) && Enabled(w, m)
    ensures Fits(u) && Sized(u, w.d) && Inv(u, After(u, w, m)) && Run(u, w, [m] + ms) == Run(u, After(u, w, m), ms)
  {
    InvSized(u, w);
    MoveInv(u, w, m);
    hide Inv, After, Enabled, Sized;
    assert ([m] + ms)[1..] == ms;
  }

  // ----- housekeeping comes round

  function Rank(at: Step): nat {
    match at
    case Other => 0 case Release => 1 case Load => 2 case Crc => 3 case Copy => 4 case Decide => 5
    case Amount => 6 case Semaphore => 7 case Acquired => 8 case Poll => 9
  }

  /** Housekeeping's next step. */
  function NextOf(at: Step): Move {
    match at
    case Other => Turn case Release => ReleaseSpi case Load => LoadReport case Crc => CrcSome(true) case Copy => CopySome
    case Decide => DecideReport case Amount => SeeAmount case Semaphore => SeeSemaphore case Acquired => SeeAcquired
    case Poll => PollSpi
  }

  function ToCopy(u: Setup, w: World): nat {
    if w.d.keep.at == Copy && w.d.keep.i < u.n then u.n - w.d.keep.i else 0
  }

  predicate Owned(w: World) {
    (w.d.keep.at == Semaphore || w.d.keep.at == Acquired) && w.d.spi.holder == Cpu
  }

  /** This round gives the buffers back, with all that waits in the report. */
  predicate Settles(w: World) {
    match w.d.keep.at
    case Other => w.s.held == w.s.waiting && w.d.spi.holder == Host
    case Poll => false
    case Acquired => w.d.spi.holder == Cpu && w.d.clean.mode == Scan
    case Semaphore => w.d.spi.holder == Cpu && w.d.clean.mode == Scan
    case Amount => w.d.clean.mode == Scan
    case Decide => w.d.clean.mode == Scan
    case _ => w.s.held == w.s.waiting
  }

  /** This round counts the loaded report as sent. */
  predicate Sends(w: World) {
    w.d.spi.all && (w.d.keep.at == Amount || (Owned(w) && w.d.keep.loaded && w.d.spi.rx))
  }

  /** What housekeeping alone does not change, or only moves on. */
  predicate Further(w: World, v: World) {
    && v.d.clean == w.d.clean && v.s.losses == w.s.losses && v.s.waiting == w.s.waiting
    && Sent(v.s) >= Sent(w.s) && v.s.held >= w.s.held
    && (Settles(w) ==> Settles(v)) && (Sends(w) ==> (Sends(v) && v.s.held == w.s.held) || Sent(v.s) >= w.s.held)
  }

  lemma FurtherOn(w: World, x: World, v: World)
    requires Further(w, x) && Further(x, v)
    ensures Further(w, v)
  {
  }

  /** What a step of housekeeping is to show. */
  predicate Onward(u: Setup, w: World, v: World) {
    && Further(w, v)
    && (Rank(v.d.keep.at) < Rank(w.d.keep.at) || (v.d.keep.at == w.d.keep.at == Copy && ToCopy(u, v) < ToCopy(u, w)))
  }

  lemma StepOn(u: Setup, w: World)
    requires Inv(u, w) && w.d.keep.at != Other
    ensures Enabled(w, NextOf(w.d.keep.at)) && Fits(u) && Sized(u, w.d)
    ensures Onward(u, w, After(u, w, NextOf(w.d.keep.at)))
  {
    InvSized(u, w);
    StepFacts(u, w);
    hide Inv, PosOf, Copied, Sized, Onward;
    match w.d.keep.at
    case Amount => OnAmount(u, w);
    case Decide => OnDecide(u, w);
    case Copy => OnCopy(u, w);
    case _ => OnOther(u, w);
  }

  lemma StepFacts(u: Setup, w: World)
    requires Inv(u, w)
    ensures w.d.keep.at == Copy ==> w.d.keep.i < u.n == |w.d.shared.lost| && w.s.held == w.s.waiting
    ensures w.d.clean.mode == Scan ==> !w.d.shared.snapBusy
    ensures w.d.shared.valid == (w.s.held < w.s.waiting) && Sent(w.s) <= w.s.held <= w.s.waiting
    ensures (w.d.keep.at == Amount ==> w.d.keep.loaded && w.d.spi.rx) && (w.d.keep.at == Release ==> w.d.spi.holder == Cpu)
    ensures (w.d.keep.at == Decide || w.d.keep.at == Amount) ==> w.d.spi.holder == Cpu
  {
    hide PosOf, Conserved, SlicesOk, Timeline, SentOk, Wrapped;
  }

  lemma OnAmount(u: Setup, w: World)
    requires w.d.keep.at == Amount && Sent(w.s) <= w.s.held
    ensures Onward(u, w, AfterAmount(w))
  {
  }

  lemma OnDecide(u: Setup, w: World)
    requires w.d.keep.at == Decide && (w.d.clean.mode == Scan ==> !w.d.shared.snapBusy)
    requires w.d.shared.valid == (w.s.held < w.s.waiting) && w.s.held <= w.s.waiting
    ensures Onward(u, w, AfterDecide(w))
  {
  }

  lemma OnCopy(u: Setup, w: World)
    requires w.d.keep.at == Copy && w.d.keep.i < u.n == |w.d.shared.lost| == |w.d.keep.buf.lost|
    ensures Onward(u, w, AfterCopy(w))
  {
    hide Copied;
  }

  lemma OnOther(u: Setup, w: World)
    requires Fits(u) && Sized(u, w.d) && w.d.keep.at !in {Other, Amount, Decide, Copy}
    ensures Enabled(w, NextOf(w.d.keep.at)) && Onward(u, w, After(u, w, NextOf(w.d.keep.at)))
  {
    hide AfterDecide, AfterCopy, AfterAmount, AfterSnap, AfterDrop, AfterTransfer, AfterEntry, AfterFlush, AfterFlushEnd;
  }

  /** From any of its steps housekeeping comes back to where it has nothing to do. */
  lemma {:induction false} Round(u: Setup, w: World) returns (ms: seq<Move>)
    requires Inv(u, w)
    ensures var v := Run(u, w, ms); Inv(u, v) && v.d.keep.at == Other && Further(w, v)
    decreases Rank(w.d.keep.at), ToCopy(u, w)
  {
    hide Inv, After, Enabled, Sized, Further, Run;
    if w.d.keep.at == Other {
      ms := [];
      FurtherSelf(u, w);
    } else {
      var m := NextOf(w.d.keep.at);
      StepOn(u, w);
      RunOne(u, w, m, []);
      var v := After(u, w, m);
      var more := Round(u, v);
      RunOne(u, w, m, more);
      ms := [m] + more;
      FurtherOn(w, v, Run(u, v, more));
    }
  }

  lemma FurtherSelf(u: Setup, w: World)
    ensures Run(u, w, []) == w && Further(w, w)
  {
  }

  // ----- the cleanup comes to its end

  function CleanRank(mode: Mode): nat {
    match mode case Scan => 0 case Snap => 1 case FlushEnd => 2 case Flush => 3
  }

  function CleanMove(mode: Mode): Move {
    match mode case Scan => Turn case Snap => SnapSome case FlushEnd => FlushDone case Flush => FlushHalf
  }

  function CleanLeft(u: Setup, c: Clean): nat {
    if c.i < 2 * u.n then 2 * u.n - c.i else 0
  }

  predicate SameKeep(w: World, v: World) {
    v.d.keep == w.d.keep && v.d.spi == w.d.spi && v.s.losses == w.s.losses && v.s.cuts == w.s.cuts && v.s.held == w.s.held
  }

  lemma CleanOn(u: Setup, w: World)
    requires Inv(u, w) && w.d.keep.at == Other && w.d.clean.mode != Scan
    ensures Enabled(w, CleanMove(w.d.clean.mode)) && Fits(u) && Sized(u, w.d)
    ensures
      var v := After(u, w, CleanMove(w.d.clean.mode));
      && SameKeep(w, v)
      && (CleanRank(v.d.clean.mode) < CleanRank(w.d.clean.mode)
          || (v.d.clean.mode == w.d.clean.mode && CleanLeft(u, v.d.clean) < CleanLeft(u, w.d.clean)))
  {
    InvSized(u, w);
    hide PosOf, Copied, Conserved, HandOk, Timeline, SentOk, Wrapped, ReportOk, SpiOk;
    assert !w.d.shared.copyBusy;
    assert w.d.clean.mode == Snap ==> w.d.clean.i < u.n;
  }

  lemma {:induction false} CleanDone(u: Setup, w: World) returns (ms: seq<Move>)
    requires Inv(u, w) && w.d.keep.at == Other
    ensures var v := Run(u, w, ms); Inv(u, v) && v.d.clean.mode == Scan && SameKeep(w, v)
    decreases CleanRank(w.d.clean.mode), CleanLeft(u, w.d.clean)
  {
    hide Inv, After, Enabled, Sized, Run;
    if w.d.clean.mode == Scan {
      ms := [];
      FurtherSelf(u, w);
    } else {
      var m := CleanMove(w.d.clean.mode);
      CleanOn(u, w);
      RunOne(u, w, m, []);
      var more := CleanDone(u, After(u, w, m));
      RunOne(u, w, m, more);
      ms := [m] + more;
    }
  }

  // ----- a read by the host

  /** Nothing to do in housekeeping or cleanup. */
  predicate Idle(w: World) {
    w.d.keep.at == Other && w.d.clean.mode == Scan
  }

  predicate SameTale(w: World, v: World) {
    && v.d.clean == w.d.clean && v.s.losses == w.s.losses && v.s.waiting == w.s.waiting
    && v.s.cuts == w.s.cuts && v.s.held == w.s.held && v.d.keep.loaded == w.d.keep.loaded
  }

  /** The host reads in full, if it can, and the device learns of it. */
  lemma HostReads(u: Setup, w: World) returns (ms: seq<Move>)
    requires Inv(u, w) && Idle(w)
    ensures
      var v := Run(u, w, ms);
      && Inv(u, v) && Idle(v) && SameTale(w, v) && v.d.spi.holder == Cpu && v.d.spi.event
      && (w.d.spi.holder == Host ==> v.d.spi.all && v.d.spi.rx)
  {
    hide Inv, Run;
    var end := HostEnds(true, true);
    FurtherSelf(u, w);
    if w.d.spi.holder == Cpu {
      ms := [HostRefused];
      RunOne(u, w, HostRefused, []);
      FurtherSelf(u, After(u, w, HostRefused));
      assert [HostRefused] + [] == ms;
    } else if w.d.spi.holder == Busy {
      ms := [end];
      RunOne(u, w, end, []);
      FurtherSelf(u, After(u, w, end));
      assert [end] + [] == ms;
    } else {
      ms := [HostStarts, end];
      RunOne(u, w, HostStarts, [end]);
      var x := After(u, w, HostStarts);
      RunOne(u, x, end, []);
      FurtherSelf(u, After(u, x, end));
      assert [HostStarts] + [end] == ms && [end] + [] == [end];
    }
  }

  /** Housekeeping sees that the buffers came back. */
  lemma {:induction false} Sees(u: Setup, w: World) returns (ms: seq<Move>)
    requires Inv(u, w) && Idle(w) && w.d.spi.holder == Cpu && w.d.spi.event
    ensures
      var v := Run(u, w, ms);
      && Inv(u, v) && v.d.keep.at == Acquired && SameTale(w, v)
      && v.d.spi.holder == Cpu && v.d.spi.all == w.d.spi.all && v.d.spi.rx == w.d.spi.rx
    decreases !w.d.keep.requested
  {
    hide Inv, Run;
    RunOne(u, w, Turn, []);
    var x := After(u, w, Turn);
    RunOne(u, x, PollSpi, []);
    var v := After(u, x, PollSpi);
    var more := [];
    FurtherSelf(u, v);
    if v.d.keep.at == Other {
      more := Sees(u, v);
    }
    RunOne(u, x, PollSpi, more);
    RunOne(u, w, Turn, [PollSpi] + more);
    ms := [Turn] + ([PollSpi] + more);
  }

  /** One read: the loaded report is sent if the host had the buffers, and what waits is loaded. */
  lemma Cycle(u: Setup, w: World) returns (ms: seq<Move>)
    requires Inv(u, w) && Idle(w)
    ensures
      var v := Run(u, w, ms);
      && Inv(u, v) && Idle(v) && v.s.losses == w.s.losses && v.s.waiting == w.s.waiting
      && Settles(v) && Sent(v.s) >= Sent(w.s)
      && (w.d.spi.holder == Host && w.d.keep.loaded ==> Sent(v.s) >= w.s.held)
  {
    hide Inv, Run;
    var a := HostReads(u, w);
    var x := Run(u, w, a);
    var b := Sees(u, x);
    var y := Run(u, x, b);
    var c := Round(u, y);
    RunConcat(u, w, a, b);
    RunConcat(u, w, a + b, c);
    ms := a + b + c;
  }

  lemma LoadedIf(u: Setup, w: World)
    requires Inv(u, w) && Idle(w)
    ensures w.d.keep.loaded || Sent(w.s) == w.s.held
    ensures w.s.waiting == |w.s.losses|
  {
  }

  lemma SentCuts(u: Setup, w: World, m: nat) returns (k: nat)
    requires Inv(u, w) && m < Sent(w.s)
    ensures Fits(u) && InSent(u, w.s, m, k)
  {
    k := FindCut(u, w.s, m, |w.s.cuts| - 1);
  }

  /**
   * After any run, whatever steps it stopped between, there are further steps, in which no other
   * loss is finished, that put any loss finished so far into a sent report.
   */
  lemma {:induction false} EveryLossCanBeSent(u: Setup, ms: seq<Move>, m: nat) returns (more: seq<Move>, k: nat)
    requires Fits(u) && m < |Run(u, Begin(u), ms).s.losses|
    ensures Run(u, Begin(u), ms + more).s.losses == Run(u, Begin(u), ms).s.losses
    ensures InSent(u, Run(u, Begin(u), ms + more).s, m, k)
  {
    hide *;
    BeginInv(u);
    RunInv(u, Begin(u), ms);
    RunConcat(u, Begin(u), ms, []);
    var w := Run(u, Begin(u), ms);
    more := AllSent(u, w);
    RunConcat(u, Begin(u), ms, more);
    k := SentCuts(u, Run(u, w, more), m);
  }

  lemma AllSent(u: Setup, w: World) returns (ms: seq<Move>)
    requires Inv(u, w)
    ensures var v := Run(u, w, ms); Inv(u, v) && v.s.losses == w.s.losses && Sent(v.s) >= |v.s.losses|
  {
    hide Inv, Run, Sent, Sends;
    var a := Round(u, w);
    var v := Run(u, w, a);
    var b := CleanDone(u, v);
    var x := Run(u, v, b);
    var c := Cycle(u, x);
    var y := Run(u, x, c);
    LoadedIf(u, x);
    LoadedIf(u, y);
    var d := Cycle(u, y);
    RunConcat(u, w, a, b);
    RunConcat(u, w, a + b, c);
    RunConcat(u, w, a + b + c, d);
    ms := a + b + c + d;
  }
}
