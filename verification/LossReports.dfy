/**
 * What every step of the device's loss reporting keeps, over all interleavings of cleanup,
 * housekeeping and host.
 */
module LossReports {
  import opened Numbers
  import opened LossDevice

  /** Counters as 32-bit numbers. */
  function Wrapped(t: seq<nat>): (r: seq<nat>)
    ensures |r| == |t|
  {
    seq(|t|, i requires 0 <= i < |t| => t[i] % WRAP)
  }

  /** The report that covers losses a to b - 1, as the k-th sent. */
  function ReportFor(u: Setup, losses: seq<Loss>, a: nat, b: nat, k: nat): Report
    requires Fits(u) && a < b <= |losses|
  {
    Report(k % WRAP, PosOf(u.c, losses[a].start), PosOf(u.c, losses[b - 1].end), Wrapped(losses[b - 1].total))
  }

  // ----- the cleanup side

  /** What the slices still hold of channel ch. */
  function LeftOf(c: Clean, ch: nat): nat
    requires ch < |c.slices|
  {
    match c.mode
    case Flush => if c.i > 2 * ch + 1 then 0 else if c.i == 2 * ch + 1 then c.slices[ch] / 16 % 16 * 16 else c.slices[ch]
    case FlushEnd => 0
    case _ => c.slices[ch]
  }

  /** The counters and what is left of the slices are all drops, modulo 2^32. */
  predicate Conserved(c: Clean, total: seq<nat>) {
    && |c.lost| == |c.slices| == |total|
    && forall ch :: 0 <= ch < |total| ==> (c.lost[ch] + LeftOf(c, ch)) % WRAP == total[ch] % WRAP && c.lost[ch] < WRAP
  }

  predicate SlicesOk(c: Clean) {
    && c.adds <= FLUSH_AT && (c.mode == Scan ==> c.adds < FLUSH_AT)
    && (forall ch :: 0 <= ch < |c.slices| ==> c.slices[ch] <= c.adds)
    && (c.mode == Snap ==> c.snap && c.adds == 0 && forall ch :: 0 <= ch < |c.slices| ==> c.slices[ch] == 0)
    && (c.mode == Flush ==> c.i < 2 * |c.slices|)
  }

  /** A finished loss is on its way to the snapshot. */
  predicate Handing(c: Clean) {
    c.snap && c.mode != Scan
  }

  predicate HandOk(c: Clean, s: Story) {
    if Handing(c)
    then s.losses != [] && s.waiting + 1 == |s.losses| && !c.open && s.losses[s.waiting] == Loss(c.start, c.end, s.total)
    else s.waiting == |s.losses|
  }

  /** Losses come one after the other, and counts only grow. */
  predicate Timeline(n: nat, c: Clean, s: Story) {
    && |s.total| == n
    && (forall k :: 0 <= k < |s.losses| ==> s.losses[k].start <= s.losses[k].end && |s.losses[k].total| == n)
    && (forall j, k :: 0 <= j < k < |s.losses| ==> s.losses[j].end < s.losses[k].start)
    && (forall j, k, i :: 0 <= j <= k < |s.losses| && 0 <= i < n ==> s.losses[j].total[i] <= s.losses[k].total[i])
    && (forall k, i :: 0 <= k < |s.losses| && 0 <= i < n ==> s.losses[k].total[i] <= s.total[i])
    && (c.open ==> c.start <= c.end && (s.losses != [] ==> s.losses[|s.losses| - 1].end < c.start))
  }

  // ----- the snapshot

  predicate SnapshotOk(u: Setup, d: Device, s: Story)
    requires Fits(u)
  {
    var h, c := d.shared, d.clean;
    && !(h.snapBusy && h.copyBusy) && h.copyBusy == (d.keep.at == Copy)
    && |h.lost| == |c.lost| == u.n
    && s.held <= s.waiting <= |s.losses| && h.valid == (s.held < s.waiting)
    && (h.valid ==> h.start == PosOf(u.c, s.losses[s.held].start) && h.end == PosOf(u.c, s.losses[s.waiting - 1].end))
    && (h.valid && !h.snapBusy ==> h.lost == Wrapped(s.losses[s.waiting - 1].total))
    && (h.snapBusy ==> c.mode == Snap && c.i < u.n && h.lost[..c.i] == c.lost[..c.i])
    && (c.mode == Snap && !h.snapBusy ==> c.i == 0)
  }

  // ----- the report

  function Sent(s: Story): nat {
    if s.cuts == [] then 0 else s.cuts[|s.cuts| - 1]
  }

  predicate Filling(k: Keep) {
    k.at == Copy || k.at == Crc
  }

  predicate ReportOk(u: Setup, d: Device, s: Story)
    requires Fits(u)
  {
    var k, h := d.keep, Sent(s);
    && k.num == |s.sent| % WRAP && |k.buf.lost| == u.n
    && h <= s.held <= |s.losses| && (s.held > h) == (k.loaded || Filling(k))
    && (s.held > h ==> k.start == PosOf(u.c, s.losses[h].start))
    && (s.held > h && k.at != Copy ==> k.buf == ReportFor(u, s.losses, h, s.held, |s.sent|))
    && (k.at == Copy ==> CopyOk(u, d, s))
  }

  /** The copy: what is copied so far, of a snapshot that stands still. */
  predicate CopyOk(u: Setup, d: Device, s: Story)
    requires Fits(u)
  {
    var k, h := d.keep, d.shared;
    && 0 < s.held == s.waiting <= |s.losses| && k.i < u.n && |k.buf.lost| == |h.lost| == u.n
    && k.buf.num == k.num && k.buf.start == k.start
    && h.end == PosOf(u.c, s.losses[s.held - 1].end) && h.lost == Wrapped(s.losses[s.held - 1].total)
    && (k.i > 0 ==> k.buf.end == h.end) && k.buf.lost[..k.i] == h.lost[..k.i]
  }

  predicate SentOk(u: Setup, s: Story)
    requires Fits(u)
  {
    && |s.cuts| == |s.sent| + 1 && s.cuts[0] == 0
    && (forall k :: 0 <= k < |s.cuts| ==> s.cuts[k] <= |s.losses|)
    && forall k :: 0 <= k < |s.sent| ==> s.cuts[k] < s.cuts[k + 1] && s.sent[k] == ReportFor(u, s.losses, s.cuts[k], s.cuts[k + 1], k)
  }

  // ----- the SPI

  /** The steps that use the buffers. */
  predicate Owning(at: Step) {
    at == Amount || at == Decide || at == Copy || at == Crc || at == Load || at == Release
  }

  /** A report was clocked out and is not counted yet. */
  predicate Uncounted(d: Device) {
    d.spi.holder == Cpu && d.spi.rx && d.spi.all && d.keep.loaded && (!Owning(d.keep.at) || d.keep.at == Amount)
  }

  predicate SpiOk(d: Device, s: Story) {
    && (Owning(d.keep.at) ==> d.spi.holder == Cpu) && (d.spi.holder != Cpu ==> !d.spi.rx)
    && (d.keep.at == Amount ==> d.keep.loaded && d.spi.rx)
    && s.given == if Uncounted(d) then s.sent + [d.keep.buf] else s.sent
  }

  predicate Inv(u: Setup, w: World) {
    && Fits(u) && |w.d.clean.slices| == u.n
    && Conserved(w.d.clean, w.s.total) && SlicesOk(w.d.clean) && HandOk(w.d.clean, w.s) && Timeline(u.n, w.d.clean, w.s)
    && SnapshotOk(u, w.d, w.s) && ReportOk(u, w.d, w.s) && SentOk(u, w.s) && SpiOk(w.d, w.s)
  }

  lemma {:induction false} BeginInv(u: Setup)
    requires Fits(u)
    ensures Inv(u, Begin(u))
  {
    var w := Begin(u);
    assert Conserved(w.d.clean, w.s.total) && SlicesOk(w.d.clean) && HandOk(w.d.clean, w.s) && Timeline(u.n, w.d.clean, w.s);
    assert SnapshotOk(u, w.d, w.s);
    assert ReportOk(u, w.d, w.s);
    assert SentOk(u, w.s) && SpiOk(w.d, w.s);
  }

  lemma {:induction false} InvSized(u: Setup, w: World)
    requires Inv(u, w)
    ensures Fits(u) && Sized(u, w.d)
  {
  }

  lemma {:induction false} MakeInv(u: Setup, w: World)
    requires Fits(u) && |w.d.clean.slices| == u.n
    requires Conserved(w.d.clean, w.s.total) && SlicesOk(w.d.clean) && HandOk(w.d.clean, w.s) && Timeline(u.n, w.d.clean, w.s)
    requires SnapshotOk(u, w.d, w.s) && ReportOk(u, w.d, w.s) && SentOk(u, w.s) && SpiOk(w.d, w.s)
    ensures Inv(u, w)
  {
  }

  /** What housekeeping leaves alone. */
  lemma {:induction false} CleanKept(u: Setup, w: World, v: World)
    requires Inv(u, w) && v.d.clean == w.d.clean
    requires v.s.losses == w.s.losses && v.s.total == w.s.total && v.s.waiting == w.s.waiting
    ensures Fits(u) && |v.d.clean.slices| == u.n
    ensures Conserved(v.d.clean, v.s.total) && SlicesOk(v.d.clean) && HandOk(v.d.clean, v.s) && Timeline(u.n, v.d.clean, v.s)
  {
    hide Conserved, SlicesOk, SnapshotOk, ReportOk, SentOk, SpiOk;
  }

  // ----- cleanup steps

  lemma {:induction false} ModPlus(a: nat, b: nat, x: nat)
    requires a % WRAP == b % WRAP
    ensures (a + x) % WRAP == (b + x) % WRAP && (a % WRAP + x) % WRAP == (a + x) % WRAP
  {
  }

  /** The counts of dropped and kept channels still add up. */
  lemma {:induction false} DropConserves(c: Clean, total: seq<nat>, chans: set<nat>, d: Clean)
    requires Conserved(c, total) && c.mode == Scan && d.slices == Counted(c.slices, chans) && d.lost == c.lost
    requires d.mode == Scan || (d.mode == Flush && d.i == 0)
    ensures Conserved(d, Counted(total, chans))
  {
    forall ch | 0 <= ch < |total|
      ensures (d.lost[ch] + LeftOf(d, ch)) % WRAP == Counted(total, chans)[ch] % WRAP
    {
      ModPlus(c.lost[ch] + LeftOf(c, ch), total[ch], 1);
    }
  }

  lemma {:induction false} DropTimeline(n: nat, w: World, tick: nat, chans: set<nat>)
    requires Timeline(n, w.d.clean, w.s) && Enabled(w, Drop(tick, chans))
    ensures Timeline(n, AfterDrop(w, tick, chans).d.clean, AfterDrop(w, tick, chans).s)
  {
  }

  lemma {:induction false} DropInv(u: Setup, w: World, tick: nat, chans: set<nat>)
    requires Inv(u, w) && Enabled(w, Drop(tick, chans))
    ensures Inv(u, AfterDrop(w, tick, chans))
  {
    var v := AfterDrop(w, tick, chans);
    DropConserves(w.d.clean, w.s.total, chans, v.d.clean);
    DropTimeline(u.n, w, tick, chans);
    MoreLosses(u, w.d, w.s, v.s);
    SameReport(u, w.d, v.d, v.s);
    DropRest(u, w, tick, chans);
    hide *;
    MakeInv(u, v);
  }

  lemma {:induction false} DropRest(u: Setup, w: World, tick: nat, chans: set<nat>)
    requires Inv(u, w) && Enabled(w, Drop(tick, chans))
    ensures
      var v := AfterDrop(w, tick, chans);
      && Fits(u) && |v.d.clean.slices| == u.n
      && SlicesOk(v.d.clean) && HandOk(v.d.clean, v.s) && SnapshotOk(u, v.d, v.s) && SpiOk(v.d, v.s)
  {
    hide PosOf, SentOk, ReportOk, Conserved, Timeline, Wrapped;
  }

  /** More finished losses leave what was reported of the others. */
  lemma {:induction false} MoreLosses(u: Setup, d: Device, s: Story, t: Story)
    requires Fits(u) && ReportOk(u, d, s) && SentOk(u, s) && s.held <= s.waiting <= |s.losses|
    requires |s.losses| <= |t.losses| && t.losses[..|s.losses|] == s.losses
    requires t.sent == s.sent && t.cuts == s.cuts && t.held == s.held && t.waiting == s.waiting
    ensures ReportOk(u, d, t) && SentOk(u, t)
  {
    hide PosOf, Wrapped;
    assert forall k :: 0 <= k < |s.losses| ==> t.losses[k] == s.losses[k];
  }

  lemma {:induction false} EntryTimeline(n: nat, c: Clean, s: Story, d: Clean, t: Story)
    requires Timeline(n, c, s) && c.open && !d.open && t.total == s.total
    requires t.losses == s.losses + [Loss(c.start, c.end, s.total)]
    ensures Timeline(n, d, t)
  {
    forall j, k | 0 <= j < k < |t.losses|
      ensures t.losses[j].end < t.losses[k].start
    {
      if k == |s.losses| && j < |s.losses| - 1 {
        assert s.losses[j].end < s.losses[|s.losses| - 1].start;
      }
    }
  }

  lemma {:induction false} EntryInv(u: Setup, w: World)
    requires Inv(u, w) && Enabled(w, Entry)
    ensures Inv(u, AfterEntry(w))
  {
    var v := AfterEntry(w);
    EntryTimeline(u.n, w.d.clean, w.s, v.d.clean, v.s);
    MoreLosses(u, w.d, w.s, v.s);
    hide PosOf, Timeline, SentOk, ReportFor, Wrapped, CopyOk;
    EntryClean(u, w);
    SameReport(u, w.d, v.d, v.s);
  }

  lemma {:induction false} EntryClean(u: Setup, w: World)
    requires Inv(u, w) && Enabled(w, Entry)
    ensures
      var v := AfterEntry(w);
      && Conserved(v.d.clean, v.s.total) && SlicesOk(v.d.clean) && HandOk(v.d.clean, v.s) && SnapshotOk(u, v.d, v.s) && SpiOk(v.d, v.s)
  {
    hide PosOf, Timeline, SentOk, ReportFor, Wrapped, ReportOk;
  }

  lemma {:induction false} SameReport(u: Setup, d: Device, e: Device, s: Story)
    requires Fits(u) && ReportOk(u, d, s) && e.keep == d.keep && e.shared == d.shared
    ensures ReportOk(u, e, s)
  {
    hide PosOf, ReportFor, Wrapped;
  }

  lemma {:induction false} Nibbles(s: nat)
    requires s < 256
    ensures s % 16 + s / 16 % 16 * 16 == s
  {
  }

  /** What goes into the counter leaves the slices. */
  lemma {:induction false} FlushMoves(c: Clean, ch: nat)
    requires c.mode == Flush && c.i < 2 * |c.slices| && |c.slices| == |c.lost| && ch < |c.slices| && c.slices[ch] < 256
    ensures
      var v := if c.i % 2 == 0 then c.slices[c.i / 2] % 16 else c.slices[c.i / 2] / 16 % 16 * 16;
      LeftOf(AfterFlush(c), ch) + (if ch == c.i / 2 then v else 0) == LeftOf(c, ch)
  {
    Nibbles(c.slices[ch]);
  }

  /** Half a channel's slices move into its counter. */
  lemma {:induction false} FlushConserves(c: Clean, total: seq<nat>)
    requires Conserved(c, total) && SlicesOk(c) && c.mode == Flush
    ensures Conserved(AfterFlush(c), total)
  {
    var d := AfterFlush(c);
    var at := c.i / 2;
    var v := if c.i % 2 == 0 then c.slices[at] % 16 else c.slices[at] / 16 % 16 * 16;
    forall ch | 0 <= ch < |total|
      ensures (d.lost[ch] + LeftOf(d, ch)) % WRAP == total[ch] % WRAP && d.lost[ch] < WRAP
    {
      assert c.slices[ch] <= FLUSH_AT;
      FlushMoves(c, ch);
      ModPlus(c.lost[at] + v, c.lost[at] + v, LeftOf(d, ch));
    }
  }

  lemma {:induction false} FlushInv(u: Setup, w: World)
    requires Inv(u, w) && w.d.clean.mode == Flush
    ensures Inv(u, w.(d := w.d.(clean := AfterFlush(w.d.clean))))
  {
    FlushConserves(w.d.clean, w.s.total);
    hide PosOf, Timeline, SentOk, SpiOk, Conserved;
    hide ReportFor;
    TimelineSame(u.n, w.d.clean, AfterFlush(w.d.clean), w.s);
  }

  lemma {:induction false} TimelineSame(n: nat, c: Clean, d: Clean, s: Story)
    requires Timeline(n, c, s) && d.open == c.open && d.start == c.start && d.end == c.end
    ensures Timeline(n, d, s)
  {
  }

  lemma {:induction false} FlushEndConserves(c: Clean, total: seq<nat>)
    requires Conserved(c, total) && c.mode == FlushEnd
    ensures Conserved(AfterFlushEnd(c), total)
  {
    var d := AfterFlushEnd(c);
    forall ch | 0 <= ch < |total|
      ensures (d.lost[ch] + LeftOf(d, ch)) % WRAP == total[ch] % WRAP
    {
      assert LeftOf(c, ch) == 0 && LeftOf(d, ch) == 0;
    }
  }

  lemma {:induction false} FlushEndInv(u: Setup, w: World)
    requires Inv(u, w) && w.d.clean.mode == FlushEnd
    ensures Inv(u, w.(d := w.d.(clean := AfterFlushEnd(w.d.clean))))
  {
    FlushEndConserves(w.d.clean, w.s.total);
    TimelineSame(u.n, w.d.clean, AfterFlushEnd(w.d.clean), w.s);
    hide PosOf, Timeline, SentOk, ReportFor, Conserved, Wrapped;
  }

  lemma {:induction false} CopiedIs(a: seq<nat>, b: seq<nat>, i: nat)
    requires |a| == |b| && i <= |a| && b[..i] == a[..i]
    ensures
      var j := Min(i + 3, |a|);
      |Copied(a, b, i)| == |a| && Copied(a, b, i)[..j] == a[..j] && (j == |a| ==> Copied(a, b, i) == a)
  {
    var j := Min(i + 3, |a|);
    assert a[..i] + a[i..j] == a[..j];
    assert a[..j] + b[j..] == if j == |a| then a else a[..j] + b[j..];
  }

  /** With the slices flushed the counters are the drops. */
  lemma {:induction false} LostIsTotal(c: Clean, total: seq<nat>)
    requires Conserved(c, total) && SlicesOk(c) && c.mode == Snap
    ensures c.lost == Wrapped(total)
  {
    forall ch | 0 <= ch < |total|
      ensures c.lost[ch] == total[ch] % WRAP
    {
      assert LeftOf(c, ch) == 0 && c.lost[ch] % WRAP == c.lost[ch];
    }
  }

  /** Part of the counters is copied, or all are and the snapshot is whole. */
  lemma {:induction false} SnapClean(u: Setup, w: World)
    requires Inv(u, w) && w.d.clean.mode == Snap && !w.d.shared.copyBusy
    ensures
      var v := AfterSnap(u, w);
      && Conserved(v.d.clean, v.s.total) && SlicesOk(v.d.clean) && HandOk(v.d.clean, v.s) && Timeline(u.n, v.d.clean, v.s)
      && |v.d.clean.slices| == u.n
  {
    hide PosOf, Timeline, SentOk, SpiOk, ReportFor, ReportOk, Copied;
    TimelineSame(u.n, w.d.clean, AfterSnap(u, w).d.clean, w.s);
    SameTimeline(u.n, AfterSnap(u, w).d.clean, w.s, AfterSnap(u, w).s);
  }

  lemma {:induction false} SameTimeline(n: nat, c: Clean, s: Story, t: Story)
    requires Timeline(n, c, s) && t.losses == s.losses && t.total == s.total
    ensures Timeline(n, c, t)
  {
  }

  lemma {:induction false} SnapShared(u: Setup, w: World)
    requires Inv(u, w) && w.d.clean.mode == Snap && !w.d.shared.copyBusy
    ensures SnapshotOk(u, AfterSnap(u, w).d, AfterSnap(u, w).s)
  {
    CopiedIs(w.d.clean.lost, w.d.shared.lost, w.d.clean.i);
    LostIsTotal(w.d.clean, w.s.total);
    hide PosOf, Timeline, SentOk, SpiOk, ReportFor, ReportOk, Copied, Conserved, SlicesOk, Wrapped;
  }

  lemma {:induction false} SnapRest(u: Setup, w: World)
    requires Inv(u, w) && w.d.clean.mode == Snap && !w.d.shared.copyBusy
    ensures var v := AfterSnap(u, w); ReportOk(u, v.d, v.s) && SentOk(u, v.s) && SpiOk(v.d, v.s)
  {
    hide PosOf, Timeline, ReportFor, Copied, Conserved, SlicesOk, Wrapped;
  }

  lemma {:induction false} SnapInv(u: Setup, w: World)
    requires Inv(u, w) && w.d.clean.mode == Snap
    ensures Inv(u, AfterSnap(u, w))
  {
    if !w.d.shared.copyBusy {
      SnapClean(u, w);
      SnapShared(u, w);
      SnapRest(u, w);
      hide AfterSnap, Conserved, SlicesOk, HandOk, Timeline, SnapshotOk, ReportOk, SentOk, SpiOk;
    }
  }

  // ----- housekeeping and the host

  /** Steps that only move on, or pass the buffers. */
  lemma {:induction false} KeepInv(u: Setup, w: World, v: World)
    requires Inv(u, w) && v.s == w.s && v.d.clean == w.d.clean && v.d.shared == w.d.shared
    requires v.d.keep == w.d.keep.(at := v.d.keep.at, requested := v.d.keep.requested)
    requires (v.d.keep.at == w.d.keep.at || (!Filling(w.d.keep) && !Filling(v.d.keep))) && SpiOk(v.d, v.s)
    ensures Inv(u, v)
  {
    hide PosOf, Timeline, ReportFor, Conserved, SlicesOk, Wrapped, SentOk, SpiOk, HandOk;
  }

  lemma {:induction false} PollInv(u: Setup, w: World)
    requires Inv(u, w) && w.d.keep.at == Poll
    ensures Inv(u, AfterPoll(w))
  {
    hide PosOf, Timeline, ReportFor, Conserved, SlicesOk, Wrapped, SentOk, HandOk, SnapshotOk, ReportOk;
    KeepInv(u, w, AfterPoll(w));
  }

  lemma {:induction false} PassInv(u: Setup, w: World, m: Move)
    requires Inv(u, w) && Enabled(w, m) && Sized(u, w.d)
    requires m == Turn || m == SeeAcquired || m == SeeSemaphore || m == LoadReport || m == ReleaseSpi || m == HostStarts || m == HostRefused
    ensures Inv(u, After(u, w, m))
  {
    hide PosOf, Timeline, ReportFor, Conserved, SlicesOk, Wrapped, SentOk, HandOk, SnapshotOk, ReportOk;
    KeepInv(u, w, After(u, w, m));
  }

  lemma {:induction false} TransferInv(u: Setup, w: World, all: bool, rx: bool)
    requires Inv(u, w) && Enabled(w, HostEnds(all, rx))
    ensures Inv(u, AfterTransfer(w, all, rx))
  {
    hide PosOf, ReportFor, Conserved, SlicesOk, Wrapped, SentOk, Timeline;
    SameTimeline(u.n, w.d.clean, w.s, AfterTransfer(w, all, rx).s);
    SameSent(u, w.s, AfterTransfer(w, all, rx).s);
  }

  lemma {:induction false} SameSent(u: Setup, s: Story, t: Story)
    requires Fits(u) && SentOk(u, s) && t.losses == s.losses && t.sent == s.sent && t.cuts == s.cuts
    ensures SentOk(u, t)
  {
  }

  /** A report clocked out in full is counted, once. */
  lemma {:induction false} AmountInv(u: Setup, w: World)
    requires Inv(u, w) && w.d.keep.at == Amount
    ensures Inv(u, AfterAmount(w))
  {
    var v := AfterAmount(w);
    CleanKept(u, w, v);
    if w.d.spi.all {
      SentMore(u, w);
      AmountReport(u, w);
      hide *;
      MakeInv(u, v);
    } else {
      hide PosOf, ReportFor, Conserved, SlicesOk, Wrapped, SentOk, Timeline, HandOk, SnapshotOk, ReportOk;
      KeepInv(u, w, v);
    }
  }

  lemma {:induction false} SentMore(u: Setup, w: World)
    requires Inv(u, w) && w.d.keep.at == Amount && w.d.spi.all
    ensures SentOk(u, AfterAmount(w).s)
  {
    var s, t := w.s, AfterAmount(w).s;
    forall k | 0 <= k < |t.sent|
      ensures t.cuts[k] < t.cuts[k + 1] && t.sent[k] == ReportFor(u, t.losses, t.cuts[k], t.cuts[k + 1], k)
    {
      if k < |s.sent| {
        assert s.cuts[k] < s.cuts[k + 1];
      }
    }
    hide ReportFor, PosOf, Timeline, Conserved, SlicesOk;
  }

  lemma {:induction false} AmountReport(u: Setup, w: World)
    requires Inv(u, w) && w.d.keep.at == Amount && w.d.spi.all
    ensures var v := AfterAmount(w); ReportOk(u, v.d, v.s) && SpiOk(v.d, v.s) && SnapshotOk(u, v.d, v.s)
  {
    ModPlus(|w.s.sent|, |w.s.sent|, 1);
    hide PosOf, ReportFor, Conserved, SlicesOk, Wrapped, Timeline;
  }

  lemma {:induction false} DecideInv(u: Setup, w: World)
    requires Inv(u, w) && w.d.keep.at == Decide
    ensures Inv(u, AfterDecide(w))
  {
    var v := AfterDecide(w);
    CleanKept(u, w, v);
    SameSent(u, w.s, v.s);
    if !w.d.shared.valid || w.d.shared.snapBusy {
      hide PosOf, ReportFor, Conserved, SlicesOk, Wrapped, SentOk, Timeline, HandOk, SnapshotOk, ReportOk;
      KeepInv(u, w, v);
    } else {
      DecideReportOk(u, w);
      DecideRest(u, w);
      hide *;
      MakeInv(u, v);
    }
  }

  /** The report takes all that waits; its start stays, if it had one. */
  lemma {:induction false} DecideReportOk(u: Setup, w: World)
    requires Inv(u, w) && w.d.keep.at == Decide && w.d.shared.valid && !w.d.shared.snapBusy
    ensures ReportOk(u, AfterDecide(w).d, AfterDecide(w).s)
  {
    hide PosOf, ReportFor, Conserved, SlicesOk, Wrapped, SentOk, Timeline, HandOk;
  }

  lemma {:induction false} DecideRest(u: Setup, w: World)
    requires Inv(u, w) && w.d.keep.at == Decide && w.d.shared.valid && !w.d.shared.snapBusy
    ensures SnapshotOk(u, AfterDecide(w).d, AfterDecide(w).s) && SpiOk(AfterDecide(w).d, AfterDecide(w).s)
  {
    hide PosOf, ReportFor, Conserved, SlicesOk, Wrapped, SentOk, Timeline, HandOk;
  }

  lemma {:induction false} CopyInv(u: Setup, w: World)
    requires Inv(u, w) && w.d.keep.at == Copy && Sized(u, w.d)
    ensures Inv(u, AfterCopy(w))
  {
    var v := AfterCopy(w);
    CopiedIs(w.d.shared.lost, w.d.keep.buf.lost, w.d.keep.i);
    hide PosOf, Conserved, SlicesOk, Wrapped, SentOk, Timeline, Copied;
  }

  lemma {:induction false} CrcInv(u: Setup, w: World, done: bool)
    requires Inv(u, w) && w.d.keep.at == Crc
    ensures Inv(u, AfterCrc(w, done))
  {
    hide PosOf, ReportFor, Conserved, SlicesOk, Wrapped, SentOk, Timeline;
  }

  /** Every step of every side keeps the invariant. */
  lemma {:induction false} MoveInv(u: Setup, w: World, m: Move)
    requires Inv(u, w) && Enabled(w, m)
    ensures Sized(u, w.d) && Inv(u, After(u, w, m))
  {
    InvSized(u, w);
    hide Inv, AfterDrop, AfterEntry, AfterFlush, AfterFlushEnd, AfterSnap, AfterAmount, AfterDecide, AfterCopy, AfterCrc, AfterTransfer, AfterPoll;
    match m
    case Drop(tick, chans) => DropInv(u, w, tick, chans);
    case Entry => EntryInv(u, w);
    case FlushHalf => FlushInv(u, w);
    case FlushDone => FlushEndInv(u, w);
    case SnapSome => SnapInv(u, w);
    case PollSpi => PollInv(u, w);
    case SeeAmount => AmountInv(u, w);
    case DecideReport => DecideInv(u, w);
    case CopySome => CopyInv(u, w);
    case CrcSome(done) => CrcInv(u, w, done);
    case HostEnds(all, rx) => TransferInv(u, w, all, rx);
    case _ => PassInv(u, w, m);
  }

  // ----- whole runs

  /** The next state; a step that cannot be taken changes nothing. */
  function Next(u: Setup, w: World, m: Move): World {
    if Fits(u) && Sized(u, w.d) && Enabled(w, m) then After(u, w, m) else w
  }

  function Run(u: Setup, w: World, ms: seq<Move>): World
    decreases |ms|
  {
    if ms == [] then w else Run(u, Next(u, w, ms[0]), ms[1..])
  }

  lemma {:induction false} RunInv(u: Setup, w: World, ms: seq<Move>)
    requires Inv(u, w)
    ensures Inv(u, Run(u, w, ms))
    decreases |ms|
  {
    hide Inv, After, Enabled, Sized;
    if ms != [] {
      if Fits(u) && Sized(u, w.d) && Enabled(w, ms[0]) {
        MoveInv(u, w, ms[0]);
      }
      RunInv(u, Next(u, w, ms[0]), ms[1..]);
    }
  }

  /** Loss m is in report k, sent. */
  predicate InSent(u: Setup, s: Story, m: nat, k: nat)
    requires Fits(u)
  {
    && k < |s.sent| && k + 1 < |s.cuts| && s.cuts[k] <= m < s.cuts[k + 1] <= |s.losses|
    && s.sent[k] == ReportFor(u, s.losses, s.cuts[k], s.cuts[k + 1], k)
  }

  /**
   * Loss m is in the report that is loaded, or being filled: its buffer is the report of the
   * losses held, or while it is copied, its start and what is still to copy are.
   */
  predicate InLoaded(u: Setup, d: Device, s: Story, m: nat)
    requires Fits(u)
  {
    var k, h := d.keep, d.shared;
    && Sent(s) <= m < s.held <= |s.losses| && (k.loaded || Filling(k))
    && var r := ReportFor(u, s.losses, Sent(s), s.held, |s.sent|);
    && (k.at != Copy ==> k.buf == r)
    && (k.at == Copy ==>
          && k.buf.num == r.num && k.buf.start == r.start && h.end == r.end && h.lost == r.lost
          && |k.buf.lost| == |r.lost| && k.i <= |r.lost| && k.buf.lost[..k.i] == r.lost[..k.i] && (k.i > 0 ==> k.buf.end == r.end))
  }

  /** Loss m is in the snapshot: its range is that of the losses waiting, and so are its counters. */
  predicate InSnapshot(u: Setup, d: Device, s: Story, m: nat)
    requires Fits(u)
  {
    var h := d.shared;
    && s.held <= m < s.waiting <= |s.losses| && h.valid
    && h.start == PosOf(u.c, s.losses[s.held].start) && h.end == PosOf(u.c, s.losses[s.waiting - 1].end)
    && (if h.snapBusy then Handing(d.clean) && Conserved(d.clean, s.total) else h.lost == Wrapped(s.losses[s.waiting - 1].total))
  }

  /** Loss m is the one cleanup hands over: its range, and with the slices its counts. */
  predicate InHand(d: Device, s: Story, m: nat) {
    && m + 1 == |s.losses| && Handing(d.clean)
    && s.losses[m] == Loss(d.clean.start, d.clean.end, s.total) && Conserved(d.clean, s.losses[m].total)
  }

  lemma {:induction false} FindCut(u: Setup, s: Story, m: nat, n: nat) returns (k: nat)
    requires Fits(u) && SentOk(u, s) && n < |s.cuts| && m < s.cuts[n]
    ensures InSent(u, s, m, k)
  {
    if s.cuts[n - 1] <= m {
      k := n - 1;
    } else {
      k := FindCut(u, s, m, n - 1);
    }
  }

  lemma {:induction false} Placed(u: Setup, w: World, m: nat)
    requires Inv(u, w) && Sent(w.s) <= m < |w.s.losses|
    ensures Fits(u)
    ensures InLoaded(u, w.d, w.s, m) || InSnapshot(u, w.d, w.s, m) || InHand(w.d, w.s, m)
  {
    hide Timeline, SpiOk, PosOf, SentOk, Sent, Wrapped, Conserved, CopyOk;
    if m < w.s.held {
      CopyGives(u, w, m);
    }
  }

  lemma {:induction false} CopyGives(u: Setup, w: World, m: nat)
    requires Inv(u, w) && Sent(w.s) <= m < w.s.held
    ensures InLoaded(u, w.d, w.s, m)
  {
    hide SlicesOk, Timeline, SpiOk, PosOf, SentOk, Conserved, HandOk, SnapshotOk, Sent, Wrapped;
  }

  /**
   * No finished loss escapes: over every interleaving of drops, cleanup, housekeeping and
   * complete or partial reads, each is inside a sent report, the loaded one, the snapshot or
   * the hand-over, with the range and the counters that tell of it.
   */
  lemma {:induction false} NoLossEscapes(u: Setup, ms: seq<Move>, m: nat)
    requires Fits(u) && m < |Run(u, Begin(u), ms).s.losses|
    ensures
      var w := Run(u, Begin(u), ms);
      (exists k :: InSent(u, w.s, m, k)) || InLoaded(u, w.d, w.s, m) || InSnapshot(u, w.d, w.s, m) || InHand(w.d, w.s, m)
  {
    var w := Run(u, Begin(u), ms);
    BeginInv(u);
    RunInv(u, Begin(u), ms);
    hide Run, Conserved, SlicesOk, Timeline, SpiOk, ReportFor, PosOf, CopyOk, InLoaded, InSnapshot, InHand;
    if m < Sent(w.s) {
      var k := FindCut(u, w.s, m, |w.s.cuts| - 1);
    } else {
      Placed(u, w, m);
    }
  }

  /**
   * The two copies of the snapshot are never in progress together, and the reports counted as
   * sent are those clocked out in full, each once, but for one just read.
   */
  lemma {:induction false} NeverTogether(u: Setup, ms: seq<Move>)
    requires Fits(u)
    ensures
      var w := Run(u, Begin(u), ms);
      && !(w.d.shared.snapBusy && w.d.shared.copyBusy)
      && (w.s.given == w.s.sent || w.s.given == w.s.sent + [w.d.keep.buf])
  {
    BeginInv(u);
    RunInv(u, Begin(u), ms);
    hide Run, Conserved, SlicesOk, Timeline, ReportFor, PosOf, CopyOk, SentOk, ReportOk;
  }
}
