/**
 * The device's loss reports as a step system: the cleanup steps count drops and hand each
 * finished loss over as a snapshot, the housekeeping steps copy it into a report and count it
 * as sent once all of it was clocked out, and the SPI host reads whenever it likes. Any of
 * them can go next. Every finished loss is inside a sent report, the loaded one, the snapshot
 * or the hand-over, and the two copies of the snapshot are never in progress together.
 */
module LossDevice {
  import opened Numbers

  const WRAP: nat := 0x1_0000_0000

  /** Drops the slices can count between flushes. */
  const FLUSH_AT: nat := 128

  /** A position as reported: the grid point at or before it, and the ticks past it. */
  datatype Pos = Pos(grid: nat, off: nat)

  /** Where a tick is, as the device's 32-bit counter has it. */
  function PosOf(c: nat, tick: nat): Pos
    requires c > 0
  {
    Pos(tick % WRAP / c, tick % WRAP % c)
  }

  datatype Report = Report(num: nat, start: Pos, end: Pos, lost: seq<nat>)

  // ----- the state

  /** The cleanup steps, what is not about losses left out. */
  datatype Mode = Scan | Flush | FlushEnd | Snap

  /** The cleanup side: the open loss, the drops since the last flush and the counters. */
  datatype Clean = Clean(mode: Mode, i: nat, snap: bool, open: bool, start: nat, end: nat, adds: nat,
                         slices: seq<nat>, lost: seq<nat>)

  /** The snapshot both sides share. */
  datatype Shared = Shared(valid: bool, snapBusy: bool, copyBusy: bool, start: Pos, end: Pos, lost: seq<nat>)

  /** The housekeeping steps, what is not about reports left out. */
  datatype Step = Other | Poll | Acquired | Semaphore | Amount | Decide | Copy | Crc | Load | Release

  /** The housekeeping side: the report in the transmit buffer, if loaded. */
  datatype Keep = Keep(at: Step, requested: bool, num: nat, loaded: bool, start: Pos, i: nat, buf: Report)

  /** Who may use the SPI buffers; Busy while the host clocks. */
  datatype Holder = Cpu | Host | Busy

  /** The SPI slave: all says the last transaction clocked out the whole buffer, rx that the host sent something. */
  datatype Spi = Spi(holder: Holder, event: bool, all: bool, rx: bool)

  datatype Device = Device(clean: Clean, shared: Shared, keep: Keep, spi: Spi)

  /** A finished loss: its first and latest drop, and all drops counted by its end. */
  datatype Loss = Loss(start: nat, end: nat, total: seq<nat>)

  /**
   * What happened: the finished losses, the drops, and the reports sent; report k holds losses
   * cuts[k] to cuts[k + 1] - 1, the loaded one those up to held, the snapshot those up to
   * waiting. given are the reports the host clocked out.
   */
  datatype Story = Story(losses: seq<Loss>, total: seq<nat>, sent: seq<Report>, cuts: seq<nat>, held: nat, waiting: nat,
                         given: seq<Report>)

  datatype World = World(d: Device, s: Story)

  /** n channels, grid points every c ticks. */
  datatype Setup = Setup(n: nat, c: nat)

  predicate Fits(u: Setup) {
    u.n > 0 && u.c > 0
  }

  function Zeros(n: nat): (z: seq<nat>)
    ensures |z| == n
  {
    seq(n, _ => 0)
  }

  function Begin(u: Setup): World {
    var z := Zeros(u.n);
    var none := Pos(0, 0);
    World(Device(Clean(Scan, 0, false, false, 0, 0, 0, z, z), Shared(false, false, false, none, none, z),
                 Keep(Other, false, 0, false, none, 0, Report(0, none, none, z)), Spi(Host, false, false, false)),
          Story([], z, [], [0], 0, 0, []))
  }

  // ----- cleanup

  /** The drop counters of the changed channels go up. */
  function Counted(s: seq<nat>, chans: set<nat>): (r: seq<nat>)
    ensures |r| == |s|
  {
    seq(|s|, i requires 0 <= i < |s| => if i in chans then s[i] + 1 else s[i])
  }

  /** A sample's changes are dropped at a tick; the first drop opens a loss. */
  function AfterDrop(w: World, tick: nat, chans: set<nat>): World {
    var c := w.d.clean;
    var d := c.(slices := Counted(c.slices, chans), open := true, start := if c.open then c.start else tick, end := tick,
                adds := c.adds + 1);
    var e := if d.adds >= FLUSH_AT then d.(mode := Flush, i := 0, snap := false) else d;
    w.(d := w.d.(clean := e), s := w.s.(total := Counted(w.s.total, chans)))
  }

  /** An entry was written: an open loss is over and is handed on. */
  function AfterEntry(w: World): World {
    var c := w.d.clean;
    w.(d := w.d.(clean := c.(open := false, i := 0, snap := true, mode := Flush)),
       s := w.s.(losses := w.s.losses + [Loss(c.start, c.end, w.s.total)]))
  }

  /** Half a channel's slices go into its counter. */
  function AfterFlush(c: Clean): Clean
    requires c.i / 2 < |c.slices| == |c.lost|
  {
    var ch := c.i / 2;
    var v := if c.i % 2 == 0 then c.slices[ch] % 16 else c.slices[ch] / 16 % 16 * 16;
    c.(lost := c.lost[ch := (c.lost[ch] + v) % WRAP], i := c.i + 1,
       mode := if c.i + 1 == 2 * |c.slices| then FlushEnd else Flush)
  }

  function AfterFlushEnd(c: Clean): Clean {
    c.(slices := Zeros(|c.slices|), adds := 0, i := 0, mode := if c.snap then Snap else Scan)
  }

  /** Up to three more elements of a copied to b, from i on. */
  function Copied(a: seq<nat>, b: seq<nat>, i: nat): seq<nat>
    requires |a| == |b|
  {
    var j := Min(i + 3, |a|);
    if i <= j then b[..i] + a[i..j] + b[j..] else b
  }

  /** The loss is over: its range and the counters go to housekeeping, unless it is copying. */
  function AfterSnap(u: Setup, w: World): World
    requires Fits(u) && |w.d.clean.lost| == |w.d.shared.lost|
  {
    var c, s := w.d.clean, w.d.shared;
    if s.copyBusy then w
    else
      var t := s.(snapBusy := true, lost := Copied(c.lost, s.lost, c.i));
      var j := Min(c.i + 3, |c.lost|);
      if j < |c.lost| then w.(d := w.d.(clean := c.(i := j), shared := t))
      else
        var v := t.(start := if s.valid then s.start else PosOf(u.c, c.start), end := PosOf(u.c, c.end), valid := true,
                    snapBusy := false);
        w.(d := w.d.(clean := c.(i := j, mode := Scan), shared := v), s := w.s.(waiting := |w.s.losses|))
  }

  // ----- housekeeping

  function AtStep(w: World, at: Step): World {
    w.(d := w.d.(keep := w.d.keep.(at := at)))
  }

  /** Asks for the buffers when there is something to report, else looks whether they came back. */
  function AfterPoll(w: World): World {
    var k, p := w.d.keep, w.d.spi;
    if w.d.shared.valid && !k.requested
    then w.(d := w.d.(keep := k.(requested := true, at := Other),
                      spi := if p.holder == Busy then p else p.(holder := Cpu, event := true)))
    else AtStep(w, if p.event then Acquired else Other)
  }

  function AfterAcquired(w: World): World {
    AtStep(w.(d := w.d.(spi := w.d.spi.(event := false))), Semaphore)
  }

  /** Only with the buffers owned; a transaction counts only if the host sent something. */
  function AfterSemaphore(w: World): World {
    if w.d.spi.holder != Cpu then AtStep(w, Other)
    else
      var k := w.d.keep.(requested := false, at := if w.d.keep.loaded && w.d.spi.rx then Amount else Decide);
      w.(d := w.d.(keep := k))
  }

  /** Only a complete transfer moves the report to the sent ones; otherwise it stays loaded. */
  function AfterAmount(w: World): World {
    var k := w.d.keep;
    if w.d.spi.all
    then w.(d := w.d.(keep := k.(num := (k.num + 1) % WRAP, loaded := false, at := Decide)),
            s := w.s.(sent := w.s.sent + [k.buf], cuts := w.s.cuts + [w.s.held]))
    else AtStep(w, Decide)
  }

  /** Claims the snapshot, if there is one; a loaded report keeps where it starts. */
  function AfterDecide(w: World): World {
    var k, s := w.d.keep, w.d.shared;
    if !s.valid || s.snapBusy then AtStep(w, Load)
    else
      var start := if k.loaded then k.start else s.start;
      w.(d := w.d.(shared := s.(copyBusy := true, valid := false),
                   keep := k.(start := start, buf := k.buf.(num := k.num, start := start), i := 0, at := Copy)),
         s := w.s.(held := w.s.waiting))
  }

  function AfterCopy(w: World): World
    requires |w.d.shared.lost| == |w.d.keep.buf.lost|
  {
    var k, s := w.d.keep, w.d.shared;
    var j := Min(k.i + 3, |s.lost|);
    var b := k.buf.(end := if k.i == 0 then s.end else k.buf.end, lost := Copied(s.lost, k.buf.lost, k.i));
    if j == |s.lost|
    then w.(d := w.d.(keep := k.(buf := b, i := j, at := Crc), shared := s.(copyBusy := false)))
    else w.(d := w.d.(keep := k.(buf := b, i := j)))
  }

  /** The check value is in: the report can go out. It takes several steps, which change nothing else. */
  function AfterCrc(w: World, done: bool): World {
    if done then w.(d := w.d.(keep := w.d.keep.(loaded := true, at := Load))) else w
  }

  /** The buffers go back to the host. */
  function AfterRelease(w: World): World {
    AtStep(w.(d := w.d.(spi := w.d.spi.(holder := Host, rx := false))), Other)
  }

  // ----- the host

  /** A transaction ends: how much was clocked out, and whether the host sent something. */
  function AfterTransfer(w: World, all: bool, rx: bool): World {
    w.(d := w.d.(spi := Spi(Cpu, true, all, rx)),
       s := if w.d.keep.loaded && all then w.s.(given := w.s.given + [w.d.keep.buf]) else w.s)
  }

  // ----- one step of any of them

  datatype Move =
    | Drop(tick: nat, chans: set<nat>) | Entry | FlushHalf | FlushDone | SnapSome
    | Turn | PollSpi | SeeAcquired | SeeSemaphore | SeeAmount | DecideReport | CopySome | CrcSome(done: bool) | LoadReport | ReleaseSpi
    | HostStarts | HostEnds(all: bool, rx: bool) | HostRefused

  /** When a step can be the next one. The host sends something with a report it reads in full. */
  predicate Enabled(w: World, m: Move) {
    var c, k, p := w.d.clean, w.d.keep, w.d.spi;
    match m
    case Drop(tick, chans) => c.mode == Scan && (c.open ==> c.end < tick) && (w.s.losses != [] ==> w.s.losses[|w.s.losses| - 1].end < tick)
    case Entry => c.mode == Scan && c.open
    case FlushHalf => c.mode == Flush
    case FlushDone => c.mode == FlushEnd
    case SnapSome => c.mode == Snap
    case Turn => k.at == Other
    case PollSpi => k.at == Poll
    case SeeAcquired => k.at == Acquired
    case SeeSemaphore => k.at == Semaphore
    case SeeAmount => k.at == Amount
    case DecideReport => k.at == Decide
    case CopySome => k.at == Copy
    case CrcSome(done) => k.at == Crc
    case LoadReport => k.at == Load
    case ReleaseSpi => k.at == Release
    case HostStarts => p.holder == Host
    case HostEnds(all, rx) => p.holder == Busy && (k.loaded && all ==> rx)
    case HostRefused => p.holder == Cpu
  }

  predicate Sized(u: Setup, d: Device) {
    && |d.clean.slices| == |d.clean.lost| == |d.shared.lost| == |d.keep.buf.lost| == u.n
    && (d.clean.mode == Flush ==> d.clean.i < 2 * u.n)
  }

  function After(u: Setup, w: World, m: Move): World
    requires Fits(u) && Sized(u, w.d) && Enabled(w, m)
  {
    match m
    case Drop(tick, chans) => AfterDrop(w, tick, chans)
    case Entry => AfterEntry(w)
    case FlushHalf => w.(d := w.d.(clean := AfterFlush(w.d.clean)))
    case FlushDone => w.(d := w.d.(clean := AfterFlushEnd(w.d.clean)))
    case SnapSome => AfterSnap(u, w)
    case Turn => AtStep(w, Poll)
    case PollSpi => AfterPoll(w)
    case SeeAcquired => AfterAcquired(w)
    case SeeSemaphore => AfterSemaphore(w)
    case SeeAmount => AfterAmount(w)
    case DecideReport => AfterDecide(w)
    case CopySome => AfterCopy(w)
    case CrcSome(done) => AfterCrc(w, done)
    case LoadReport => AtStep(w, Release)
    case ReleaseSpi => AfterRelease(w)
    case HostStarts => w.(d := w.d.(spi := w.d.spi.(holder := Busy)))
    case HostEnds(all, rx) => AfterTransfer(w, all, rx)
    case HostRefused => w.(d := w.d.(spi := w.d.spi.(event := true)))
  }
}
