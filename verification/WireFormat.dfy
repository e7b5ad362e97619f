/**
 * One data channel's bytes, as values: the parser's and the writer's state and what each of
 * their operations makes of it. The classes of WireParser and WireWriter do the same step by
 * step on their fields; WireStreams, WireLosses, WireRoundTrip, WireUnwrap and WireBeats prove
 * what follows.
 */
module WireFormat {
  import opened Numbers

  const CRC8_INIT: bv8 := 0xFF
  const CRC8_POLY: bv8 := 0x07
  const RESYNC_STEP_MAX := 16
  const WIRE_BUF_SIZE := 65536

  /** The data channel's block of logical channels, its tag bits and its record width. */
  datatype Config = Config(c: nat, n: nat, first: nat, count: nat, enabled: seq<nat>, t: nat, w: nat) {
    function Nb(): nat {
      (n + 7) / 8
    }

    /** A heartbeat's bytes, its check byte included. */
    function HbLen(): nat {
      w + 1 + Nb() + 1
    }

    /** The shape of a data channel's block. */
    predicate Valid() {
      n == |enabled| < 65536 && first + count <= n && 1 <= w <= 8
    }

    /** What the mapping gives every data channel (CaptureInfo.ConfigOf). */
    predicate Sound() {
      Valid() && Encodes() && Ascending()
    }

    /** The tag names every block channel, and W bytes hold every record. */
    predicate Encodes() {
      count <= Pow2(t) && (2 * c + 1) * Pow2(t) <= Pow256(w)
    }

    predicate Ascending() {
      forall i, j :: 0 <= i < j < |enabled| ==> enabled[i] < enabled[j]
    }
  }

  datatype Span = Span(start: nat, end: nat)

  /**
   * What a stream says. Rec and Beat are reported to the handler; CheckError and GapError are
   * the places where the parser counts a failed check byte or an impossible record.
   */
  datatype Event =
    | Rec(tick: nat, channel: nat, level: nat)
    | Beat(grid: nat, beatTick: nat, unverified: bool, levels: seq<Byte>)
    | CheckError
    | GapError

  /**
   * The bookkeeping of contradictions: losses not yet outdated, the spans still open, how many
   * are open and how many were excused.
   */
  datatype Blame = Blame(losses: seq<Span>, mismatches: seq<Span>, open: nat, excused: nat)

  /** The parser, without its buffered bytes. pos is the stream offset of the next byte. */
  datatype Core = Core(
    pos: nat, hbPos: nat, crc: bv8,
    synced: bool, anchor: bool, trusted: bool,
    haveGrid: bool, startUnverified: bool, firstGrid: nat, grid: nat,
    hbTick: nat, latest: nat, lastGood: nat,
    level: seq<int>, last: seq<nat>, blame: Blame)

  const NO_BLAME := Blame([], [], 0, 0)

  /** The state before the first byte, expecting a heartbeat with grid count grid to 255 later. */
  function StartAt(g: Config, grid: nat, unverified: bool): Core {
    Core(0, 0, CRC8_INIT, false, false, false, false, unverified, grid, 0, 0, 0, 0,
         seq(g.count, _ => -1), seq(g.count, _ => 0), NO_BLAME)
  }

  function Fresh(g: Config): Core {
    StartAt(g, 0, false)
  }

  predicate CoreFits(g: Config, p: Core) {
    |p.level| == g.count && |p.last| == g.count
  }

  // ----- check byte

  function Crc8Bits(crc: bv8, bits: nat): bv8
    decreases bits
  {
    if bits == 0 then crc
    else Crc8Bits(if crc & 0x80 != 0 then (crc << 1) ^ CRC8_POLY else crc << 1, bits - 1)
  }

  function Crc8(crc: bv8, data: seq<Byte>): bv8
    decreases |data|
  {
    if data == [] then crc else Crc8(Crc8Bits(crc ^ (data[0] as bv8), 8), data[1..])
  }

  // ----- levels

  /** Bit i of a bitmask. */
  function Bit(levels: seq<Byte>, i: nat): nat
    requires i / 8 < |levels|
  {
    High(levels[i / 8], i % 8) % 2
  }

  // ----- mismatches and losses

  predicate Overlaps(a: Span, b: Span) {
    a.start <= b.end && a.end >= b.start
  }

  predicate Covered(losses: seq<Span>, m: Span) {
    exists i :: 0 <= i < |losses| && Overlaps(losses[i], m)
  }

  /** One contradiction found in span m: excused at once if a loss overlaps it, else open. */
  function Mismatch(b: Blame, m: Span): Blame {
    if Covered(b.losses, m) then b.(excused := b.excused + 1)
    else b.(mismatches := b.mismatches + [m], open := b.open + 1)
  }

  /** The losses that did not end before tick. */
  function Live(losses: seq<Span>, tick: nat): seq<Span> {
    if losses == [] then []
    else (if losses[0].end >= tick then [losses[0]] else []) + Live(losses[1..], tick)
  }

  /** The mismatches none of losses overlaps. */
  function Unexplained(mismatches: seq<Span>, losses: seq<Span>): seq<Span> {
    if mismatches == [] then []
    else (if Covered(losses, mismatches[0]) then [] else [mismatches[0]]) + Unexplained(mismatches[1..], losses)
  }

  lemma UnexplainedShorter(mismatches: seq<Span>, losses: seq<Span>)
    ensures |Unexplained(mismatches, losses)| <= |mismatches|
  {
  }

  /** A loss report as a tick range; tick is the latest heartbeat's. */
  function AddLoss(b: Blame, tick: nat, loss: Span): Blame
    requires b.open >= |b.mismatches|
  {
    UnexplainedShorter(b.mismatches, Live(b.losses, tick) + [loss]);
    var losses := Live(b.losses, tick) + [loss];
    var kept := Unexplained(b.mismatches, losses);
    Blame(losses, kept, b.open - (|b.mismatches| - |kept|), b.excused + (|b.mismatches| - |kept|))
  }

  /** Whether block channel k contradicts the heartbeat's levels. */
  predicate Contradicts(g: Config, level: seq<int>, levels: seq<Byte>, k: nat)
    requires k < |level|
    requires (g.first + k) / 8 < |levels|
  {
    level[k] >= 0 && level[k] != Bit(levels, g.first + k)
  }

  /** The heartbeat's effect on the mismatches, over the block's first k channels. */
  function Judge(g: Config, b: Blame, level: seq<int>, levels: seq<Byte>, m: Span, k: nat): Blame
    requires |level| == g.count && k <= g.count && g.first + g.count <= g.n && |levels| == g.Nb()
  {
    if k == 0 then b
    else
      var before := Judge(g, b, level, levels, m, k - 1);
      if Contradicts(g, level, levels, k - 1) then Mismatch(before, m) else before
  }

  // ----- parsing

  /** The grid count the 8-bit index stands for, at or after reference. */
  function Unwrap(reference: nat, index: Byte): (grid: nat)
    ensures reference <= grid < reference + 256 && grid % 256 == index
  {
    reference + (index - reference % 256) % 256
  }

  /** The tick of a grid point. */
  function GridTick(g: Config, grid: nat): nat {
    grid * g.c
  }

  /** The block channels' levels in a bitmask. */
  function BlockLevels(g: Config, levels: seq<Byte>): (s: seq<int>)
    requires g.Valid() && |levels| == g.Nb()
    ensures |s| == g.count
    ensures forall k :: 0 <= k < g.count ==> s[k] == Bit(levels, g.first + k)
  {
    seq(g.count, k requires 0 <= k < g.count => Bit(levels, g.first + k))
  }

  predicate OpensUnverified(p: Core) {
    !p.haveGrid && p.startUnverified
  }

  /** Whether a heartbeat is taken: by its check byte, as an anchor, or opening a start. */
  predicate Checks(g: Config, p: Core, hb: seq<Byte>)
    requires |hb| == g.HbLen()
  {
    p.anchor || OpensUnverified(p) || Crc8(p.crc, hb[..|hb| - 1]) as int == hb[|hb| - 1]
  }

  /** A heartbeat that is taken, with its grid count unwrapped. */
  function Accept(g: Config, p: Core, grid: nat, levels: seq<Byte>): Core
    requires g.Valid() && CoreFits(g, p) && |levels| == g.Nb()
  {
    var tick := GridTick(g, grid);
    var blame := if p.trusted then Judge(g, p.blame, p.level, levels, Span(p.hbTick, tick), g.count) else p.blame;
    var good := blame.open + blame.excused == p.blame.open + p.blame.excused;
    p.(crc := CRC8_INIT, haveGrid := true, grid := grid, hbTick := tick,
       level := BlockLevels(g, levels), blame := blame,
       lastGood := if good then tick else p.lastGood,
       trusted := !p.anchor, anchor := false)
  }

  function Heartbeat(g: Config, p: Core, hb: seq<Byte>): (r: (Core, seq<Event>))
    requires g.Valid() && CoreFits(g, p) && |hb| == g.HbLen()
    ensures CoreFits(g, r.0)
  {
    if !Checks(g, p, hb) then
      (p.(crc := CRC8_INIT, trusted := false, synced := false), [CheckError])
    else
      var grid := Unwrap(if p.haveGrid then p.grid else p.firstGrid, hb[g.w]);
      var levels := hb[g.w + 1..|hb| - 1];
      (Accept(g, p, grid, levels),
       [Beat(grid, GridTick(g, grid), p.anchor || OpensUnverified(p), levels)])
  }

  /** A record that is trusted, by its value. */
  function Trusted(g: Config, p: Core, value: nat): (Core, seq<Event>)
    requires g.Valid() && CoreFits(g, p)
  {
    var k := Low(value, g.t);
    var z := High(value, g.t);
    var gap := (z + 1) / 2;
    if k >= g.count || gap > g.c then (p, [GapError])
    else
      var tick := Max(p.last[k], p.hbTick) + gap;
      var level := if z % 2 == 1 then 0 else 1;
      (p.(last := p.last[k := tick], level := p.level[k := level], latest := Max(p.latest, tick)),
       [Rec(tick, g.enabled[g.first + k], level)])
  }

  function Record(g: Config, p: Core, raw: seq<Byte>): (Core, seq<Event>)
    requires g.Valid() && CoreFits(g, p) && |raw| == g.w
  {
    var q := p.(crc := Crc8(p.crc, raw));
    if p.trusted then Trusted(g, q, LeValue(raw)) else (q, [])
  }

  /** Whether a heartbeat with this grid index may follow the last one received. */
  predicate IndexFollows(p: Core, index: Byte) {
    !p.haveGrid || 0 < (index - p.grid % 256) % 256 < RESYNC_STEP_MAX
  }

  /** What the parser does with the bytes in front of it: it needs more, or takes some. */
  datatype Move = Wait | Take(core: Core, used: nat, log: seq<Event>)

  function Next(g: Config, p: Core, v: seq<Byte>): (m: Move)
    requires g.Valid() && CoreFits(g, p)
    ensures m.Take? ==> CoreFits(g, m.core) && m.used <= |v|
    ensures m.Take? && m.used == 0 ==> !p.synced && m.core.synced
    ensures m.Take? ==> m.core.pos == p.pos + m.used
  {
    if !p.synced then
      if |v| < g.HbLen() then Wait
      else if AllZero(v[..g.w]) && IndexFollows(p, v[g.w]) then
        Take(p.(synced := true, anchor := p.haveGrid, crc := CRC8_INIT), 0, [])
      else Take(p.(pos := p.pos + 1), 1, [])
    else if |v| < g.w then Wait
    else if LeValue(v[..g.w]) == 0 then
      if |v| < g.HbLen() then Wait
      else
        var (q, log) := Heartbeat(g, p.(hbPos := p.pos), v[..g.HbLen()]);
        Take(q.(pos := p.pos + g.HbLen()), g.HbLen(), log)
    else
      var (q, log) := Record(g, p, v[..g.w]);
      Take(q.(pos := p.pos + g.w), g.w, log)
  }

  /** The parser after it took all it can of some bytes, what it left, and what it said. */
  datatype Parsed = Parsed(core: Core, rest: seq<Byte>, log: seq<Event>)

  function Drain(g: Config, p: Core, v: seq<Byte>): (r: Parsed)
    requires g.Valid() && CoreFits(g, p)
    ensures CoreFits(g, r.core)
    decreases |v|, if p.synced then 0 else 1
  {
    match Next(g, p, v)
    case Wait => Parsed(p, v, [])
    case Take(q, used, log) =>
      var r := Drain(g, q, v[used..]);
      r.(log := log + r.log)
  }

  /** Bytes were lost: what is buffered goes, nothing is trusted until a heartbeat checks. */
  function Break(p: Core, rest: seq<Byte>): Core {
    p.(pos := p.pos + |rest|, synced := false, trusted := false, crc := CRC8_INIT)
  }

  // ----- writing

  /** The writer, without the bytes written. */
  datatype Writer = Writer(crc: bv8, started: bool, grid: nat, hbTick: nat, last: seq<nat>)

  function FreshWriter(g: Config): Writer {
    Writer(CRC8_INIT, false, 0, 0, seq(g.count, _ => 0))
  }

  datatype Error = Invalid | Range

  datatype Written = Failed(error: Error) | Wrote(writer: Writer, bytes: seq<Byte>)

  predicate OnBlock(g: Config, channel: nat, k: nat)
    requires g.Valid()
  {
    k < g.count && g.enabled[g.first + k] == channel
  }

  /** The block channel from k on carrying channel, count if none does. */
  function BlockIndex(g: Config, channel: nat, k: nat := 0): (r: nat)
    requires g.Valid() && k <= g.count
    ensures k <= r <= g.count
    ensures r < g.count ==> OnBlock(g, channel, r)
    ensures forall j :: k <= j < r ==> !OnBlock(g, channel, j)
    decreases g.count - k
  {
    if k == g.count || OnBlock(g, channel, k) then k else BlockIndex(g, channel, k + 1)
  }

  function WriteRecord(g: Config, wr: Writer, tick: nat, channel: nat, level: nat): (r: Written)
    requires g.Valid() && |wr.last| == g.count
    ensures r.Wrote? ==> |r.writer.last| == g.count
  {
    var k := BlockIndex(g, channel);
    if k == g.count || !wr.started then Failed(Invalid)
    else
      var reference := Max(wr.last[k], wr.hbTick);
      if tick <= reference || tick - reference > g.c then Failed(Range)
      else
        var gap := tick - reference;
        var z := if level != 0 then 2 * gap else 2 * gap - 1;
        var bytes := LeBytes(Pack(z, g.t, k), g.w);
        Wrote(wr.(last := wr.last[k := tick], crc := Crc8(wr.crc, bytes)), bytes)
  }

  /** The levels as sent: bits past channel n - 1 are 0. */
  function Masked(g: Config, levels: seq<Byte>): (s: seq<Byte>)
    requires |levels| == g.Nb()
    ensures |s| == |levels|
  {
    if g.n % 8 == 0 then levels
    else levels[|levels| - 1 := Low(levels[|levels| - 1], g.n % 8)]
  }

  /** A heartbeat's bytes up to its check byte. */
  function HeartbeatBody(g: Config, grid: nat, levels: seq<Byte>): seq<Byte>
    requires |levels| == g.Nb()
  {
    seq(g.w, _ => 0 as Byte) + [(grid % 256) as Byte] + Masked(g, levels)
  }

  function WriteHeartbeat(g: Config, wr: Writer, grid: nat, levels: seq<Byte>): (r: Written)
    requires g.Valid() && |wr.last| == g.count && |levels| == g.Nb()
    ensures r.Wrote? ==> |r.writer.last| == g.count
  {
    if wr.started && grid <= wr.grid then Failed(Invalid)
    else if exists k :: 0 <= k < g.count && wr.last[k] > GridTick(g, grid) then Failed(Range)
    else
      var body := HeartbeatBody(g, grid, levels);
      Wrote(wr.(crc := CRC8_INIT, started := true, grid := grid, hbTick := GridTick(g, grid)),
            body + [Crc8(wr.crc, body) as Byte])
  }
}
