/**
 * The parser undoes the writer: what a writer accepts comes out of a parser exactly as it
 * went in, from the stream's start or from any heartbeat of it.
 */
module WireRoundTrip {
  import opened Numbers
  import opened WireFormat
  import opened WireStreams

  /** A call of the writer. */
  datatype Op = PutRecord(tick: nat, channel: nat, level: nat) | PutHeartbeat(grid: nat, levels: seq<Byte>)

  predicate OpFits(g: Config, op: Op) {
    op.PutHeartbeat? ==> |op.levels| == g.Nb()
  }

  predicate OpsFit(g: Config, ops: seq<Op>) {
    forall i :: 0 <= i < |ops| ==> OpFits(g, ops[i])
  }

  function WriteOp(g: Config, wr: Writer, op: Op): (r: Written)
    requires g.Valid() && |wr.last| == g.count && OpFits(g, op)
    ensures r.Wrote? ==> |r.writer.last| == g.count
  {
    match op
    case PutRecord(tick, channel, level) => WriteRecord(g, wr, tick, channel, level)
    case PutHeartbeat(grid, levels) => WriteHeartbeat(g, wr, grid, levels)
  }

  /** The bytes of a sequence of calls, if the writer accepts them all. */
  function WriteAll(g: Config, wr: Writer, ops: seq<Op>): (r: Written)
    requires g.Valid() && |wr.last| == g.count && OpsFit(g, ops)
    ensures r.Wrote? ==> |r.writer.last| == g.count
    decreases |ops|
  {
    if ops == [] then Wrote(wr, [])
    else match WriteOp(g, wr, ops[0])
      case Failed(e) => Failed(e)
      case Wrote(next, bytes) =>
        match WriteAll(g, next, ops[1..])
        case Failed(e) => Failed(e)
        case Wrote(last, more) => Wrote(last, bytes + more)
  }

  /** What a parser should say of a call. */
  function Report(g: Config, op: Op): Event
    requires OpFits(g, op)
  {
    match op
    case PutRecord(tick, channel, level) => Rec(tick, channel, if level != 0 then 1 else 0)
    case PutHeartbeat(grid, levels) => Beat(grid, GridTick(g, grid), false, Masked(g, levels))
  }

  function Reports(g: Config, ops: seq<Op>): seq<Event>
    requires OpsFit(g, ops)
  {
    if ops == [] then [] else [Report(g, ops[0])] + Reports(g, ops[1..])
  }

  /** Every heartbeat comes fewer than 256 grid points after the one before it. */
  predicate Under256(grid: nat, ops: seq<Op>)
    decreases |ops|
  {
    if ops == [] then true
    else if ops[0].PutHeartbeat? then grid <= ops[0].grid < grid + 256 && Under256(ops[0].grid, ops[1..])
    else Under256(grid, ops[1..])
  }

  /** The bitmasks of the heartbeats give the levels the records gave, where known. */
  predicate Follows(g: Config, level: seq<int>, ops: seq<Op>)
    requires g.Valid() && |level| == g.count && OpsFit(g, ops)
    decreases |ops|
  {
    if ops == [] then true
    else match ops[0]
      case PutRecord(tick, channel, l) =>
        var k := BlockIndex(g, channel);
        Follows(g, if k < g.count then level[k := if l != 0 then 1 else 0] else level, ops[1..])
      case PutHeartbeat(grid, levels) =>
        && (forall k :: 0 <= k < g.count ==> !Contradicts(g, level, Masked(g, levels), k))
        && Follows(g, BlockLevels(g, Masked(g, levels)), ops[1..])
  }

  // ----- one call

  /** The reference a gap counts from. */
  predicate SameReferences(g: Config, a: seq<nat>, b: seq<nat>, hbTick: nat) {
    && |a| == |b| == g.count
    && forall k :: 0 <= k < g.count ==> Max(a[k], hbTick) == Max(b[k], hbTick)
  }

  /** The parser has taken exactly what the writer wrote. */
  predicate InStep(g: Config, wr: Writer, p: Core) {
    && CoreFits(g, p) && |wr.last| == g.count
    && wr.started && p.synced && p.trusted && !p.anchor && p.haveGrid
    && p.grid == wr.grid && p.hbTick == wr.hbTick == GridTick(g, wr.grid)
    && p.crc == wr.crc
    && SameReferences(g, wr.last, p.last, wr.hbTick)
  }

  /** W bytes hold every record that can be written, and none of them is the zero marker. */
  lemma RecordEncodes(g: Config, gap: nat, level: nat, k: nat)
    requires g.Sound() && 1 <= gap <= g.c && k < g.count
    ensures
      var z := if level != 0 then 2 * gap else 2 * gap - 1;
      && 0 < Pack(z, g.t, k) < Pow256(g.w)
      && LeValue(LeBytes(Pack(z, g.t, k), g.w)) == Pack(z, g.t, k)
  {
    var z := if level != 0 then 2 * gap else 2 * gap - 1;
    var p := Pow2(g.t);
    MulMonotone(1, z, p);
    MulMonotone(z, 2 * g.c, p);
    assert (2 * g.c + 1) * p == 2 * g.c * p + p;
    LeRoundTrip(Pack(z, g.t, k), g.w);
  }

  lemma RecordReads(g: Config, wr: Writer, p: Core, op: Op)
    requires g.Sound() && InStep(g, wr, p) && op.PutRecord? && WriteOp(g, wr, op).Wrote?
    ensures
      var w := WriteOp(g, wr, op);
      var (q, log) := Record(g, p, w.bytes);
      && LeValue(w.bytes) != 0 && |w.bytes| == g.w
      && log == [Report(g, op)]
      && InStep(g, w.writer, q)
      && q.level == p.level[BlockIndex(g, op.channel) := if op.level != 0 then 1 else 0]
      && q.blame == p.blame
  {
    hide Crc8, Pow2, Pow256, Low, High, Pack, LeBytes, LeValue, BlockIndex;
    var k := BlockIndex(g, op.channel);
    var reference := Max(wr.last[k], wr.hbTick);
    var gap := op.tick - reference;
    var z := if op.level != 0 then 2 * gap else 2 * gap - 1;
    RecordEncodes(g, gap, op.level, k);
    PackInverse(z, g.t, k);
    assert Max(p.last[k], p.hbTick) == reference;
    assert (z + 1) / 2 == gap;
    var w := WriteOp(g, wr, op);
    var (q, log) := Record(g, p, w.bytes);
    assert q.last == p.last[k := op.tick];
    assert w.writer.last == wr.last[k := op.tick];
  }

  lemma RecordParses(g: Config, wr: Writer, p: Core, op: Op, rest: seq<Byte>)
    requires g.Sound() && InStep(g, wr, p) && op.PutRecord? && WriteOp(g, wr, op).Wrote?
    ensures
      var w := WriteOp(g, wr, op);
      var m := Next(g, p, w.bytes + rest);
      && m.Take? && m.used == |w.bytes| && m.log == [Report(g, op)]
      && InStep(g, w.writer, m.core)
      && m.core.level == p.level[BlockIndex(g, op.channel) := if op.level != 0 then 1 else 0]
      && m.core.blame == p.blame
  {
    RecordReads(g, wr, p, op);
    hide Record, WriteOp, Heartbeat, LeValue, Report, BlockIndex;
    var bytes := WriteOp(g, wr, op).bytes;
    assert (bytes + rest)[..g.w] == bytes;
  }

  lemma ZeroMarker(w: nat, tail: seq<Byte>)
    ensures LeValue((seq(w, _ => 0 as Byte) + tail)[..w]) == 0 && AllZero((seq(w, _ => 0 as Byte) + tail)[..w])
  {
    var s := (seq(w, _ => 0 as Byte) + tail)[..w];
    assert AllZero(s);
    LeValueZero(s);
  }

  /** Without contradictions a heartbeat changes no counter. */
  lemma {:induction false} JudgeNothing(g: Config, b: Blame, level: seq<int>, levels: seq<Byte>, m: Span, k: nat)
    requires |level| == g.count && k <= g.count && g.first + g.count <= g.n && |levels| == g.Nb()
    requires forall j :: 0 <= j < k ==> !Contradicts(g, level, levels, j)
    ensures Judge(g, b, level, levels, m, k) == b
  {
    if k > 0 {
      JudgeNothing(g, b, level, levels, m, k - 1);
    }
  }

  /** The reference an unwrapped grid index counts from. */
  function GridBase(p: Core): nat {
    if p.haveGrid then p.grid else p.firstGrid
  }

  lemma HeartbeatReads(g: Config, wr: Writer, p: Core, grid: nat, levels: seq<Byte>)
    requires g.Valid() && CoreFits(g, p) && |wr.last| == g.count && |levels| == g.Nb()
    requires p.synced && !p.anchor && WriteHeartbeat(g, wr, grid, levels).Wrote?
    requires p.crc == wr.crc || OpensUnverified(p)
    requires GridBase(p) <= grid < GridBase(p) + 256
    requires forall k :: 0 <= k < g.count ==> p.last[k] <= GridTick(g, grid)
    ensures
      var w := WriteHeartbeat(g, wr, grid, levels);
      && |w.bytes| == g.HbLen()
      && w.bytes[..g.w] == seq(g.w, _ => 0 as Byte)
      && var (q, log) := Heartbeat(g, p, w.bytes);
      && log == [Beat(grid, GridTick(g, grid), OpensUnverified(p), Masked(g, levels))]
      && InStep(g, w.writer, q)
      && q.level == BlockLevels(g, Masked(g, levels))
      && ((forall k :: 0 <= k < g.count ==> !Contradicts(g, p.level, Masked(g, levels), k)) ==> q.blame == p.blame)
  {
    hide Crc8, Judge, Masked, Record, GridTick;
    var body := HeartbeatBody(g, grid, levels);
    var hb := WriteHeartbeat(g, wr, grid, levels).bytes;
    assert hb[..|hb| - 1] == body;
    assert hb[g.w + 1..|hb| - 1] == Masked(g, levels);
    assert Checks(g, p, hb);
    assert Unwrap(GridBase(p), hb[g.w]) == grid;
    if forall k :: 0 <= k < g.count ==> !Contradicts(g, p.level, Masked(g, levels), k) {
      JudgeNothing(g, p.blame, p.level, Masked(g, levels), Span(p.hbTick, GridTick(g, grid)), g.count);
    }
  }

  /** A heartbeat as written, read where the parser is at its first byte. */
  lemma HeartbeatParses(g: Config, wr: Writer, p: Core, op: Op, rest: seq<Byte>)
    requires g.Valid() && CoreFits(g, p) && |wr.last| == g.count && op.PutHeartbeat? && OpFits(g, op)
    requires p.synced && !p.anchor && WriteOp(g, wr, op).Wrote?
    requires p.crc == wr.crc || OpensUnverified(p)
    requires GridBase(p) <= op.grid < GridBase(p) + 256
    requires forall k :: 0 <= k < g.count ==> p.last[k] <= GridTick(g, op.grid)
    ensures
      var w := WriteOp(g, wr, op);
      var m := Next(g, p, w.bytes + rest);
      && m.Take? && m.used == |w.bytes|
      && m.log == [Report(g, op).(unverified := OpensUnverified(p))]
      && InStep(g, w.writer, m.core)
      && m.core.level == BlockLevels(g, Masked(g, op.levels))
      && ((forall k :: 0 <= k < g.count ==> !Contradicts(g, p.level, Masked(g, op.levels), k)) ==> m.core.blame == p.blame)
  {
    HeartbeatReads(g, wr, p.(hbPos := p.pos), op.grid, op.levels);
    hide Heartbeat, WriteHeartbeat, Record, Masked, GridTick, LeValue;
    var bytes := WriteOp(g, wr, op).bytes;
    var v := bytes + rest;
    assert v[..g.HbLen()] == bytes;
    assert v[..g.w] == seq(g.w, _ => 0 as Byte);
    ZeroMarker(g.w, []);
    assert (seq(g.w, _ => 0 as Byte) + [])[..g.w] == seq(g.w, _ => 0 as Byte);
  }

  // ----- whole streams

  lemma InStepBeats(g: Config, wr: Writer, p: Core, op: Op)
    requires g.Valid() && InStep(g, wr, p) && op.PutHeartbeat? && OpFits(g, op) && WriteOp(g, wr, op).Wrote?
    ensures forall k :: 0 <= k < g.count ==> p.last[k] <= GridTick(g, op.grid)
  {
    MulMonotone(wr.grid, op.grid, g.c);
    forall k | 0 <= k < g.count
      ensures p.last[k] <= GridTick(g, op.grid)
    {
      assert Max(wr.last[k], wr.hbTick) == Max(p.last[k], wr.hbTick);
      assert wr.last[k] <= GridTick(g, op.grid);
    }
  }

  lemma CallParses(g: Config, wr: Writer, p: Core, ops: seq<Op>, rest: seq<Byte>)
    requires g.Sound() && OpsFit(g, ops) && InStep(g, wr, p) && ops != []
    requires WriteOp(g, wr, ops[0]).Wrote? && Under256(wr.grid, ops)
    ensures
      var w := WriteOp(g, wr, ops[0]);
      var m := Next(g, p, w.bytes + rest);
      && m.Take? && m.used == |w.bytes| && m.log == [Report(g, ops[0])]
      && InStep(g, w.writer, m.core) && Under256(w.writer.grid, ops[1..])
      && (Follows(g, p.level, ops) ==> m.core.blame == p.blame && Follows(g, m.core.level, ops[1..]))
  {
    hide Next;
    assert OpFits(g, ops[0]);
    if ops[0].PutRecord? {
      RecordParses(g, wr, p, ops[0], rest);
    } else {
      InStepBeats(g, wr, p, ops[0]);
      HeartbeatParses(g, wr, p, ops[0], rest);
    }
  }

  /** A parser in step with a writer reports exactly what the writer is given from there. */
  lemma {:induction false} WrittenParses(g: Config, wr: Writer, p: Core, ops: seq<Op>)
    requires g.Sound() && OpsFit(g, ops) && InStep(g, wr, p)
    requires WriteAll(g, wr, ops).Wrote? && Under256(wr.grid, ops)
    ensures
      var w := WriteAll(g, wr, ops);
      var r := Drain(g, p, w.bytes);
      && r.rest == [] && r.log == Reports(g, ops)
      && InStep(g, w.writer, r.core)
      && (Follows(g, p.level, ops) ==> r.core.blame == p.blame)
    decreases |ops|
  {
    hide Next, WriteOp, Report;
    if ops == [] {
      InStepWaits(g, wr, p);
    } else {
      var w := WriteOp(g, wr, ops[0]);
      var more := WriteAll(g, w.writer, ops[1..]);
      CallParses(g, wr, p, ops, more.bytes);
      var m := Next(g, p, w.bytes + more.bytes);
      assert (w.bytes + more.bytes)[m.used..] == more.bytes;
      WrittenParses(g, w.writer, m.core, ops[1..]);
    }
  }

  lemma InStepWaits(g: Config, wr: Writer, p: Core)
    requires g.Valid() && InStep(g, wr, p)
    ensures Drain(g, p, []) == Parsed(p, [], [])
  {
  }

  /** The opening heartbeat, at a parser that has seen nothing: found, then taken. */
  lemma OpeningParses(g: Config, wr: Writer, p: Core, op: Op, rest: seq<Byte>)
    requires g.Valid() && |wr.last| == g.count && op.PutHeartbeat? && OpFits(g, op) && WriteOp(g, wr, op).Wrote?
    requires CoreFits(g, p) && !p.synced && !p.haveGrid && !p.anchor
    requires p.startUnverified || wr.crc == CRC8_INIT
    requires p.firstGrid <= op.grid < p.firstGrid + 256
    requires forall k :: 0 <= k < g.count ==> p.last[k] == 0
    ensures
      var w := WriteOp(g, wr, op);
      var m := Next(g, p, w.bytes + rest);
      && m.Take? && m.used == 0 && m.log == []
      && var n := Next(g, m.core, w.bytes + rest);
      && n.Take? && n.used == |w.bytes|
      && n.log == [Report(g, op).(unverified := p.startUnverified)]
      && InStep(g, w.writer, n.core)
      && n.core.level == BlockLevels(g, Masked(g, op.levels))
      && ((forall k :: 0 <= k < g.count ==> !Contradicts(g, p.level, Masked(g, op.levels), k)) ==> n.core.blame == p.blame)
  {
    var q := p.(synced := true, anchor := false, crc := CRC8_INIT);
    HeartbeatParses(g, wr, q, op, rest);
    hide Crc8, Heartbeat, Masked;
    var v := WriteOp(g, wr, op).bytes + rest;
    assert v == seq(g.w, _ => 0 as Byte) + v[g.w..];
    ZeroMarker(g.w, v[g.w..]);
  }

  /** A parser starting at a heartbeat reports everything from it on. */
  lemma OpenedStreamParses(g: Config, wr: Writer, p: Core, ops: seq<Op>)
    requires g.Sound() && |wr.last| == g.count && OpsFit(g, ops) && ops != [] && ops[0].PutHeartbeat?
    requires WriteAll(g, wr, ops).Wrote?
    requires CoreFits(g, p) && !p.synced && !p.haveGrid && !p.anchor
    requires p.startUnverified || wr.crc == CRC8_INIT
    requires Under256(p.firstGrid, ops)
    requires forall k :: 0 <= k < g.count ==> p.last[k] == 0
    ensures
      var w := WriteAll(g, wr, ops);
      var r := Drain(g, p, w.bytes);
      && r.rest == [] && InStep(g, w.writer, r.core)
      && r.log == [Report(g, ops[0]).(unverified := p.startUnverified)] + Reports(g, ops[1..])
      && (Follows(g, p.level, ops) ==> r.core.blame == p.blame)
  {
    assert OpFits(g, ops[0]);
    var w := WriteOp(g, wr, ops[0]);
    var more := WriteAll(g, w.writer, ops[1..]);
    OpeningParses(g, wr, p, ops[0], more.bytes);
    hide Next, WriteOp, Report, Masked;
    var v := w.bytes + more.bytes;
    var m := Next(g, p, v);
    assert v[0..] == v;
    var n := Next(g, m.core, v);
    assert v[n.used..] == more.bytes;
    WrittenParses(g, w.writer, n.core, ops[1..]);
    assert Drain(g, p, v).log == [] + (n.log + Drain(g, n.core, more.bytes).log);
  }

  predicate FirstIsBeat(ops: seq<Op>) {
    ops != [] ==> ops[0].PutHeartbeat?
  }

  /** A writer takes nothing before its first heartbeat. */
  lemma WritesBeatFirst(g: Config, ops: seq<Op>)
    requires g.Valid() && OpsFit(g, ops) && WriteAll(g, FreshWriter(g), ops).Wrote?
    ensures FirstIsBeat(ops)
  {
  }

  /**
   * Round trip: whatever call sequence the writer accepts, its heartbeats under 256 grid
   * points apart, a fresh parser fed the bytes in any cutting reports exactly those records
   * and heartbeats in order, with no check, gap or resync error and nothing left over, and
   * no mismatch if the bitmasks follow the records.
   */
  lemma RoundTrip(g: Config, ops: seq<Op>, chunks: seq<seq<Byte>>)
    requires g.Sound() && OpsFit(g, ops) && Under256(0, ops)
    requires WriteAll(g, FreshWriter(g), ops).Wrote?
    requires Joined(chunks) == WriteAll(g, FreshWriter(g), ops).bytes
    ensures
      var r := FeedAll(g, Fresh(g), [], chunks);
      && r.log == Reports(g, ops) && r.rest == []
      && (Follows(g, seq(g.count, _ => -1), ops) ==> r.core.blame == NO_BLAME)
  {
    var p := Fresh(g);
    ChunkIndependence(g, p, [], chunks);
    assert [] + Joined(chunks) == Joined(chunks);
    if ops != [] {
      WritesBeatFirst(g, ops);
      OpenedStreamParses(g, FreshWriter(g), p, ops);
    }
  }

  // ----- seeking

  lemma {:induction false} WriteConcat(g: Config, wr: Writer, a: seq<Op>, b: seq<Op>)
    requires g.Valid() && |wr.last| == g.count && OpsFit(g, a) && OpsFit(g, b)
    requires OpsFit(g, a + b) && WriteAll(g, wr, a + b).Wrote?
    ensures
      && WriteAll(g, wr, a).Wrote?
      && var first := WriteAll(g, wr, a);
      && WriteAll(g, first.writer, b).Wrote?
      && WriteAll(g, wr, a + b).bytes == first.bytes + WriteAll(g, first.writer, b).bytes
      && WriteAll(g, wr, a + b).writer == WriteAll(g, first.writer, b).writer
    decreases |a|
  {
    hide WriteOp;
    if a == [] {
      assert a + b == b;
    } else {
      assert (a + b)[1..] == a[1..] + b;
      WriteConcat(g, WriteOp(g, wr, a[0]).writer, a[1..], b);
    }
  }

  lemma {:induction false} ReportsConcat(g: Config, a: seq<Op>, b: seq<Op>)
    requires OpsFit(g, a) && OpsFit(g, b) && OpsFit(g, a + b)
    ensures Reports(g, a + b) == Reports(g, a) + Reports(g, b)
  {
    hide Report;
    if a == [] {
      assert a + b == b;
    } else {
      assert (a + b)[1..] == a[1..] + b;
      ReportsConcat(g, a[1..], b);
    }
  }

  lemma {:induction false} ReportsLength(g: Config, ops: seq<Op>)
    requires OpsFit(g, ops)
    ensures |Reports(g, ops)| == |ops|
  {
    if ops != [] {
      ReportsLength(g, ops[1..]);
    }
  }

  lemma {:induction false} Under256Tail(grid: nat, a: seq<Op>, b: seq<Op>)
    requires Under256(grid, a + b)
    requires b != [] && b[0].PutHeartbeat?
    ensures Under256(b[0].grid, b)
    decreases |a|
  {
    if a == [] {
      assert a + b == b;
    } else {
      assert (a + b)[1..] == a[1..] + b;
      Under256Tail(if a[0].PutHeartbeat? then a[0].grid else grid, a[1..], b);
    }
  }

  /**
   * Seek equals suffix: a parser set to start at heartbeat head of a written stream (its
   * grid count, its check byte not checked) and fed the stream from that heartbeat's first
   * byte reports exactly what the parse of the whole stream reports from there, except that
   * this heartbeat is flagged unverified.
   */
  lemma SeekIsSuffix(g: Config, before: seq<Op>, after: seq<Op>, chunks: seq<seq<Byte>>)
    requires g.Sound() && OpsFit(g, before) && OpsFit(g, after) && after != [] && after[0].PutHeartbeat?
    requires WriteAll(g, FreshWriter(g), before + after).Wrote? && Under256(0, before + after)
    requires WriteAll(g, FreshWriter(g), before).Wrote?
    requires WriteAll(g, FreshWriter(g), before).bytes + Joined(chunks) == WriteAll(g, FreshWriter(g), before + after).bytes
    ensures
      var whole := Drain(g, Fresh(g), WriteAll(g, FreshWriter(g), before + after).bytes);
      var sought := FeedAll(g, StartAt(g, after[0].grid, true), [], chunks);
      && sought.rest == [] && |sought.log| == |after| && |whole.log| == |before| + |after|
      && sought.log[1..] == whole.log[|before| + 1..]
      && whole.log[|before|] == Report(g, after[0])
      && sought.log[0] == Report(g, after[0]).(unverified := true)
  {
    hide Next, WriteOp, Report, Masked, Drain, Stuck, WriteAll, Reports, Under256, FeedAll;
    var p := StartAt(g, after[0].grid, true);
    var all := before + after;
    WriteConcat(g, FreshWriter(g), before, after);
    var mid := WriteAll(g, FreshWriter(g), before).writer;
    var bytes := WriteAll(g, mid, after).bytes;
    SameTail(WriteAll(g, FreshWriter(g), before).bytes, Joined(chunks), bytes);
    StartIsStuck(g, after[0].grid, true);
    ChunkIndependence(g, p, [], chunks);
    assert [] + Joined(chunks) == bytes;
    Under256Tail(0, before, after);
    OpenedStreamParses(g, mid, p, after);
    WholeParses(g, all);
    ReportsConcat(g, before, after);
    ReportsLength(g, before);
    ReportsLength(g, after);
    ReportsSplit(g, after);
  }

  lemma SameTail(head: seq<Byte>, a: seq<Byte>, b: seq<Byte>)
    requires head + a == head + b
    ensures a == b
  {
    assert (head + a)[|head|..] == a;
    assert (head + b)[|head|..] == b;
  }

  lemma {:induction false} ReportsSplit(g: Config, ops: seq<Op>)
    requires OpsFit(g, ops) && ops != []
    ensures OpsFit(g, ops[1..]) && OpFits(g, ops[0])
    ensures Reports(g, ops) == [Report(g, ops[0])] + Reports(g, ops[1..])
  {
    hide Report;
  }

  /** A whole written stream, parsed at once. */
  lemma {:induction false} WholeParses(g: Config, ops: seq<Op>)
    requires g.Sound() && OpsFit(g, ops) && ops != []
    requires WriteAll(g, FreshWriter(g), ops).Wrote? && Under256(0, ops)
    ensures Drain(g, Fresh(g), WriteAll(g, FreshWriter(g), ops).bytes).log == Reports(g, ops)
  {
    hide Next, WriteOp, Report, Masked, Drain, Reports;
    WritesBeatFirst(g, ops);
    OpenedStreamParses(g, FreshWriter(g), Fresh(g), ops);
    ReportsSplit(g, ops);
    BeatVerified(g, ops[0]);
  }

  lemma BeatVerified(g: Config, op: Op)
    requires OpFits(g, op) && op.PutHeartbeat?
    ensures Report(g, op).Beat? && Report(g, op).grid == op.grid && Report(g, op).(unverified := false) == Report(g, op)
  {
  }

  lemma StartIsStuck(g: Config, grid: nat, unverified: bool)
    requires g.Valid()
    ensures Stuck(g, StartAt(g, grid, unverified), [])
  {
  }

  // ----- where a heartbeat begins

  lemma NextBeatPos(g: Config, p: Core, v: seq<Byte>)
    requires g.Valid() && CoreFits(g, p) && p.synced && |v| >= g.HbLen() && LeValue(v[..g.w]) == 0
    ensures Next(g, p, v).Take? && Next(g, p, v).core.hbPos == p.pos
  {
    hide LeValue, Crc8, Judge;
  }

  lemma BeatBytesZero(g: Config, wr: Writer, op: Op)
    requires g.Valid() && |wr.last| == g.count && op.PutHeartbeat? && OpFits(g, op) && WriteOp(g, wr, op).Wrote?
    ensures |WriteOp(g, wr, op).bytes| == g.HbLen() && LeValue(WriteOp(g, wr, op).bytes[..g.w]) == 0
  {
    hide Crc8, Masked, LeValue;
    var bytes := WriteOp(g, wr, op).bytes;
    ZeroMarker(g.w, []);
    assert bytes[..g.w] == seq(g.w, _ => 0 as Byte);
    assert (seq(g.w, _ => 0 as Byte) + [])[..g.w] == seq(g.w, _ => 0 as Byte);
  }

  lemma {:induction false} Under256Split(g: Config, wr: Writer, a: seq<Op>, b: seq<Op>)
    requires g.Valid() && |wr.last| == g.count && OpsFit(g, a) && WriteAll(g, wr, a).Wrote? && Under256(wr.grid, a + b)
    ensures Under256(wr.grid, a) && Under256(WriteAll(g, wr, a).writer.grid, b)
    decreases |a|
  {
    if a == [] {
      assert a + b == b;
    } else {
      assert (a + b)[0] == a[0] && (a + b)[1..] == a[1..] + b && OpFits(g, a[0]);
      GridAfter(g, wr, a[0]);
      hide WriteOp;
      Under256Split(g, WriteOp(g, wr, a[0]).writer, a[1..], b);
    }
  }

  lemma GridAfter(g: Config, wr: Writer, op: Op)
    requires g.Valid() && |wr.last| == g.count && OpFits(g, op) && WriteOp(g, wr, op).Wrote?
    ensures WriteOp(g, wr, op).writer.grid == if op.PutHeartbeat? then op.grid else wr.grid
  {
  }

  /**
   * When a heartbeat of a written stream is reported, the position noted for it is where its
   * first byte lies in the stream.
   */
  lemma BeatPosition(g: Config, before: seq<Op>, op: Op)
    requires g.Sound() && OpsFit(g, before) && OpFits(g, op) && op.PutHeartbeat? && OpsFit(g, before + [op])
    requires WriteAll(g, FreshWriter(g), before + [op]).Wrote? && Under256(0, before + [op])
    ensures WriteAll(g, FreshWriter(g), before).Wrote?
    ensures Drain(g, Fresh(g), WriteAll(g, FreshWriter(g), before + [op]).bytes).core.hbPos
         == |WriteAll(g, FreshWriter(g), before).bytes|
  {
    hide Next, WriteOp, Report, Masked;
    WriteConcat(g, FreshWriter(g), before, [op]);
    var first := WriteAll(g, FreshWriter(g), before);
    var mid := first.writer;
    var w := WriteOp(g, mid, op);
    assert [op][1..] == [];
    assert w.bytes + [] == w.bytes;
    BeatBytesZero(g, mid, op);
    if before == [] {
      var p := Fresh(g);
      assert before + [op] == [op];
      OpeningParses(g, mid, p, op, []);
      var m := Next(g, p, w.bytes);
      assert w.bytes[0..] == w.bytes;
      NextBeatPos(g, m.core, w.bytes);
      var n := Next(g, m.core, w.bytes);
      assert w.bytes[n.used..] == [];
      InStepWaits(g, w.writer, n.core);
    } else {
      WritesBeatFirst(g, before + [op]);
      assert before[0] == (before + [op])[0];
      Under256Split(g, FreshWriter(g), before, [op]);
      OpenedStreamParses(g, FreshWriter(g), Fresh(g), before);
      DrainLeavesLittle(g, Fresh(g), first.bytes);
      var r := Drain(g, Fresh(g), first.bytes);
      DrainConcat(g, Fresh(g), first.bytes, w.bytes);
      assert [] + w.bytes == w.bytes;
      CallParses(g, mid, r.core, [op], []);
      NextBeatPos(g, r.core, w.bytes);
      var n := Next(g, r.core, w.bytes);
      assert w.bytes[n.used..] == [];
      InStepWaits(g, w.writer, n.core);
    }
  }
}
