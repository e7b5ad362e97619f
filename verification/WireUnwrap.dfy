/**
 * The grid index of a heartbeat is 8 bits wide: a written stream reads back exactly if every
 * heartbeat comes fewer than 256 grid points after the one before it, and only then.
 */
module WireUnwrap {
  import opened Numbers
  import opened WireFormat
  import opened WireStreams
  import opened WireRoundTrip

  /** A heartbeat the parser is at is taken, with the grid count its index stands for. */
  lemma BeatIsUnwrapped(g: Config, wr: Writer, p: Core, op: Op, rest: seq<Byte>)
    requires g.Valid() && CoreFits(g, p) && |wr.last| == g.count && op.PutHeartbeat? && OpFits(g, op)
    requires p.synced && !p.anchor && WriteOp(g, wr, op).Wrote? && (p.crc == wr.crc || OpensUnverified(p))
    ensures
      var m := Next(g, p, WriteOp(g, wr, op).bytes + rest);
      m.Take? && |m.log| == 1 && m.log[0].Beat? && m.log[0].grid == Unwrap(GridBase(p), (op.grid % 256) as Byte)
  {
    hide Crc8, Judge, Masked, Record, GridTick, LeValue, BlockLevels;
    var body := HeartbeatBody(g, op.grid, op.levels);
    var hb := WriteOp(g, wr, op).bytes;
    var v := hb + rest;
    assert hb[..|hb| - 1] == body && hb[g.w] == (op.grid % 256) as Byte;
    assert v[..g.HbLen()] == hb;
    assert v[..g.w] == seq(g.w, _ => 0 as Byte);
    ZeroMarker(g.w, []);
    assert (seq(g.w, _ => 0 as Byte) + [])[..g.w] == seq(g.w, _ => 0 as Byte);
    assert Checks(g, p.(hbPos := p.pos), hb);
  }

  /** A heartbeat too far on is reported as another. */
  lemma FarIsAnother(g: Config, wr: Writer, p: Core, op: Op, rest: seq<Byte>)
    requires g.Valid() && CoreFits(g, p) && |wr.last| == g.count && op.PutHeartbeat? && OpFits(g, op)
    requires p.synced && !p.anchor && WriteOp(g, wr, op).Wrote? && (p.crc == wr.crc || OpensUnverified(p))
    requires op.grid >= GridBase(p) + 256
    ensures
      var v := WriteOp(g, wr, op).bytes + rest;
      Drain(g, p, v).log != [] && Drain(g, p, v).log[0] != Report(g, op)
  {
    BeatIsUnwrapped(g, wr, p, op, rest);
    hide Next, WriteOp;
  }

  /** From a parser in step with the writer: what is written far apart is not what is read. */
  lemma {:induction false} FarNotRead(g: Config, wr: Writer, p: Core, ops: seq<Op>)
    requires g.Sound() && OpsFit(g, ops) && InStep(g, wr, p)
    requires WriteAll(g, wr, ops).Wrote? && !Under256(wr.grid, ops)
    ensures Drain(g, p, WriteAll(g, wr, ops).bytes).log != Reports(g, ops)
    decreases |ops|
  {
    hide Next, Report;
    var op, w := ops[0], WriteOp(g, wr, ops[0]);
    var more := WriteAll(g, w.writer, ops[1..]);
    assert OpFits(g, op);
    NearOrFar(g, wr, op);
    if op.PutHeartbeat? && op.grid >= wr.grid + 256 {
      FarIsAnother(g, wr, p, op, more.bytes);
    } else {
      CallParses(g, wr, p, [op], more.bytes);
      hide WriteOp, InStep;
      var m := Next(g, p, w.bytes + more.bytes);
      assert (w.bytes + more.bytes)[m.used..] == more.bytes;
      FarNotRead(g, w.writer, m.core, ops[1..]);
      FirstSame(Report(g, op), Drain(g, m.core, more.bytes).log, Reports(g, ops[1..]));
    }
  }

  /** A call that is not a heartbeat too far on is one that reads back. */
  lemma NearOrFar(g: Config, wr: Writer, op: Op)
    requires g.Valid() && |wr.last| == g.count && OpFits(g, op) && wr.started && WriteOp(g, wr, op).Wrote?
    ensures (op.PutHeartbeat? && op.grid >= wr.grid + 256) || Under256(wr.grid, [op])
    ensures WriteOp(g, wr, op).writer.grid == if op.PutHeartbeat? then op.grid else wr.grid
  {
    GridAfter(g, wr, op);
    if op.PutHeartbeat? {
      GridRises(g, wr, op);
    }
    assert [op][1..] == [];
  }

  lemma FirstSame(e: Event, a: seq<Event>, b: seq<Event>)
    requires a != b
    ensures [e] + a != [e] + b
  {
    assert ([e] + a)[1..] == a && ([e] + b)[1..] == b;
  }

  lemma GridRises(g: Config, wr: Writer, op: Op)
    requires g.Valid() && |wr.last| == g.count && OpFits(g, op) && op.PutHeartbeat? && wr.started && WriteOp(g, wr, op).Wrote?
    ensures op.grid > wr.grid
  {
  }

  /**
   * Of what a writer accepts, a fresh parser reports exactly the calls if and only if each
   * heartbeat comes fewer than 256 grid points after the one before it (the first, after 0).
   */
  lemma ReadsBackIff(g: Config, ops: seq<Op>)
    requires g.Sound() && OpsFit(g, ops) && WriteAll(g, FreshWriter(g), ops).Wrote?
    ensures Drain(g, Fresh(g), WriteAll(g, FreshWriter(g), ops).bytes).log == Reports(g, ops) <==> Under256(0, ops)
  {
    var bytes := WriteAll(g, FreshWriter(g), ops).bytes;
    if Under256(0, ops) {
      var none: seq<seq<Byte>> := [];
      assert bytes + [] == bytes && Joined(none) == [];
      assert [bytes][1..] == none;
      RoundTrip(g, ops, [bytes]);
      ChunkIndependence(g, Fresh(g), [], [bytes]);
      assert [] + bytes == bytes;
    } else {
      FarFromStart(g, ops);
    }
  }

  lemma FarFromStart(g: Config, ops: seq<Op>)
    requires g.Sound() && OpsFit(g, ops) && WriteAll(g, FreshWriter(g), ops).Wrote? && !Under256(0, ops)
    ensures Drain(g, Fresh(g), WriteAll(g, FreshWriter(g), ops).bytes).log != Reports(g, ops)
  {
    var wr, p, op := FreshWriter(g), Fresh(g), ops[0];
    WritesBeatFirst(g, ops);
    assert OpFits(g, op);
    var w := WriteOp(g, wr, op);
    var more := WriteAll(g, w.writer, ops[1..]);
    var v := w.bytes + more.bytes;
    GridAfter(g, wr, op);
    Synced(g, wr, op, more.bytes);
    var q := p.(synced := true, anchor := false, crc := CRC8_INIT);
    if op.grid >= 256 {
      FarIsAnother(g, wr, q, op, more.bytes);
    } else {
      OpeningParses(g, wr, p, op, more.bytes);
      BeatVerified(g, op);
      hide Next, WriteOp, Report, InStep;
      var n := Next(g, q, v);
      assert v[n.used..] == more.bytes;
      FarNotRead(g, w.writer, n.core, ops[1..]);
      FirstSame(Report(g, op), Drain(g, n.core, more.bytes).log, Reports(g, ops[1..]));
    }
  }

  /** A fresh parser takes the first bytes of a written stream for a heartbeat. */
  lemma Synced(g: Config, wr: Writer, op: Op, rest: seq<Byte>)
    requires g.Valid() && |wr.last| == g.count && op.PutHeartbeat? && OpFits(g, op) && WriteOp(g, wr, op).Wrote?
    ensures
      var p, v := Fresh(g), WriteOp(g, wr, op).bytes + rest;
      var q := p.(synced := true, anchor := false, crc := CRC8_INIT);
      Next(g, p, v) == Take(q, 0, []) && Drain(g, p, v) == Drain(g, q, v)
  {
    hide Crc8, Heartbeat, Masked, LeValue;
    var p, v := Fresh(g), WriteOp(g, wr, op).bytes + rest;
    var q := p.(synced := true, anchor := false, crc := CRC8_INIT);
    assert v == seq(g.w, _ => 0 as Byte) + v[g.w..];
    ZeroMarker(g.w, v[g.w..]);
    assert v[0..] == v;
    assert [] + Drain(g, q, v).log == Drain(g, q, v).log;
  }
}
