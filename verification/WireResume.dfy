/**
 * Going on after a break: once bytes were lost, a written stream that goes on without a fault is
 * trusted again from the second heartbeat that comes, and read as written from there.
 */
module WireResume {
  import opened Numbers
  import opened WireFormat
  import opened WireStreams
  import opened WireRoundTrip

  /** The parser counts along with the writer, but does not trust the records. */
  predicate Counting(g: Config, wr: Writer, p: Core) {
    && CoreFits(g, p) && |wr.last| == g.count && wr.started
    && p.synced && !p.trusted && !p.anchor && p.haveGrid && p.grid == wr.grid && p.crc == wr.crc
    && forall k :: 0 <= k < g.count ==> p.last[k] <= GridTick(g, wr.grid)
  }

  predicate AllRecords(ops: seq<Op>) {
    forall i :: 0 <= i < |ops| ==> ops[i].PutRecord?
  }

  /** Whether some bytes can be taken for a heartbeat by a parser that searches. */
  predicate Looks(g: Config, p: Core, v: seq<Byte>) {
    |v| >= g.HbLen() && AllZero(v[..g.w]) && IndexFollows(p, v[g.w])
  }

  /** None of the first n places can. */
  predicate NoneLooks(g: Config, p: Core, v: seq<Byte>, n: nat) {
    n + g.HbLen() <= |v| && forall i :: 0 <= i < n ==> !Looks(g, p, v[i..])
  }

  lemma QuietNext(g: Config, p: Core, v: seq<Byte>)
    requires g.Valid() && CoreFits(g, p) && Next(g, p, v).Take? && Next(g, p, v).log == []
    ensures Drain(g, p, v) == Drain(g, Next(g, p, v).core, v[Next(g, p, v).used..])
  {
    hide Next;
    var m := Next(g, p, v);
    assert [] + Drain(g, m.core, v[m.used..]).log == Drain(g, m.core, v[m.used..]).log;
  }

  /** A record not trusted is counted in the check byte and not reported. */
  lemma RecordPasses(g: Config, wr: Writer, p: Core, op: Op, rest: seq<Byte>)
    requires g.Sound() && Counting(g, wr, p) && op.PutRecord? && WriteOp(g, wr, op).Wrote?
    ensures
      var w := WriteOp(g, wr, op);
      var m := Next(g, p, w.bytes + rest);
      && m.Take? && m.used == |w.bytes| && m.log == [] && Counting(g, w.writer, m.core) && m.core.blame == p.blame
  {
    var k := BlockIndex(g, op.channel);
    var gap := op.tick - Max(wr.last[k], wr.hbTick);
    RecordEncodes(g, gap, op.level, k);
    hide Crc8, Pow2, Pow256, Pack, LeBytes, LeValue, BlockIndex, Heartbeat;
    var bytes := WriteOp(g, wr, op).bytes;
    assert (bytes + rest)[..g.w] == bytes;
  }

  lemma {:induction false} RecordsPass(g: Config, wr: Writer, p: Core, ops: seq<Op>, rest: seq<Byte>) returns (q: Core)
    requires g.Sound() && OpsFit(g, ops) && Counting(g, wr, p) && AllRecords(ops) && WriteAll(g, wr, ops).Wrote?
    ensures
      var w := WriteAll(g, wr, ops);
      Counting(g, w.writer, q) && w.writer.grid == wr.grid && Drain(g, p, w.bytes + rest) == Drain(g, q, rest)
    decreases |ops|
  {
    hide Next, WriteOp, Counting, Drain, OpFits;
    if ops == [] {
      q := p;
      assert [] + rest == rest;
    } else {
      assert OpFits(g, ops[0]) && ops[0].PutRecord?;
      CountingFits(g, wr, p);
      WritesOne(g, wr, ops);
      var next, bytes := WriteOp(g, wr, ops[0]).writer, WriteOp(g, wr, ops[0]).bytes;
      var tail := WriteAll(g, next, ops[1..]);
      hide WriteAll;
      q := OnePasses(g, wr, p, ops[0], tail.bytes + rest);
      GridAfter(g, wr, ops[0]);
      q := RecordsPass(g, next, q, ops[1..], rest);
      assert bytes + tail.bytes + rest == bytes + (tail.bytes + rest);
    }
  }

  lemma CountingFits(g: Config, wr: Writer, p: Core)
    requires Counting(g, wr, p)
    ensures |wr.last| == g.count && CoreFits(g, p)
  {
  }

  lemma WritesOne(g: Config, wr: Writer, ops: seq<Op>)
    requires g.Valid() && |wr.last| == g.count && OpsFit(g, ops) && ops != [] && OpFits(g, ops[0]) && WriteAll(g, wr, ops).Wrote?
    ensures WriteOp(g, wr, ops[0]).Wrote?
    ensures
      var w := WriteOp(g, wr, ops[0]);
      var more := WriteAll(g, w.writer, ops[1..]);
      more.Wrote? && WriteAll(g, wr, ops) == Wrote(more.writer, w.bytes + more.bytes)
  {
    hide WriteOp;
  }

  lemma OnePasses(g: Config, wr: Writer, p: Core, op: Op, rest: seq<Byte>) returns (q: Core)
    requires g.Sound() && Counting(g, wr, p) && op.PutRecord? && OpFits(g, op) && WriteOp(g, wr, op).Wrote?
    ensures var w := WriteOp(g, wr, op); Counting(g, w.writer, q) && Drain(g, p, w.bytes + rest) == Drain(g, q, rest)
  {
    RecordPasses(g, wr, p, op, rest);
    hide Next, WriteOp, Drain;
    var v := WriteOp(g, wr, op).bytes + rest;
    QuietNext(g, p, v);
    q := Next(g, p, v).core;
    assert v[|WriteOp(g, wr, op).bytes|..] == rest;
  }

  /** The heartbeat a parser finds after a break is taken unchecked, and trusts nothing yet. */
  lemma AnchorReads(g: Config, wr: Writer, p: Core, op: Op, rest: seq<Byte>)
    requires g.Valid() && CoreFits(g, p) && |wr.last| == g.count && op.PutHeartbeat? && OpFits(g, op)
    requires p.synced && p.anchor && !p.trusted && p.haveGrid && WriteOp(g, wr, op).Wrote? && p.grid <= op.grid < p.grid + 256
    requires forall k :: 0 <= k < g.count ==> p.last[k] <= GridTick(g, op.grid)
    ensures
      var w := WriteOp(g, wr, op);
      var m := Next(g, p, w.bytes + rest);
      && m.Take? && m.used == |w.bytes| && m.log == [Report(g, op).(unverified := true)]
      && Counting(g, w.writer, m.core) && m.core.blame == p.blame
  {
    hide Crc8, Judge, Masked, Record, GridTick, LeValue, BlockLevels;
    var body := HeartbeatBody(g, op.grid, op.levels);
    var hb := WriteOp(g, wr, op).bytes;
    var v := hb + rest;
    assert hb[..|hb| - 1] == body && hb[g.w] == (op.grid % 256) as Byte;
    assert hb[g.w + 1..|hb| - 1] == Masked(g, op.levels);
    assert v[..g.HbLen()] == hb;
    assert v[..g.w] == seq(g.w, _ => 0 as Byte);
    ZeroMarker(g.w, []);
    assert (seq(g.w, _ => 0 as Byte) + [])[..g.w] == seq(g.w, _ => 0 as Byte);
    assert Unwrap(p.grid, hb[g.w]) == op.grid;
  }

  /** A search goes on by a byte, or stops where a heartbeat could begin. */
  lemma SearchStep(g: Config, p: Core, v: seq<Byte>)
    requires g.Valid() && CoreFits(g, p) && !p.synced && |v| >= g.HbLen()
    ensures !Looks(g, p, v) ==> Next(g, p, v) == Take(p.(pos := p.pos + 1), 1, [])
    ensures Looks(g, p, v) ==> Next(g, p, v) == Take(p.(synced := true, anchor := p.haveGrid, crc := CRC8_INIT), 0, [])
  {
    hide AllZero, IndexFollows, Heartbeat, Record, LeValue;
  }

  /** Bytes that cannot be taken for a heartbeat are passed over. */
  lemma {:induction false} Skips(g: Config, p: Core, v: seq<Byte>, n: nat)
    requires g.Valid() && CoreFits(g, p) && !p.synced && NoneLooks(g, p, v, n)
    ensures Drain(g, p, v) == Drain(g, p.(pos := p.pos + n), v[n..])
    decreases n
  {
    hide Next, Drain, Looks;
    if n == 0 {
      assert v[0..] == v && p.(pos := p.pos + 0) == p;
    } else {
      var q := p.(pos := p.pos + 1);
      assert v[0..] == v && !Looks(g, p, v[0..]);
      SearchStep(g, p, v);
      QuietNext(g, p, v);
      forall i | 0 <= i < n - 1
        ensures !Looks(g, q, v[1..][i..])
      {
        assert v[1..][i..] == v[i + 1..];
        SameLook(g, p, q, v[i + 1..]);
      }
      Skips(g, q, v[1..], n - 1);
      assert v[1..][n - 1..] == v[n..];
      assert q.(pos := q.pos + (n - 1)) == p.(pos := p.pos + n);
    }
  }

  lemma SameLook(g: Config, p: Core, q: Core, v: seq<Byte>)
    requires q == p.(pos := q.pos)
    ensures Looks(g, p, v) == Looks(g, q, v)
  {
  }

  /** Where a heartbeat begins that may follow, a parser that searches finds it. */
  lemma Finds(g: Config, wr: Writer, p: Core, op: Op, rest: seq<Byte>)
    requires g.Valid() && CoreFits(g, p) && |wr.last| == g.count && op.PutHeartbeat? && OpFits(g, op)
    requires !p.synced && p.haveGrid && WriteOp(g, wr, op).Wrote? && p.grid < op.grid < p.grid + RESYNC_STEP_MAX
    ensures
      var v := WriteOp(g, wr, op).bytes + rest;
      Drain(g, p, v) == Drain(g, p.(synced := true, anchor := true, crc := CRC8_INIT), v)
  {
    var v := WriteOp(g, wr, op).bytes + rest;
    BeatLooks(g, wr, p, op, rest);
    hide Next, Drain, Looks, WriteOp;
    SearchStep(g, p, v);
    QuietNext(g, p, v);
    assert v[0..] == v;
  }

  lemma BeatLooks(g: Config, wr: Writer, p: Core, op: Op, rest: seq<Byte>)
    requires g.Valid() && |wr.last| == g.count && op.PutHeartbeat? && OpFits(g, op) && WriteOp(g, wr, op).Wrote?
    requires p.haveGrid && p.grid < op.grid < p.grid + RESYNC_STEP_MAX
    ensures Looks(g, p, WriteOp(g, wr, op).bytes + rest)
  {
    hide Crc8, Masked;
    var v := WriteOp(g, wr, op).bytes + rest;
    assert v == seq(g.w, _ => 0 as Byte) + v[g.w..];
    ZeroMarker(g.w, v[g.w..]);
    assert v[g.w] == (op.grid % 256) as Byte;
  }

  lemma DrainNext(g: Config, p: Core, v: seq<Byte>)
    requires g.Valid() && CoreFits(g, p) && Next(g, p, v).Take?
    ensures
      var m := Next(g, p, v);
      && Drain(g, p, v).log == m.log + Drain(g, m.core, v[m.used..]).log
      && Drain(g, p, v).core == Drain(g, m.core, v[m.used..]).core && Drain(g, p, v).rest == Drain(g, m.core, v[m.used..]).rest
  {
    hide Next;
  }

  /** From the second heartbeat on the parser is in step. */
  lemma SecondBeat(g: Config, wr: Writer, p: Core, ops: seq<Op>)
    requires g.Sound() && OpsFit(g, ops) && Counting(g, wr, p) && ops != [] && ops[0].PutHeartbeat?
    requires WriteAll(g, wr, ops).Wrote? && Under256(wr.grid, ops)
    ensures
      var w := WriteAll(g, wr, ops);
      var r := Drain(g, p, w.bytes);
      r.rest == [] && r.log == Reports(g, ops) && InStep(g, w.writer, r.core)
  {
    var op, w := ops[0], WriteOp(g, wr, ops[0]);
    var more := WriteAll(g, w.writer, ops[1..]);
    assert OpFits(g, op);
    MulMonotone(wr.grid, op.grid, g.c);
    HeartbeatParses(g, wr, p, op, more.bytes);
    GridAfter(g, wr, op);
    ReportsSplit(g, ops);
    hide Next, WriteOp, Report, Counting, InStep;
    var v := w.bytes + more.bytes;
    DrainNext(g, p, v);
    assert v[|w.bytes|..] == more.bytes;
    BeatVerified(g, op);
    WrittenParses(g, w.writer, Next(g, p, v).core, ops[1..]);
  }

  lemma AgainFrom(g: Config, p: Core, wr: Writer, beat: Op, recs: seq<Op>, rest: seq<Op>)
    requires g.Sound() && CoreFits(g, p) && |wr.last| == g.count && !p.synced && !p.trusted && p.haveGrid
    requires beat.PutHeartbeat? && OpFits(g, beat) && OpsFit(g, recs) && OpsFit(g, rest) && AllRecords(recs)
    requires rest != [] && rest[0].PutHeartbeat? && Under256(beat.grid, rest)
    requires p.grid < beat.grid < p.grid + RESYNC_STEP_MAX && forall k :: 0 <= k < g.count ==> p.last[k] <= GridTick(g, beat.grid)
    requires WriteOp(g, wr, beat).Wrote? && WriteAll(g, WriteOp(g, wr, beat).writer, recs).Wrote?
    requires WriteAll(g, WriteAll(g, WriteOp(g, wr, beat).writer, recs).writer, rest).Wrote?
    ensures
      var b := WriteOp(g, wr, beat);
      var m := WriteAll(g, b.writer, recs);
      var e := WriteAll(g, m.writer, rest);
      var r := Drain(g, p, b.bytes + (m.bytes + e.bytes));
      r.rest == [] && r.log == [Report(g, beat).(unverified := true)] + Reports(g, rest) && InStep(g, e.writer, r.core)
  {
    hide Next, WriteOp, WriteAll, Report, InStep, Drain, Counting, Under256, Reports, GridTick;
    var b := WriteOp(g, wr, beat);
    var m := WriteAll(g, b.writer, recs);
    var e := WriteAll(g, m.writer, rest);
    var v := b.bytes + (m.bytes + e.bytes);
    Finds(g, wr, p, beat, m.bytes + e.bytes);
    var a := p.(synced := true, anchor := true, crc := CRC8_INIT);
    AnchorReads(g, wr, a, beat, m.bytes + e.bytes);
    GridAfter(g, wr, beat);
    DrainNext(g, a, v);
    assert v[|b.bytes|..] == m.bytes + e.bytes;
    var d := RecordsPass(g, b.writer, Next(g, a, v).core, recs, e.bytes);
    SecondBeat(g, m.writer, d, rest);
  }

  /**
   * Bytes were lost in a written stream, and it goes on with some that cannot be taken for a
   * heartbeat, then a heartbeat, records, and the rest, from another heartbeat on. The parser
   * reports the first heartbeat as unverified, none of those records, and the rest exactly as
   * written; it is then in step with the writer.
   */
  lemma TrustedAgain(g: Config, p: Core, lost: seq<Byte>, junk: seq<Byte>, wr: Writer, beat: Op, recs: seq<Op>, rest: seq<Op>)
    requires g.Sound() && CoreFits(g, p) && |wr.last| == g.count && p.haveGrid
    requires OpsFit(g, [beat] + (recs + rest)) && WriteAll(g, wr, [beat] + (recs + rest)).Wrote?
    requires beat.PutHeartbeat? && AllRecords(recs) && rest != [] && rest[0].PutHeartbeat? && Under256(beat.grid, rest)
    requires p.grid < beat.grid < p.grid + RESYNC_STEP_MAX && forall k :: 0 <= k < g.count ==> p.last[k] <= GridTick(g, beat.grid)
    requires NoneLooks(g, p, junk + WriteAll(g, wr, [beat] + (recs + rest)).bytes, |junk|)
    ensures OpFits(g, beat) && OpsFit(g, rest)
    ensures
      var w := WriteAll(g, wr, [beat] + (recs + rest));
      var r := Drain(g, Break(p, lost), junk + w.bytes);
      r.rest == [] && r.log == [Report(g, beat).(unverified := true)] + Reports(g, rest) && InStep(g, w.writer, r.core)
  {
    hide WriteOp, WriteAll, Report, InStep, Drain, Under256, Reports, GridTick, AllRecords, NoneLooks, OpsFit, OpFits;
    WrittenParts(g, wr, beat, recs, rest);
    var q, v := Break(p, lost), WriteAll(g, wr, [beat] + (recs + rest)).bytes;
    LooksSame(g, p, q, junk + v, |junk|);
    Skips(g, q, junk + v, |junk|);
    assert (junk + v)[|junk|..] == v;
    AgainFrom(g, q.(pos := q.pos + |junk|), wr, beat, recs, rest);
  }

  lemma LooksSame(g: Config, p: Core, q: Core, v: seq<Byte>, n: nat)
    requires NoneLooks(g, p, v, n) && q.haveGrid == p.haveGrid && q.grid == p.grid
    ensures NoneLooks(g, q, v, n)
  {
    hide AllZero;
    forall i | 0 <= i < n
      ensures !Looks(g, q, v[i..])
    {
      assert !Looks(g, p, v[i..]);
    }
  }

  /** The calls, written one part after another. */
  lemma WrittenParts(g: Config, wr: Writer, beat: Op, recs: seq<Op>, rest: seq<Op>)
    requires g.Valid() && |wr.last| == g.count && OpsFit(g, [beat] + (recs + rest)) && WriteAll(g, wr, [beat] + (recs + rest)).Wrote?
    ensures OpFits(g, beat) && OpsFit(g, recs) && OpsFit(g, rest)
    ensures WriteOp(g, wr, beat).Wrote? && WriteAll(g, WriteOp(g, wr, beat).writer, recs).Wrote?
    ensures
      var all := WriteAll(g, wr, [beat] + (recs + rest));
      var b := WriteOp(g, wr, beat);
      var m := WriteAll(g, b.writer, recs);
      var e := WriteAll(g, m.writer, rest);
      e.Wrote? && all.bytes == b.bytes + (m.bytes + e.bytes) && all.writer == e.writer
  {
    var ops := [beat] + (recs + rest);
    assert ops[0] == beat && ops[1..] == recs + rest;
    assert OpFits(g, ops[0]);
    assert forall i :: 0 <= i < |recs| ==> recs[i] == ops[1 + i];
    assert forall i :: 0 <= i < |rest| ==> rest[i] == ops[1 + |recs| + i];
    hide WriteOp;
    WriteConcat(g, WriteOp(g, wr, beat).writer, recs, rest);
  }
}
