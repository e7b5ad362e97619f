/**
 * The heartbeats a parser reports of a stream, with where each begins: the same in every
 * cutting of the stream, inside the bytes that brought them, and for a written stream just
 * the heartbeats the writer put.
 */
module WireBeats {
  import opened Numbers
  import opened WireFormat
  import opened WireStreams
  import R = WireRoundTrip

  /** A heartbeat reported, and the stream position of its first byte. */
  datatype Sighting = Sighting(grid: nat, pos: nat)

  function Sighted(log: seq<Event>, pos: nat): (r: seq<Sighting>)
    ensures |r| <= 1
  {
    if log != [] && log[0].Beat? then [Sighting(log[0].grid, pos)] else []
  }

  /** The heartbeats reported as v is drained; each begins where its move does. */
  function Sightings(g: Config, p: Core, v: seq<Byte>): seq<Sighting>
    requires g.Valid() && CoreFits(g, p)
    decreases |v|, if p.synced then 0 else 1
  {
    match Next(g, p, v)
    case Wait => []
    case Take(q, used, log) => Sighted(log, p.pos) + Sightings(g, q, v[used..])
  }

  /** That is the position the parser notes for its handler. */
  lemma SightedNoted(g: Config, p: Core, v: seq<Byte>)
    requires g.Valid() && CoreFits(g, p) && Next(g, p, v).Take?
    ensures
      var m := Next(g, p, v);
      && |m.log| <= 1 && (m.log != [] && m.log[0].Beat? ==> m.core.hbPos == p.pos && m.used == g.HbLen())
  {
    hide LeValue, AllZero, Crc8, Accept, Unwrap, Low, High, GridTick;
    if p.synced && LeValue(v[..g.w]) == 0 {
      AcceptKeepsPos(g, p.(hbPos := p.pos), v[..g.HbLen()]);
    }
  }

  lemma AcceptKeepsPos(g: Config, p: Core, hb: seq<Byte>)
    requires g.Valid() && CoreFits(g, p) && |hb| == g.HbLen()
    ensures Heartbeat(g, p, hb).0.hbPos == p.hbPos && |Heartbeat(g, p, hb).1| == 1
  {
    hide Crc8, Unwrap, GridTick, Judge, BlockLevels;
  }

  /** The grid counts of the heartbeats in a log. */
  function Grids(log: seq<Event>): seq<nat> {
    if log == [] then [] else (if log[0].Beat? then [log[0].grid] else []) + Grids(log[1..])
  }

  function GridsOf(s: seq<Sighting>): (r: seq<nat>)
    ensures |r| == |s|
  {
    seq(|s|, i requires 0 <= i < |s| => s[i].grid)
  }

  lemma {:induction false} GridsConcat(a: seq<Event>, b: seq<Event>)
    ensures Grids(a + b) == Grids(a) + Grids(b)
  {
    if a == [] {
      assert a + b == b;
    } else {
      assert (a + b)[0] == a[0] && (a + b)[1..] == a[1..] + b;
      GridsConcat(a[1..], b);
    }
  }

  /** They are the heartbeats of the log, in order. */
  lemma {:induction false} SightingsAreLogged(g: Config, p: Core, v: seq<Byte>)
    requires g.Valid() && CoreFits(g, p)
    ensures GridsOf(Sightings(g, p, v)) == Grids(Drain(g, p, v).log)
    decreases |v|, if p.synced then 0 else 1
  {
    hide Next;
    var m := Next(g, p, v);
    if m.Take? {
      SightedNoted(g, p, v);
      SightingsAreLogged(g, m.core, v[m.used..]);
      GridsConcat(m.log, Drain(g, m.core, v[m.used..]).log);
      assert m.log != [] ==> m.log[1..] == [];
    }
  }

  // ----- cuttings

  lemma {:induction false} SightingsConcat(g: Config, p: Core, a: seq<Byte>, b: seq<Byte>)
    requires g.Valid() && CoreFits(g, p)
    ensures
      var first := Drain(g, p, a);
      Sightings(g, p, a + b) == Sightings(g, p, a) + Sightings(g, first.core, first.rest + b)
    decreases |a|, if p.synced then 0 else 1
  {
    hide Next;
    var m := Next(g, p, a);
    if m.Take? {
      NextExtends(g, p, a, b);
      assert (a + b)[m.used..] == a[m.used..] + b;
      SightingsConcat(g, m.core, a[m.used..], b);
      var first := Drain(g, m.core, a[m.used..]);
      Assoc(Sighted(m.log, p.pos), Sightings(g, m.core, a[m.used..]), Sightings(g, first.core, first.rest + b));
    } else {
      Assoc([], [], Sightings(g, p, a + b));
    }
  }

  lemma Assoc(a: seq<Sighting>, b: seq<Sighting>, c: seq<Sighting>)
    ensures a + b + c == a + (b + c) && (b == [] ==> b + c == c)
  {
  }

  /** The heartbeats reported as chunks are fed one after another. */
  function SightingsAll(g: Config, p: Core, rest: seq<Byte>, chunks: seq<seq<Byte>>): seq<Sighting>
    requires g.Valid() && CoreFits(g, p)
    decreases |chunks|
  {
    if chunks == [] then []
    else
      var r := Drain(g, p, rest + chunks[0]);
      Sightings(g, p, rest + chunks[0]) + SightingsAll(g, r.core, r.rest, chunks[1..])
  }

  lemma StuckSees(g: Config, p: Core, rest: seq<Byte>)
    requires g.Valid() && CoreFits(g, p) && Stuck(g, p, rest)
    ensures Sightings(g, p, rest) == []
  {
  }

  /** However a stream is cut, the same heartbeats are reported, at the same positions. */
  lemma {:induction false} SightingsAnyCut(g: Config, p: Core, rest: seq<Byte>, chunks: seq<seq<Byte>>)
    requires g.Valid() && CoreFits(g, p) && Stuck(g, p, rest)
    ensures SightingsAll(g, p, rest, chunks) == Sightings(g, p, rest + Joined(chunks))
    decreases |chunks|
  {
    hide Next, Drain, Stuck;
    if chunks == [] {
      assert rest + [] == rest;
      StuckSees(g, p, rest);
    } else {
      var v := rest + chunks[0];
      var r := Drain(g, p, v);
      DrainLeavesLittle(g, p, v);
      SightingsAnyCut(g, r.core, r.rest, chunks[1..]);
      SightingsConcat(g, p, v, Joined(chunks[1..]));
      assert rest + Joined(chunks) == v + Joined(chunks[1..]);
    }
  }

  // ----- where they lie

  /** One after another from a position on, each whole before an end. */
  predicate Lie(s: seq<Sighting>, len: nat, from: nat, end: nat) {
    && (forall i :: 0 <= i < |s| ==> from <= s[i].pos && s[i].pos + len <= end)
    && forall i, j :: 0 <= i < j < |s| ==> s[i].pos + len <= s[j].pos
  }

  lemma LieOne(log: seq<Event>, len: nat, from: nat, end: nat)
    requires log != [] && log[0].Beat? ==> from + len <= end
    ensures Lie(Sighted(log, from), len, from, end)
  {
  }

  lemma LieBoth(a: seq<Sighting>, b: seq<Sighting>, len: nat, from: nat, mid: nat, end: nat)
    requires Lie(a, len, from, mid) && Lie(b, len, mid, end) && from <= mid <= end
    ensures Lie(a + b, len, from, end)
  {
  }

  lemma {:induction false} SightingsLie(g: Config, p: Core, v: seq<Byte>)
    requires g.Valid() && CoreFits(g, p)
    ensures Lie(Sightings(g, p, v), g.HbLen(), p.pos, Drain(g, p, v).core.pos)
    ensures p.pos <= Drain(g, p, v).core.pos
    decreases |v|, if p.synced then 0 else 1
  {
    hide Next, Lie;
    var m := Next(g, p, v);
    if m.Take? {
      SightedNoted(g, p, v);
      SightingsLie(g, m.core, v[m.used..]);
      var r := Drain(g, m.core, v[m.used..]);
      LieOne(m.log, g.HbLen(), p.pos, m.core.pos);
      LieBoth(Sighted(m.log, p.pos), Sightings(g, m.core, v[m.used..]), g.HbLen(), p.pos, m.core.pos, r.core.pos);
    } else {
      LieOne([], g.HbLen(), p.pos, p.pos);
    }
  }

  /** Grid counts never go back. */
  predicate GridsRise(s: seq<Sighting>, from: nat) {
    && (forall i :: 0 <= i < |s| ==> from <= s[i].grid)
    && forall i, j :: 0 <= i < j < |s| ==> s[i].grid <= s[j].grid
  }

  function GridFrom(p: Core): nat {
    if p.haveGrid then p.grid else 0
  }

  lemma NextRises(g: Config, p: Core, v: seq<Byte>)
    requires g.Valid() && CoreFits(g, p) && Next(g, p, v).Take?
    ensures
      var m := Next(g, p, v);
      && GridFrom(p) <= GridFrom(m.core)
      && (m.log != [] && m.log[0].Beat? ==> GridFrom(p) <= m.log[0].grid == GridFrom(m.core))
  {
    hide LeValue, AllZero, Crc8, Judge, BlockLevels, Low, High, GridTick;
  }

  lemma {:induction false} SightingsRise(g: Config, p: Core, v: seq<Byte>)
    requires g.Valid() && CoreFits(g, p)
    ensures GridsRise(Sightings(g, p, v), GridFrom(p))
    decreases |v|, if p.synced then 0 else 1
  {
    hide Next, GridFrom;
    var m := Next(g, p, v);
    if m.Take? {
      NextRises(g, p, v);
      SightingsRise(g, m.core, v[m.used..]);
    }
  }

  // ----- written streams

  /** The heartbeats a writer puts, with where their bytes begin. */
  function Written(g: Config, wr: Writer, ops: seq<R.Op>, at: nat): seq<Sighting>
    requires g.Valid() && |wr.last| == g.count && R.OpsFit(g, ops) && R.WriteAll(g, wr, ops).Wrote?
    decreases |ops|
  {
    if ops == [] then []
    else
      var w := R.WriteOp(g, wr, ops[0]);
      (if ops[0].PutHeartbeat? then [Sighting(ops[0].grid, at)] else [])
      + Written(g, w.writer, ops[1..], at + |w.bytes|)
  }

  lemma {:induction false} WrittenSighted(g: Config, wr: Writer, p: Core, ops: seq<R.Op>)
    requires g.Sound() && R.OpsFit(g, ops) && R.InStep(g, wr, p)
    requires R.WriteAll(g, wr, ops).Wrote? && R.Under256(wr.grid, ops)
    ensures Sightings(g, p, R.WriteAll(g, wr, ops).bytes) == Written(g, wr, ops, p.pos)
    decreases |ops|
  {
    hide Next, R.WriteOp, R.Report;
    if ops == [] {
      InStepSees(g, wr, p);
    } else {
      var w := R.WriteOp(g, wr, ops[0]);
      var more := R.WriteAll(g, w.writer, ops[1..]);
      R.CallParses(g, wr, p, ops, more.bytes);
      var m := Next(g, p, w.bytes + more.bytes);
      assert (w.bytes + more.bytes)[m.used..] == more.bytes;
      WrittenSighted(g, w.writer, m.core, ops[1..]);
      ReportSighted(g, ops[0], p.pos);
    }
  }

  lemma InStepSees(g: Config, wr: Writer, p: Core)
    requires g.Valid() && R.InStep(g, wr, p)
    ensures Sightings(g, p, []) == []
  {
  }

  lemma ReportSighted(g: Config, op: R.Op, pos: nat)
    requires g.Valid() && R.OpFits(g, op)
    ensures Sighted([R.Report(g, op)], pos) == if op.PutHeartbeat? then [Sighting(op.grid, pos)] else []
    ensures op.PutHeartbeat? ==> forall u :: Sighted([R.Report(g, op).(unverified := u)], pos) == [Sighting(op.grid, pos)]
  {
    hide Masked, GridTick;
  }

  /** A fresh parser of a written stream reports just the heartbeats put, where they were put. */
  lemma {:induction false} WrittenStreamSighted(g: Config, ops: seq<R.Op>)
    requires g.Sound() && R.OpsFit(g, ops) && R.Under256(0, ops) && R.WriteAll(g, FreshWriter(g), ops).Wrote?
    ensures
      Sightings(g, Fresh(g), R.WriteAll(g, FreshWriter(g), ops).bytes) == Written(g, FreshWriter(g), ops, 0)
  {
    hide Next, R.WriteOp, R.Report;
    var wr, p := FreshWriter(g), Fresh(g);
    if ops == [] {
      NothingSighted(g);
    } else {
      R.WritesBeatFirst(g, ops);
      var op := ops[0];
      assert R.OpFits(g, op);
      var w := R.WriteOp(g, wr, op);
      var more := R.WriteAll(g, w.writer, ops[1..]);
      R.OpeningParses(g, wr, p, op, more.bytes);
      var v := w.bytes + more.bytes;
      var m := Next(g, p, v);
      assert v[0..] == v;
      var n := Next(g, m.core, v);
      assert v[n.used..] == more.bytes;
      R.GridAfter(g, wr, op);
      WrittenSighted(g, w.writer, n.core, ops[1..]);
      ReportSighted(g, op, 0);
    }
  }

  lemma NothingSighted(g: Config)
    requires g.Valid()
    ensures Sightings(g, Fresh(g), []) == []
  {
  }

  /** Each is a heartbeat put after some calls, at the end of their bytes. */
  lemma {:induction false} WrittenAt(g: Config, wr: Writer, ops: seq<R.Op>, at: nat, s: Sighting) returns (i: nat)
    requires g.Valid() && |wr.last| == g.count && R.OpsFit(g, ops) && R.WriteAll(g, wr, ops).Wrote?
    requires s in Written(g, wr, ops, at)
    ensures i < |ops| && ops[i].PutHeartbeat? && ops[i].grid == s.grid && R.OpsFit(g, ops[..i])
    ensures R.WriteAll(g, wr, ops[..i]).Wrote? && s.pos == at + |R.WriteAll(g, wr, ops[..i]).bytes|
    decreases |ops|
  {
    hide R.WriteOp;
    var w := R.WriteOp(g, wr, ops[0]);
    if ops[0].PutHeartbeat? && s == Sighting(ops[0].grid, at) {
      i := 0;
      assert ops[..0] == [];
    } else {
      var j := WrittenAt(g, w.writer, ops[1..], at + |w.bytes|, s);
      i := j + 1;
      assert ops[..i][0] == ops[0] && ops[..i][1..] == ops[1..][..j];
    }
  }
}
