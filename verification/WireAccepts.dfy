/**
 * What the writer refuses: it takes a sequence of calls exactly when each of them is in order
 * after those before it, whatever its own counters are.
 */
module WireAccepts {
  import opened Numbers
  import opened WireFormat
  import opened WireRoundTrip

  /** A heartbeat comes after every heartbeat before it and not before any record. */
  predicate BeatInOrder(g: Config, before: seq<Op>, grid: nat) {
    forall x :: x in before ==>
      if x.PutHeartbeat? then x.grid < grid else x.tick <= GridTick(g, grid)
  }

  predicate Begun(before: seq<Op>) {
    exists x :: x in before && x.PutHeartbeat?
  }

  /** A heartbeat, or a record of the same channel, that is no more than a grid interval before a tick. */
  predicate Reaches(g: Config, x: Op, channel: nat, tick: nat) {
    if x.PutHeartbeat? then tick <= GridTick(g, x.grid) + g.c else x.channel == channel && tick <= x.tick + g.c
  }

  /**
   * A record is of a channel of the block, comes after every heartbeat and every record of its
   * channel before it, and one of those is no more than a grid interval back.
   */
  predicate RecordInOrder(g: Config, before: seq<Op>, tick: nat, channel: nat)
    requires g.Valid()
  {
    && Begun(before) && (exists k :: 0 <= k < g.count && OnBlock(g, channel, k))
    && (forall x :: x in before ==> if x.PutHeartbeat? then GridTick(g, x.grid) < tick else x.channel == channel ==> x.tick < tick)
    && exists x :: x in before && Reaches(g, x, channel, tick)
  }

  predicate InOrder(g: Config, before: seq<Op>, op: Op)
    requires g.Valid()
  {
    match op
    case PutRecord(tick, channel, _) => RecordInOrder(g, before, tick, channel)
    case PutHeartbeat(grid, _) => BeatInOrder(g, before, grid)
  }

  predicate AllInOrder(g: Config, ops: seq<Op>)
    requires g.Valid()
  {
    forall i :: 0 <= i < |ops| ==> InOrder(g, ops[..i], ops[i])
  }

  // ----- the writer's counters

  predicate KnowsBeats(g: Config, wr: Writer, before: seq<Op>) {
    && wr.started == Begun(before) && (wr.started ==> wr.hbTick == GridTick(g, wr.grid))
    && (forall x :: x in before && x.PutHeartbeat? ==> x.grid <= wr.grid)
    && (wr.started ==> exists x :: x in before && x.PutHeartbeat? && x.grid == wr.grid)
  }

  predicate Of(g: Config, x: Op, k: nat)
    requires g.Valid()
  {
    x.PutRecord? && BlockIndex(g, x.channel) == k
  }

  predicate KnowsLast(g: Config, last: nat, k: nat, before: seq<Op>)
    requires g.Valid()
  {
    && (forall x :: x in before && Of(g, x, k) ==> x.tick <= last)
    && (last == 0 || exists x :: x in before && Of(g, x, k) && x.tick == last)
  }

  predicate Knows(g: Config, wr: Writer, before: seq<Op>)
    requires g.Valid()
  {
    && |wr.last| == g.count && KnowsBeats(g, wr, before)
    && (forall k :: 0 <= k < g.count ==> KnowsLast(g, wr.last[k], k, before))
    && forall x :: x in before && x.PutRecord? ==> BlockIndex(g, x.channel) < g.count
  }

  lemma IndexIs(g: Config, channel: nat)
    requires g.Valid()
    ensures BlockIndex(g, channel) < g.count <==> exists k :: 0 <= k < g.count && OnBlock(g, channel, k)
  {
  }

  lemma SameIndex(g: Config, a: nat, b: nat)
    requires g.Valid() && BlockIndex(g, a) < g.count
    ensures BlockIndex(g, a) == BlockIndex(g, b) <==> a == b
  {
    var i, j := BlockIndex(g, a), BlockIndex(g, b);
    assert OnBlock(g, a, i) && (i == j ==> OnBlock(g, b, i));
  }

  lemma BeatIff(g: Config, wr: Writer, before: seq<Op>, grid: nat, levels: seq<Byte>)
    requires g.Valid() && Knows(g, wr, before) && |levels| == g.Nb()
    ensures WriteHeartbeat(g, wr, grid, levels).Wrote? <==> BeatInOrder(g, before, grid)
  {
    hide BlockIndex, HeartbeatBody, Crc8, GridTick;
    if BeatInOrder(g, before, grid) {
      forall k | 0 <= k < g.count
        ensures wr.last[k] <= GridTick(g, grid)
      {
        assert KnowsLast(g, wr.last[k], k, before);
      }
    }
    if WriteHeartbeat(g, wr, grid, levels).Wrote? {
      forall x | x in before
        ensures if x.PutHeartbeat? then x.grid < grid else x.tick <= GridTick(g, grid)
      {
        if x.PutRecord? {
          var k := BlockIndex(g, x.channel);
          assert Of(g, x, k) && KnowsLast(g, wr.last[k], k, before);
        }
      }
    }
  }

  lemma RecordIff(g: Config, wr: Writer, before: seq<Op>, tick: nat, channel: nat, level: nat)
    requires g.Valid() && Knows(g, wr, before)
    ensures WriteRecord(g, wr, tick, channel, level).Wrote? <==> RecordInOrder(g, before, tick, channel)
  {
    hide LeBytes, Pack, Crc8;
    IndexIs(g, channel);
    var k := BlockIndex(g, channel);
    if k < g.count && wr.started {
      RecordWithin(g, wr, before, tick, channel);
    }
  }

  lemma RecordWithin(g: Config, wr: Writer, before: seq<Op>, tick: nat, channel: nat)
    requires g.Valid() && Knows(g, wr, before) && BlockIndex(g, channel) < g.count && wr.started
    ensures
      var reference := Max(wr.last[BlockIndex(g, channel)], wr.hbTick);
      && (reference < tick <==>
          forall x :: x in before ==> if x.PutHeartbeat? then GridTick(g, x.grid) < tick else x.channel == channel ==> x.tick < tick)
      && (tick <= reference + g.c <==> exists x :: x in before && Reaches(g, x, channel, tick))
  {
    var k := BlockIndex(g, channel);
    var last := wr.last[k];
    assert KnowsLast(g, last, k, before);
    var b :| b in before && b.PutHeartbeat? && b.grid == wr.grid;
    hide BlockIndex, GridTick;
    forall x | x in before
      ensures if x.PutHeartbeat? then GridTick(g, x.grid) <= wr.hbTick else x.channel == channel ==> x.tick <= last
    {
      if x.PutHeartbeat? {
        GridMonotone(g, x.grid, wr.grid);
      } else {
        SameIndex(g, channel, x.channel);
      }
    }
    if last > 0 {
      var r :| r in before && Of(g, r, k) && r.tick == last;
      SameIndex(g, channel, r.channel);
    }
    assert tick <= wr.hbTick + g.c ==> Reaches(g, b, channel, tick);
  }

  lemma GridMonotone(g: Config, a: nat, b: nat)
    requires a <= b
    ensures GridTick(g, a) <= GridTick(g, b)
  {
    MulMonotone(a, b, g.c);
  }

  lemma BeatKnows(g: Config, wr: Writer, before: seq<Op>, op: Op)
    requires g.Valid() && Knows(g, wr, before) && op.PutHeartbeat? && OpFits(g, op) && WriteOp(g, wr, op).Wrote?
    ensures Knows(g, WriteOp(g, wr, op).writer, before + [op])
  {
    var after, now := before + [op], WriteOp(g, wr, op).writer;
    hide BlockIndex, HeartbeatBody, Crc8, GridTick;
    assert op in after;
    forall k | 0 <= k < g.count
      ensures KnowsLast(g, now.last[k], k, after)
    {
      assert KnowsLast(g, wr.last[k], k, before);
    }
  }

  lemma RecordKnows(g: Config, wr: Writer, before: seq<Op>, op: Op)
    requires g.Valid() && Knows(g, wr, before) && op.PutRecord? && WriteOp(g, wr, op).Wrote?
    ensures Knows(g, WriteOp(g, wr, op).writer, before + [op])
  {
    var after, now := before + [op], WriteOp(g, wr, op).writer;
    hide BlockIndex, LeBytes, Pack, Crc8, GridTick;
    assert op in after;
    var at := BlockIndex(g, op.channel);
    assert Of(g, op, at);
    forall k | 0 <= k < g.count
      ensures KnowsLast(g, now.last[k], k, after)
    {
      assert KnowsLast(g, wr.last[k], k, before);
    }
    assert Begun(before) == Begun(after);
    if wr.started {
      var b :| b in before && b.PutHeartbeat? && b.grid == wr.grid;
      assert b in after;
    }
  }

  /** One more call at the end. */
  lemma {:induction false} WriteOneMore(g: Config, wr: Writer, ops: seq<Op>, x: Op)
    requires g.Valid() && |wr.last| == g.count && OpsFit(g, ops) && OpFits(g, x) && OpsFit(g, ops + [x])
    ensures
      var f, all := WriteAll(g, wr, ops), WriteAll(g, wr, ops + [x]);
      && (all.Wrote? <==> f.Wrote? && WriteOp(g, f.writer, x).Wrote?)
      && (all.Wrote? ==> all.writer == WriteOp(g, f.writer, x).writer)
    decreases |ops|
  {
    hide WriteOp;
    if ops == [] {
      assert ops + [x] == [x] && [x][1..] == [];
    } else {
      assert (ops + [x])[0] == ops[0] && (ops + [x])[1..] == ops[1..] + [x] && OpFits(g, ops[0]);
      if WriteOp(g, wr, ops[0]).Wrote? {
        WriteOneMore(g, WriteOp(g, wr, ops[0]).writer, ops[1..], x);
      }
    }
  }

  lemma OrderOneMore(g: Config, front: seq<Op>, x: Op)
    requires g.Valid()
    ensures AllInOrder(g, front + [x]) <==> AllInOrder(g, front) && InOrder(g, front, x)
  {
    var all := front + [x];
    hide InOrder;
    assert all[..|front|] == front && all[|front|] == x;
    assert forall i :: 0 <= i < |front| ==> all[..i] == front[..i] && all[i] == front[i];
  }

  lemma {:induction false} Accepts(g: Config, ops: seq<Op>)
    requires g.Valid() && OpsFit(g, ops)
    ensures WriteAll(g, FreshWriter(g), ops).Wrote? <==> AllInOrder(g, ops)
    ensures WriteAll(g, FreshWriter(g), ops).Wrote? ==> Knows(g, WriteAll(g, FreshWriter(g), ops).writer, ops)
    decreases |ops|
  {
    if ops != [] {
      var front, x := ops[..|ops| - 1], ops[|ops| - 1];
      assert ops == front + [x] && OpFits(g, x);
      Accepts(g, front);
      WriteOneMore(g, FreshWriter(g), front, x);
      OrderOneMore(g, front, x);
      var f := WriteAll(g, FreshWriter(g), front);
      hide WriteAll, AllInOrder, Knows, RecordInOrder, BeatInOrder;
      if f.Wrote? {
        CallKnown(g, f.writer, front, x);
      }
    }
  }

  lemma CallKnown(g: Config, wr: Writer, before: seq<Op>, x: Op)
    requires g.Valid() && Knows(g, wr, before) && OpFits(g, x)
    ensures |wr.last| == g.count && (WriteOp(g, wr, x).Wrote? <==> InOrder(g, before, x))
    ensures WriteOp(g, wr, x).Wrote? ==> Knows(g, WriteOp(g, wr, x).writer, before + [x])
  {
    assert |wr.last| == g.count;
    hide Knows, WriteRecord, WriteHeartbeat, RecordInOrder, BeatInOrder;
    if x.PutRecord? {
      RecordIff(g, wr, before, x.tick, x.channel, x.level);
      if WriteOp(g, wr, x).Wrote? {
        RecordKnows(g, wr, before, x);
      }
    } else {
      BeatIff(g, wr, before, x.grid, x.levels);
      if WriteOp(g, wr, x).Wrote? {
        BeatKnows(g, wr, before, x);
      }
    }
  }

  /**
   * The writer takes a sequence of calls if and only if each is in order after those before it:
   * heartbeats rise and follow what came before their grid point, and a record follows what its
   * gap can count from, by at most a grid interval.
   */
  lemma {:induction false} AcceptedIff(g: Config, ops: seq<Op>)
    requires g.Valid() && OpsFit(g, ops)
    ensures WriteAll(g, FreshWriter(g), ops).Wrote? <==> AllInOrder(g, ops)
  {
    hide *;
    Accepts(g, ops);
  }
}
