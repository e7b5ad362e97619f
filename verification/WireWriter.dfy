/** The writer as it runs, proved against WireFormat. */
module WireWriter {
  import opened Numbers
  import opened WireFormat
  import opened WireParser

  class Encoder {
    const g: Config

    var crc: bv8
    var started: bool
    var grid: nat
    var hbTick: nat
    var last: seq<nat>
    var out: seq<Byte>

    ghost predicate Valid()
      reads this
    {
      g.Valid() && g.Ascending() && |last| == g.count
    }

    ghost function View(): Writer
      reads this
    {
      Writer(crc, started, grid, hbTick, last)
    }

    constructor (config: Config)
      requires config.Valid() && config.Ascending()
      ensures Valid() && g == config && View() == FreshWriter(config) && out == []
    {
      g := config;
      crc, started, grid, hbTick := CRC8_INIT, false, 0, 0;
      last := seq(config.count, _ => 0);
      out := [];
    }

    /** The block channel carrying channel, by bisection; count if none does. */
    method FindChannel(channel: nat) returns (k: nat)
      requires Valid()
      ensures k == BlockIndex(g, channel)
    {
      var lo, hi := g.first, g.first + g.count;
      while lo < hi
        invariant g.first <= lo <= hi <= g.first + g.count
        invariant forall i :: g.first <= i < lo ==> g.enabled[i] < channel
        invariant forall i :: hi <= i < g.first + g.count ==> channel <= g.enabled[i]
      {
        var mid := (lo + hi) / 2;
        if g.enabled[mid] < channel {
          lo := mid + 1;
        } else {
          hi := mid;
        }
      }
      k := if lo < g.first + g.count && g.enabled[lo] == channel then lo - g.first else g.count;
      OnlyThere(channel, k);
    }

    lemma OnlyThere(channel: nat, k: nat)
      requires Valid() && k <= g.count
      requires k < g.count ==> OnBlock(g, channel, k)
      requires k == g.count ==> forall i :: g.first <= i < g.first + g.count ==> g.enabled[i] != channel
      ensures BlockIndex(g, channel) == k
    {
      var r := BlockIndex(g, channel);
      assert r < g.count ==> g.enabled[g.first + r] == channel;
    }

    /** The output grows by the data, and the running CRC covers it. */
    method Emit(data: seq<Byte>)
      modifies this`crc, this`out
      ensures out == old(out) + data && crc == Crc8(old(crc), data)
    {
      out := out + data;
      crc := ComputeCrc8(crc, data);
    }

    /** v as w bytes, little endian. */
    method Encode(v: nat, w: nat) returns (bytes: seq<Byte>)
      ensures bytes == LeBytes(v, w)
    {
      bytes := [];
      var left := v;
      for b := 0 to w
        invariant LeBytes(v, w) == bytes + LeBytes(left, w - b)
      {
        ghost var rest := LeBytes(left / 256, w - b - 1);
        assert bytes + ([left % 256] + rest) == bytes + [left % 256] + rest;
        bytes := bytes + [left % 256];
        left := left / 256;
      }
    }

    /** Writes a record, or says why it cannot be written and changes nothing. */
    method PutRecord(tick: nat, channel: nat, level: nat) returns (error: Option<Error>)
      requires Valid()
      modifies this`crc, this`out, this`last
      ensures Valid()
      ensures
        match WriteRecord(g, old(View()), tick, channel, level)
        case Failed(e) => error == Some(e) && View() == old(View()) && out == old(out)
        case Wrote(writer, bytes) => error == None && View() == writer && out == old(out) + bytes
    {
      hide Crc8, LeBytes, Pack;
      var k := FindChannel(channel);
      if k == g.count || !started {
        return Some(Invalid);
      }
      var reference := if last[k] > hbTick then last[k] else hbTick;
      if tick <= reference || tick - reference > g.c {
        return Some(Range);
      }
      var gap := tick - reference;
      var bytes := Encode(Pack(if level != 0 then 2 * gap else 2 * gap - 1, g.t, k), g.w);
      last := last[k := tick];
      Emit(bytes);
      return None;
    }

    /** Whether some channel has a record past the tick. */
    method AnyPast(tick: nat) returns (yes: bool)
      requires Valid()
      ensures yes <==> exists k :: 0 <= k < g.count && last[k] > tick
    {
      for k := 0 to g.count
        invariant forall j :: 0 <= j < k ==> last[j] <= tick
      {
        if last[k] > tick {
          return true;
        }
      }
      return false;
    }

    /** Writes the heartbeat of a grid point and its check byte, or says why it cannot be. */
    method PutHeartbeat(newGrid: nat, levels: seq<Byte>) returns (error: Option<Error>)
      requires Valid() && |levels| == g.Nb()
      modifies this
      ensures Valid()
      ensures
        match WriteHeartbeat(g, old(View()), newGrid, levels)
        case Failed(e) => error == Some(e) && View() == old(View()) && out == old(out)
        case Wrote(writer, bytes) => error == None && View() == writer && out == old(out) + bytes
    {
      hide Crc8, GridTick;
      if started && newGrid <= grid {
        return Some(Invalid);
      }
      var past := AnyPast(GridTick(g, newGrid));
      if past {
        return Some(Range);
      }
      ghost var before, crc0 := out, crc;
      var zero := seq(g.w, _ => 0 as Byte);
      var sent := Masked(g, levels);
      Emit(zero + [(newGrid % 256) as Byte] + sent);
      assert zero + [(newGrid % 256) as Byte] + sent == HeartbeatBody(g, newGrid, levels);
      var check := crc as Byte;
      Emit([check]);
      assert out == before + (HeartbeatBody(g, newGrid, levels) + [check]);
      crc := CRC8_INIT;
      started := true;
      grid := newGrid;
      hbTick := GridTick(g, newGrid);
      return None;
    }
  }
}
