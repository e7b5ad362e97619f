/** The index as it is built and read back: one lane per data channel, entries in one file. */
module Index {
  import opened Numbers
  import opened IndexLanes

  type Bytes = seq<Byte>

  const ENTRY_LEN: nat := 24

  /** An entry with its data channel. */
  datatype Line = Line(channel: nat, entry: Entry)

  predicate Fits(l: Line) {
    l.channel < Pow256(2) && l.entry.grid < Pow256(8) && l.entry.chunk < Pow256(8) && l.entry.payload < Pow256(4)
  }

  function LineBytes(l: Line): (s: Bytes)
    ensures |s| == ENTRY_LEN
  {
    LeBytes(l.entry.grid, 8) + LeBytes(l.entry.chunk, 8) + LeBytes(l.entry.payload, 4) + LeBytes(l.channel, 2) + LeBytes(0, 2)
  }

  function AllBytes(lines: seq<Line>): Bytes {
    if lines == [] then [] else LineBytes(lines[0]) + AllBytes(lines[1..])
  }

  function ReadLine(s: Bytes): Line
    requires |s| >= ENTRY_LEN
  {
    Line(LeValue(s[20..22]), Entry(LeValue(s[..8]), LeValue(s[8..16]), LeValue(s[16..20])))
  }

  /** As many whole entries as the bytes hold. */
  function ReadLines(s: Bytes): seq<Line> {
    if |s| < ENTRY_LEN then [] else [ReadLine(s)] + ReadLines(s[ENTRY_LEN..])
  }

  lemma LineReads(l: Line, more: Bytes)
    requires Fits(l)
    ensures ReadLine(LineBytes(l) + more) == l
  {
    var s := LineBytes(l) + more;
    LeRoundTrip(l.entry.grid, 8);
    LeRoundTrip(l.entry.chunk, 8);
    LeRoundTrip(l.entry.payload, 4);
    LeRoundTrip(l.channel, 2);
    hide LeBytes, LeValue, Pow256;
    assert s[..8] == LeBytes(l.entry.grid, 8) && s[8..16] == LeBytes(l.entry.chunk, 8);
    assert s[16..20] == LeBytes(l.entry.payload, 4) && s[20..22] == LeBytes(l.channel, 2);
  }

  /** The entries written read back, also with part of the next one after them. */
  lemma {:induction false} LinesRead(lines: seq<Line>, part: Bytes)
    requires (forall l :: l in lines ==> Fits(l)) && |part| < ENTRY_LEN
    ensures ReadLines(AllBytes(lines) + part) == lines
  {
    if lines == [] {
      assert AllBytes(lines) + part == part;
    } else {
      var l := lines[0];
      assert l in lines;
      LineReads(l, AllBytes(lines[1..]) + part);
      LinesRead(lines[1..], part);
      hide LineBytes, ReadLine, Fits;
      assert AllBytes(lines) + part == LineBytes(l) + (AllBytes(lines[1..]) + part);
      assert (AllBytes(lines) + part)[ENTRY_LEN..] == AllBytes(lines[1..]) + part;
    }
  }

  lemma {:induction false} AllBytesMore(lines: seq<Line>, l: Line)
    ensures AllBytes(lines + [l]) == AllBytes(lines) + LineBytes(l)
  {
    hide LineBytes;
    if lines == [] {
      assert [l][1..] == [];
    } else {
      AllBytesMore(lines[1..], l);
      assert (lines + [l])[1..] == lines[1..] + [l];
    }
  }

  // ----- the builder

  /** A lane's chunks, from head on still of use, in room for cap. */
  datatype Room = Room(spans: seq<Span>, head: nat, cap: nat, next: nat)

  predicate RoomOk(r: Room) {
    r.head <= |r.spans| <= r.cap
  }

  function LaneOf(r: Room): Lane
    requires RoomOk(r)
  {
    Lane(r.spans[r.head..], r.next)
  }

  class Builder {
    const k: nat
    var lanes: seq<Room>
    var out: Bytes
    ghost var lines: seq<Line>

    predicate Valid()
      reads this
    {
      k > 0 && forall d :: 0 <= d < |lanes| ==> RoomOk(lanes[d])
    }

    /** What the output holds. */
    ghost predicate Says()
      reads this
    {
      out == AllBytes(lines)
    }

    constructor (dataChannels: nat, k: nat)
      ensures Valid() && Says() && lines == [] && |lanes| == dataChannels
      ensures forall d :: 0 <= d < dataChannels ==> LaneOf(lanes[d]) == Lane([], 0)
      ensures this.k == if k > 0 then k else 1
    {
      this.k := if k > 0 then k else 1;
      lanes, out, lines := seq(dataChannels, _ => Room([], 0, 0, 0)), [], [];
    }

    /** A chunk at a file offset carries stream bytes from start on. */
    method Chunk(channel: nat, start: nat, len: nat, chunk: nat) returns (ok: bool)
      requires Valid()
      modifies this`lanes
      ensures Valid() && ok == (channel < |lanes|) && |lanes| == |old(lanes)|
      ensures forall d :: 0 <= d < |lanes| ==>
        LaneOf(lanes[d]) == if d == channel then AddChunk(old(LaneOf(lanes[d])), start, len, chunk) else old(LaneOf(lanes[d]))
    {
      ok := channel < |lanes|;
      if ok && len > 0 {
        var r := lanes[channel];
        if r.head > 0 && r.head == |r.spans| {
          r := r.(spans := [], head := 0);
        }
        if |r.spans| == r.cap {
          if r.head > 0 {
            r := r.(spans := r.spans[r.head..], head := 0);
          } else {
            r := r.(cap := if r.cap > 0 then 2 * r.cap else 16);
          }
        }
        assert r.spans[r.head..] == lanes[channel].spans[lanes[channel].head..];
        var s := Span(start, len, chunk);
        assert (r.spans + [s])[r.head..] == r.spans[r.head..] + [s];
        lanes := lanes[channel := r.(spans := r.spans + [s])];
      }
    }

    /** A heartbeat that checked good. */
    method Heartbeat(channel: nat, b: Beat) returns (ok: bool)
      requires Valid() && Says()
      modifies this`lanes, this`out, this`lines
      ensures Valid() && Says() && ok == (channel < |lanes|) && |lanes| == |old(lanes)|
      ensures forall d :: 0 <= d < |lanes| ==>
        LaneOf(lanes[d]) == if d == channel then AddBeat(old(LaneOf(lanes[d])), k, b).0 else old(LaneOf(lanes[d]))
      ensures channel < |lanes| ==>
        lines == old(lines) + if AddBeat(old(LaneOf(lanes[channel])), k, b).1.Some?
          then [Line(channel, AddBeat(old(LaneOf(lanes[channel])), k, b).1.value)] else []
      ensures channel >= |lanes| ==> lines == old(lines)
    {
      ok := channel < |lanes|;
      if !ok || b.grid < lanes[channel].next {
        return;
      }
      var r := lanes[channel];
      r := SkipBefore(r, b.pos);
      lanes := lanes[channel := r];
      if r.head == |r.spans| || r.spans[r.head].start > b.pos {
        return;
      }
      var s := r.spans[r.head];
      var line := Line(channel, Entry(b.grid, s.chunk, b.pos - s.start));
      AllBytesMore(lines, line);
      out, lines := out + LineBytes(line), lines + [line];
      lanes := lanes[channel := r.(next := NextGrid(b.grid, k))];
    }

    /** Chunks before pos are done with. */
    method SkipBefore(r: Room, pos: nat) returns (t: Room)
      requires RoomOk(r)
      ensures RoomOk(t) && LaneOf(t) == LaneOf(r).(spans := Prune(LaneOf(r).spans, pos))
    {
      var head := r.head;
      while head < |r.spans| && r.spans[head].start + r.spans[head].len <= pos
        invariant r.head <= head <= |r.spans|
        invariant Prune(r.spans[r.head..], pos) == Prune(r.spans[head..], pos)
      {
        assert r.spans[head..][1..] == r.spans[head + 1..];
        head := head + 1;
      }
      t := r.(head := head);
    }
  }
}
