/** What a recording's items become in the file and in its index. */
module RecorderFile {
  import opened Numbers
  import Thc = ThcFile
  import opened Ledger
  import opened IndexLanes
  import Index

  const EV_OVERFLOW: nat := 0x0004
  const END_MAGIC: Bytes := [0x8E, 0x54, 0x48, 0x43, 0x45, 0x4E, 0x44, 0x0A]
  /** The size of a queued item beside its bytes, and how much the queue takes. */
  const ITEM_SIZE: nat := 48
  const QUEUE_MAX: nat := 0x200_0000
  const OVERFLOW_LEN: nat := 14

  /** An overflow event: its code, the bytes dropped and the control messages dropped. */
  function OverflowPayload(dropped: nat, controls: nat): Bytes {
    LeBytes(EV_OVERFLOW, 2) + LeBytes(dropped, 8) + LeBytes(controls, 4)
  }

  /** What a reader takes from an overflow event is what was dropped. */
  lemma OverflowReads(dropped: nat, controls: nat)
    requires dropped < Pow256(8) && controls < Pow256(4)
    ensures
      var p := OverflowPayload(dropped, controls);
      |p| == OVERFLOW_LEN && LeValue(p[..2]) == EV_OVERFLOW && LeValue(p[2..10]) == dropped && LeValue(p[10..14]) == controls
  {
    var p := OverflowPayload(dropped, controls);
    assert Pow256(2) == 0x1_0000;
    LeRoundTrip(EV_OVERFLOW, 2);
    LeRoundTrip(dropped, 8);
    LeRoundTrip(controls, 4);
    hide LeBytes, LeValue, Pow256;
    assert p[..2] == LeBytes(EV_OVERFLOW, 2) && p[2..10] == LeBytes(dropped, 8) && p[10..14] == LeBytes(controls, 4);
  }

  /** The chunk of an item that is one. */
  function ChunkOf(x: Item): Option<Thc.Chunk> {
    match x
    case Data(channel, time, _, bytes) => Some(Thc.Chunk(Thc.DATA, 0, channel, time, bytes))
    case Overflow(channel, time, dropped, controls) =>
      Some(Thc.Chunk(Thc.EVENT, 0, channel, time, OverflowPayload(dropped, controls)))
    case Control(flags, time, bytes) => Some(Thc.Chunk(Thc.CONTROL, flags, 0, time, bytes))
    case Event(channel, time, code, bytes) => Some(Thc.Chunk(Thc.EVENT, 0, channel, time, LeBytes(code, 2) + bytes))
    case End(time, bytes) => Some(Thc.Chunk(Thc.END, 0, 0, time, bytes))
    case _ => None
  }

  /** How much an item takes of the queue. */
  function Size(x: Item): nat {
    ITEM_SIZE + match x
      case Header(bytes) => |bytes|
      case Data(_, _, _, bytes) => |bytes|
      case Overflow(_, _, _, _) => OVERFLOW_LEN
      case Control(_, _, bytes) => |bytes|
      case Event(_, _, _, bytes) => 2 + |bytes|
      case Mark(_, _, _) => 0
      case End(_, bytes) => |bytes|
  }

  function Sizes(items: seq<Item>): nat {
    if items == [] then 0 else Size(items[0]) + Sizes(items[1..])
  }

  lemma {:induction false} SizesMore(a: seq<Item>, b: seq<Item>)
    ensures Sizes(a + b) == Sizes(a) + Sizes(b)
  {
    hide Size;
    if a == [] {
      assert a + b == b;
    } else {
      SizesMore(a[1..], b);
      assert (a + b)[1..] == a[1..] + b;
    }
  }

  // ----- the file

  /** What an item becomes at a file offset; a footer naming the END chunk follows it. */
  function ItemBytes(x: Item, at: nat): Bytes {
    match x
    case Header(bytes) => bytes
    case Mark(_, _, _) => []
    case End(_, _) => Thc.Encode(ChunkOf(x).value) + LeBytes(at, 8) + END_MAGIC
    case _ => Thc.Encode(ChunkOf(x).value)
  }

  function FileOf(items: seq<Item>): Bytes {
    if items == [] then []
    else
      var before := FileOf(items[..|items| - 1]);
      before + ItemBytes(items[|items| - 1], |before|)
  }

  lemma FileMore(items: seq<Item>, x: Item)
    ensures FileOf(items + [x]) == FileOf(items) + ItemBytes(x, |FileOf(items)|)
  {
    hide ItemBytes;
    assert (items + [x])[..|items|] == items;
  }

  // ----- the index

  /** What the writer's lanes are after some items of a file that begins at an offset. */
  datatype Indexed = Indexed(lanes: seq<Lane>, lines: seq<Index.Line>)

  function IndexItem(u: Indexed, k: nat, x: Item, at: nat): Indexed
    requires k > 0
  {
    match x
    case Data(d, _, start, bytes) =>
      if d < |u.lanes| then u.(lanes := u.lanes[d := AddChunk(u.lanes[d], start, |bytes|, at)]) else u
    case Mark(d, grid, pos) =>
      if d < |u.lanes| then
        var (l, e) := AddBeat(u.lanes[d], k, Beat(grid, pos));
        Indexed(u.lanes[d := l], u.lines + if e.Some? then [Index.Line(d, e.value)] else [])
      else u
    case _ => u
  }

  function IndexOf(channels: nat, k: nat, items: seq<Item>): (u: Indexed)
    requires k > 0
    ensures |u.lanes| == channels
  {
    if items == [] then Indexed(seq(channels, _ => Lane([], 0)), [])
    else
      var f, x := items[..|items| - 1], items[|items| - 1];
      IndexItem(IndexOf(channels, k, f), k, x, |FileOf(f)|)
  }

  lemma IndexMore(channels: nat, k: nat, items: seq<Item>, x: Item)
    requires k > 0
    ensures IndexOf(channels, k, items + [x]) == IndexItem(IndexOf(channels, k, items), k, x, |FileOf(items)|)
  {
    hide IndexItem, FileOf;
    assert (items + [x])[..|items|] == items;
  }

  /** What the items say to one channel's lane, in the terms of its stream. */
  function StepsOf(items: seq<Item>, d: nat): seq<Step> {
    if items == [] then []
    else
      var f, x := items[..|items| - 1], items[|items| - 1];
      StepsOf(f, d) + StepOf(x, d, |FileOf(f)|)
  }

  function StepOf(x: Item, d: nat, at: nat): seq<Step> {
    match x
    case Data(c, _, _, bytes) => if c == d then [Carry(|bytes|, at)] else []
    case Overflow(c, _, dropped, _) => if c == d then [Lose(dropped)] else []
    case Mark(c, grid, pos) => if c == d then [Beats(Beat(grid, pos))] else []
    case _ => []
  }

  /** A lane after some steps, and the stream position they lead to. */
  function LaneAfter(l: Lane, k: nat, at: nat, steps: seq<Step>): (Lane, nat)
    requires k > 0
    decreases |steps|
  {
    if steps == [] then (l, at)
    else
      match steps[0]
      case Carry(len, chunk) => LaneAfter(AddChunk(l, at, len, chunk), k, at + len, steps[1..])
      case Lose(len) => LaneAfter(l, k, at + len, steps[1..])
      case Beats(b) => LaneAfter(AddBeat(l, k, b).0, k, at, steps[1..])
  }

  lemma {:induction false} RunMore(l: Lane, k: nat, at: nat, steps: seq<Step>, s: Step)
    requires k > 0
    ensures
      var (t, end) := LaneAfter(l, k, at, steps);
      && LaneAfter(l, k, at, steps + [s]) == LaneAfter(t, k, end, [s])
      && Run(l, k, at, steps + [s]) == Run(l, k, at, steps) + Run(t, k, end, [s])
    decreases |steps|
  {
    hide AddBeat, AddChunk;
    if steps == [] {
      assert steps + [s] == [s];
      assert [] + Run(l, k, at, [s]) == Run(l, k, at, [s]);
    } else {
      assert (steps + [s])[1..] == steps[1..] + [s];
      match steps[0]
      case Carry(len, chunk) => RunMore(AddChunk(l, at, len, chunk), k, at + len, steps[1..], s);
      case Lose(len) => RunMore(l, k, at + len, steps[1..], s);
      case Beats(b) =>
        var (t, e) := AddBeat(l, k, b);
        RunMore(t, k, at, steps[1..], s);
        var (u, end) := LaneAfter(t, k, at, steps[1..]);
        assert Listed(e) + (Run(t, k, at, steps[1..]) + Run(u, k, end, [s]))
            == Listed(e) + Run(t, k, at, steps[1..]) + Run(u, k, end, [s]);
    }
  }

  /** The lines of one channel. */
  function LinesOf(lines: seq<Index.Line>, d: nat): seq<Entry> {
    if lines == [] then []
    else LinesOf(lines[..|lines| - 1], d) + if lines[|lines| - 1].channel == d then [lines[|lines| - 1].entry] else []
  }

  /** Data items say where they start. */
  predicate StartsRight(items: seq<Item>) {
    forall i :: 0 <= i < |items| && items[i].Data? ==> items[i].start == Offset(items[..i], items[i].channel)
  }

  lemma BalancedStarts(b: Books)
    requires Balanced(b)
    ensures StartsRight(b.items)
  {
    forall i | 0 <= i < |b.items| && b.items[i].Data?
      ensures b.items[i].start == Offset(b.items[..i], b.items[i].channel)
    {
      var d := b.items[i].channel;
      assert Accounts(b.items, d, b.offered[d], b.dropped[d]);
      assert InPlace(b.items, d, b.offered[d], i);
    }
  }

  /** The writer's index of a channel is the lane's over its stream, whatever lies between. */
  predicate Indexes(channels: nat, k: nat, items: seq<Item>, d: nat)
    requires k > 0 && d < channels
  {
    var u := IndexOf(channels, k, items);
    && LaneAfter(Lane([], 0), k, 0, StepsOf(items, d)) == (u.lanes[d], Offset(items, d))
    && LinesOf(u.lines, d) == Run(Lane([], 0), k, 0, StepsOf(items, d))
  }

  lemma {:induction false} WriterIndexes(channels: nat, k: nat, items: seq<Item>, d: nat)
    requires k > 0 && d < channels && StartsRight(items)
    ensures Indexes(channels, k, items, d)
  {
    if items != [] {
      var f, x := items[..|items| - 1], items[|items| - 1];
      forall i | 0 <= i < |f| && f[i].Data?
        ensures f[i].start == Offset(f[..i], f[i].channel)
      {
        assert items[i] == f[i] && items[..i] == f[..i];
      }
      assert f + [x] == items && (x.Data? ==> x.start == Offset(f, x.channel));
      hide Indexes;
      WriterIndexes(channels, k, f, d);
      WriterStep(channels, k, f, x, d);
    }
  }

  lemma WriterStep(channels: nat, k: nat, f: seq<Item>, x: Item, d: nat)
    requires k > 0 && d < channels && (x.Data? ==> x.start == Offset(f, x.channel)) && Indexes(channels, k, f, d)
    ensures Indexes(channels, k, f + [x], d)
  {
    hide Run, LaneAfter, Offset, StepsOf, IndexOf, FileOf, LinesOf, AddBeat, AddChunk;
    var u, at := IndexOf(channels, k, f), |FileOf(f)|;
    IndexMore(channels, k, f, x);
    StepsMore(f, x, d);
    OneMore(f, x, d);
    var l, steps, more := Lane([], 0), StepsOf(f, d), StepOf(x, d, at);
    if more == [] {
      assert steps + more == steps;
      OtherLines(u, k, x, at, d);
    } else {
      RunMore(l, k, 0, steps, more[0]);
      RunOne(u.lanes[d], k, Offset(f, d), more[0]);
      OwnLines(u, k, x, at, d);
    }
  }

  lemma OtherLines(u: Indexed, k: nat, x: Item, at: nat, d: nat)
    requires k > 0 && d < |u.lanes| && StepOf(x, d, at) == []
    ensures
      var v := IndexItem(u, k, x, at);
      |v.lanes| == |u.lanes| && v.lanes[d] == u.lanes[d] && LinesOf(v.lines, d) == LinesOf(u.lines, d)
  {
    hide AddBeat, AddChunk, LinesOf;
    assert u.lines + [] == u.lines;
    if x.Mark? && x.channel < |u.lanes| && AddBeat(u.lanes[x.channel], k, Beat(x.grid, x.pos)).1.Some? {
      LinesMore(u.lines, Index.Line(x.channel, AddBeat(u.lanes[x.channel], k, Beat(x.grid, x.pos)).1.value), d);
    }
  }

  lemma OwnLines(u: Indexed, k: nat, x: Item, at: nat, d: nat)
    requires k > 0 && d < |u.lanes| && StepOf(x, d, at) != []
    ensures
      var v := IndexItem(u, k, x, at);
      && |v.lanes| == |u.lanes|
      && v.lanes[d] == (if x.Data? then AddChunk(u.lanes[d], x.start, |x.bytes|, at)
                        else if x.Mark? then AddBeat(u.lanes[d], k, Beat(x.grid, x.pos)).0 else u.lanes[d])
      && LinesOf(v.lines, d)
      == LinesOf(u.lines, d) + if x.Mark? then Listed(AddBeat(u.lanes[d], k, Beat(x.grid, x.pos)).1) else []
  {
    hide AddBeat, AddChunk, LinesOf;
    assert u.lines + [] == u.lines && LinesOf(u.lines, d) + [] == LinesOf(u.lines, d);
    if x.Mark? && AddBeat(u.lanes[d], k, Beat(x.grid, x.pos)).1.Some? {
      LinesMore(u.lines, Index.Line(d, AddBeat(u.lanes[d], k, Beat(x.grid, x.pos)).1.value), d);
    }
  }

  lemma StepsMore(items: seq<Item>, x: Item, d: nat)
    ensures StepsOf(items + [x], d) == StepsOf(items, d) + StepOf(x, d, |FileOf(items)|)
  {
    hide StepOf, FileOf;
    assert (items + [x])[..|items|] == items;
  }

  lemma LinesMore(lines: seq<Index.Line>, l: Index.Line, d: nat)
    ensures LinesOf(lines + [l], d) == LinesOf(lines, d) + if l.channel == d then [l.entry] else []
  {
    assert (lines + [l])[..|lines|] == lines;
  }

  lemma RunOne(l: Lane, k: nat, at: nat, s: Step)
    requires k > 0
    ensures LaneAfter(l, k, at, [s])
         == if s.Carry? then (AddChunk(l, at, s.len, s.chunk), at + s.len)
            else if s.Lose? then (l, at + s.len)
            else (AddBeat(l, k, s.beat).0, at)
    ensures Run(l, k, at, [s]) == if s.Beats? then Listed(AddBeat(l, k, s.beat).1) else []
  {
    hide AddBeat, AddChunk;
    assert [s][1..] == [];
    if s.Beats? {
      var e := AddBeat(l, k, s.beat).1;
      assert Listed(e) + [] == Listed(e);
    }
  }

  // ----- the file reads back

  function ChunksOf(items: seq<Item>): seq<Thc.Chunk> {
    if items == [] then []
    else
      var x := items[|items| - 1];
      ChunksOf(items[..|items| - 1]) + if ChunkOf(x).Some? then [ChunkOf(x).value] else []
  }

  /** A recording's items: its header, and an END chunk if any at the end. */
  predicate Recorded(items: seq<Item>) {
    && items != [] && items[0].Header?
    && (forall i :: 0 < i < |items| ==> !items[i].Header?)
    && (forall i :: 0 <= i < |items| - 1 ==> !items[i].End?)
  }

  function Footer(items: seq<Item>): Bytes
    requires items != []
  {
    var x := items[|items| - 1];
    if x.End? then LeBytes(|FileOf(items[..|items| - 1])|, 8) + END_MAGIC else []
  }

  lemma {:induction false} EncodeAllMore(cs: seq<Thc.Chunk>, c: Thc.Chunk)
    ensures Thc.EncodeAll(cs + [c]) == Thc.EncodeAll(cs) + Thc.Encode(c)
  {
    hide Thc.Encode;
    if cs == [] {
      assert [c][1..] == [];
    } else {
      EncodeAllMore(cs[1..], c);
      assert (cs + [c])[1..] == cs[1..] + [c];
    }
  }

  /** A recording's file is its header, its chunks one after another, and a footer after END. */
  lemma {:induction false} FileIsChunks(items: seq<Item>)
    requires Recorded(items)
    ensures FileOf(items) == items[0].bytes + Thc.EncodeAll(ChunksOf(items)) + Footer(items)
    decreases |items|
  {
    var f, x := items[..|items| - 1], items[|items| - 1];
    if f == [] {
      assert items == [x];
      FileFirst(x);
    } else {
      RecordedFront(items);
      var h, cs := items[0].bytes, ChunksOf(f);
      ItemBytesAre(items);
      hide Recorded, FileOf, ItemBytes, Thc.Encode, Thc.EncodeAll, LeBytes, ChunksOf;
      FileIsChunks(f);
      FileMore(f, x);
      ChunksMore(f, x);
      var c := if ChunkOf(x).Some? then Thc.Encode(ChunkOf(x).value) else [];
      if ChunkOf(x).Some? {
        EncodeAllMore(cs, ChunkOf(x).value);
      } else {
        assert cs + [] == cs;
      }
      hide Footer, ChunkOf;
      Glue(h, Thc.EncodeAll(cs), c, Footer(items), FileOf(f), ItemBytes(x, |FileOf(f)|));
    }
  }

  lemma Glue(h: Bytes, a: Bytes, c: Bytes, d: Bytes, file: Bytes, more: Bytes)
    requires file == h + a + [] && more == c + d
    ensures file + more == h + (a + c) + d
  {
  }

  lemma FileFirst(x: Item)
    requires x.Header?
    ensures FileOf([x]) == x.bytes + Thc.EncodeAll(ChunksOf([x])) + Footer([x])
  {
    assert [x][..0] == [];
    assert FileOf([]) == [] && ChunksOf([x]) == [] && Footer([x]) == [];
    assert [] + x.bytes == x.bytes;
  }

  lemma ChunksMore(items: seq<Item>, x: Item)
    ensures ChunksOf(items + [x]) == ChunksOf(items) + if ChunkOf(x).Some? then [ChunkOf(x).value] else []
  {
    hide ChunkOf;
    assert (items + [x])[..|items|] == items;
  }

  lemma RecordedFront(items: seq<Item>)
    requires Recorded(items) && |items| > 1
    ensures
      var f, x := items[..|items| - 1], items[|items| - 1];
      Recorded(f) && Footer(f) == [] && f + [x] == items && f[0] == items[0] && !x.Header? && !f[|f| - 1].End?
  {
  }

  /** What an item adds to the file: its chunk, and a footer after an END chunk. */
  lemma ItemBytesAre(items: seq<Item>)
    requires items != [] && !items[|items| - 1].Header?
    ensures
      var x := items[|items| - 1];
      var at := |FileOf(items[..|items| - 1])|;
      ItemBytes(x, at) == (if ChunkOf(x).Some? then Thc.Encode(ChunkOf(x).value) else []) + Footer(items)
  {
    hide Thc.Encode, LeBytes, FileOf;
    var x := items[|items| - 1];
    if ChunkOf(x).Some? {
      var e := Thc.Encode(ChunkOf(x).value);
      assert e + [] == e;
      if x.End? {
        var at := |FileOf(items[..|items| - 1])|;
        assert e + LeBytes(at, 8) + END_MAGIC == e + (LeBytes(at, 8) + END_MAGIC);
      }
    }
  }

  lemma {:induction false} ChunksWritten(items: seq<Item>)
    requires Recorded(items) && forall x :: x in items && ChunkOf(x).Some? ==> Thc.Fits(ChunkOf(x).value)
    ensures Thc.Writes(ChunksOf(items), Footer(items))
    ensures !items[|items| - 1].End? ==> forall c :: c in ChunksOf(items) ==> c.kind != Thc.END
    decreases |items|
  {
    var f, x := items[..|items| - 1], items[|items| - 1];
    if f == [] {
      assert items == [x] && ChunksOf(items) == [];
    } else {
      RecordedFront(items);
      assert x in items;
      ChunksWritten(f);
    }
  }

  /**
   * Whatever prefix of a recording's file survives, a reader takes from it exactly the chunks
   * wholly inside it.
   */
  lemma RecordingReadsBack(items: seq<Item>, n: nat)
    requires Recorded(items) && forall x :: x in items && ChunkOf(x).Some? ==> Thc.Fits(ChunkOf(x).value)
    requires |items[0].bytes| <= n <= |FileOf(items)|
    ensures
      var h, cs := items[0].bytes, ChunksOf(items);
      var k := Thc.Within(cs, n - |h|);
      var (t, found) := Thc.ReadAll(FileOf(items)[..n], Thc.Reader(Thc.Reading, |h|));
      && found == Thc.Placed(cs[..k], |h|)
      && t.state == Thc.StopsAt(cs[..k], n - |h| - |Thc.EncodeAll(cs[..k])|)
  {
    hide ChunksOf, Footer, FileOf, Thc.EncodeAll, Thc.ReadAll, Thc.Placed, Thc.StopsAt, Thc.Within, Thc.Writes, Thc.Fits;
    FileIsChunks(items);
    ChunksWritten(items);
    var h, cs, footer := items[0].bytes, ChunksOf(items), Footer(items);
    CutFile(h, Thc.EncodeAll(cs), footer, n);
    Thc.ReadsWithin(h, cs, footer, n - |h|);
  }

  lemma CutFile(h: Bytes, a: Bytes, b: Bytes, n: nat)
    requires |h| <= n <= |h + a + b|
    ensures (h + a + b)[..n] == h + (a + b)[..n - |h|] && n - |h| <= |a + b|
  {
    assert h + a + b == h + (a + b);
  }
}
