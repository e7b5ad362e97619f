/**
 * Decoding undoes encoding: the edges of any list of segments, driven as START, bits,
 * repeated START and STOP, decode to one transaction with exactly those bytes, lanes and
 * acknowledge bits.
 */
module I2cTrip {
  import opened Numbers
  import opened I2cLine

  /** A byte to send, and whether it is not acknowledged. */
  datatype Sent = Sent(value: nat, nak: bool)

  /** The bytes of a segment, the address byte first. */
  type Bytes = seq<Sent>

  // ----- driving the lines

  /** A change of one line. */
  datatype Signal = Scl(level: Line) | Sda(level: Line)

  /** A signal at a tick. */
  datatype Edge = Edge(tick: nat, s: Signal)

  function LineOf(b: bool): Line {
    if b then High else Low
  }

  /** A bit: SDA changes, if it has to, while SCL is low. */
  function BitSignals(sda: Line, b: bool): seq<Signal> {
    [Scl(Low)] + (if sda != LineOf(b) then [Sda(LineOf(b))] else []) + [Scl(High)]
  }

  function BitsSignals(sda: Line, bits: seq<bool>): seq<Signal>
    decreases |bits|
  {
    if bits == [] then [] else BitSignals(sda, bits[0]) + BitsSignals(LineOf(bits[0]), bits[1..])
  }

  /** The level SDA is left at. */
  function LastLine(sda: Line, bits: seq<bool>): Line {
    if bits == [] then sda else LineOf(bits[|bits| - 1])
  }

  /** The n low bits of a value, most significant first. */
  function BitsOf(v: nat, n: nat): (b: seq<bool>)
    ensures |b| == n
  {
    if n == 0 then [] else BitsOf(v / 2, n - 1) + [v % 2 == 1]
  }

  function ByteBits(x: Sent): (b: seq<bool>)
    ensures |b| == 9
  {
    BitsOf(x.value, 8) + [x.nak]
  }

  function BytesSignals(sda: Line, bytes: Bytes): seq<Signal>
    decreases |bytes|
  {
    if bytes == [] then []
    else BitsSignals(sda, ByteBits(bytes[0])) + BytesSignals(LineOf(bytes[0].nak), bytes[1..])
  }

  function AfterBytes(sda: Line, bytes: Bytes): Line {
    if bytes == [] then sda else LineOf(bytes[|bytes| - 1].nak)
  }

  /** A repeated START: SDA is let high with SCL low, and falls once SCL is high. */
  function RestartSignals(sda: Line): seq<Signal> {
    BitSignals(sda, true) + [Sda(Low)]
  }

  /** A STOP: SDA is pulled low with SCL low, and rises once SCL is high. */
  function StopSignals(sda: Line): seq<Signal> {
    BitSignals(sda, false) + [Sda(High)]
  }

  /** What follows a START: its bytes, then the next segment or the STOP. */
  function TailSignals(segs: seq<Bytes>): seq<Signal>
    requires segs != []
    decreases |segs|
  {
    var sda := AfterBytes(Low, segs[0]);
    BytesSignals(Low, segs[0])
    + if |segs| == 1 then StopSignals(sda) else RestartSignals(sda) + TailSignals(segs[1..])
  }

  /** A whole transaction, from idle lines. */
  function Waveform(segs: seq<Bytes>): seq<Signal>
    requires segs != []
  {
    [Sda(Low)] + TailSignals(segs)
  }

  // ----- what is to be read back

  /** A word without its ticks. */
  datatype Read = Read(value: nat, nak: bool, first: bool, target: bool)

  function Reads(words: seq<Word>): (r: seq<Read>)
    ensures |r| == |words|
  {
    seq(|words|, i requires 0 <= i < |words| => Read(words[i].value, words[i].nak, words[i].first, words[i].target))
  }

  /** The address byte starts the segment; what follows a read address comes from the target. */
  function SegmentReads(bytes: Bytes): (r: seq<Read>)
    ensures |r| == |bytes|
  {
    seq(|bytes|, i requires 0 <= i < |bytes| =>
      Read(bytes[i].value, bytes[i].nak, i == 0, i > 0 && bytes[0].value % 2 == 1))
  }

  function AllReads(segs: seq<Bytes>): seq<Read> {
    if segs == [] then [] else SegmentReads(segs[0]) + AllReads(segs[1..])
  }

  predicate BytesOk(bytes: Bytes) {
    forall x :: x in bytes ==> x.value < 256
  }

  // ----- edges one by one

  function Signals(es: seq<Edge>): (r: seq<Signal>)
    ensures |r| == |es|
  {
    seq(|es|, i requires 0 <= i < |es| => es[i].s)
  }

  function Apply(d: Decoder, e: Edge): Out {
    match e.s
    case Scl(l) => Out(SclChange(d, e.tick, l), None)
    case Sda(l) => SdaChange(d, e.tick, l)
  }

  function Feed(d: Decoder, es: seq<Edge>): (Decoder, seq<Item>)
    decreases |es|
  {
    if es == [] then (d, [])
    else
      var o := Apply(d, es[0]);
      var (e, items) := Feed(o.d, es[1..]);
      (e, (if o.item.Some? then [o.item.value] else []) + items)
  }

  lemma {:induction false} FeedConcat(d: Decoder, a: seq<Edge>, b: seq<Edge>)
    ensures
      var r := Feed(d, a);
      Feed(d, a + b) == (Feed(r.0, b).0, r.1 + Feed(r.0, b).1)
    decreases |a|
  {
    hide Apply;
    if a == [] {
      assert a + b == b;
      assert [] + Feed(d, b).1 == Feed(d, b).1;
    } else {
      assert (a + b)[0] == a[0] && (a + b)[1..] == a[1..] + b;
      var o := Apply(d, a[0]);
      FeedConcat(o.d, a[1..], b);
      var x := if o.item.Some? then [o.item.value] else [];
      var r := Feed(o.d, a[1..]);
      assert x + (r.1 + Feed(r.0, b).1) == x + r.1 + Feed(r.0, b).1;
    }
  }

  /** Cutting the edges where the signals are cut. */
  lemma {:induction false} Cut(es: seq<Edge>, a: seq<Signal>, b: seq<Signal>)
    requires Signals(es) == a + b
    ensures |es| == |a| + |b| && es == es[..|a|] + es[|a|..]
    ensures Signals(es[..|a|]) == a && Signals(es[|a|..]) == b
  {
    assert Signals(es)[..|a|] == a && Signals(es)[|a|..] == b;
    assert Signals(es[..|a|]) == Signals(es)[..|a|];
    assert Signals(es[|a|..]) == Signals(es)[|a|..];
  }

  // ----- bits

  /** Both lines known, SCL high, in a transaction. */
  predicate Ready(d: Decoder) {
    d.scl == High && d.sda != Unknown && d.cur.Some? && d.cur.value.segs != []
  }

  lemma {:induction false} FeedOne(d: Decoder, e: Edge)
    ensures Feed(d, [e]) == (Apply(d, e).d, if Apply(d, e).item.Some? then [Apply(d, e).item.value] else [])
  {
    hide Apply;
    var o := Apply(d, e);
    assert Feed(o.d, [e][1..]) == (o.d, []);
    var x := if o.item.Some? then [o.item.value] else [];
    assert x + [] == x;
  }

  /** A bit's edges have SCL fall, SDA follow, and the bit read as SCL rises. */
  lemma {:induction false} FeedBit(d: Decoder, es: seq<Edge>, b: bool)
    requires Ready(d) && Signals(es) == BitSignals(d.sda, b)
    ensures Feed(d, es) == (TakeBit(d.(sda := LineOf(b)), es[|es| - 1].tick, if b then 1 else 0), [])
  {
    hide TakeBit, Start, Stop;
    var n := |es|;
    assert Signals(es)[0] == Scl(Low) && Signals(es)[n - 1] == Scl(High);
    var d1 := d.(scl := Low);
    var d2 := d1.(sda := LineOf(b));
    assert Feed(d, [es[0]]) == (d1, []) by { FeedOne(d, es[0]); }
    if d.sda != LineOf(b) {
      assert Signals(es)[1] == Sda(LineOf(b));
      assert Feed(d1, [es[1]]) == (d2, []) by { FeedOne(d1, es[1]); }
      assert es == [es[0]] + ([es[1]] + [es[2]]);
      FeedConcat(d1, [es[1]], [es[2]]);
      FeedConcat(d, [es[0]], [es[1]] + [es[2]]);
    } else {
      assert es == [es[0]] + [es[1]];
      FeedConcat(d, [es[0]], [es[1]]);
    }
    FeedOne(d2, es[n - 1]);
  }

  // ----- what the decoder holds, without ticks

  datatype SegmentShape = SegmentShape(first: nat, count: nat, hasAddr: bool, addr: nat, read: bool)

  /** The bits read, the words, the closed segments and the open one. */
  datatype Shape = Shape(sda: Line, nbits: nat, byte: nat, got: seq<Read>, done: seq<SegmentShape>, open: SegmentShape,
                         cut: bool, loss: bool, incomplete: bool, start: nat)

  function ShapeOfSegment(s: Segment): SegmentShape {
    SegmentShape(s.first, s.count, s.hasAddr, s.addr, s.read)
  }

  function ShapesOf(segs: seq<Segment>): (r: seq<SegmentShape>)
    ensures |r| == |segs|
  {
    seq(|segs|, i requires 0 <= i < |segs| => ShapeOfSegment(segs[i]))
  }

  function ShapeOf(d: Decoder): Shape
    requires Ready(d)
  {
    var c := d.cur.value;
    var n := |c.segs| - 1;
    Shape(d.sda, d.nbits, d.byte, Reads(c.words), ShapesOf(c.segs[..n]), ShapeOfSegment(c.segs[n]), c.cut, c.loss, c.incomplete, c.start)
  }

  /** A byte more in the open segment. */
  function WithByte(s: Shape, value: nat, nak: bool): Shape {
    var first := s.open.count == 0;
    var o := if first then s.open.(hasAddr := true, addr := value / 2, read := value % 2 == 1) else s.open;
    s.(got := s.got + [Read(value, nak, first, !first && s.open.read)], open := o.(count := s.open.count + 1), byte := 0, nbits := 0)
  }

  function WithBit(s: Shape, b: bool): Shape {
    var t := s.(sda := LineOf(b));
    if s.nbits < 8 then t.(byte := 2 * s.byte + (if b then 1 else 0), nbits := s.nbits + 1)
    else WithByte(t, s.byte, b)
  }

  lemma {:induction false} AddWordShape(c: Transaction, start: nat, t: nat, value: nat, nak: bool)
    requires c.segs != []
    ensures
      var e := AddWord(c, start, t, value, nak);
      var n := |c.segs| - 1;
      var first := c.segs[n].count == 0;
      && |e.segs| == n + 1 && ShapesOf(e.segs[..n]) == ShapesOf(c.segs[..n])
      && Reads(e.words) == Reads(c.words) + [Read(value, nak, first, !first && c.segs[n].read)]
      && e.cut == c.cut && e.loss == c.loss && e.incomplete == c.incomplete && e.start == c.start
      && ShapeOfSegment(e.segs[n]) ==
           (if first then SegmentShape(c.segs[n].first, 1, true, value / 2, value % 2 == 1)
            else ShapeOfSegment(c.segs[n]).(count := c.segs[n].count + 1))
  {
    var e := AddWord(c, start, t, value, nak);
    assert e.segs[..|c.segs| - 1] == c.segs[..|c.segs| - 1];
  }

  lemma {:induction false} BitShape(d: Decoder, t: nat, b: bool)
    requires Ready(d)
    ensures
      var e := TakeBit(d.(sda := LineOf(b)), t, if b then 1 else 0);
      Ready(e) && ShapeOf(e) == WithBit(ShapeOf(d), b)
  {
    if d.nbits >= 8 {
      AddWordShape(d.cur.value.(end := t), if d.nbits == 0 then t else d.byteStart, t, d.byte, b);
    }
    hide AddWord, Reads, ShapesOf;
  }

  function WithBits(s: Shape, bits: seq<bool>): Shape
    decreases |bits|
  {
    if bits == [] then s else WithBits(WithBit(s, bits[0]), bits[1..])
  }

  /** The bits' edges add the bits. */
  lemma {:induction false} FeedBits(d: Decoder, es: seq<Edge>, bits: seq<bool>)
    requires Ready(d) && Signals(es) == BitsSignals(d.sda, bits)
    ensures
      var (e, items) := Feed(d, es);
      items == [] && Ready(e) && ShapeOf(e) == WithBits(ShapeOf(d), bits)
    decreases |bits|
  {
    if bits == [] {
      assert es == [];
    } else {
      var a, b := BitSignals(d.sda, bits[0]), BitsSignals(LineOf(bits[0]), bits[1..]);
      Cut(es, a, b);
      var x, y := es[..|a|], es[|a|..];
      FeedBit(d, x, bits[0]);
      BitShape(d, x[|x| - 1].tick, bits[0]);
      var e := Feed(d, x).0;
      hide Feed, TakeBit, Ready, Signals, BitSignals;
      FeedBits(e, y, bits[1..]);
      FeedConcat(d, x, y);
      assert es == x + y;
    }
  }

  // ----- bytes

  function Shift(byte: nat, bits: seq<bool>): nat
    decreases |bits|
  {
    if bits == [] then byte else Shift(2 * byte + (if bits[0] then 1 else 0), bits[1..])
  }

  lemma {:induction false} ShiftMore(byte: nat, a: seq<bool>, b: bool)
    ensures Shift(byte, a + [b]) == 2 * Shift(byte, a) + (if b then 1 else 0)
    decreases |a|
  {
    if a == [] {
      assert ([] + [b])[1..] == [];
    } else {
      assert (a + [b])[0] == a[0] && (a + [b])[1..] == a[1..] + [b];
      ShiftMore(2 * byte + (if a[0] then 1 else 0), a[1..], b);
    }
  }

  lemma {:induction false} ShiftBits(v: nat, n: nat)
    requires v < Pow2(n)
    ensures Shift(0, BitsOf(v, n)) == v
  {
    if n > 0 {
      ShiftBits(v / 2, n - 1);
      ShiftMore(0, BitsOf(v / 2, n - 1), v % 2 == 1);
    }
  }

  lemma {:induction false} DataBits(s: Shape, bits: seq<bool>, last: bool)
    requires s.nbits + |bits| == 8
    ensures WithBits(s, bits + [last]) == WithByte(s.(sda := LineOf(last)), Shift(s.byte, bits), last)
    decreases |bits|
  {
    if bits == [] {
      assert ([] + [last])[0] == last && ([] + [last])[1..] == [];
    } else {
      assert (bits + [last])[0] == bits[0] && (bits + [last])[1..] == bits[1..] + [last];
      DataBits(WithBit(s, bits[0]), bits[1..], last);
    }
  }

  /** Nine bits from the start of a byte are that byte and its acknowledge bit. */
  lemma {:induction false} ByteShape(s: Shape, x: Sent)
    requires s.nbits == 0 && s.byte == 0 && x.value < 256
    ensures WithBits(s, ByteBits(x)) == WithByte(s.(sda := LineOf(x.nak)), x.value, x.nak)
  {
    assert Pow2(8) == 256 by {
      assert Pow2(2) == 4;
      assert Pow2(4) == 4 * Pow2(2);
      assert Pow2(6) == 4 * Pow2(4);
    }
    ShiftBits(x.value, 8);
    DataBits(s, BitsOf(x.value, 8), x.nak);
  }

  function WithBytes(s: Shape, bytes: Bytes): Shape
    decreases |bytes|
  {
    if bytes == [] then s
    else WithBytes(WithByte(s.(sda := LineOf(bytes[0].nak)), bytes[0].value, bytes[0].nak), bytes[1..])
  }

  lemma {:induction false} FeedBytes(d: Decoder, es: seq<Edge>, bytes: Bytes)
    requires Ready(d) && d.nbits == 0 && d.byte == 0 && BytesOk(bytes) && Signals(es) == BytesSignals(d.sda, bytes)
    ensures
      var (e, items) := Feed(d, es);
      items == [] && Ready(e) && ShapeOf(e) == WithBytes(ShapeOf(d), bytes) && e.nbits == 0 && e.byte == 0
    decreases |bytes|
  {
    if bytes == [] {
      assert es == [];
    } else {
      var a, b := BitsSignals(d.sda, ByteBits(bytes[0])), BytesSignals(LineOf(bytes[0].nak), bytes[1..]);
      Cut(es, a, b);
      var x, y := es[..|a|], es[|a|..];
      FeedBits(d, x, ByteBits(bytes[0]));
      assert bytes[0] in bytes;
      ByteShape(ShapeOf(d), bytes[0]);
      var e := Feed(d, x).0;
      assert ShapeOf(e) == WithByte(ShapeOf(d).(sda := LineOf(bytes[0].nak)), bytes[0].value, bytes[0].nak);
      hide Feed, BitsSignals, WithBits, Signals, ByteBits;
      FeedBytes(e, y, bytes[1..]);
      FeedConcat(d, x, y);
      assert es == x + y;
    }
  }

  /** What a segment's bytes read as, from count bytes on. */
  function Expect(bytes: Bytes, count: nat, read: bool): (r: seq<Read>)
    ensures |r| == |bytes|
    decreases |bytes|
  {
    if bytes == [] then []
    else
      var first := count == 0;
      [Read(bytes[0].value, bytes[0].nak, first, !first && read)]
      + Expect(bytes[1..], count + 1, if first then bytes[0].value % 2 == 1 else read)
  }

  lemma {:induction false} ExpectIs(bytes: Bytes, count: nat, read: bool)
    ensures forall i :: 0 <= i < |bytes| ==>
      Expect(bytes, count, read)[i] ==
        Read(bytes[i].value, bytes[i].nak, count == 0 && i == 0,
             (count > 0 || i > 0) && (if count > 0 then read else bytes[0].value % 2 == 1))
    decreases |bytes|
  {
    if bytes != [] {
      ExpectIs(bytes[1..], count + 1, if count == 0 then bytes[0].value % 2 == 1 else read);
    }
  }

  lemma {:induction false} SegmentExpect(bytes: Bytes)
    ensures Expect(bytes, 0, false) == SegmentReads(bytes)
  {
    ExpectIs(bytes, 0, false);
  }

  function OpenAfter(o: SegmentShape, bytes: Bytes): SegmentShape {
    if bytes == [] then o
    else if o.count == 0
    then o.(count := |bytes|, hasAddr := true, addr := bytes[0].value / 2, read := bytes[0].value % 2 == 1)
    else o.(count := o.count + |bytes|)
  }

  lemma {:induction false} BytesShape(s: Shape, bytes: Bytes)
    requires s.nbits == 0 && s.byte == 0
    ensures
      WithBytes(s, bytes) ==
        s.(sda := AfterBytes(s.sda, bytes), got := s.got + Expect(bytes, s.open.count, s.open.read),
           open := OpenAfter(s.open, bytes))
    decreases |bytes|
  {
    if bytes == [] {
      assert s.got + [] == s.got;
    } else {
      var t := WithByte(s.(sda := LineOf(bytes[0].nak)), bytes[0].value, bytes[0].nak);
      BytesShape(t, bytes[1..]);
      var first := s.open.count == 0;
      var r := [Read(bytes[0].value, bytes[0].nak, first, !first && s.open.read)];
      var more := Expect(bytes[1..], s.open.count + 1, if first then bytes[0].value % 2 == 1 else s.open.read);
      assert s.got + r + more == s.got + (r + more);
    }
  }

  // ----- START, repeated START, STOP

  /** A segment with nothing read yet. */
  function FreshSegment(first: nat): SegmentShape {
    SegmentShape(first, 0, false, 0, false)
  }

  lemma {:induction false} ExtendShape(segs: seq<Segment>, t: nat)
    ensures |Extend(segs, t)| == |segs| && ShapesOf(Extend(segs, t)) == ShapesOf(segs)
  {
  }

  /** A START after at most one bit opens a segment and cuts no byte. */
  lemma {:induction false} StartShape(d: Decoder, t: nat)
    requires Ready(d) && d.nbits <= 1
    ensures
      var e := Start(d, t).(sda := Low);
      && Ready(e)
      && ShapeOf(e) == ShapeOf(d).(sda := Low, nbits := 0, byte := 0, done := ShapesOf(d.cur.value.segs),
                                   open := FreshSegment(|d.cur.value.words|))
  {
    ExtendShape(d.cur.value.segs, t);
    var e := Start(d, t).(sda := Low);
    var n := |d.cur.value.segs|;
    assert e.cur.value.segs[..n] == Extend(d.cur.value.segs, t);
  }

  lemma {:induction false} ShapesSplit(segs: seq<Segment>)
    requires segs != []
    ensures ShapesOf(segs) == ShapesOf(segs[..|segs| - 1]) + [ShapeOfSegment(segs[|segs| - 1])]
  {
  }

  /** A repeated START: one bit is read and dropped, and a segment opened. */
  lemma {:induction false} FeedRestart(d: Decoder, es: seq<Edge>)
    requires Ready(d) && d.nbits == 0 && d.byte == 0 && Signals(es) == RestartSignals(d.sda)
    ensures
      var (e, items) := Feed(d, es);
      && items == [] && Ready(e)
      && ShapeOf(e) == ShapeOf(d).(sda := Low, done := ShapeOf(d).done + [ShapeOf(d).open],
                                   open := FreshSegment(|ShapeOf(d).got|))
  {
    var a := BitSignals(d.sda, true);
    Cut(es, a, [Sda(Low)]);
    var x, y := es[..|a|], es[|a|..];
    FeedBit(d, x, true);
    var t := x[|x| - 1].tick;
    var e := TakeBit(d.(sda := High), t, 1);
    BitShape(d, t, true);
    ShapesSplit(e.cur.value.segs);
    StartShape(e, y[0].tick);
    assert y == [y[0]] && Signals(y)[0] == Sda(Low);
    FeedOne(e, y[0]);
    FeedConcat(d, x, y);
    hide Feed, TakeBit, Start, Signals, BitSignals, Reads, ShapesOf;
  }

  /** What is emitted, without ticks. */
  predicate Says(i: Item, got: seq<Read>, segs: seq<SegmentShape>, start: nat, end: nat) {
    && Reads(i.t.words) == got && ShapesOf(i.t.segs) == segs
    && i.t.start == start && i.t.end == end && !i.t.cut && !i.t.loss && !i.t.incomplete
    && i == Closed(i.t)
  }

  /** A STOP: one bit is read and dropped, and the transaction emitted. */
  lemma {:induction false} FeedStop(d: Decoder, es: seq<Edge>)
    requires Ready(d) && d.nbits == 0 && d.byte == 0 && Signals(es) == StopSignals(d.sda)
    requires var s := ShapeOf(d); !s.cut && !s.loss && !s.incomplete
    ensures
      var (e, items) := Feed(d, es);
      var s := ShapeOf(d);
      && |items| == 1 && e.scl == High && e.sda == High && e.cur == None
      && Says(items[0], s.got, s.done + [s.open], s.start, es[|es| - 1].tick)
  {
    var a := BitSignals(d.sda, false);
    Cut(es, a, [Sda(High)]);
    var x, y := es[..|a|], es[|a|..];
    FeedBit(d, x, false);
    var t := x[|x| - 1].tick;
    var e := TakeBit(d.(sda := Low), t, 0);
    BitShape(d, t, false);
    ShapesSplit(e.cur.value.segs);
    assert y == [y[0]] && Signals(y)[0] == Sda(High) && y[0] == es[|es| - 1];
    FeedOne(e, y[0]);
    FeedConcat(d, x, y);
    StopSays(e, y[0].tick);
    hide Feed, TakeBit, Stop, Signals, BitSignals, Reads, ShapesOf, Says;
  }

  lemma {:induction false} StopSays(e: Decoder, t: nat)
    requires Ready(e) && e.nbits <= 1
    requires var c := e.cur.value; !c.cut && !c.loss && !c.incomplete
    ensures
      var o := Stop(e, t);
      var c := e.cur.value;
      o.d == e.(cur := None) && o.item.Some? && Says(o.item.value, Reads(c.words), ShapesOf(c.segs), c.start, t)
  {
    ExtendShape(e.cur.value.segs, t);
    hide Extend, TotalLength, FirstAddr, AnyBad, ShapesOf, Reads;
  }

  // ----- whole transactions

  /** Segments as the decoder counts them, the first one's first word being first. */
  function SegmentsFrom(segs: seq<Bytes>, first: nat): seq<SegmentShape>
    decreases |segs|
  {
    if segs == [] then [] else [OpenAfter(FreshSegment(first), segs[0])] + SegmentsFrom(segs[1..], first + |segs[0]|)
  }

  predicate AllBytesOk(segs: seq<Bytes>) {
    forall b :: b in segs ==> BytesOk(b)
  }

  /** Nothing cut, nothing half read. */
  predicate Clean(s: Shape) {
    !s.cut && !s.loss && !s.incomplete && s.nbits == 0 && s.byte == 0
  }

  /** Just after a START. */
  predicate Opened(d: Decoder) {
    Ready(d) && Clean(ShapeOf(d)) && d.sda == Low && ShapeOf(d).open == FreshSegment(|ShapeOf(d).got|)
  }

  /** The edges end in a STOP, with one transaction emitted. */
  predicate Emits(d: Decoder, es: seq<Edge>, got: seq<Read>, segs: seq<SegmentShape>, start: nat) {
    var (e, items) := Feed(d, es);
    && |es| > 0 && |items| == 1 && e.scl == High && e.sda == High && e.cur == None
    && Says(items[0], got, segs, start, es[|es| - 1].tick)
  }

  lemma {:induction false} EmitsConcat(d: Decoder, x: seq<Edge>, y: seq<Edge>, got: seq<Read>, segs: seq<SegmentShape>, start: nat)
    requires Feed(d, x).1 == [] && Emits(Feed(d, x).0, y, got, segs, start)
    ensures Emits(d, x + y, got, segs, start)
  {
    FeedConcat(d, x, y);
    hide Feed, Says;
  }

  /** A segment after a START, and all that follows it. */
  lemma {:induction false} FeedTail(d: Decoder, es: seq<Edge>, segs: seq<Bytes>)
    requires segs != [] && AllBytesOk(segs) && Signals(es) == TailSignals(segs) && Opened(d)
    ensures
      var s := ShapeOf(d);
      Emits(d, es, s.got + AllReads(segs), s.done + SegmentsFrom(segs, |s.got|), s.start)
    decreases |segs|, 1
  {
    var s := ShapeOf(d);
    var sda := AfterBytes(Low, segs[0]);
    var a := BytesSignals(Low, segs[0]);
    var b := if |segs| == 1 then StopSignals(sda) else RestartSignals(sda) + TailSignals(segs[1..]);
    Cut(es, a, b);
    var x, y := es[..|a|], es[|a|..];
    SegmentFed(d, x, segs[0]) by { assert segs[0] in segs; }
    var e := Feed(d, x).0;
    hide Feed, Signals, BytesSignals, WithBytes, TailSignals, AllReads, SegmentsFrom, Emits, Ready, Clean;
    if |segs| == 1 {
      LastSegment(e, y, s, segs);
    } else {
      NextSegment(e, y, s, segs);
    }
    EmitsConcat(d, x, y, s.got + AllReads(segs), s.done + SegmentsFrom(segs, |s.got|), s.start);
  }

  /** The shape after a segment's bytes. */
  function AfterSegment(s: Shape, bytes: Bytes): Shape {
    s.(sda := AfterBytes(Low, bytes), got := s.got + SegmentReads(bytes), open := OpenAfter(s.open, bytes))
  }

  lemma {:induction false} SegmentFed(d: Decoder, x: seq<Edge>, bytes: Bytes)
    requires Opened(d) && BytesOk(bytes) && Signals(x) == BytesSignals(Low, bytes)
    ensures
      var e := Feed(d, x).0;
      && Feed(d, x).1 == [] && Ready(e) && e.sda == AfterBytes(Low, bytes)
      && ShapeOf(e) == AfterSegment(ShapeOf(d), bytes) && Clean(ShapeOf(e))
  {
    FeedBytes(d, x, bytes);
    BytesShape(ShapeOf(d), bytes);
    SegmentExpect(bytes);
    hide Feed, Signals, BytesSignals, WithBytes;
  }

  /** The STOP after the last segment. */
  lemma {:induction false} LastSegment(e: Decoder, y: seq<Edge>, s: Shape, segs: seq<Bytes>)
    requires |segs| == 1 && Ready(e) && Clean(ShapeOf(e)) && s.open == FreshSegment(|s.got|)
    requires ShapeOf(e) == AfterSegment(s, segs[0]) && Signals(y) == StopSignals(e.sda)
    ensures Emits(e, y, s.got + AllReads(segs), s.done + SegmentsFrom(segs, |s.got|), s.start)
  {
    FeedStop(e, y);
    Totals(s, segs);
    assert segs[1..] == [] && |y| > 0;
    hide Feed, Signals, BitSignals, Says, Ready, SegmentReads, OpenAfter;
    assert AfterSegment(s, segs[0]).got + [] == AfterSegment(s, segs[0]).got;
    assert s.done + [OpenAfter(s.open, segs[0])] + [] == s.done + [OpenAfter(s.open, segs[0])];
  }

  /** The repeated START and what follows it. */
  lemma {:induction false} NextSegment(e: Decoder, y: seq<Edge>, s: Shape, segs: seq<Bytes>)
    requires |segs| > 1 && AllBytesOk(segs) && Ready(e) && Clean(ShapeOf(e)) && s.open == FreshSegment(|s.got|)
    requires ShapeOf(e) == AfterSegment(s, segs[0]) && Signals(y) == RestartSignals(e.sda) + TailSignals(segs[1..])
    ensures Emits(e, y, s.got + AllReads(segs), s.done + SegmentsFrom(segs, |s.got|), s.start)
    decreases |segs|, 0
  {
    hide *;
    var a := RestartSignals(e.sda);
    Cut(y, a, TailSignals(segs[1..]));
    var u, v := y[..|a|], y[|a|..];
    RestartOpens(e, u);
    var f := Feed(e, u).0;
    Totals(s, segs);
    RestOk(segs);
    FeedTail(f, v, segs[1..]);
    AfterSegmentIs(s, segs[0]);
    EmitsConcat(e, u, v, s.got + AllReads(segs), s.done + SegmentsFrom(segs, |s.got|), s.start);
  }

  lemma RestOk(segs: seq<Bytes>)
    requires segs != [] && AllBytesOk(segs)
    ensures AllBytesOk(segs[1..])
  {
  }

  lemma {:induction false} AfterSegmentIs(s: Shape, bytes: Bytes)
    ensures
      var t := AfterSegment(s, bytes);
      t.start == s.start && t.done == s.done && t.open == OpenAfter(s.open, bytes)
  {
  }

  lemma {:induction false} RestartOpens(e: Decoder, u: seq<Edge>)
    requires Ready(e) && Clean(ShapeOf(e)) && Signals(u) == RestartSignals(e.sda)
    ensures
      var f := Feed(e, u).0;
      && Feed(e, u).1 == [] && Opened(f) && ShapeOf(f).got == ShapeOf(e).got && ShapeOf(f).start == ShapeOf(e).start
      && ShapeOf(f).done == ShapeOf(e).done + [ShapeOf(e).open]
  {
    FeedRestart(e, u);
    ShapeFields(Feed(e, u).0);
    hide Feed, Signals, RestartSignals;
  }

  lemma {:induction false} ShapeFields(d: Decoder)
    requires Ready(d)
    ensures ShapeOf(d).nbits == d.nbits && ShapeOf(d).byte == d.byte && ShapeOf(d).sda == d.sda
  {
  }

  lemma {:induction false} Totals(s: Shape, segs: seq<Bytes>)
    requires segs != [] && s.open == FreshSegment(|s.got|)
    ensures AfterSegment(s, segs[0]).got + AllReads(segs[1..]) == s.got + AllReads(segs)
    ensures |AfterSegment(s, segs[0]).got| == |s.got| + |segs[0]|
    ensures
      s.done + [OpenAfter(s.open, segs[0])] + SegmentsFrom(segs[1..], |s.got| + |segs[0]|)
      == s.done + SegmentsFrom(segs, |s.got|)
  {
    hide OpenAfter, SegmentReads;
    assert s.got + SegmentReads(segs[0]) + AllReads(segs[1..]) == s.got + (SegmentReads(segs[0]) + AllReads(segs[1..]));
    var o, more := [OpenAfter(s.open, segs[0])], SegmentsFrom(segs[1..], |s.got| + |segs[0]|);
    assert s.done + o + more == s.done + (o + more);
  }

  /**
   * Decoding undoes encoding: from idle lines, the edges of any segments decode to one
   * transaction that has exactly their bytes, lanes, acknowledge bits and segments, from the
   * first edge to the last, with nothing cut or missing.
   */
  lemma {:induction false} DecodeUndoesEncode(d: Decoder, es: seq<Edge>, segs: seq<Bytes>)
    requires d.scl == High && d.sda == High && d.cur == None
    requires segs != [] && AllBytesOk(segs) && Signals(es) == Waveform(segs)
    ensures |es| > 0 && Emits(d, es, AllReads(segs), SegmentsFrom(segs, 0), es[0].tick)
  {
    Cut(es, [Sda(Low)], TailSignals(segs));
    var x, y := es[..1], es[1..];
    assert x == [es[0]] && Signals(x)[0] == Sda(Low);
    FeedOne(d, es[0]);
    var e := Feed(d, x).0;
    assert Opened(e) && ShapeOf(e).got == [] && ShapeOf(e).done == [] && ShapeOf(e).start == es[0].tick;
    hide Feed, Signals, TailSignals, AllReads, SegmentsFrom, Emits, Opened, ShapeOf;
    FeedTail(e, y, segs);
    assert [] + AllReads(segs) == AllReads(segs) && [] + SegmentsFrom(segs, 0) == SegmentsFrom(segs, 0);
    EmitsConcat(d, x, y, AllReads(segs), SegmentsFrom(segs, 0), es[0].tick);
  }
}
