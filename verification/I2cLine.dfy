/**
 * The I2C line decoder as a state machine over edges: START, STOP and bits, bytes with their
 * acknowledge bit, segments and transactions (NXP UM10204, sections 3.1.4 to 3.1.6).
 */
module I2cLine {
  import opened Numbers

  /** A line's level, or a level not known yet. */
  datatype Line = Unknown | Low | High

  function Other(l: Line): Line {
    match l
    case Unknown => Unknown
    case Low => High
    case High => Low
  }

  function Bit(l: Line): nat {
    if l == High then 1 else 0
  }

  /** A byte with its acknowledge bit; first of its segment, sent by the target. */
  datatype Word = Word(start: nat, end: nat, value: nat, nak: bool, first: bool, target: bool)

  /** A segment's words are count of the transaction's from first on, the address byte first. */
  datatype Segment = Segment(start: nat, end: nat, first: nat, count: nat, hasAddr: bool, addr: nat, read: bool)

  datatype Transaction = Transaction(start: nat, end: nat, words: seq<Word>, segs: seq<Segment>,
                                     cut: bool, loss: bool, incomplete: bool)

  /** A transaction as emitted: with its address, data length and what was not acknowledged. */
  datatype Item = Item(t: Transaction, addr: Option<nat>, len: nat, nakAddr: bool, nakData: bool)

  /** The edges of one tick, by line. */
  datatype Group = Group(tick: nat, scl: Line, sda: Line)

  datatype Decoder = Decoder(scl: Line, sda: Line, group: Option<Group>, cur: Option<Transaction>,
                             byte: nat, nbits: nat, byteStart: nat, last: nat)

  const IDLE := Decoder(Unknown, Unknown, None, None, 0, 0, 0, 0)

  // ----- segments

  function Extend(segs: seq<Segment>, t: nat): seq<Segment> {
    if segs != [] && segs[|segs| - 1].end < t
    then segs[|segs| - 1 := segs[|segs| - 1].(end := t)]
    else segs
  }

  function NewSegment(t: Transaction, tick: nat): Transaction {
    t.(segs := t.segs + [Segment(tick, tick, |t.words|, 0, false, 0, false)])
  }

  // ----- what a closed transaction says

  predicate Nak(words: seq<Word>, i: nat) {
    i < |words| && words[i].nak
  }

  /** Word i was refused and should not have been: not the address, nor the byte that ends a read. */
  predicate BadNak(words: seq<Word>, s: Segment, i: nat) {
    s.first < i < s.first + s.count && Nak(words, i) && (!s.read || i != s.first + s.count - 1)
  }

  predicate AnyBad(words: seq<Word>, s: Segment) {
    exists i :: s.first < i < s.first + s.count && BadNak(words, s, i)
  }

  function DataLength(s: Segment): nat {
    if s.hasAddr && s.count > 0 then s.count - 1 else 0
  }

  function TotalLength(segs: seq<Segment>): nat {
    if segs == [] then 0 else TotalLength(segs[..|segs| - 1]) + DataLength(segs[|segs| - 1])
  }

  function FirstAddr(segs: seq<Segment>): Option<nat> {
    if segs == [] then None
    else
      var a := FirstAddr(segs[..|segs| - 1]);
      if a.None? && segs[|segs| - 1].hasAddr then Some(segs[|segs| - 1].addr) else a
  }

  function Closed(t: Transaction): Item {
    Item(t, FirstAddr(t.segs), TotalLength(t.segs),
         exists k :: 0 <= k < |t.segs| && t.segs[k].hasAddr && Nak(t.words, t.segs[k].first),
         exists k :: 0 <= k < |t.segs| && t.segs[k].hasAddr && AnyBad(t.words, t.segs[k]))
  }

  // ----- edges

  /** What a step leaves, and the item it emits, if any. */
  datatype Out = Out(d: Decoder, item: Option<Item>)

  /**
   * Opens a transaction, or a segment in the one that is open. A single stray bit belongs to the
   * clock pulse of the condition itself; with two or more the byte was broken off.
   */
  function Start(d: Decoder, t: nat): Decoder {
    var c := if d.cur.Some?
             then d.cur.value.(cut := d.cur.value.cut || d.nbits > 1, segs := Extend(d.cur.value.segs, t))
             else Transaction(t, t, [], [], false, false, false);
    d.(cur := Some(NewSegment(c, t)), byte := 0, nbits := 0)
  }

  function Stop(d: Decoder, t: nat): Out {
    if d.cur.None? then Out(d, None)
    else
      var c := d.cur.value.(cut := d.cur.value.cut || d.nbits > 1, end := t, segs := Extend(d.cur.value.segs, t));
      Out(d.(cur := None), Some(Closed(c)))
  }

  /** A byte with its acknowledge bit, read at t. */
  function AddWord(c: Transaction, start: nat, t: nat, value: nat, nak: bool): Transaction {
    if c.segs == [] then c.(words := c.words + [Word(start, t, value, nak, false, false)])
    else
      var n := |c.segs| - 1;
      var s := c.segs[n];
      var first := s.count == 0;
      var w := Word(start, t, value, nak, first, !first && s.read);
      var u := if first then s.(hasAddr := true, addr := value / 2, read := value % 2 == 1) else s;
      c.(words := c.words + [w], segs := c.segs[n := u.(count := s.count + 1, end := t)])
  }

  /** Eight data bits, most significant first, then the acknowledge bit (0: acknowledged). */
  function TakeBit(d: Decoder, t: nat, b: nat): Decoder
    requires d.cur.Some?
  {
    var c := d.cur.value.(end := t);
    var start := if d.nbits == 0 then t else d.byteStart;
    if d.nbits < 8 then d.(cur := Some(c), byteStart := start, byte := 2 * d.byte + b, nbits := d.nbits + 1)
    else d.(cur := Some(AddWord(c, start, t, d.byte, b != 0)), byteStart := start, byte := 0, nbits := 0)
  }

  /** With the clock high a data edge is a condition, which opens or closes; else it is a bit to come. */
  function SdaChange(d: Decoder, t: nat, l: Line): Out {
    var o := if l != d.sda && d.scl == High
             then if l == Low then Out(Start(d, t), None) else Stop(d, t)
             else Out(d, None);
    Out(o.d.(sda := l), o.item)
  }

  /** Bits are read as SCL rises. */
  function SclChange(d: Decoder, t: nat, l: Line): Decoder {
    if l == d.scl then d
    else
      var e := d.(scl := l);
      if l == High && d.cur.Some? && d.sda != Unknown then TakeBit(e, t, Bit(d.sda)) else e
  }

  // ----- groups

  /** The first edge of a line also tells what the line was before it. */
  function Learn(d: Decoder, g: Group): Decoder {
    d.(scl := if d.scl == Unknown && g.scl != Unknown then Other(g.scl) else d.scl,
       sda := if d.sda == Unknown && g.sda != Unknown then Other(g.sda) else d.sda)
  }

  /** The edges of one tick, put in the order EdgesOf gives them. */
  function TakeEdges(d: Decoder, g: Group): Out {
    var a := if g.scl == Low then SclChange(d, g.tick, Low) else d;
    var o := if g.sda != Unknown then SdaChange(a, g.tick, g.sda) else Out(a, None);
    Out(if g.scl == High then SclChange(o.d, g.tick, High) else o.d, o.item)
  }

  function TakeGroup(d: Decoder, g: Group): Out {
    TakeEdges(Learn(d.(group := None, last := g.tick), g), g)
  }

  /** Takes the group, if it is of tick or before. */
  function TakeUpTo(d: Decoder, tick: nat): Out {
    if d.group.Some? && d.group.value.tick <= tick then TakeGroup(d, d.group.value) else Out(d, None)
  }

  // ----- what the session calls

  datatype Call =
    | Record(tick: nat, onScl: bool, level: Line)
    | Level(tick: nat, onScl: bool, level: Line)
    | Advance(tick: nat)
    | Loss(start: nat, end: nat)
    | Finish

  function InGroup(g: Group, onScl: bool, level: Line): Group {
    if onScl then g.(scl := level) else g.(sda := level)
  }

  function OnRecord(d: Decoder, tick: nat, onScl: bool, level: Line): Out {
    var o := if d.group.Some? && d.group.value.tick != tick then TakeGroup(d, d.group.value) else Out(d, None);
    var g := if o.d.group.None? then Group(tick, Unknown, Unknown) else o.d.group.value;
    Out(o.d.(group := Some(InGroup(g, onScl, level))), o.item)
  }

  function Mark(c: Option<Transaction>, loss: bool): Option<Transaction> {
    if c.Some? && loss then Some(c.value.(loss := true)) else c
  }

  /** A level told from outside wins; where it contradicts the decoder the transaction is marked. */
  function OnLevel(d: Decoder, tick: nat, onScl: bool, level: Line): Out {
    var o := TakeUpTo(d, tick);
    var l := if onScl then o.d.scl else o.d.sda;
    var e := o.d.(cur := Mark(o.d.cur, l != Unknown && l != level));
    Out(if onScl then e.(scl := level) else e.(sda := level), o.item)
  }

  /** Nothing more can come: what is open is emitted as incomplete. */
  function OnFinish(d: Decoder): (Decoder, seq<Item>) {
    var o := if d.group.Some? then TakeGroup(d, d.group.value) else Out(d, None);
    var items := if o.item.Some? then [o.item.value] else [];
    if o.d.cur.Some? then
      var c := o.d.cur.value.(incomplete := true, end := o.d.last, segs := Extend(o.d.cur.value.segs, o.d.last));
      (o.d.(cur := None), items + [Closed(c)])
    else (o.d, items)
  }

  function OnCall(d: Decoder, c: Call): (Decoder, seq<Item>) {
    match c
    case Finish => OnFinish(d)
    case Loss(start, end) => (d.(cur := Mark(d.cur, d.cur.Some? && d.cur.value.start <= end)), [])
    case _ =>
      var o := match c
               case Record(tick, onScl, level) => OnRecord(d, tick, onScl, level)
               case Level(tick, onScl, level) => OnLevel(d, tick, onScl, level)
               case Advance(tick) => TakeUpTo(d, tick)
               case _ => Out(d, None);
      (o.d, if o.item.Some? then [o.item.value] else [])
  }

  function Calls(d: Decoder, cs: seq<Call>): (Decoder, seq<Item>)
    decreases |cs|
  {
    if cs == [] then (d, [])
    else
      var (e, items) := OnCall(d, cs[0]);
      var (f, more) := Calls(e, cs[1..]);
      (f, items + more)
  }

  /** The horizon the decoder declares at an advance: no later item starts before it. */
  function Horizon(d: Decoder, tick: nat): nat {
    if d.cur.Some? then Min(tick, d.cur.value.start) else tick
  }

  /** What it asks for at an advance: the start of the transaction it is in. */
  function Asked(d: Decoder): seq<nat> {
    if d.cur.Some? then [d.cur.value.start] else []
  }
}
