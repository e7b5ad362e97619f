/**
 * What the I2C decoder keeps on every input: its segments tile its words, and it honours the
 * horizon it declares.
 */
module I2cKeeps {
  import opened Numbers
  import opened I2cLine

  // ----- segments tile the words

  /** The address byte is first of its segment; what follows a read address is the target's. */
  predicate SegmentOk(words: seq<Word>, s: Segment) {
    && s.first + s.count <= |words|
    && s.hasAddr == (s.count > 0)
    && (s.count > 0 ==> s.addr == words[s.first].value / 2 && s.read == (words[s.first].value % 2 == 1))
    && forall i :: s.first <= i < s.first + s.count ==>
         words[i].first == (i == s.first) && words[i].target == (i > s.first && s.read)
  }

  /** Where the next segment starts, after these. */
  function Reach(segs: seq<Segment>): nat {
    if segs == [] then 0 else segs[|segs| - 1].first + segs[|segs| - 1].count
  }

  /** The segments follow each other from the first word to the last. */
  predicate Tiled(c: Transaction) {
    && c.segs != [] && Reach(c.segs) == |c.words|
    && (forall k :: 0 <= k < |c.segs| ==> c.segs[k].first == Reach(c.segs[..k]) && SegmentOk(c.words, c.segs[k]))
    && forall i :: 0 <= i < |c.words| ==> c.words[i].value < 256
  }

  /** The bits read of a byte fit it. */
  predicate ByteOk(d: Decoder) {
    d.nbits <= 8 && d.byte < Pow2(d.nbits)
  }

  predicate Sound(d: Decoder) {
    ByteOk(d) && (d.cur.Some? ==> Tiled(d.cur.value))
  }

  predicate ItemOk(i: Item) {
    Tiled(i.t)
  }

  predicate OutOk(o: Out) {
    Sound(o.d) && (o.item.Some? ==> ItemOk(o.item.value))
  }

  lemma Pow2Of8()
    ensures Pow2(8) == 256
  {
    assert Pow2(2) == 4;
    assert Pow2(4) == 4 * Pow2(2);
    assert Pow2(6) == 4 * Pow2(4);
  }

  lemma ExtendKeeps(c: Transaction, t: nat)
    requires Tiled(c)
    ensures Tiled(c.(segs := Extend(c.segs, t)))
  {
    var e := Extend(c.segs, t);
    forall k | 0 <= k < |e|
      ensures e[k].first == Reach(e[..k]) && SegmentOk(c.words, e[k])
    {
      assert c.segs[k].first == Reach(c.segs[..k]) && SegmentOk(c.words, c.segs[k]);
      assert k > 0 ==> e[..k][k - 1] == c.segs[..k][k - 1];
    }
  }

  lemma StartKeeps(d: Decoder, t: nat)
    requires Sound(d)
    ensures Sound(Start(d, t))
  {
    if d.cur.Some? {
      ExtendKeeps(d.cur.value, t);
      SegmentKeeps(d.cur.value.(cut := d.cur.value.cut || d.nbits > 1, segs := Extend(d.cur.value.segs, t)), t);
    }
  }

  lemma SegmentKeeps(c: Transaction, t: nat)
    requires Tiled(c)
    ensures Tiled(NewSegment(c, t))
  {
    var e := NewSegment(c, t);
    forall k | 0 <= k < |e.segs|
      ensures e.segs[k].first == Reach(e.segs[..k]) && SegmentOk(e.words, e.segs[k])
    {
      assert e.segs[..k] == c.segs[..k];
      if k == |c.segs| {
        assert c.segs[..k] == c.segs;
      }
    }
  }

  lemma AddWordKeeps(c: Transaction, start: nat, t: nat, value: nat, nak: bool)
    requires Tiled(c) && value < 256
    ensures Tiled(AddWord(c, start, t, value, nak))
  {
    var e := AddWord(c, start, t, value, nak);
    var n := |c.segs| - 1;
    forall k | 0 <= k < |e.segs|
      ensures e.segs[k].first == Reach(e.segs[..k]) && SegmentOk(e.words, e.segs[k])
    {
      assert e.segs[..k] == c.segs[..k];
      assert c.segs[k].first == Reach(c.segs[..k]) && SegmentOk(c.words, c.segs[k]);
      if k < n {
        MoreWords(c.words, e.words, c.segs[k]);
      }
    }
  }

  lemma MoreWords(a: seq<Word>, b: seq<Word>, s: Segment)
    requires SegmentOk(a, s) && |a| <= |b| && a == b[..|a|]
    ensures SegmentOk(b, s)
  {
    assert forall i :: 0 <= i < |a| ==> b[i] == a[i];
  }

  lemma TakeBitKeeps(d: Decoder, t: nat, b: nat)
    requires Sound(d) && d.cur.Some? && b < 2
    ensures Sound(TakeBit(d, t, b))
  {
    Pow2Of8();
    var c := d.cur.value.(end := t);
    assert Tiled(c);
    if d.nbits == 8 {
      AddWordKeeps(c, d.byteStart, t, d.byte, b != 0);
    }
    hide Tiled;
  }

  lemma StopKeeps(d: Decoder, t: nat)
    requires Sound(d)
    ensures OutOk(Stop(d, t))
  {
    if d.cur.Some? {
      ExtendKeeps(d.cur.value, t);
    }
    hide Extend, TotalLength, FirstAddr, AnyBad;
  }

  lemma SdaKeeps(d: Decoder, t: nat, l: Line)
    requires Sound(d)
    ensures OutOk(SdaChange(d, t, l))
  {
    StartKeeps(d, t);
    StopKeeps(d, t);
    hide Start, Stop, Tiled;
  }

  lemma SclKeeps(d: Decoder, t: nat, l: Line)
    requires Sound(d)
    ensures Sound(SclChange(d, t, l))
  {
    var e := d.(scl := l);
    if d.cur.Some? {
      TakeBitKeeps(e, t, I2cLine.Bit(d.sda));
    }
    hide TakeBit, Tiled;
  }

  lemma GroupKeeps(d: Decoder, g: Group)
    requires Sound(d)
    ensures OutOk(TakeGroup(d, g))
  {
    hide Tiled, SclChange, SdaChange;
    var e := Learn(d.(group := None, last := g.tick), g);
    SclKeeps(e, g.tick, Low);
    var a := if g.scl == Low then SclChange(e, g.tick, Low) else e;
    SdaKeeps(a, g.tick, g.sda);
    var o := if g.sda != Unknown then SdaChange(a, g.tick, g.sda) else Out(a, None);
    SclKeeps(o.d, g.tick, High);
  }

  lemma UpToKeeps(d: Decoder, tick: nat)
    requires Sound(d)
    ensures OutOk(TakeUpTo(d, tick))
  {
    hide Tiled, TakeGroup;
    if d.group.Some? {
      GroupKeeps(d, d.group.value);
    }
  }

  lemma FinishKeeps(d: Decoder)
    requires Sound(d)
    ensures Sound(OnFinish(d).0) && forall i :: i in OnFinish(d).1 ==> ItemOk(i)
  {
    hide TakeGroup, Extend, Closed, Tiled;
    var o := if d.group.Some? then TakeGroup(d, d.group.value) else Out(d, None);
    if d.group.Some? {
      GroupKeeps(d, d.group.value);
    }
    if o.d.cur.Some? {
      ExtendKeeps(o.d.cur.value, o.d.last);
      EndKeeps(o.d.cur.value.(segs := Extend(o.d.cur.value.segs, o.d.last)), o.d.last);
    }
  }

  lemma EndKeeps(c: Transaction, end: nat)
    requires Tiled(c)
    ensures var e := c.(incomplete := true, end := end); Tiled(e) && Closed(e).t == e
  {
  }

  /** Every call keeps the segments tiling the words, of the open transaction and of each emitted. */
  lemma CallKeeps(d: Decoder, c: Call)
    requires Sound(d)
    ensures Sound(OnCall(d, c).0) && forall i :: i in OnCall(d, c).1 ==> ItemOk(i)
  {
    hide Tiled, TakeGroup, TakeUpTo, OnFinish;
    match c
    case Finish => FinishKeeps(d);
    case Record(tick, onScl, level) =>
      if d.group.Some? {
        GroupKeeps(d, d.group.value);
      }
    case Level(tick, onScl, level) =>
      UpToKeeps(d, tick);
      MarkKeeps(TakeUpTo(d, tick).d.cur, true);
    case Advance(tick) => UpToKeeps(d, tick);
    case Loss(start, end) => MarkKeeps(d.cur, true);
  }

  lemma MarkKeeps(c: Option<Transaction>, loss: bool)
    requires c.Some? ==> Tiled(c.value)
    ensures Mark(c, loss).Some? ==> Tiled(Mark(c, loss).value)
  {
  }

  /** On any input at all the segments of every item tile its words. */
  lemma {:induction false} SegmentsTile(d: Decoder, cs: seq<Call>)
    requires Sound(d)
    ensures Sound(Calls(d, cs).0) && forall i :: i in Calls(d, cs).1 ==> ItemOk(i)
    decreases |cs|
  {
    hide Sound, ItemOk, OnCall;
    if cs != [] {
      CallKeeps(d, cs[0]);
      SegmentsTile(OnCall(d, cs[0]).0, cs[1..]);
    }
  }

  // ----- the horizon

  /** Calls in the order the merge makes them: past what it said is done. */
  predicate Later(done: Option<nat>, c: Call) {
    match c
    case Record(tick, _, _) => done.None? || tick > done.value
    case Level(tick, _, _) => done.None? || tick > done.value
    case Advance(tick) => done.None? || tick > done.value
    case _ => true
  }

  function DoneAfter(done: Option<nat>, c: Call): Option<nat> {
    if c.Advance? then Some(c.tick) else done
  }

  /** What the decoder holds open starts at the horizon or later. */
  predicate Beyond(d: Decoder, h: nat, done: Option<nat>) {
    && (d.cur.Some? ==> d.cur.value.start >= h)
    && (d.group.Some? ==> d.group.value.tick >= h)
    && (if done.Some? then h <= done.value else h == 0)
  }

  predicate AllFrom(items: seq<Item>, h: nat) {
    forall i :: i in items ==> i.t.start >= h
  }

  lemma EdgesStart(d: Decoder, t: nat, h: nat)
    requires t >= h && (d.cur.Some? ==> d.cur.value.start >= h)
    ensures forall l :: var e := SclChange(d, t, l); e.cur.Some? ==> e.cur.value.start >= h
    ensures forall l :: var o := SdaChange(d, t, l);
              (o.d.cur.Some? ==> o.d.cur.value.start >= h) && (o.item.Some? ==> o.item.value.t.start >= h)
  {
    hide TotalLength, FirstAddr, AnyBad, Extend;
  }

  lemma GroupStart(d: Decoder, g: Group, h: nat)
    requires g.tick >= h && (d.cur.Some? ==> d.cur.value.start >= h)
    ensures
      var o := TakeGroup(d, g);
      && (o.d.cur.Some? ==> o.d.cur.value.start >= h) && (o.item.Some? ==> o.item.value.t.start >= h)
      && o.d.group == None
  {
    var e := Learn(d.(group := None, last := g.tick), g);
    EdgesStart(e, g.tick, h);
    var a := if g.scl == Low then SclChange(e, g.tick, Low) else e;
    EdgesStart(a, g.tick, h);
    var o := if g.sda != Unknown then SdaChange(a, g.tick, g.sda) else Out(a, None);
    EdgesStart(o.d, g.tick, h);
    EdgesGroup(e, g.tick);
    EdgesGroup(a, g.tick);
    EdgesGroup(o.d, g.tick);
    hide SclChange, SdaChange;
  }

  lemma EdgesGroup(d: Decoder, t: nat)
    ensures forall l :: SclChange(d, t, l).group == d.group && SdaChange(d, t, l).d.group == d.group
  {
    hide TotalLength, FirstAddr, AnyBad, Extend, AddWord;
  }

  lemma UpToStart(d: Decoder, tick: nat, h: nat, done: Option<nat>)
    requires Beyond(d, h, done)
    ensures
      var o := TakeUpTo(d, tick);
      && Beyond(o.d, h, done) && (o.item.Some? ==> o.item.value.t.start >= h)
      && (o.d.group.Some? ==> o.d.group.value.tick > tick)
  {
    hide TakeGroup;
    if d.group.Some? {
      GroupStart(d, d.group.value, h);
    }
  }

  /** No call emits an item before the last horizon, and the horizon never goes back. */
  lemma CallHonours(d: Decoder, h: nat, done: Option<nat>, c: Call)
    requires Beyond(d, h, done) && Later(done, c)
    ensures
      var (e, items) := OnCall(d, c);
      var g := if c.Advance? then Horizon(e, c.tick) else h;
      AllFrom(items, h) && h <= g && Beyond(e, g, DoneAfter(done, c))
  {
    hide TakeGroup, TakeUpTo, TotalLength, FirstAddr, AnyBad, Extend;
    match c
    case Finish =>
      if d.group.Some? {
        GroupStart(d, d.group.value, h);
      }
    case Record(tick, onScl, level) =>
      if d.group.Some? {
        GroupStart(d, d.group.value, h);
      }
    case Level(tick, onScl, level) => UpToStart(d, tick, h, done);
    case Advance(tick) => UpToStart(d, tick, h, done);
    case Loss(start, end) =>
  }

  /** The horizons declared over a run: 0, then at each advance. */
  predicate Honours(d: Decoder, h: nat, cs: seq<Call>)
    decreases |cs|
  {
    cs == [] ||
    var (e, items) := OnCall(d, cs[0]);
    var g := if cs[0].Advance? then Horizon(e, cs[0].tick) else h;
    AllFrom(items, h) && h <= g && Honours(e, g, cs[1..])
  }

  predicate InOrder(done: Option<nat>, cs: seq<Call>)
    decreases |cs|
  {
    cs == [] || (Later(done, cs[0]) && InOrder(DoneAfter(done, cs[0]), cs[1..]))
  }

  /**
   * The horizon contract: on every sequence of calls the merge can make, no item starts
   * before the horizon declared last, and the horizons never go back.
   */
  lemma {:induction false} HorizonKept(d: Decoder, h: nat, done: Option<nat>, cs: seq<Call>)
    requires Beyond(d, h, done) && InOrder(done, cs)
    ensures Honours(d, h, cs)
    decreases |cs|
  {
    hide Beyond, OnCall, Later, AllFrom;
    if cs != [] {
      CallHonours(d, h, done, cs[0]);
      var e := OnCall(d, cs[0]).0;
      HorizonKept(e, if cs[0].Advance? then Horizon(e, cs[0].tick) else h, DoneAfter(done, cs[0]), cs[1..]);
    }
  }
}
