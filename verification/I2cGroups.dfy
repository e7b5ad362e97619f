/**
 * From the calls of the session to edges: the records of a tick, in whatever order they come
 * and wherever advances and heartbeats fall between ticks, are taken as that tick's edges in
 * the order valid I2C implies. So a transaction driven on the lines is decoded exactly.
 */
module I2cGroups {
  import opened Numbers
  import opened I2cLine
  import opened I2cTrip

  /** A group as up to three edges, in the only order a legal transfer allows. */
  function EdgesOf(g: Group): seq<Edge> {
    (if g.scl == Low then [Edge(g.tick, Scl(Low))] else [])
    + (if g.sda != Unknown then [Edge(g.tick, Sda(g.sda))] else [])
    + (if g.scl == High then [Edge(g.tick, Scl(High))] else [])
  }

  function AllEdges(gs: seq<Group>): seq<Edge> {
    if gs == [] then [] else AllEdges(gs[..|gs| - 1]) + EdgesOf(gs[|gs| - 1])
  }

  /** The records of the calls, by tick. */
  function Groups(cs: seq<Call>): seq<Group> {
    if cs == [] then []
    else
      var gs := Groups(cs[..|cs| - 1]);
      match cs[|cs| - 1]
      case Record(tick, onScl, level) =>
        if gs != [] && gs[|gs| - 1].tick == tick
        then gs[|gs| - 1 := InGroup(gs[|gs| - 1], onScl, level)]
        else gs + [InGroup(Group(tick, Unknown, Unknown), onScl, level)]
      case _ => gs
  }

  /** The decoder without its pending group. */
  function Strip(d: Decoder): Decoder {
    d.(group := None, last := 0)
  }

  lemma {:induction false} ApplyStrip(d: Decoder, e: Edge)
    ensures Apply(Strip(d), e) == Out(Strip(Apply(d, e).d), Apply(d, e).item)
  {
    hide Extend, Closed, AddWord;
  }

  lemma {:induction false} FeedStrip(d: Decoder, es: seq<Edge>)
    ensures Feed(Strip(d), es) == (Strip(Feed(d, es).0), Feed(d, es).1)
    decreases |es|
  {
    if es != [] {
      ApplyStrip(d, es[0]);
      hide Apply, Strip;
      FeedStrip(Apply(d, es[0]).d, es[1..]);
    }
  }

  /** Both lines known. */
  predicate Known(d: Decoder) {
    d.scl != Unknown && d.sda != Unknown
  }

  function Items(o: Out): seq<Item> {
    if o.item.Some? then [o.item.value] else []
  }

  /** Taking a group is feeding its edges. */
  lemma {:induction false} GroupIsEdges(d: Decoder, g: Group)
    requires Known(d)
    ensures
      var o := TakeGroup(d, g);
      Feed(Strip(d), EdgesOf(g)) == (Strip(o.d), Items(o)) && o.d.group == None && Known(o.d)
  {
    var e := d.(group := None, last := g.tick);
    assert Learn(e, g) == e && Strip(e) == Strip(d);
    var x := if g.scl == Low then [Edge(g.tick, Scl(Low))] else [];
    var y := if g.sda != Unknown then [Edge(g.tick, Sda(g.sda))] else [];
    var z := if g.scl == High then [Edge(g.tick, Scl(High))] else [];
    var a := if g.scl == Low then SclChange(e, g.tick, Low) else e;
    var o := if g.sda != Unknown then SdaChange(a, g.tick, g.sda) else Out(a, None);
    var f := if g.scl == High then SclChange(o.d, g.tick, High) else o.d;
    EdgeFed(e, x);
    EdgeFed(a, y);
    EdgeFed(o.d, z);
    ChangesKeep(e, g.tick, Low);
    ChangesKeep(a, g.tick, g.sda);
    ChangesKeep(o.d, g.tick, High);
    hide SclChange, SdaChange, Feed;
    FeedConcat(e, x, y);
    FeedConcat(e, x + y, z);
    assert [] + Items(o) == Items(o) && Items(o) + [] == Items(o);
    assert Feed(e, x + y + z) == (f, Items(o));
    FeedStrip(e, x + y + z);
  }

  lemma {:induction false} EdgeFed(d: Decoder, es: seq<Edge>)
    requires |es| <= 1
    ensures Feed(d, es) == if es == [] then (d, []) else (Apply(d, es[0]).d, Items(Apply(d, es[0])))
  {
    hide Apply;
    if es != [] {
      assert es == [es[0]];
      FeedOne(d, es[0]);
    }
  }

  /** Edges leave the group alone and the lines known. */
  lemma {:induction false} ChangesKeep(d: Decoder, t: nat, l: Line)
    requires Known(d)
    ensures SclChange(d, t, l).group == d.group && SdaChange(d, t, l).d.group == d.group
    ensures l != Unknown ==> Known(SclChange(d, t, l)) && Known(SdaChange(d, t, l).d)
  {
    hide Extend, Closed, AddWord;
  }

  // ----- calls

  /** Where the records so far leave the decoder, all taken. */
  function Fed(d: Decoder, cs: seq<Call>): (Decoder, seq<Item>) {
    Feed(Strip(d), AllEdges(Groups(cs)))
  }

  function LineAfter(d: Decoder, cs: seq<Call>, onScl: bool): Line {
    if onScl then Fed(d, cs).0.scl else Fed(d, cs).0.sda
  }

  /** Up to which tick everything has been given, by the advances and the heartbeats. */
  function DoneBy(cs: seq<Call>): Option<nat> {
    if cs == [] then None
    else
      var done := DoneBy(cs[..|cs| - 1]);
      match cs[|cs| - 1]
      case Level(tick, _, _) => if done.None? || tick > done.value then Some(tick) else done
      case Advance(tick) => if done.None? || tick > done.value then Some(tick) else done
      case _ => done
  }

  /**
   * The next call is one the merge can make of lines without losses: records in tick order,
   * past what is done; heartbeats and advances at or past the records, a heartbeat saying the
   * level its line is at.
   */
  predicate Next(d: Decoder, cs: seq<Call>, c: Call) {
    var gs, done := Groups(cs), DoneBy(cs);
    match c
    case Record(tick, onScl, level) =>
      level != Unknown && (gs != [] ==> gs[|gs| - 1].tick <= tick) && (done.None? || done.value < tick)
    case Level(tick, onScl, level) => (gs != [] ==> gs[|gs| - 1].tick <= tick) && level == LineAfter(d, cs, onScl)
    case Advance(tick) => gs != [] ==> gs[|gs| - 1].tick <= tick
    case _ => false
  }

  predicate AllNext(d: Decoder, cs: seq<Call>) {
    cs == [] || (AllNext(d, cs[..|cs| - 1]) && Next(d, cs[..|cs| - 1], cs[|cs| - 1]))
  }

  /** e has taken all groups but perhaps the last, which it holds until something is past it. */
  predicate Holds(d: Decoder, cs: seq<Call>, e: Decoder, items: seq<Item>) {
    var gs := Groups(cs);
    && Known(e)
    && if e.group.None?
       then Fed(d, cs) == (Strip(e), items) && (gs != [] ==> DoneBy(cs).Some? && gs[|gs| - 1].tick <= DoneBy(cs).value)
       else gs != [] && e.group.value == gs[|gs| - 1]
            && Feed(Strip(d), AllEdges(gs[..|gs| - 1])) == (Strip(e), items)
            && (DoneBy(cs).None? || DoneBy(cs).value < gs[|gs| - 1].tick)
  }

  /** Taking the group held takes all there is. */
  lemma {:induction false} HeldTaken(d: Decoder, cs: seq<Call>, e: Decoder, items: seq<Item>)
    requires Holds(d, cs, e, items) && e.group.Some?
    ensures
      var o := TakeGroup(e, e.group.value);
      Fed(d, cs) == (Strip(o.d), items + Items(o)) && o.d.group == None && Known(o.d)
  {
    var gs := Groups(cs);
    var g := gs[|gs| - 1];
    var front := AllEdges(gs[..|gs| - 1]);
    GroupIsEdges(e, g);
    hide TakeGroup, Feed, EdgesOf;
    FeedConcat(Strip(d), front, EdgesOf(g));
  }

  lemma {:induction false} GroupsSnoc(cs: seq<Call>, c: Call)
    ensures (cs + [c])[..|cs|] == cs && (cs + [c])[|cs|] == c
    ensures
      var gs := Groups(cs);
      Groups(cs + [c]) ==
        match c
        case Record(tick, onScl, level) =>
          if gs != [] && gs[|gs| - 1].tick == tick
          then gs[|gs| - 1 := InGroup(gs[|gs| - 1], onScl, level)]
          else gs + [InGroup(Group(tick, Unknown, Unknown), onScl, level)]
        case _ => gs
  {
    assert (cs + [c])[..|cs|] == cs;
  }

  lemma {:induction false} DoneSnoc(cs: seq<Call>, c: Call)
    ensures
      var done := DoneBy(cs);
      DoneBy(cs + [c]) ==
        match c
        case Level(tick, _, _) => if done.None? || tick > done.value then Some(tick) else done
        case Advance(tick) => if done.None? || tick > done.value then Some(tick) else done
        case _ => done
  {
    assert (cs + [c])[..|cs|] == cs;
  }

  /** A record joins the group held, or has it taken and starts another. */
  lemma {:induction false} RecordHolds(d: Decoder, cs: seq<Call>, e: Decoder, items: seq<Item>, tick: nat, onScl: bool, level: Line)
    requires Holds(d, cs, e, items) && Next(d, cs, Record(tick, onScl, level))
    ensures
      var o := OnRecord(e, tick, onScl, level);
      Holds(d, cs + [Record(tick, onScl, level)], o.d, items + Items(o))
  {
    var c := Record(tick, onScl, level);
    var gs := Groups(cs);
    GroupsSnoc(cs, c);
    DoneSnoc(cs, c);
    var hs := Groups(cs + [c]);
    assert items + [] == items;
    if e.group.Some? && e.group.value.tick == tick {
      assert hs[..|hs| - 1] == gs[..|gs| - 1];
      hide Feed, AllEdges, DoneBy, Groups;
    } else {
      NewGroup(d, cs, e, items, tick, onScl, level);
    }
  }

  lemma {:induction false} NewGroup(d: Decoder, cs: seq<Call>, e: Decoder, items: seq<Item>, tick: nat, onScl: bool, level: Line)
    requires Holds(d, cs, e, items) && Next(d, cs, Record(tick, onScl, level))
    requires !(e.group.Some? && e.group.value.tick == tick)
    ensures
      var o := OnRecord(e, tick, onScl, level);
      Holds(d, cs + [Record(tick, onScl, level)], o.d, items + Items(o))
  {
    var c := Record(tick, onScl, level);
    var gs := Groups(cs);
    GroupsSnoc(cs, c);
    DoneSnoc(cs, c);
    assert Groups(cs + [c])[..|gs|] == gs;
    assert items + [] == items;
    if e.group.Some? {
      HeldTaken(d, cs, e, items);
    }
    hide TakeGroup, Feed, AllEdges, DoneBy, Groups;
  }

  /** A heartbeat's level or an advance has the group held taken. */
  lemma {:induction false} PastHolds(d: Decoder, cs: seq<Call>, e: Decoder, items: seq<Item>, c: Call, tick: nat)
    requires Holds(d, cs, e, items) && Next(d, cs, c)
    requires c == Advance(tick) || (c.Level? && c.tick == tick)
    ensures
      var o := TakeUpTo(e, tick);
      Holds(d, cs + [c], o.d, items + Items(o)) && o.d.group == None && Fed(d, cs).0 == Strip(o.d)
  {
    GroupsSnoc(cs, c);
    DoneSnoc(cs, c);
    assert items + [] == items;
    if e.group.Some? {
      HeldTaken(d, cs, e, items);
    }
    hide TakeGroup, Feed, AllEdges, DoneBy, Groups;
  }

  lemma {:induction false} CallHolds(d: Decoder, cs: seq<Call>, e: Decoder, items: seq<Item>, c: Call)
    requires Holds(d, cs, e, items) && Next(d, cs, c)
    ensures Holds(d, cs + [c], OnCall(e, c).0, items + OnCall(e, c).1)
  {
    match c
    case Record(tick, onScl, level) =>
      RecordHolds(d, cs, e, items, tick, onScl, level);
      hide Holds, OnRecord;
    case Level(tick, onScl, level) =>
      PastHolds(d, cs, e, items, c, tick);
      var o := TakeUpTo(e, tick);
      assert (if onScl then o.d.scl else o.d.sda) == level;
      assert OnLevel(e, tick, onScl, level) == o;
      hide Holds, OnLevel, TakeUpTo;
    case Advance(tick) =>
      PastHolds(d, cs, e, items, c, tick);
      hide Holds, TakeUpTo;
  }

  lemma {:induction false} CallsConcat(d: Decoder, a: seq<Call>, b: seq<Call>)
    ensures
      var r := Calls(d, a);
      Calls(d, a + b) == (Calls(r.0, b).0, r.1 + Calls(r.0, b).1)
    decreases |a|
  {
    hide OnCall;
    if a == [] {
      assert a + b == b;
      assert [] + Calls(d, b).1 == Calls(d, b).1;
    } else {
      assert (a + b)[0] == a[0] && (a + b)[1..] == a[1..] + b;
      var o := OnCall(d, a[0]);
      CallsConcat(o.0, a[1..], b);
      var r := Calls(o.0, a[1..]);
      assert o.1 + (r.1 + Calls(r.0, b).1) == o.1 + r.1 + Calls(r.0, b).1;
    }
  }

  lemma {:induction false} OneCall(d: Decoder, c: Call)
    ensures Calls(d, [c]) == OnCall(d, c)
  {
    hide OnCall;
    var o := OnCall(d, c);
    assert Calls(o.0, [c][1..]) == (o.0, []);
    assert o.1 + [] == o.1;
  }

  lemma {:induction false} RunHolds(d: Decoder, cs: seq<Call>)
    requires Known(d) && d.group == None && AllNext(d, cs)
    ensures Holds(d, cs, Calls(d, cs).0, Calls(d, cs).1)
    decreases |cs|
  {
    if cs == [] {
      NoneHeld(d);
    } else {
      var front, c := cs[..|cs| - 1], cs[|cs| - 1];
      hide Holds, Next, OnCall, Calls;
      RunHolds(d, front);
      var r := Calls(d, front);
      CallHolds(d, front, r.0, r.1, c);
      assert front + [c] == cs;
      CallsConcat(d, front, [c]);
      OneCall(r.0, c);
    }
  }

  lemma {:induction false} NoneHeld(d: Decoder)
    requires Known(d) && d.group == None
    ensures Holds(d, [], d, [])
  {
  }

  /** At the end what is held is taken, and nothing is left open if the edges left nothing open. */
  lemma {:induction false} FinishTakes(d: Decoder, cs: seq<Call>, e: Decoder, items: seq<Item>)
    requires Holds(d, cs, e, items) && Fed(d, cs).0.cur == None
    ensures items + OnFinish(e).1 == Fed(d, cs).1
  {
    if e.group.Some? {
      HeldTaken(d, cs, e, items);
    }
    hide TakeGroup, Feed, AllEdges, DoneBy, Groups;
    assert items + [] == items;
  }

  /**
   * The round trip: from known idle lines, whatever the order of the records of a tick and
   * wherever advances and heartbeats fall, calls whose records are the edges of a waveform of
   * segments have the decoder emit one transaction with exactly those bytes, lanes,
   * acknowledge bits and segments.
   */
  lemma {:induction false} CallsDecode(d: Decoder, cs: seq<Call>, segs: seq<Bytes>)
    requires d.scl == High && d.sda == High && d.cur == None && d.group == None && AllNext(d, cs)
    requires segs != [] && AllBytesOk(segs) && Signals(AllEdges(Groups(cs))) == Waveform(segs)
    ensures
      var es := AllEdges(Groups(cs));
      var items := Calls(d, cs + [Finish]).1;
      && |es| > 0 && |items| == 1
      && Says(items[0], AllReads(segs), SegmentsFrom(segs, 0), es[0].tick, es[|es| - 1].tick)
  {
    var es := AllEdges(Groups(cs));
    DecodeUndoesEncode(Strip(d), es, segs);
    RunHolds(d, cs);
    var r := Calls(d, cs);
    assert Fed(d, cs) == Feed(Strip(d), es);
    assert Fed(d, cs).0.cur == None;
    hide Feed, Signals, Waveform, AllEdges, Groups, Says, Holds, OnFinish, Fed, AllNext;
    FinishTakes(d, cs, r.0, r.1);
    CallsConcat(d, cs, [Finish]);
    OneCall(r.0, Finish);
  }
}
