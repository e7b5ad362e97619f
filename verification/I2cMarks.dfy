/**
 * Which transactions the I2C decoder marks as touched by a loss: one that is open when a loss
 * reaching it is told, or a level contradicts the line, whatever comes until it is emitted; and
 * no other.
 */
module I2cMarks {
  import opened Numbers
  import opened I2cLine

  predicate Marked(d: Decoder) {
    d.cur.Some? && d.cur.value.loss
  }

  /** The open transaction, as it stands or as it was emitted. */
  predicate SameAs(c: Transaction, t: Transaction) {
    t.start == c.start && (c.loss ==> t.loss)
  }

  /** What a step leaves of the open transaction: it is still open, or it is the item. */
  predicate Carries(d: Decoder, o: Out) {
    d.cur.Some? ==>
      if o.item.Some? then SameAs(d.cur.value, o.item.value.t) else o.d.cur.Some? && SameAs(d.cur.value, o.d.cur.value)
  }

  /** A step of edges marks nothing by itself. */
  predicate Unmarks(d: Decoder, o: Out) {
    !Marked(d) ==> !Marked(o.d) && (o.item.Some? ==> !o.item.value.t.loss)
  }

  lemma SclCarries(d: Decoder, t: nat, l: Line)
    ensures Carries(d, Out(SclChange(d, t, l), None)) && Unmarks(d, Out(SclChange(d, t, l), None))
  {
  }

  lemma SdaCarries(d: Decoder, t: nat, l: Line)
    ensures Carries(d, SdaChange(d, t, l)) && Unmarks(d, SdaChange(d, t, l))
  {
    hide Extend, NewSegment, Closed;
    Opens(t);
    Closes();
  }

  lemma Opens(t: nat)
    ensures forall c: Transaction :: NewSegment(c, t).start == c.start && NewSegment(c, t).loss == c.loss
  {
  }

  lemma Closes()
    ensures forall c: Transaction :: Closed(c).t == c
  {
  }

  lemma EdgesCarry(d: Decoder, g: Group)
    ensures Carries(d, TakeEdges(d, g)) && Unmarks(d, TakeEdges(d, g))
  {
    var a := if g.scl == Low then SclChange(d, g.tick, Low) else d;
    SclCarries(d, g.tick, Low);
    SdaCarries(a, g.tick, g.sda);
    var o := if g.sda != Unknown then SdaChange(a, g.tick, g.sda) else Out(a, None);
    SclCarries(o.d, g.tick, High);
    hide SclChange, SdaChange;
  }

  lemma GroupCarries(d: Decoder, g: Group)
    ensures Carries(d, TakeGroup(d, g)) && Unmarks(d, TakeGroup(d, g))
  {
    EdgesCarry(Learn(d.(group := None, last := g.tick), g), g);
    hide TakeEdges;
  }

  /** Whether a call marks the open transaction: a loss that reaches it, or a level against the line. */
  predicate Touches(d: Decoder, c: Call) {
    match c
    case Loss(_, end) => d.cur.Some? && d.cur.value.start <= end
    case Level(tick, onScl, level) =>
      var e := TakeUpTo(d, tick).d;
      var l := if onScl then e.scl else e.sda;
      e.cur.Some? && l != Unknown && l != level
    case _ => false
  }

  /** A call carries the open transaction on, with its mark, or emits it first. */
  lemma CallCarries(d: Decoder, c: Call)
    requires d.cur.Some?
    ensures
      var (e, items) := OnCall(d, c);
      if items == [] then e.cur.Some? && SameAs(d.cur.value, e.cur.value) else SameAs(d.cur.value, items[0].t)
  {
    if d.group.Some? {
      GroupCarries(d, d.group.value);
    }
    hide TakeGroup, Extend, Closed;
    Closes();
  }

  /** A call that touches nothing marks nothing. */
  lemma CallMarks(d: Decoder, c: Call)
    requires !Marked(d) && !Touches(d, c)
    ensures var (e, items) := OnCall(d, c); !Marked(e) && forall x :: x in items ==> !x.t.loss
  {
    if d.group.Some? {
      GroupCarries(d, d.group.value);
    }
    hide TakeGroup, Extend, Closed;
    Closes();
  }

  /** No call of a run touches an open transaction. */
  predicate Untouched(d: Decoder, cs: seq<Call>)
    decreases |cs|
  {
    cs == [] || (!Touches(d, cs[0]) && Untouched(OnCall(d, cs[0]).0, cs[1..]))
  }

  /** The transaction that is open comes out first, with its mark, whatever comes before the end. */
  lemma {:induction false} OpenIsFirst(d: Decoder, cs: seq<Call>)
    requires d.cur.Some?
    ensures var items := Calls(d, cs + [Finish]).1; items != [] && SameAs(d.cur.value, items[0].t)
    decreases |cs|
  {
    var all := cs + [Finish];
    var (e, items) := OnCall(d, all[0]);
    CallCarries(d, all[0]);
    if cs == [] {
      FinishCloses(d);
      assert all[1..] == [];
    } else {
      assert all[1..] == cs[1..] + [Finish];
      hide OnCall;
      if items == [] {
        OpenIsFirst(e, cs[1..]);
      }
    }
  }

  lemma FinishCloses(d: Decoder)
    requires d.cur.Some?
    ensures OnCall(d, Finish).1 != []
  {
    if d.group.Some? {
      GroupCarries(d, d.group.value);
    }
    hide TakeGroup, Extend, Closed;
  }

  /**
   * A loss told while a transaction is open that it reaches: whatever is called then, the first
   * item that comes out is that transaction, marked.
   */
  lemma LossMarks(d: Decoder, start: nat, end: nat, cs: seq<Call>)
    requires d.cur.Some? && d.cur.value.start <= end
    ensures
      var (e, none) := OnCall(d, Loss(start, end));
      var items := Calls(e, cs + [Finish]).1;
      none == [] && items != [] && items[0].t.loss && items[0].t.start == d.cur.value.start
  {
    OpenIsFirst(OnCall(d, Loss(start, end)).0, cs);
    hide Calls;
  }

  /** So does a level that contradicts the line, of the transaction open by then. */
  lemma LevelMarks(d: Decoder, tick: nat, onScl: bool, level: Line, cs: seq<Call>)
    requires Touches(d, Level(tick, onScl, level))
    ensures
      var e := OnCall(d, Level(tick, onScl, level)).0;
      var items := Calls(e, cs + [Finish]).1;
      items != [] && items[0].t.loss && items[0].t.start == TakeUpTo(d, tick).d.cur.value.start
  {
    hide TakeGroup;
    OpenIsFirst(OnCall(d, Level(tick, onScl, level)).0, cs);
    hide Calls;
  }

  /** With nothing touched, nothing is marked. */
  lemma {:induction false} NothingMarked(d: Decoder, cs: seq<Call>)
    requires !Marked(d) && Untouched(d, cs)
    ensures forall x :: x in Calls(d, cs).1 ==> !x.t.loss
    decreases |cs|
  {
    if cs != [] {
      CallMarks(d, cs[0]);
      hide OnCall, Touches;
      NothingMarked(OnCall(d, cs[0]).0, cs[1..]);
    }
  }
}
