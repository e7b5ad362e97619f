/**
 * I2C decoders behind the merge and in front of the release queue: what the merge hands over
 * of any input keeps the order a decoder relies on, so each honours its horizon on every
 * capture, and the session's items come out sorted.
 */
module I2cSession {
  import opened Numbers
  import I2cLine
  import I2cKeeps
  import MergeOrder
  import MergeMachine
  import opened CodecQueue

  function LineOf(level: nat): I2cLine.Line {
    if level == 0 then I2cLine.Low else I2cLine.High
  }

  /** The calls a decoder of two lines gets of what is handed over. */
  function CallOf(x: MergeOrder.Out, scl: nat, sda: nat): seq<I2cLine.Call> {
    match x
    case Advanced(t) => [I2cLine.Advance(t)]
    case Gave(e) =>
      if e.channel != scl && e.channel != sda then []
      else if e.isLevel then [I2cLine.Level(e.tick, e.channel == scl, LineOf(e.level))]
      else [I2cLine.Record(e.tick, e.channel == scl, LineOf(e.level))]
  }

  function CallsOf(out: seq<MergeOrder.Out>, scl: nat, sda: nat): seq<I2cLine.Call> {
    if out == [] then [] else CallOf(out[0], scl, sda) + CallsOf(out[1..], scl, sda)
  }

  predicate Past(done: Option<nat>, x: MergeOrder.Out) {
    done.Some? ==> (if x.Gave? then x.e.tick else x.tick) > done.value
  }

  lemma {:induction false} LinedInOrder(out: seq<MergeOrder.Out>, done: Option<nat>, scl: nat, sda: nat)
    requires MergeMachine.Lined(out) && forall x :: x in out ==> Past(done, x)
    ensures I2cKeeps.InOrder(done, CallsOf(out, scl, sda))
  {
    if out != [] {
      var c := CallOf(out[0], scl, sda);
      assert MergeMachine.Lined(out[1..]) && out[0] in out;
      var next := if out[0].Advanced? then Some(out[0].tick) else done;
      forall x | x in out[1..]
        ensures Past(next, x)
      {
        var i :| 0 < i < |out| && out[i] == x;
        assert MergeMachine.Follows(out[0], out[i]) && out[i] in out;
      }
      LinedInOrder(out[1..], next, scl, sda);
      assert Past(done, out[0]);
      hide MergeMachine.Lined, CallsOf;
      CallsFirst(out, scl, sda);
      OrderFirst(out[0], done, scl, sda, CallsOf(out[1..], scl, sda));
    }
  }

  lemma CallsFirst(out: seq<MergeOrder.Out>, scl: nat, sda: nat)
    requires out != []
    ensures CallsOf(out, scl, sda) == CallOf(out[0], scl, sda) + CallsOf(out[1..], scl, sda)
  {
  }

  lemma OrderFirst(x: MergeOrder.Out, done: Option<nat>, scl: nat, sda: nat, rest: seq<I2cLine.Call>)
    requires Past(done, x) && I2cKeeps.InOrder(if x.Advanced? then Some(x.tick) else done, rest)
    ensures I2cKeeps.InOrder(done, CallOf(x, scl, sda) + rest)
  {
    var c := CallOf(x, scl, sda);
    if c == [] {
      assert c + rest == rest;
    } else {
      assert (c + rest)[0] == c[0] && (c + rest)[1..] == rest;
    }
  }

  /**
   * On every input that keeps the merge's contract, however its data channels interleave, the
   * decoder never emits an item that starts before the horizon it declared last, and never
   * takes a horizon back.
   */
  lemma {:induction false} HonoursOnCaptures(y: MergeMachine.Layout, ins: seq<MergeMachine.In>, scl: nat, sda: nat)
    requires MergeMachine.Contract(y, ins)
    ensures I2cKeeps.Honours(I2cLine.IDLE, 0, CallsOf(MergeMachine.Output(y, ins), scl, sda))
  {
    var out := MergeMachine.Output(y, ins);
    MergeMachine.Confluence(y, ins);
    LinedInOrder(out, None, scl, sda);
    I2cKeeps.HorizonKept(I2cLine.IDLE, 0, None, CallsOf(out, scl, sda));
  }

  // ----- sessions: decoders, their lines and the release queue

  datatype Lines = Lines(scl: nat, sda: nat)

  /** What happens to a session: what the merge hands over, a loss, a request for an item. */
  datatype Event = Handed(x: MergeOrder.Out) | Lost(start: nat, end: nat, channels: set<nat>) | Asked

  function HandedOf(evs: seq<Event>): seq<MergeOrder.Out> {
    if evs == [] then []
    else (if evs[0].Handed? then [evs[0].x] else []) + HandedOf(evs[1..])
  }

  function CallsFor(ev: Event, l: Lines): (cs: seq<I2cLine.Call>)
    ensures |cs| <= 1
  {
    match ev
    case Handed(x) => CallOf(x, l.scl, l.sda)
    case Lost(start, end, channels) => if l.scl in channels || l.sda in channels then [I2cLine.Loss(start, end)] else []
    case Asked => []
  }

  /** A transaction goes into the queue with a child per segment. */
  function Emits(i: nat, items: seq<I2cLine.Item>): seq<Op> {
    if items == [] then []
    else [Emit(i, items[0].t.start, items[0].t.end, |items[0].t.segs|)] + Emits(i, items[1..])
  }

  /** Decoder i takes a call; at an advance it declares its horizon. */
  function Turn(d: I2cLine.Decoder, i: nat, c: I2cLine.Call): (I2cLine.Decoder, seq<Op>) {
    var (e, items) := I2cLine.OnCall(d, c);
    (e, Emits(i, items) + if c.Advance? then [Declare(i, LowestAsked(c.tick, I2cLine.Asked(e)))] else [])
  }

  /** The tick, lowered to what the decoder asks for, is its horizon. */
  lemma HorizonAsked(d: I2cLine.Decoder, tick: nat)
    ensures LowestAsked(tick, I2cLine.Asked(d)) == I2cLine.Horizon(d, tick)
  {
    LowestAskedIs(tick, I2cLine.Asked(d));
    assert d.cur.Some? ==> d.cur.value.start in I2cLine.Asked(d);
  }

  function TurnAt(d: I2cLine.Decoder, i: nat, cs: seq<I2cLine.Call>): (I2cLine.Decoder, seq<Op>) {
    if cs == [] then (d, []) else Turn(d, i, cs[0])
  }

  /** The first n decoders have had their turns. */
  function Turns(ds: seq<I2cLine.Decoder>, lines: seq<Lines>, ev: Event, n: nat): (r: (seq<I2cLine.Decoder>, seq<Op>))
    requires n <= |ds| == |lines|
    ensures |r.0| == |ds| && forall i :: n <= i < |ds| ==> r.0[i] == ds[i]
  {
    if n == 0 then (ds, [])
    else
      var (es, ops) := Turns(ds, lines, ev, n - 1);
      var (e, more) := TurnAt(es[n - 1], n - 1, CallsFor(ev, lines[n - 1]));
      (es[n - 1 := e], ops + more)
  }

  function Around(ev: Event): seq<Op> {
    if ev.Asked? then [Next] else if ev.Handed? && ev.x.Advanced? then [Tick(ev.x.tick)] else []
  }

  /** What the queue sees of the events, and the decoders after them. */
  function OpsOf(ds: seq<I2cLine.Decoder>, lines: seq<Lines>, evs: seq<Event>): (r: (seq<I2cLine.Decoder>, seq<Op>))
    requires |ds| == |lines|
    ensures |r.0| == |ds|
    decreases |evs|
  {
    if evs == [] then (ds, [])
    else
      var (es, ops) := Turns(ds, lines, evs[0], |ds|);
      var (fs, more) := OpsOf(es, lines, evs[1..]);
      (fs, Around(evs[0]) + ops + more)
  }

  /** The end of the input: the first n decoders close what they hold open. */
  function Ends(ds: seq<I2cLine.Decoder>, n: nat): seq<Op>
    requires n <= |ds|
  {
    if n == 0 then [] else Ends(ds, n - 1) + Turn(ds[n - 1], n - 1, I2cLine.Finish).1
  }

  function Asks(n: nat): seq<Op> {
    if n == 0 then [] else [Next] + Asks(n - 1)
  }

  /** A whole session: the events, the end, and asks requests after it. */
  function Session(lines: seq<Lines>, evs: seq<Event>, asks: nat): seq<Op> {
    var (ds, ops) := OpsOf(seq(|lines|, _ => I2cLine.IDLE), lines, evs);
    ops + Ends(ds, |ds|) + [End] + Asks(asks)
  }

  // ----- each decoder keeps to its horizon

  /** Where a run of operations leaves the highest horizon each decoder declared. */
  function OwnEnd(own: seq<nat>, ops: seq<Op>): (r: seq<nat>)
    ensures |r| == |own|
    decreases |ops|
  {
    if ops == [] then own
    else
      var op := ops[0];
      OwnEnd(if op.Declare? && op.d < |own| then own[op.d := Max(own[op.d], op.h)] else own, ops[1..])
  }

  lemma {:induction false} KeepsBoth(own: seq<nat>, a: seq<Op>, b: seq<Op>)
    requires End !in a && KeepsOwn(own, false, a) && KeepsOwn(OwnEnd(own, a), false, b)
    ensures KeepsOwn(own, false, a + b) && OwnEnd(own, a + b) == OwnEnd(OwnEnd(own, a), b)
    decreases |a|
  {
    if a == [] {
      assert a + b == b;
    } else {
      var op := a[0];
      assert (a + b)[0] == op && (a + b)[1..] == a[1..] + b && op in a;
      KeepsBoth(if op.Declare? && op.d < |own| then own[op.d := Max(own[op.d], op.h)] else own, a[1..], b);
    }
  }

  lemma {:induction false} EmitsKeep(own: seq<nat>, i: nat, items: seq<I2cLine.Item>)
    requires i < |own| && I2cKeeps.AllFrom(items, own[i])
    ensures KeepsOwn(own, false, Emits(i, items)) && OwnEnd(own, Emits(i, items)) == own && End !in Emits(i, items)
    decreases |items|
  {
    if items != [] {
      EmitsKeep(own, i, items[1..]);
      assert Emits(i, items)[1..] == Emits(i, items[1..]) && items[0] in items;
    }
  }

  lemma TurnKeeps(own: seq<nat>, d: I2cLine.Decoder, i: nat, done: Option<nat>, c: I2cLine.Call)
    requires i < |own| && I2cKeeps.Beyond(d, own[i], done) && I2cKeeps.Later(done, c)
    ensures
      var (e, ops) := Turn(d, i, c);
      && KeepsOwn(own, false, ops) && End !in ops
      && (exists g :: g >= own[i] && OwnEnd(own, ops) == own[i := g] && I2cKeeps.Beyond(e, g, I2cKeeps.DoneAfter(done, c)))
  {
    var (e, items) := I2cLine.OnCall(d, c);
    I2cKeeps.CallHonours(d, own[i], done, c);
    EmitsKeep(own, i, items);
    hide I2cLine.OnCall, I2cKeeps.Beyond, I2cKeeps.AllFrom, Emits;
    if c.Advance? {
      var g := I2cLine.Horizon(e, c.tick);
      HorizonAsked(e, c.tick);
      var b := [Declare(i, g)];
      assert b[1..] == [];
      KeepsBoth(own, Emits(i, items), b);
      assert OwnEnd(own, b) == own[i := g];
    } else {
      assert Emits(i, items) + [] == Emits(i, items) && own[i := own[i]] == own;
    }
  }

  function DoneBy(done: Option<nat>, ev: Event): Option<nat> {
    if ev.Handed? && ev.x.Advanced? then Some(ev.x.tick) else done
  }

  function DoneByAll(done: Option<nat>, evs: seq<Event>): Option<nat>
    decreases |evs|
  {
    if evs == [] then done else DoneByAll(DoneBy(done, evs[0]), evs[1..])
  }

  predicate AllBeyond(ds: seq<I2cLine.Decoder>, own: seq<nat>, done: Option<nat>) {
    |ds| == |own| && forall i :: 0 <= i < |ds| ==> I2cKeeps.Beyond(ds[i], own[i], done)
  }

  lemma TurnAtKeeps(own: seq<nat>, d: I2cLine.Decoder, i: nat, done: Option<nat>, ev: Event, l: Lines)
    requires i < |own| && I2cKeeps.Beyond(d, own[i], done) && (ev.Handed? ==> Past(done, ev.x))
    ensures
      var (e, ops) := TurnAt(d, i, CallsFor(ev, l));
      && KeepsOwn(own, false, ops) && End !in ops
      && (exists g :: g >= own[i] && OwnEnd(own, ops) == own[i := g] && I2cKeeps.Beyond(e, g, DoneBy(done, ev)))
  {
    var cs := CallsFor(ev, l);
    hide I2cKeeps.Beyond, Turn;
    if cs == [] {
      assert own[i := own[i]] == own && OwnEnd(own, []) == own && DoneBy(done, ev) == done;
    } else {
      assert I2cKeeps.DoneAfter(done, cs[0]) == DoneBy(done, ev);
      TurnKeeps(own, d, i, done, cs[0]);
    }
  }

  lemma {:induction false} TurnsKeep(own: seq<nat>, ds: seq<I2cLine.Decoder>, lines: seq<Lines>, done: Option<nat>, ev: Event, n: nat)
    requires n <= |ds| == |lines| && AllBeyond(ds, own, done) && (ev.Handed? ==> Past(done, ev.x))
    ensures
      var (es, ops) := Turns(ds, lines, ev, n);
      && KeepsOwn(own, false, ops) && End !in ops
      && (forall i :: 0 <= i < n ==> I2cKeeps.Beyond(es[i], OwnEnd(own, ops)[i], DoneBy(done, ev)))
      && forall i :: n <= i < |ds| ==> OwnEnd(own, ops)[i] == own[i]
  {
    hide I2cKeeps.Beyond, TurnAt, Past, CallsFor;
    if n > 0 {
      TurnsKeep(own, ds, lines, done, ev, n - 1);
      var (es, ops) := Turns(ds, lines, ev, n - 1);
      var mid := OwnEnd(own, ops);
      TurnAtKeeps(mid, es[n - 1], n - 1, done, ev, lines[n - 1]);
      var (e, more) := TurnAt(es[n - 1], n - 1, CallsFor(ev, lines[n - 1]));
      KeepsBoth(own, ops, more);
      hide KeepsOwn, OwnEnd;
    }
  }

  predicate EventsInOrder(done: Option<nat>, evs: seq<Event>)
    decreases |evs|
  {
    evs == [] || ((evs[0].Handed? ==> Past(done, evs[0].x)) && EventsInOrder(DoneBy(done, evs[0]), evs[1..]))
  }

  lemma {:induction false} OpsKeep(own: seq<nat>, ds: seq<I2cLine.Decoder>, lines: seq<Lines>, done: Option<nat>, evs: seq<Event>)
    requires |ds| == |lines| && AllBeyond(ds, own, done) && EventsInOrder(done, evs)
    ensures
      var (es, ops) := OpsOf(ds, lines, evs);
      && KeepsOwn(own, false, ops) && End !in ops
      && AllBeyond(es, OwnEnd(own, ops), DoneByAll(done, evs))
    decreases |evs|
  {
    hide I2cKeeps.Beyond, Turns, Past;
    if evs != [] {
      TurnsKeep(own, ds, lines, done, evs[0], |ds|);
      var (es, ops) := Turns(ds, lines, evs[0], |ds|);
      var mid := OwnEnd(own, ops);
      OpsKeep(mid, es, lines, DoneBy(done, evs[0]), evs[1..]);
      var a, more := Around(evs[0]), OpsOf(es, lines, evs[1..]).1;
      AroundKeeps(own, evs[0]);
      hide KeepsOwn, OwnEnd, Around;
      KeepsBoth(own, ops, more);
      KeepsBoth(own, a, ops + more);
      assert a + ops + more == a + (ops + more);
    }
  }

  lemma AroundKeeps(own: seq<nat>, ev: Event)
    ensures KeepsOwn(own, false, Around(ev)) && OwnEnd(own, Around(ev)) == own && End !in Around(ev)
  {
    var a := Around(ev);
    assert a != [] ==> a[1..] == [];
  }

  lemma {:induction false} EndsKeep(own: seq<nat>, ds: seq<I2cLine.Decoder>, done: Option<nat>, n: nat)
    requires n <= |ds| && AllBeyond(ds, own, done)
    ensures KeepsOwn(own, false, Ends(ds, n)) && End !in Ends(ds, n)
    ensures forall i :: n <= i < |ds| ==> OwnEnd(own, Ends(ds, n))[i] == own[i]
  {
    hide I2cKeeps.Beyond, Turn;
    if n > 0 {
      EndsKeep(own, ds, done, n - 1);
      var ops := Ends(ds, n - 1);
      var mid := OwnEnd(own, ops);
      TurnKeeps(mid, ds[n - 1], n - 1, done, I2cLine.Finish);
      KeepsBoth(own, ops, Turn(ds[n - 1], n - 1, I2cLine.Finish).1);
      hide KeepsOwn, OwnEnd;
    }
  }

  lemma {:induction false} AsksKeep(own: seq<nat>, n: nat)
    ensures KeepsOwn(own, true, Asks(n))
  {
    if n > 0 {
      AsksKeep(own, n - 1);
      assert Asks(n)[1..] == Asks(n - 1);
    }
  }

  lemma EndKeeps(own: seq<nat>, n: nat)
    ensures KeepsOwn(own, false, [End] + Asks(n))
  {
    AsksKeep(own, n);
    assert ([End] + Asks(n))[1..] == Asks(n);
  }

  lemma EventsKeep(lines: seq<Lines>, evs: seq<Event>)
    requires EventsInOrder(None, evs)
    ensures
      var (ds, ops) := OpsOf(seq(|lines|, _ => I2cLine.IDLE), lines, evs);
      && KeepsOwn(seq(|lines|, _ => 0), false, ops + Ends(ds, |ds|)) && End !in ops + Ends(ds, |ds|)
  {
    var own: seq<nat>, ds0 := seq(|lines|, _ => 0), seq(|lines|, _ => I2cLine.IDLE);
    OpsKeep(own, ds0, lines, None, evs);
    var (ds, ops) := OpsOf(ds0, lines, evs);
    hide KeepsOwn, OwnEnd, Ends, OpsOf;
    EndsKeep(OwnEnd(own, ops), ds, DoneByAll(None, evs), |ds|);
    KeepsBoth(own, ops, Ends(ds, |ds|));
  }

  lemma SessionKeeps(lines: seq<Lines>, evs: seq<Event>, asks: nat)
    requires EventsInOrder(None, evs)
    ensures KeepsOwn(seq(|lines|, _ => 0), false, Session(lines, evs, asks))
  {
    var own: seq<nat>, ds0 := seq(|lines|, _ => 0), seq(|lines|, _ => I2cLine.IDLE);
    EventsKeep(lines, evs);
    var (ds, ops) := OpsOf(ds0, lines, evs);
    var a, b := ops + Ends(ds, |ds|), [End] + Asks(asks);
    EndKeeps(OwnEnd(own, a), asks);
    hide KeepsOwn, OwnEnd, Asks, Ends, OpsOf;
    KeepsBoth(own, a, b);
    assert a + [End] + Asks(asks) == a + b;
  }

  lemma {:induction false} HandedInOrder(evs: seq<Event>, done: Option<nat>)
    requires MergeMachine.Lined(HandedOf(evs)) && forall x :: x in HandedOf(evs) ==> Past(done, x)
    ensures EventsInOrder(done, evs)
    decreases |evs|
  {
    if evs != [] {
      var out, rest := HandedOf(evs), HandedOf(evs[1..]);
      if evs[0].Handed? {
        assert out == [evs[0].x] + rest && out[1..] == rest && out[0] in out;
        LinedRest(out, done);
      } else {
        assert out == rest;
      }
      HandedInOrder(evs[1..], DoneBy(done, evs[0]));
    }
  }

  lemma LinedRest(out: seq<MergeOrder.Out>, done: Option<nat>)
    requires out != [] && MergeMachine.Lined(out) && forall x :: x in out ==> Past(done, x)
    ensures MergeMachine.Lined(out[1..])
    ensures forall x :: x in out[1..] ==> Past(if out[0].Advanced? then Some(out[0].tick) else done, x)
  {
    forall x | x in out[1..]
      ensures Past(if out[0].Advanced? then Some(out[0].tick) else done, x)
    {
      var i :| 0 < i < |out| && out[i] == x;
      assert MergeMachine.Follows(out[0], out[i]) && out[i] in out;
    }
  }

  // ----- the session releases in order

  lemma {:induction false} AsksEmpty(q: Queue, hold: nat, n: nat)
    requires q.finished
    ensures
      var r := Run(q, hold, Asks(n));
      r.emitted == q.emitted && |r.pending| == if n <= |q.pending| then |q.pending| - n else 0
    decreases n
  {
    hide Insert, Lowest;
    if n > 0 {
      assert Asks(n)[1..] == Asks(n - 1);
      AsksEmpty(AfterNext(q, hold), hold, n - 1);
    }
  }

  /**
   * A session of I2C decoders, each on its own two lines, releases its items in order of their
   * start, whatever capture comes in, however its data channels interleave, wherever losses are
   * told and items are asked for; asked often enough after the end, it gives every item.
   */
  lemma {:induction false} SessionReleases(y: MergeMachine.Layout, ins: seq<MergeMachine.In>, lines: seq<Lines>,
                                           evs: seq<Event>, asks: nat, hold: nat)
    requires MergeMachine.Contract(y, ins) && HandedOf(evs) == MergeMachine.Output(y, ins)
    ensures
      var ops := Session(lines, evs, asks);
      var q := Run(CodecQueue.Start(|lines|), hold, ops);
      && AllAllowed(CodecQueue.Start(|lines|), hold, ops)
      && ByStart(q.released) && multiset(q.released) + multiset(q.pending) == multiset(q.emitted)
      && (asks >= |q.emitted| ==> q.released == Sorted(q.emitted))
  {
    MergeMachine.Confluence(y, ins);
    HandedInOrder(evs, None);
    SessionKeeps(lines, evs, asks);
    OwnReleases(|lines|, hold, Session(lines, evs, asks));
    var (ds, ops) := OpsOf(seq(|lines|, _ => I2cLine.IDLE), lines, evs);
    SessionEmpties(lines, hold, ops + Ends(ds, |ds|), asks);
  }

  lemma SessionEmpties(lines: seq<Lines>, hold: nat, a: seq<Op>, asks: nat)
    ensures
      var q := Run(CodecQueue.Start(|lines|), hold, a + [End] + Asks(asks));
      (AllAllowed(CodecQueue.Start(|lines|), hold, a + [End] + Asks(asks)) && asks >= |q.emitted| ==> q.pending == [])
  {
    var s := CodecQueue.Start(|lines|);
    RunSplit(s, hold, a + [End], Asks(asks));
    RunSplit(s, hold, a, [End]);
    OneStep(Run(s, hold, a), hold, End);
    var q := Run(s, hold, a + [End]);
    AsksEmpty(q, hold, asks);
    if AllAllowed(s, hold, a + [End] + Asks(asks)) {
      StartOk(|lines|);
      RunInv(s, hold, a + [End]);
      SortedIs(q.emitted);
      assert |q.released + q.pending| == |multiset(q.emitted)| == |q.emitted|;
    }
  }
}
