/**
 * The link as it runs: it keeps the end of every data channel's stream, lets a client join at
 * a heartbeat, and queues for it what fits.
 */
module Link {
  import opened Numbers
  import opened Ledger
  import opened LinkJoin

  const LINK_HEAD: nat := 16
  const EVENT_LEN: nat := 14
  /** Versions and state, and the name the link greets with. */
  const WELCOME_LEN: nat := 8 + 15

  /** Per data channel: bytes so far, the last grid count seen, the stream's end and where it is. */
  datatype Streams = Streams(pos: seq<nat>, lastGrid: seq<nat>, tail: seq<Bytes>, tailPos: seq<nat>)

  datatype Client = Client(connected: bool, streaming: bool, attaching: bool, grid: nat, started: seq<bool>,
    queued: nat, dropped: seq<nat>, droppedControls: nat, droppedTotal: nat, droppedControlTotal: nat)

  /** What a client was given since it attached: from where on, and where in each stream. */
  datatype Since = Since(mark: seq<nat>, start: seq<nat>)

  /** From which item on all that was offered was queued, if it was: whether each pull had the room. */
  datatype Kept = Kept(at: nat, clean: bool)

  /** The tails are the ends of the streams. */
  predicate TailsOk(st: Streams, streams: seq<Bytes>) {
    && |st.pos| == |st.lastGrid| == |st.tail| == |st.tailPos| == |streams|
    && forall d :: 0 <= d < |streams| ==> st.pos[d] == |streams[d]| && TailOk(st.tail[d], st.tailPos[d], streams[d])
  }

  predicate TailOk(tail: Bytes, tailPos: nat, stream: Bytes) {
    tailPos <= |stream| && tail == stream[tailPos..]
  }

  /** A message as it is queued, which does not say where in its stream it starts. */
  function Plain(x: Item): Item {
    if x.Data? then x.(start := 0) else x
  }

  function PlainAll(items: seq<Item>): (r: seq<Item>)
    ensures |r| == |items|
  {
    seq(|items|, i requires 0 <= i < |items| => Plain(items[i]))
  }

  lemma PlainMore(a: seq<Item>, b: seq<Item>)
    ensures PlainAll(a + b) == PlainAll(a) + PlainAll(b)
  {
  }

  /** The counters and the queue are what the books say. */
  ghost predicate ClientOk(cl: Client, out: seq<Item>, b: Books, dcs: nat) {
    && Balanced(b) && |b.offered| == dcs == |cl.started|
    && cl.dropped == b.dropped && cl.droppedControls == b.droppedControls && out == PlainAll(b.items)
  }

  predicate SinceOk(x: Since, b: Books, dcs: nat) {
    && |x.mark| == |x.start| == |b.offered| == dcs
    && forall d :: 0 <= d < dcs ==> x.mark[d] <= |b.offered[d]|
  }

  /** A message of a link: data of one of its channels, or anything else. */
  predicate Message(x: Item, dcs: nat) {
    x.Control? || (x.Data? && x.channel < dcs)
  }

  predicate Messages(items: seq<Item>, dcs: nat) {
    forall x :: x in items ==> Message(x, dcs)
  }

  function Length(x: Item): nat
    requires x.Control? || x.Data?
  {
    |x.bytes|
  }

  /** Messages do not change what else is known of the client. */
  predicate SameClient(a: Client, b: Client) {
    b == a.(queued := b.queued, dropped := b.dropped, droppedControls := b.droppedControls,
            droppedTotal := b.droppedTotal, droppedControlTotal := b.droppedControlTotal)
  }

  /** What each channel's client was offered is more by some bytes. */
  predicate Offered(was: seq<Bytes>, now: seq<Bytes>, x: Item) {
    |now| == |was| && forall d :: 0 <= d < |was| ==> now[d] == was[d] + Added(x, d)
  }

  function ItemsOf(ins: seq<In>): seq<Item> {
    if ins == [] then []
    else
      var x := ins[|ins| - 1];
      ItemsOf(ins[..|ins| - 1]) + if x.Read? then [x.x] else []
  }

  function SeenOf(ins: seq<In>, dcs: nat): seq<Seen> {
    if ins == [] then []
    else
      var x := ins[|ins| - 1];
      SeenOf(ins[..|ins| - 1], dcs) + if x.Found? && x.beat.dc < dcs then [x.beat] else []
  }

  /** A client's part of a channel, from the moment it attached. */
  function JoinOf(st: Streams, streams: seq<Bytes>, cl: Client, b: Books, x: Since, d: nat): Join
    requires TailsOk(st, streams) && SinceOk(x, b, |streams|) && |cl.started| == |streams| && d < |streams|
  {
    Join(streams[d], st.tailPos[d], cl.started[d] || cl.streaming, x.start[d], b.offered[d][x.mark[d]..])
  }

  // ----- what is queued

  /** The bytes of a message on its way. */
  function SizeOf(x: Item): nat {
    LINK_HEAD + match x case Overflow(_, _, _, _) => EVENT_LEN case Mark(_, _, _) => 0 case _ => |x.bytes|
  }

  function Size(items: seq<Item>): nat {
    if items == [] then 0 else Size(items[..|items| - 1]) + SizeOf(items[|items| - 1])
  }

  /** Whether there is room for a message. */
  predicate HasRoom(cl: Client, x: Item, queueMax: nat)
    requires x.Control? || x.Data?
  {
    cl.queued + LINK_HEAD + |x.bytes| <= queueMax
  }

  /** What was dropped of the same kind and not named yet. */
  predicate InDebt(cl: Client, x: Item) {
    if x.Data? then x.channel < |cl.dropped| && cl.dropped[x.channel] > 0 else cl.droppedControls > 0
  }

  /** The event that names it. */
  function Naming(cl: Client, x: Item, time: nat): Item {
    if x.Data? && x.channel < |cl.dropped| then Overflow(x.channel, time, cl.dropped[x.channel], cl.droppedControls)
    else Overflow(0, time, 0, cl.droppedControls)
  }

  /** What a message puts into the queue: itself if there is room, after an event exactly when some is owed. */
  function Queues(cl: Client, x: Item, time: nat, queueMax: nat): seq<Item>
    requires x.Control? || x.Data?
  {
    if !HasRoom(cl, x, queueMax) then []
    else (if InDebt(cl, x) then [Naming(cl, x, time)] else []) + [if x.Data? then Data(x.channel, time, 0, x.bytes) else x]
  }

  lemma QueuesSize(cl: Client, x: Item, time: nat, queueMax: nat)
    requires x.Control? || x.Data?
    ensures Size(Queues(cl, x, time, queueMax)) ==
      if !HasRoom(cl, x, queueMax) then 0 else (if InDebt(cl, x) then LINK_HEAD + EVENT_LEN else 0) + LINK_HEAD + |x.bytes|
  {
    var ev, y := Naming(cl, x, time), if x.Data? then Data(x.channel, time, 0, x.bytes) else x;
    assert [y][..0] == [] && [ev, y][..1] == [ev] && [ev][..0] == [];
    assert Size([]) == 0 && Size([y]) == SizeOf(y) && Size([ev]) == SizeOf(ev) && Size([ev, y]) == SizeOf(ev) + SizeOf(y);
  }

  /** The counters after a message: what is dropped is counted, what is named is owed no more. */
  function Counted(cl: Client, x: Item, queueMax: nat): Client
    requires x.Control? || (x.Data? && x.channel < |cl.dropped|)
  {
    if x.Data? then
      if !HasRoom(cl, x, queueMax) then
        cl.(dropped := cl.dropped[x.channel := cl.dropped[x.channel] + |x.bytes|], droppedTotal := cl.droppedTotal + |x.bytes|)
      else cl.(dropped := cl.dropped[x.channel := 0], droppedControls := if InDebt(cl, x) then 0 else cl.droppedControls)
    else if !HasRoom(cl, x, queueMax) then
      cl.(droppedControls := cl.droppedControls + 1, droppedControlTotal := cl.droppedControlTotal + 1)
    else cl.(droppedControls := 0)
  }

  /** The books after a message. */
  ghost function Booked(b: Books, x: Item, time: nat, taken: bool): Books
    requires Fits(b) && Message(x, |b.dropped|)
  {
    if x.Data? then Offer(b, x.channel, time, x.bytes, taken, b.dropped[x.channel] > 0) else AfterOther(b, x, time, taken)
  }

  lemma BookedOk(cl: Client, out: seq<Item>, b: Books, dcs: nat, x: Item, time: nat, queueMax: nat)
    requires ClientOk(cl, out, b, dcs) && Message(x, dcs)
    ensures Fits(b) && |b.dropped| == dcs
    ensures
      var u := Booked(b, x, time, HasRoom(cl, x, queueMax));
      && ClientOk(Counted(cl, x, queueMax), out + Queues(cl, x, time, queueMax), u, dcs)
      && Offered(b.offered, u.offered, x)
  {
    assert Fits(b);
    if x.Data? {
      BookedData(cl, out, b, dcs, x, time, queueMax);
    } else {
      BookedOther(cl, out, b, dcs, x, time, queueMax);
    }
  }

  lemma BookedData(cl: Client, out: seq<Item>, b: Books, dcs: nat, x: Item, time: nat, queueMax: nat)
    requires ClientOk(cl, out, b, dcs) && Message(x, dcs) && x.Data? && Fits(b) && |b.dropped| == dcs
    ensures
      var u := Booked(b, x, time, HasRoom(cl, x, queueMax));
      && ClientOk(Counted(cl, x, queueMax), out + Queues(cl, x, time, queueMax), u, dcs)
      && Offered(b.offered, u.offered, x)
  {
    var d, taken := x.channel, HasRoom(cl, x, queueMax);
    OfferBalanced(b, d, time, x.bytes, taken, b.dropped[d] > 0);
    OfferIs(b, d, time, x.bytes, taken, b.dropped[d] > 0);
    hide Balanced, Offer, AfterOther, HasRoom;
    assert forall k :: 0 <= k < |b.offered| ==> b.offered[k] + [] == b.offered[k];
    assert cl.dropped[d] == 0 ==> cl.dropped[d := 0] == cl.dropped;
  }

  lemma BookedOther(cl: Client, out: seq<Item>, b: Books, dcs: nat, x: Item, time: nat, queueMax: nat)
    requires ClientOk(cl, out, b, dcs) && Message(x, dcs) && !x.Data? && Fits(b) && |b.dropped| == dcs
    ensures
      var u := Booked(b, x, time, HasRoom(cl, x, queueMax));
      && ClientOk(Counted(cl, x, queueMax), out + Queues(cl, x, time, queueMax), u, dcs)
      && Offered(b.offered, u.offered, x)
  {
    var taken := HasRoom(cl, x, queueMax);
    OtherBalanced(b, x, time, taken);
    OtherIs(b, x, time, taken);
    hide Balanced, Offer, AfterOther, HasRoom;
    assert forall k :: 0 <= k < |b.offered| ==> b.offered[k] + [] == b.offered[k];
  }

  lemma NothingQueued(cl: Client, out: seq<Item>, x: Item, time: nat, queueMax: nat)
    requires (x.Control? || x.Data?) && !HasRoom(cl, x, queueMax)
    ensures out + Queues(cl, x, time, queueMax) == out && Size(Queues(cl, x, time, queueMax)) == 0
  {
  }

  /** Nothing owed leaves nothing to clear. */
  lemma CountedIs(was: Client, cl: Client, x: Item, queueMax: nat)
    requires Message(x, |was.dropped|)
    requires cl == if !HasRoom(was, x, queueMax) then Counted(was, x, queueMax) else was.(
      queued := cl.queued,
      dropped := if InDebt(was, x) && x.Data? then was.dropped[x.channel := 0] else was.dropped,
      droppedControls := if InDebt(was, x) then 0 else was.droppedControls)
    ensures cl == Counted(was, x, queueMax).(queued := cl.queued)
  {
    if HasRoom(was, x, queueMax) && x.Data? && !InDebt(was, x) {
      assert was.dropped[x.channel := 0] == was.dropped;
    }
  }

  lemma QueuedOk(was: Client, cl: Client, out: seq<Item>, b: Books, dcs: nat, x: Item, queueMax: nat)
    requires Message(x, |was.dropped|) && ClientOk(Counted(was, x, queueMax), out, b, dcs)
    requires cl == Counted(was, x, queueMax).(queued := cl.queued)
    ensures ClientOk(cl, out, b, dcs) && SameClient(was, cl)
  {
  }

  /** If every pull since the client attached had room for what it brought, all was queued. */
  predicate Keeps(kept: Kept, line: Line, since: Since) {
    kept.clean ==>
      && Square(line.dropped, line.controls) && kept.at <= |line.out| && NoEvents(line.out[kept.at..])
      && |since.mark| == |line.offered|
      && forall d :: 0 <= d < |line.offered| ==>
        since.mark[d] <= |line.offered[d]| && line.offered[d][since.mark[d]..] == DataOf(line.out[kept.at..], d)
  }

  lemma KeepsOn(kept: Kept, a: Line, b: Line, since: Since, next: Since, need: nat, queueMax: nat)
    requires Keeps(kept, a, since) && Went(need, queueMax, a, b) && next.mark == since.mark
    ensures Keeps(kept.(clean := kept.clean && a.queued + need <= queueMax), b, next)
  {
    if kept.clean && a.queued + need <= queueMax {
      hide Square, Size;
      var at, more := kept.at, b.out[|a.out|..];
      assert b.out == a.out + more && b.out[at..] == a.out[at..] + more;
      forall d | 0 <= d < |b.offered|
        ensures next.mark[d] <= |b.offered[d]| && b.offered[d][next.mark[d]..] == DataOf(b.out[at..], d)
      {
        DataOfConcat(a.out[at..], more, d);
        SliceMore(a.offered[d], DataOf(more, d), next.mark[d]);
      }
    }
  }

  /** Nothing is owed. */
  predicate Square(dropped: seq<nat>, controls: nat) {
    controls == 0 && forall d :: 0 <= d < |dropped| ==> dropped[d] == 0
  }

  predicate NoEvents(items: seq<Item>) {
    forall x :: x in items ==> !x.Overflow?
  }

  /** A client's queue, and what it was offered. */
  datatype Line = Line(queued: nat, dropped: seq<nat>, controls: nat, out: seq<Item>, offered: seq<Bytes>)

  /** What was offered since is what was queued since, with no overflow event. */
  predicate AllQueued(out: seq<Item>, at: nat, was: seq<Bytes>, now: seq<Bytes>) {
    && at <= |out| && NoEvents(out[at..]) && |was| == |now|
    && forall d :: 0 <= d < |was| ==> now[d] == was[d] + DataOf(out[at..], d)
  }

  /**
   * The queue grew by what was put into it; and if nothing was owed and there was room for need
   * bytes more, it took all that was offered.
   */
  predicate Went(need: nat, queueMax: nat, a: Line, b: Line) {
    && a.out <= b.out && b.queued + Size(a.out) == a.queued + Size(b.out)
    && (Square(a.dropped, a.controls) && a.queued + need <= queueMax ==>
      Square(b.dropped, b.controls) && b.queued <= a.queued + need && AllQueued(b.out, |a.out|, a.offered, b.offered))
  }

  lemma WentNowhere(queueMax: nat, a: Line)
    ensures Went(0, queueMax, a, a)
  {
    assert a.out[|a.out|..] == [];
  }

  lemma {:induction false} DataOfConcat(a: seq<Item>, b: seq<Item>, d: nat)
    ensures DataOf(a + b, d) == DataOf(a, d) + DataOf(b, d)
    decreases |b|
  {
    if b == [] {
      assert a + b == a;
    } else {
      var f, x := b[..|b| - 1], b[|b| - 1];
      DataOfConcat(a, f, d);
      assert (a + b)[..|a + b| - 1] == a + f;
      hide Added;
      Assoc(DataOf(a, d), DataOf(f, d), Added(x, d));
    }
  }

  lemma {:induction false} SizeConcat(a: seq<Item>, b: seq<Item>)
    ensures Size(a + b) == Size(a) + Size(b)
    decreases |b|
  {
    if b == [] {
      assert a + b == a;
    } else {
      SizeConcat(a, b[..|b| - 1]);
      assert (a + b)[..|a + b| - 1] == a + b[..|b| - 1];
    }
  }

  lemma AllQueuedOn(out: seq<Item>, more: seq<Item>, at: nat, mid: nat, a: seq<Bytes>, b: seq<Bytes>, c: seq<Bytes>)
    requires at <= mid == |out| && AllQueued(out, at, a, b) && AllQueued(out + more, mid, b, c)
    ensures AllQueued(out + more, at, a, c)
  {
    assert (out + more)[at..] == out[at..] + more && (out + more)[mid..] == more;
    forall d | 0 <= d < |a|
      ensures c[d] == a[d] + DataOf((out + more)[at..], d)
    {
      DataOfConcat(out[at..], more, d);
      assert a[d] + DataOf(out[at..], d) + DataOf(more, d) == a[d] + (DataOf(out[at..], d) + DataOf(more, d));
    }
  }

  lemma WentOn(n: nat, m: nat, queueMax: nat, a: Line, b: Line, c: Line)
    requires Went(n, queueMax, a, b) && Went(m, queueMax, b, c)
    ensures Went(n + m, queueMax, a, c)
  {
    hide Size, Square, AllQueued;
    assert a.out <= b.out <= c.out;
    var more := c.out[|b.out|..];
    assert c.out == b.out + more;
    if Square(a.dropped, a.controls) && a.queued + (n + m) <= queueMax {
      AllQueuedOn(b.out, more, |a.out|, |b.out|, a.offered, b.offered, c.offered);
    }
  }

  lemma WentBoth(n: nat, queueMax: nat, a: Line, b: Line)
    requires Went(n, queueMax, a, b)
    ensures b.queued + Size(a.out) == a.queued + Size(b.out)
  {
  }

  lemma WentMore(n: nat, m: nat, queueMax: nat, a: Line, b: Line)
    requires Went(n, queueMax, a, b) && n <= m
    ensures Went(m, queueMax, a, b)
  {
  }

  /** A message that is queued or dropped. */
  lemma WentOne(out: seq<Item>, was: seq<Bytes>, now: seq<Bytes>, cl: Client, next: Client, x: Item, time: nat, queueMax: nat)
    requires Message(x, |cl.dropped|) && next == Counted(cl, x, queueMax).(queued := next.queued)
    requires next.queued == cl.queued + Size(Queues(cl, x, time, queueMax)) && Offered(was, now, x)
    ensures
      Went(LINK_HEAD + |x.bytes|, queueMax, Line(cl.queued, cl.dropped, cl.droppedControls, out, was),
           Line(next.queued, next.dropped, next.droppedControls, out + Queues(cl, x, time, queueMax), now))
  {
    SizeConcat(out, Queues(cl, x, time, queueMax));
    hide Queues, Size, Counted, Offered, AllQueued, Square;
    if Square(cl.dropped, cl.droppedControls) && cl.queued + LINK_HEAD + |x.bytes| <= queueMax {
      SquareQueues(out, was, now, cl, x, time, queueMax);
    }
  }

  lemma SquareQueues(out: seq<Item>, was: seq<Bytes>, now: seq<Bytes>, cl: Client, x: Item, time: nat, queueMax: nat)
    requires Message(x, |cl.dropped|) && Offered(was, now, x)
    requires Square(cl.dropped, cl.droppedControls) && HasRoom(cl, x, queueMax)
    ensures Size(Queues(cl, x, time, queueMax)) == LINK_HEAD + |x.bytes|
    ensures Square(Counted(cl, x, queueMax).dropped, Counted(cl, x, queueMax).droppedControls)
    ensures AllQueued(out + Queues(cl, x, time, queueMax), |out|, was, now)
  {
    QueuesSize(cl, x, time, queueMax);
    hide Size;
    OneQueued(out, if x.Data? then Data(x.channel, time, 0, x.bytes) else x, x, was, now);
  }

  lemma OneQueued(out: seq<Item>, y: Item, x: Item, was: seq<Bytes>, now: seq<Bytes>)
    requires Offered(was, now, x) && !y.Overflow? && forall d :: 0 <= d < |was| ==> Added(y, d) == Added(x, d)
    ensures AllQueued(out + [y], |out|, was, now)
  {
    assert (out + [y])[|out|..] == [y] && [y][..0] == [];
    hide Added;
    forall d | 0 <= d < |was|
      ensures now[d] == was[d] + DataOf([y], d)
    {
      assert DataOf([], d) == [] && [] + Added(y, d) == Added(y, d);
    }
  }

  lemma SizeNone()
    ensures Size([]) == 0
  {
  }

  /** What tells of the tails at most, when every channel begins. */
  function TailSizes(tail: seq<Bytes>): nat {
    if tail == [] then 0 else TailSizes(tail[..|tail| - 1]) + LINK_HEAD + |tail[|tail| - 1]|
  }

  /** What a pull's items, and the tails of the first d channels, add to the queue at most. */
  function Needs(items: seq<Item>, tail: seq<Bytes>, d: nat): nat
    requires d <= |tail|
  {
    Size(items) + TailSizes(tail[..d])
  }

  lemma NeedsNone(items: seq<Item>, tail: seq<Bytes>)
    ensures Needs(items, tail, 0) == Size(items)
  {
  }

  lemma NeedsOne(items: seq<Item>, tail: seq<Bytes>, d: nat)
    requires d < |tail|
    ensures Needs(items, tail, d + 1) == Needs(items, tail, d) + (LINK_HEAD + |tail[d]|)
  {
    assert tail[..d + 1][..d] == tail[..d];
  }

  lemma NeedsAll(items: seq<Item>, tail: seq<Bytes>)
    ensures Needs(items, tail, |tail|) == Size(items) + TailSizes(tail)
  {
    assert tail[..|tail|] == tail;
  }

  lemma SizeOne(items: seq<Item>, i: nat)
    requires i < |items|
    ensures Size(items[..i + 1]) == Size(items[..i]) + SizeOf(items[i])
  {
    assert items[..i + 1][..i] == items[..i];
  }

  class Link {
    const dcs: nat
    const queueMax: nat
    var st: Streams
    var items: seq<Item>
    var seen: seq<Seen>
    var cl: Client
    /** Everything queued for the client. */
    var out: seq<Item>
    ghost var streams: seq<Bytes>
    ghost var books: Books
    ghost var since: Since
    /** Bytes of the queue that were sent, and those of replies put into it. */
    ghost var sent: nat
    ghost var told: nat
    ghost var kept: Kept

    ghost function QueueLine(): Line
      reads this
    {
      Line(cl.queued, cl.dropped, cl.droppedControls, out, books.offered)
    }

    ghost predicate Valid()
      reads this
    {
      && |streams| == dcs && TailsOk(st, streams) && ClientOk(cl, out, books, dcs) && SinceOk(since, books, dcs)
      && items == [] && !(cl.streaming && cl.attaching)
      && cl.queued + sent == told + Size(out) && Keeps(kept, QueueLine(), since)
    }

    /** A capture begins, with no client on it. */
    constructor (dcs: nat, queueMax: nat)
      ensures Valid() && this.dcs == dcs && this.queueMax == queueMax && !Listens(cl)
      ensures streams == seq(dcs, _ => [])
    {
      sent, told, kept := 0, 0, Kept(0, false);
      this.dcs, this.queueMax := dcs, queueMax;
      st := Streams(seq(dcs, _ => 0), seq(dcs, _ => 0), seq(dcs, _ => []), seq(dcs, _ => 0));
      items, seen, out := [], [], [];
      cl := Client(false, false, false, 0, seq(dcs, _ => false), 0, seq(dcs, _ => 0), 0, 0, 0);
      streams, books := seq(dcs, _ => []), Start(dcs);
      since := Since(seq(dcs, _ => 0), seq(dcs, _ => 0));
      StartBalanced(dcs);
    }

    /** Queued within the limit, with the debt named before it; else the debt grows. */
    method Enqueue(x: Item, time: nat)
      requires ClientOk(cl, out, books, dcs) && Message(x, dcs)
      modifies this`cl, this`out, this`books
      ensures ClientOk(cl, out, books, dcs) && SameClient(old(cl), cl) && Offered(old(books.offered), books.offered, x)
      ensures out == old(out) + Queues(old(cl), x, time, queueMax)
      ensures cl.queued == old(cl.queued) + Size(Queues(old(cl), x, time, queueMax))
      ensures cl == Counted(old(cl), x, queueMax).(queued := cl.queued)
      ensures Went(LINK_HEAD + |x.bytes|, queueMax, old(QueueLine()), QueueLine())
    {
      ghost var was, line, room := cl, QueueLine(), HasRoom(cl, x, queueMax);
      books := Booked(books, x, time, room);
      BookedOk(was, line.out, old(books), dcs, x, time, queueMax);
      hide ClientOk, Booked, Went, Offered, Size, Queues, Counted;
      if cl.queued + LINK_HEAD + |x.bytes| > queueMax {
        Drop(x);
        NothingQueued(was, out, x, time, queueMax);
      } else {
        Put(x, time);
      }
      QueuedOk(was, cl, out, books, dcs, x, queueMax);
      WentOne(line.out, line.offered, books.offered, was, cl, x, time, queueMax);
    }

    /** A message there is no room for is counted. */
    method Drop(x: Item)
      requires Message(x, |cl.dropped|) && !HasRoom(cl, x, queueMax)
      modifies this`cl
      ensures cl == Counted(old(cl), x, queueMax) && cl.queued == old(cl.queued)
    {
      if x.Data? {
        var d := x.channel;
        cl := cl.(dropped := cl.dropped[d := cl.dropped[d] + |x.bytes|], droppedTotal := cl.droppedTotal + |x.bytes|);
      } else {
        cl := cl.(droppedControls := cl.droppedControls + 1, droppedControlTotal := cl.droppedControlTotal + 1);
      }
    }

    /** A message there is room for is queued, after an event that names what is owed. */
    method Put(x: Item, time: nat)
      requires Message(x, |cl.dropped|) && HasRoom(cl, x, queueMax)
      modifies this`cl, this`out
      ensures out == old(out) + Queues(old(cl), x, time, queueMax)
      ensures cl == Counted(old(cl), x, queueMax).(queued := cl.queued)
      ensures cl.queued == old(cl.queued) + Size(Queues(old(cl), x, time, queueMax))
    {
      hide Size, Counted, Naming;
      QueuesSize(cl, x, time, queueMax);
      ghost var was := cl;
      if InDebt(cl, x) {
        out := out + [Naming(cl, x, time)];
        cl := cl.(droppedControls := 0, queued := cl.queued + LINK_HEAD + EVENT_LEN);
        if x.Data? {
          cl := cl.(dropped := cl.dropped[x.channel := 0]);
        }
      }
      out := out + [if x.Data? then Data(x.channel, time, 0, x.bytes) else x];
      cl := cl.(queued := cl.queued + LINK_HEAD + |x.bytes|);
      CountedIs(was, cl, x, queueMax);
    }

    /** An item from the device: its bytes join the stream's tail. */
    method TeeRead(x: Item)
      requires TailsOk(st, streams) && |streams| == dcs && Message(x, dcs)
      modifies this`st, this`items, this`streams
      ensures TailsOk(st, streams) && items == old(items) + [x] && |streams| == dcs
      ensures st.tailPos == old(st.tailPos) && st.lastGrid == old(st.lastGrid)
      ensures forall d :: 0 <= d < dcs ==> streams[d] == old(streams)[d] + Added(x, d)
    {
      items := items + [x];
      if x.Data? {
        var d := x.channel;
        assert old(streams)[d][st.tailPos[d]..] + x.bytes == (old(streams)[d] + x.bytes)[st.tailPos[d]..];
        st := st.(tail := st.tail[d := st.tail[d] + x.bytes], pos := st.pos[d := st.pos[d] + |x.bytes|]);
        streams := streams[d := streams[d] + x.bytes];
      }
    }

    /** Notes a sighting, for Attach to look through. */
    method OnHeartbeat(b: Seen)
      requires |st.lastGrid| == dcs
      modifies this`st, this`seen
      ensures st == old(st).(lastGrid := if b.dc < dcs then old(st.lastGrid)[b.dc := b.grid] else old(st.lastGrid))
      ensures seen == old(seen) + if b.dc < dcs then [b] else []
    {
      if b.dc < dcs {
        st := st.(lastGrid := st.lastGrid[b.dc := b.grid]);
        seen := seen + [b];
      }
    }

    /** Before a pull, of every stream only the last bytes are kept. */
    method Trim()
      requires TailsOk(st, streams) && |streams| == dcs
      modifies this`st
      ensures TailsOk(st, streams) && st.lastGrid == old(st.lastGrid)
      ensures forall d :: 0 <= d < dcs ==> st.tailPos[d] == Trimmed(old(st.tailPos)[d], |streams[d]|)
    {
      var d := 0;
      while d < dcs
        invariant 0 <= d <= dcs && TailsOk(st, streams) && st.lastGrid == old(st.lastGrid)
        invariant forall k :: 0 <= k < d ==> st.tailPos[k] == Trimmed(old(st.tailPos)[k], |streams[k]|)
        invariant forall k :: d <= k < dcs ==> st.tailPos[k] == old(st.tailPos)[k]
      {
        var t := st.tail[d];
        if |t| > TAIL_KEEP {
          var cut: nat := |t| - TAIL_KEEP;
          assert streams[d][st.tailPos[d]..][cut..] == streams[d][st.tailPos[d] + cut..];
          st := st.(tail := st.tail[d := t[cut..]], tailPos := st.tailPos[d := st.tailPos[d] + cut]);
        }
        d := d + 1;
      }
    }

    /** The items of a pull: all of them, or the data of the channels that began before it. */
    method ForwardItems(all: bool)
      requires ClientOk(cl, out, books, dcs) && Messages(items, dcs)
      modifies this`cl, this`out, this`books
      ensures ClientOk(cl, out, books, dcs) && SameClient(old(cl), cl)
      ensures Shared(old(books.offered), books.offered, items, cl.started, all)
      ensures Went(Size(items), queueMax, old(QueueLine()), QueueLine())
    {
      ClientFits(cl, out, books, dcs);
      SharedStart(books.offered, cl.started, all);
      WentNowhere(queueMax, QueueLine());
      hide ClientOk, Shared, Offered, SameClient, Messages, Went, Size, Queues, Counted;
      SizeNone();
      SameFirst(cl);
      var i := 0;
      assert items[..0] == [];
      while i < |items|
        invariant 0 <= i <= |items| && ClientOk(cl, out, books, dcs) && SameClient(old(cl), cl)
        invariant |cl.started| == dcs && cl.started == old(cl.started)
        invariant Shared(old(books.offered), books.offered, items[..i], old(cl.started), all)
        invariant Went(Size(items[..i]), queueMax, old(QueueLine()), QueueLine())
      {
        var x := items[i];
        MessageOf(items, dcs, i);
        assert items[..i + 1] == items[..i] + [x];
        ghost var was, before, line := cl, books.offered, QueueLine();
        SizeOne(items, i);
        var share := all || (x.Data? && cl.started[x.channel]);
        if share {
          Enqueue(x, x.time);
          SameNext(old(cl), was, cl);
          WentOn(Size(items[..i]), SizeOf(x), queueMax, old(QueueLine()), line, QueueLine());
        } else {
          WentMore(Size(items[..i]), Size(items[..i + 1]), queueMax, old(QueueLine()), line);
        }
        SharedMore(old(books.offered), before, books.offered, items[..i], x, old(cl.started), all, share);
        i := i + 1;
      }
      assert items[..i] == items;
    }

    /** Offers the tail from the sighting found on, and marks the channel as begun. */
    method StartChannel(d: nat, now: nat)
      requires d < dcs && TailsOk(st, streams) && |streams| == dcs == |since.start| && ClientOk(cl, out, books, dcs)
      requires |cl.started| == dcs && !cl.started[d] && forall b :: b in seen && b.dc == d ==> b.pos <= |streams[d]|
      modifies this`cl, this`out, this`books, this`since
      ensures ClientOk(cl, out, books, dcs) && |since.start| == dcs
      ensures Began(FirstSeen(seen, d, old(cl.grid), st.tailPos[d]), d, now, streams, old(cl), cl,
                    old(books.offered), books.offered, old(since), since)
      ensures Went(LINK_HEAD + |st.tail[d]|, queueMax, old(QueueLine()), QueueLine())
    {
      hide ClientOk, Offered, Went, Queues, Counted, Size, FirstSeen, SameClient;
      ClientFits(cl, out, books, dcs);
      WentNowhere(queueMax, QueueLine());
      WentMore(0, LINK_HEAD + |st.tail[d]|, queueMax, QueueLine(), QueueLine());
      var i := FirstOf(d);
      if i < |seen| {
        ghost var line := QueueLine();
        var s := seen[i];
        var piece := st.tail[d][s.pos - st.tailPos[d]..];
        assert piece == streams[d][s.pos..] && |piece| <= |st.tail[d]|;
        Enqueue(Data(d, now, 0, piece), now);
        WentMore(LINK_HEAD + |piece|, LINK_HEAD + |st.tail[d]|, queueMax, line, QueueLine());
        StartedOk(cl, out, books, dcs, d);
        ClientFits(cl, out, books, dcs);
        BeganNow(old(cl), cl, d);
        cl := cl.(started := cl.started[d := true]);
        since := since.(start := since.start[d := s.pos]);
      }
    }

    /** Where among the sightings of a pull a channel begins. */
    method FirstOf(d: nat) returns (i: nat)
      requires d < |st.tailPos|
      ensures i <= |seen|
      ensures FirstSeen(seen, d, cl.grid, st.tailPos[d]) == if i < |seen| then Some(seen[i]) else None
      ensures i < |seen| ==> seen[i].dc == d && seen[i].pos >= st.tailPos[d] && seen[i] in seen
    {
      i := 0;
      assert seen[0..] == seen;
      while i < |seen| && !(seen[i].dc == d && seen[i].grid >= cl.grid && seen[i].pos >= st.tailPos[d])
        invariant 0 <= i <= |seen|
        invariant FirstSeen(seen, d, cl.grid, st.tailPos[d]) == FirstSeen(seen[i..], d, cl.grid, st.tailPos[d])
      {
        assert seen[i..][1..] == seen[i + 1..];
        i := i + 1;
      }
      if i < |seen| {
        assert seen[i..][0] == seen[i];
      }
    }

    /** This pull's items for the client, and the channels that begin with it. */
    method Forward(now: nat)
      requires TailsOk(st, streams) && |streams| == dcs && ClientOk(cl, out, books, dcs) && SinceOk(since, books, dcs)
      requires Messages(items, dcs) && SeenIn(seen, streams) && !(cl.streaming && cl.attaching)
      modifies this`cl, this`out, this`books, this`since
      ensures ClientOk(cl, out, books, dcs) && cl.connected == old(cl.connected) && cl.grid == old(cl.grid)
      ensures !(cl.streaming && cl.attaching) && since.mark == old(since.mark)
      ensures if old(Listens(cl))
        then PassedAll(st, streams, items, seen, Side(old(cl), old(books.offered), old(since)), Side(cl, books.offered, since))
        else cl == old(cl) && books == old(books) && since == old(since)
      ensures Went(Size(items) + TailSizes(st.tail), queueMax, old(QueueLine()), QueueLine())
    {
      WentNowhere(queueMax, QueueLine());
      WentMore(0, Size(items) + TailSizes(st.tail), queueMax, QueueLine(), QueueLine());
      hide Went, Size, TailSizes;
      if !cl.connected || (!cl.streaming && !cl.attaching) {
        return;
      }
      if cl.attaching {
        Attach(now);
      } else {
        ClientFits(cl, out, books, dcs);
        ForwardItems(true);
        ClientFits(cl, out, books, dcs);
        WentMore(Size(items), Size(items) + TailSizes(st.tail), queueMax, old(QueueLine()), QueueLine());
      }
    }

    /** One pull's share for each channel: the pull's data if it has begun, else what StartChannel gives. */
    method Attach(now: nat)
      requires TailsOk(st, streams) && |streams| == dcs && ClientOk(cl, out, books, dcs) && SinceOk(since, books, dcs)
      requires Messages(items, dcs) && SeenIn(seen, streams) && cl.attaching && !cl.streaming
      modifies this`cl, this`out, this`books, this`since
      ensures ClientOk(cl, out, books, dcs)
      ensures PassedAll(st, streams, items, seen, Side(old(cl), old(books.offered), old(since)), Side(cl, books.offered, since))
      ensures cl.connected == old(cl.connected) && cl.grid == old(cl.grid) && !(cl.streaming && cl.attaching)
      ensures since.mark == old(since.mark)
      ensures Went(Size(items) + TailSizes(st.tail), queueMax, old(QueueLine()), QueueLine())
    {
      hide ClientOk, PassedAll, Began, Messages, TailSizes, Offered, TailsOk, FirstSeen, DataOf, SinceOk, Went, Size;
      ghost var was, from := Side(cl, books.offered, since), QueueLine();
      LinkFits(st, streams, since, books, dcs);
      ClientFits(cl, out, books, dcs);
      ForwardItems(false);
      ClientFits(cl, out, books, dcs);
      SofarStart(st, streams, items, seen, was, Side(cl, books.offered, since));
      NeedsNone(items, st.tail);
      AttachedNone(st, streams, items, seen, was, from, Side(cl, books.offered, since), QueueLine(), queueMax);
      hide Sofar, Needs, SameClient, Shared, Attached;
      var all, d := true, 0;
      while d < dcs
        invariant 0 <= d <= dcs && |books.offered| == |cl.started| == |since.start| == dcs && ClientOk(cl, out, books, dcs)
        invariant Attached(d, st, streams, items, seen, was, from, Side(cl, books.offered, since), QueueLine(), queueMax)
        invariant all == forall k :: 0 <= k < d ==> cl.started[k]
        invariant cl.connected == old(cl.connected) && cl.grid == old(cl.grid) && cl.attaching && !cl.streaming
      {
        ghost var mid, line := Side(cl, books.offered, since), QueueLine();
        if !cl.started[d] {
          StartChannel(d, now);
          ClientFits(cl, out, books, dcs);
          AttachedBegan(d, st, streams, items, seen, was, from, mid, line, Side(cl, books.offered, since), QueueLine(), now, queueMax);
        } else {
          AttachedWent(d, st, streams, items, seen, was, from, mid, line, queueMax);
        }
        all := all && cl.started[d];
        d := d + 1;
      }
      AttachedEnd(d, st, streams, items, seen, was, from, Side(cl, books.offered, since), QueueLine(), queueMax, all);
      if all {
        StreamingOk(cl, out, books, dcs);
        cl := cl.(attaching := false, streaming := true);
      }
    }

    /** Everything the pull read goes through: tails, sightings, the client's share, then trimming. */
    method Pull(ins: seq<In>, now: nat)
      requires Valid() && Messages(ItemsOf(ins), dcs) && FoundIn(SeenOf(ins, dcs), streams, ItemsOf(ins))
      modifies this
      ensures Valid() && Brings(old(streams), streams, ItemsOf(ins)) && cl.grid == old(cl.grid)
      ensures old(Listens(cl)) ==>
        Joins(old(st), st, old(streams), streams, Side(old(cl), old(books.offered), old(since)), Side(cl, books.offered, since),
              ItemsOf(ins), SeenOf(ins, dcs))
      ensures sent == old(sent) && told == old(told) && kept.at == old(kept.at)
      ensures kept.clean == (old(kept.clean) && old(cl.queued) + Size(ItemsOf(ins)) + TailSizes(st.tail) <= queueMax)
    {
      hide Went, Size, TailSizes, Keeps, PassedAll, ClientOk, Joins, Brings, Messages, FoundIn, SeenIn;
      ClientFits(cl, out, books, dcs);
      ghost var line, was := QueueLine(), Side(cl, books.offered, since);
      TakeIn(ins);
      Forward(now);
      ghost var need := Size(items) + TailSizes(st.tail);
      WentBoth(need, queueMax, line, QueueLine());
      KeepsOn(kept, line, QueueLine(), was.since, since, need, queueMax);
      kept := kept.(clean := kept.clean && line.queued + need <= queueMax);
      if old(Listens(cl)) {
        PassedJoins(old(st), st, old(streams), streams, items, seen, was, Side(cl, books.offered, since));
        JoinsOk(old(st), st, old(streams), streams, was, Side(cl, books.offered, since), items, seen);
      }
      items := [];
    }

    /** What a pull brings, behind what is kept of each tail. */
    method TakeIn(ins: seq<In>)
      requires TailsOk(st, streams) && |streams| == dcs && Messages(ItemsOf(ins), dcs) && items == []
      requires FoundIn(SeenOf(ins, dcs), streams, ItemsOf(ins))
      modifies this`st, this`items, this`streams, this`seen
      ensures TailsOk(st, streams) && |streams| == dcs && items == ItemsOf(ins) && seen == SeenOf(ins, dcs)
      ensures Brings(old(streams), streams, items) && SeenIn(seen, streams)
      ensures forall d :: 0 <= d < dcs ==> st.tailPos[d] == Trimmed(old(st.tailPos)[d], |old(streams)[d]|)
    {
      Trim();
      seen := [];
      TakeAll(ins);
      FoundNow(seen, old(streams), streams, items);
    }

    /** The items and the heartbeats of a pull, as they come. */
    method TakeAll(ins: seq<In>)
      requires TailsOk(st, streams) && |streams| == dcs && Messages(ItemsOf(ins), dcs) && items == [] && seen == []
      modifies this`st, this`items, this`streams, this`seen
      ensures TailsOk(st, streams) && |streams| == dcs && st.tailPos == old(st.tailPos)
      ensures items == ItemsOf(ins) && seen == SeenOf(ins, dcs) && Brings(old(streams), streams, items)
    {
      var i := 0;
      while i < |ins|
        invariant 0 <= i <= |ins| && TailsOk(st, streams) && |streams| == dcs && st.tailPos == old(st.tailPos)
        invariant items == ItemsOf(ins[..i]) && seen == SeenOf(ins[..i], dcs) && Brings(old(streams), streams, items)
      {
        assert ins[..i + 1][..i] == ins[..i];
        if ins[i].Read? {
          var x := ins[i].x;
          MessageIn(ins, dcs, i);
          ghost var was, before := streams, items;
          TeeRead(x);
          BringsMore(old(streams), was, streams, before, x);
          assert seen + [] == seen;
        } else {
          OnHeartbeat(ins[i].beat);
          assert items + [] == items;
        }
        i := i + 1;
      }
      assert ins[..i] == ins;
    }

    /** A new client: nothing was offered to it, and nothing dropped. */
    method Accept()
      requires Valid()
      modifies this`cl, this`out, this`books, this`since, this`sent, this`told, this`kept
      ensures Valid() && cl.connected && !Listens(cl) && books == Start(dcs) && out == []
      ensures cl.queued == LINK_HEAD + WELCOME_LEN
    {
      StartBalanced(dcs);
      cl := Client(true, false, false, 0, seq(dcs, _ => false), LINK_HEAD + WELCOME_LEN, seq(dcs, _ => 0), 0, 0, 0);
      sent, told, kept := 0, LINK_HEAD + WELCOME_LEN, Kept(0, false);
      out, books, since := [], Start(dcs), Since(seq(dcs, _ => 0), seq(dcs, _ => 0));
    }

    /** The announced grid count is past every sighting so far, so no channel has missed it. */
    method OnAttach() returns (grid: nat)
      requires Valid()
      modifies this`cl, this`since, this`kept
      ensures Valid() && forall d :: 0 <= d < dcs ==> st.lastGrid[d] < grid
      ensures dcs > 0 ==> exists d :: 0 <= d < dcs && grid == st.lastGrid[d] + 1
      ensures cl.connected ==> cl.attaching && cl.grid == grid
      ensures cl.connected ==> forall d :: 0 <= d < dcs ==>
        JoinOf(st, streams, cl, books, since, d) == Join(streams[d], st.tailPos[d], false, 0, [])
      ensures cl.connected ==> kept == Kept(|out|, Square(cl.dropped, cl.droppedControls))
    {
      hide Balanced, Size;
      grid := 0;
      ghost var at := 0;
      for d := 0 to dcs
        invariant forall k :: 0 <= k < d ==> st.lastGrid[k] < grid
        invariant d == 0 ==> grid == 0
        invariant d > 0 ==> 0 <= at < d && grid == st.lastGrid[at] + 1
      {
        if st.lastGrid[d] + 1 > grid {
          grid := st.lastGrid[d] + 1;
          at := d;
        }
      }
      if cl.connected {
        cl := cl.(streaming := false, attaching := true, grid := grid, started := seq(dcs, _ => false));
        ghost var offered := books.offered;
        since := Since(seq(dcs, d requires 0 <= d < |offered| => |offered[d]|), seq(dcs, _ => 0));
        kept := Kept(|out|, Square(cl.dropped, cl.droppedControls));
        assert out[kept.at..] == [];
      }
    }

    /** The client has taken some of its queue. */
    method Sent(n: nat)
      requires Valid()
      modifies this`cl, this`sent
      ensures Valid() && cl == old(cl).(queued := cl.queued) && cl.queued == old(cl.queued) - Min(n, old(cl.queued))
    {
      hide ClientOk, Size, Keeps;
      ghost var was := QueueLine();
      var gone := if n < cl.queued then n else cl.queued;
      SameQueue(cl, cl.(queued := cl.queued - gone), out, books, dcs, kept, was, since);
      cl := cl.(queued := cl.queued - gone);
      sent := sent + gone;
    }

    /** A reply to the client is queued whatever the limit. */
    method Reply(len: nat)
      requires Valid()
      modifies this`cl, this`told
      ensures Valid() && cl == old(cl).(queued := old(cl.queued) + LINK_HEAD + 4 + len)
    {
      hide ClientOk, Size, Keeps;
      ghost var was := QueueLine();
      SameQueue(cl, cl.(queued := cl.queued + LINK_HEAD + 4 + len), out, books, dcs, kept, was, since);
      cl := cl.(queued := cl.queued + LINK_HEAD + 4 + len);
      told := told + LINK_HEAD + 4 + len;
    }
  }

  lemma SameQueue(a: Client, b: Client, out: seq<Item>, books: Books, dcs: nat, kept: Kept, line: Line, since: Since)
    requires ClientOk(a, out, books, dcs) && b == a.(queued := b.queued) && Keeps(kept, line, since)
    ensures ClientOk(b, out, books, dcs) && Keeps(kept, line.(queued := b.queued), since)
  {
  }

  /**
   * A client every pull of which had room since it attached: what was queued for it of a channel
   * is the stream from where its part began, with no overflow event, whatever the pulls were.
   */
  lemma QueuedIsSuffix(l: Link, d: nat)
    requires l.Valid() && l.kept.clean && d < l.dcs && Contiguous(JoinOf(l.st, l.streams, l.cl, l.books, l.since, d))
    ensures
      var j := JoinOf(l.st, l.streams, l.cl, l.books, l.since, d);
      && l.kept.at <= |l.out| && NoEvents(l.out[l.kept.at..])
      && DataOf(l.out[l.kept.at..], d) == if j.started then l.streams[d][j.start..] else []
  {
    hide TailsOk, Balanced, Size;
  }

  predicate Listens(cl: Client) {
    cl.connected && (cl.streaming || cl.attaching)
  }

  /** A client, what it was offered, and since where. */
  datatype Side = Side(cl: Client, offered: seq<Bytes>, since: Since)

  predicate SeenIn(seen: seq<Seen>, streams: seq<Bytes>) {
    forall b :: b in seen && b.dc < |streams| ==> b.pos <= |streams[b.dc]|
  }

  predicate SideFits(u: Side, dcs: nat) {
    |u.cl.started| == |u.offered| == |u.since.start| == dcs
  }

  predicate FoundIn(seen: seq<Seen>, streams: seq<Bytes>, items: seq<Item>) {
    forall b :: b in seen && b.dc < |streams| ==> b.pos <= |streams[b.dc]| + |DataOf(items, b.dc)|
  }

  predicate Brings(was: seq<Bytes>, now: seq<Bytes>, items: seq<Item>) {
    |was| == |now| && forall d :: 0 <= d < |was| ==> now[d] == was[d] + DataOf(items, d)
  }

  lemma BringsMore(was: seq<Bytes>, mid: seq<Bytes>, now: seq<Bytes>, items: seq<Item>, x: Item)
    requires Brings(was, mid, items) && |now| == |mid| && forall d :: 0 <= d < |mid| ==> now[d] == mid[d] + Added(x, d)
    ensures Brings(was, now, items + [x])
  {
    assert (items + [x])[..|items|] == items;
    hide Added;
    forall d | 0 <= d < |was|
      ensures now[d] == was[d] + DataOf(items + [x], d)
    {
      assert was[d] + DataOf(items, d) + Added(x, d) == was[d] + (DataOf(items, d) + Added(x, d));
    }
  }

  lemma FoundNow(seen: seq<Seen>, was: seq<Bytes>, now: seq<Bytes>, items: seq<Item>)
    requires FoundIn(seen, was, items) && Brings(was, now, items)
    ensures SeenIn(seen, now)
  {
  }

  lemma {:induction false} MessageIn(ins: seq<In>, dcs: nat, i: nat)
    requires Messages(ItemsOf(ins), dcs) && i < |ins| && ins[i].Read?
    ensures Message(ins[i].x, dcs)
    decreases |ins|
  {
    if i < |ins| - 1 {
      var f := ItemsOf(ins[..|ins| - 1]);
      assert forall x :: x in f ==> x in ItemsOf(ins);
      MessageIn(ins[..|ins| - 1], dcs, i);
    }
  }

  lemma PassedSince(st: Streams, streams: seq<Bytes>, items: seq<Item>, seen: seq<Seen>, a: Side, b: Side)
    requires PassedAll(st, streams, items, seen, a, b) && SideOk(a, |streams|)
    ensures SideOk(b, |streams|)
  {
    hide DataOf, FirstSeen;
    forall d | 0 <= d < |streams|
      ensures b.since.mark[d] <= |b.offered[d]|
    {
      assert Passed(d, st, streams, items, seen, a, b);
    }
  }

  /** Each channel's client has its part of the stream as a pull of the spec leaves it. */
  ghost predicate Joins(st0: Streams, st: Streams, was: seq<Bytes>, now: seq<Bytes>, a: Side, b: Side, items: seq<Item>, seen: seq<Seen>) {
    && |was| == |now| == |st0.tailPos| == |st.tailPos| && SideOk(a, |was|) && SideOk(b, |was|)
    && forall d :: 0 <= d < |was| ==>
      PartOf(st, now, b, d) == AfterPull(PartOf(st0, was, a, d), d, a.cl.grid, DataOf(items, d), seen)
  }

  predicate SideOk(u: Side, dcs: nat) {
    && SideFits(u, dcs) && |u.since.mark| == dcs
    && forall d :: 0 <= d < dcs ==> u.since.mark[d] <= |u.offered[d]|
  }

  function PartOf(st: Streams, streams: seq<Bytes>, u: Side, d: nat): Join
    requires SideOk(u, |streams|) && |st.tailPos| == |streams| && d < |streams|
  {
    Join(streams[d], st.tailPos[d], u.cl.started[d] || u.cl.streaming, u.since.start[d], u.offered[d][u.since.mark[d]..])
  }

  lemma PassedJoins(st0: Streams, st: Streams, was: seq<Bytes>, now: seq<Bytes>, items: seq<Item>, seen: seq<Seen>, a: Side, b: Side)
    requires |was| == |st0.tailPos| && SideOk(a, |was|) && Brings(was, now, items)
    requires PassedAll(st, now, items, seen, a, b)
    requires forall d :: 0 <= d < |was| ==> st.tailPos[d] == Trimmed(st0.tailPos[d], |was[d]|)
    ensures Joins(st0, st, was, now, a, b, items, seen)
  {
    PassedSince(st, now, items, seen, a, b);
    hide DataOf, FirstSeen;
    forall d | 0 <= d < |was|
      ensures PartOf(st, now, b, d) == AfterPull(PartOf(st0, was, a, d), d, a.cl.grid, DataOf(items, d), seen)
    {
      assert Passed(d, st, now, items, seen, a, b) && now[d] == was[d] + DataOf(items, d);
      var mark, offered := a.since.mark[d], a.offered[d];
      SliceMore(offered, DataOf(items, d), mark);
      var s := FirstSeen(seen, d, a.cl.grid, st.tailPos[d]);
      if !a.cl.started[d] && !a.cl.streaming && s.Some? {
        SliceMore(offered, now[d][s.value.pos..], mark);
      }
    }
  }

  lemma JoinsOk(st0: Streams, st: Streams, was: seq<Bytes>, now: seq<Bytes>, a: Side, b: Side, items: seq<Item>, seen: seq<Seen>)
    requires Joins(st0, st, was, now, a, b, items, seen)
    ensures SideOk(b, |was|)
  {
  }

  lemma SliceMore(a: Bytes, b: Bytes, n: nat)
    requires n <= |a|
    ensures (a + b)[n..] == a[n..] + b
  {
  }

  /** One channel of a pull: what went on, what began, and what still waits for its heartbeat. */
  predicate Passed(d: nat, st: Streams, streams: seq<Bytes>, items: seq<Item>, seen: seq<Seen>, a: Side, b: Side)
    requires d < |streams| == |st.tailPos| && SideFits(a, |streams|) && SideFits(b, |streams|)
  {
    var s := FirstSeen(seen, d, a.cl.grid, st.tailPos[d]);
    if a.cl.started[d] || a.cl.streaming then
      b.offered[d] == a.offered[d] + DataOf(items, d) && (b.cl.started[d] || b.cl.streaming) && b.since.start[d] == a.since.start[d]
    else if s.None? then
      b.offered[d] == a.offered[d] && !b.cl.started[d] && !b.cl.streaming && b.since.start[d] == a.since.start[d]
    else
      && s.value.pos <= |streams[d]| && b.offered[d] == a.offered[d] + streams[d][s.value.pos..]
      && b.cl.started[d] && b.since.start[d] == s.value.pos
  }

  predicate PassedAll(st: Streams, streams: seq<Bytes>, items: seq<Item>, seen: seq<Seen>, a: Side, b: Side) {
    && |streams| == |st.tailPos| && SideFits(a, |streams|) && SideFits(b, |streams|) && b.since.mark == a.since.mark
    && forall d :: 0 <= d < |streams| ==> Passed(d, st, streams, items, seen, a, b)
  }

  /** A channel not come to yet in a pull. */
  predicate Waits(d: nat, streams: seq<Bytes>, items: seq<Item>, a: Side, b: Side)
    requires d < |streams| && SideFits(a, |streams|) && SideFits(b, |streams|)
  {
    && b.offered[d] == a.offered[d] + (if a.cl.started[d] then DataOf(items, d) else [])
    && b.cl.started[d] == a.cl.started[d] && b.since.start[d] == a.since.start[d]
  }

  predicate Sofar(n: nat, st: Streams, streams: seq<Bytes>, items: seq<Item>, seen: seq<Seen>, a: Side, b: Side) {
    && |streams| == |st.tailPos| && SideFits(a, |streams|) && SideFits(b, |streams|) && b.since.mark == a.since.mark
    && !a.cl.streaming && !b.cl.streaming && b.cl.grid == a.cl.grid
    && forall d :: 0 <= d < |streams| ==>
      if d < n then Passed(d, st, streams, items, seen, a, b) else Waits(d, streams, items, a, b)
  }

  lemma SofarStart(st: Streams, streams: seq<Bytes>, items: seq<Item>, seen: seq<Seen>, a: Side, b: Side)
    requires |streams| == |st.tailPos| && SideFits(a, |streams|) && b.since == a.since && !a.cl.streaming
    requires SameClient(a.cl, b.cl) && Shared(a.offered, b.offered, items, b.cl.started, false)
    ensures Sofar(0, st, streams, items, seen, a, b)
  {
  }

  lemma SofarWent(d: nat, st: Streams, streams: seq<Bytes>, items: seq<Item>, seen: seq<Seen>, a: Side, b: Side)
    requires d < |streams| && Sofar(d, st, streams, items, seen, a, b) && b.cl.started[d]
    ensures Sofar(d + 1, st, streams, items, seen, a, b)
  {
    assert Waits(d, streams, items, a, b);
    hide DataOf, FirstSeen;
    forall k | 0 <= k < d + 1
      ensures Passed(k, st, streams, items, seen, a, b)
    {
    }
  }

  lemma SofarBegan(d: nat, st: Streams, streams: seq<Bytes>, items: seq<Item>, seen: seq<Seen>, a: Side, b: Side, c: Side, now: nat)
    requires d < |streams| && Sofar(d, st, streams, items, seen, a, b) && !b.cl.started[d] && SeenIn(seen, streams)
    requires SideFits(c, |streams|)
    requires Began(FirstSeen(seen, d, b.cl.grid, st.tailPos[d]), d, now, streams, b.cl, c.cl, b.offered, c.offered, b.since, c.since)
    ensures Sofar(d + 1, st, streams, items, seen, a, c) && c.cl.grid == b.cl.grid && c.cl.connected == b.cl.connected
    ensures c.cl.attaching == b.cl.attaching && !c.cl.streaming
    ensures forall k :: 0 <= k < d ==> c.cl.started[k] == b.cl.started[k]
  {
    assert Waits(d, streams, items, a, b) && b.offered[d] == a.offered[d];
    var s := FirstSeen(seen, d, b.cl.grid, st.tailPos[d]);
    hide DataOf, FirstSeen;
    forall k | 0 <= k < |streams|
      ensures if k < d + 1 then Passed(k, st, streams, items, seen, a, c) else Waits(k, streams, items, a, c)
    {
      assert if k < d then Passed(k, st, streams, items, seen, a, b) else Waits(k, streams, items, a, b);
      if s.Some? {
        assert c.offered[k] == b.offered[k] + Added(Data(d, now, 0, streams[d][s.value.pos..]), k);
        assert b.offered[k] + [] == b.offered[k];
      }
    }
  }

  lemma SofarEnd(n: nat, st: Streams, streams: seq<Bytes>, items: seq<Item>, seen: seq<Seen>, a: Side, b: Side, all: bool)
    requires Sofar(n, st, streams, items, seen, a, b) && n == |streams| && all == forall k :: 0 <= k < n ==> b.cl.started[k]
    ensures PassedAll(st, streams, items, seen, a, b) && b.since.mark == a.since.mark
    ensures all ==> PassedAll(st, streams, items, seen, a, b.(cl := b.cl.(attaching := false, streaming := true)))
  {
    hide DataOf, FirstSeen;
    var c := b.(cl := b.cl.(attaching := false, streaming := true));
    forall d | 0 <= d < n
      ensures Passed(d, st, streams, items, seen, a, b) && (all ==> Passed(d, st, streams, items, seen, a, c))
    {
      assert all ==> b.cl.started[d];
    }
  }

  /** How far a joining client's pull has come, and what its queue has taken. */
  ghost predicate Attached(n: nat, st: Streams, streams: seq<Bytes>, items: seq<Item>, seen: seq<Seen>, a: Side, from: Line,
      b: Side, line: Line, queueMax: nat) {
    && Sofar(n, st, streams, items, seen, a, b) && n <= |st.tail|
    && Went(Needs(items, st.tail, n), queueMax, from, line)
  }

  lemma AttachedNone(st: Streams, streams: seq<Bytes>, items: seq<Item>, seen: seq<Seen>, a: Side, from: Line,
      b: Side, line: Line, queueMax: nat)
    requires Sofar(0, st, streams, items, seen, a, b) && Went(Needs(items, st.tail, 0), queueMax, from, line)
    ensures Attached(0, st, streams, items, seen, a, from, b, line, queueMax)
  {
  }

  lemma AttachedBegan(d: nat, st: Streams, streams: seq<Bytes>, items: seq<Item>, seen: seq<Seen>, a: Side, from: Line,
      b: Side, line: Line, c: Side, next: Line, now: nat, queueMax: nat)
    requires Attached(d, st, streams, items, seen, a, from, b, line, queueMax)
    requires d < |streams| == |b.cl.started| == |st.tailPos| == |st.tail| == |b.since.start| && !b.cl.started[d] && SeenIn(seen, streams)
    requires SideFits(c, |streams|) && Went(LINK_HEAD + |st.tail[d]|, queueMax, line, next)
    requires Began(FirstSeen(seen, d, b.cl.grid, st.tailPos[d]), d, now, streams, b.cl, c.cl, b.offered, c.offered, b.since, c.since)
    ensures Attached(d + 1, st, streams, items, seen, a, from, c, next, queueMax)
    ensures c.cl.grid == b.cl.grid && c.cl.connected == b.cl.connected && c.cl.attaching == b.cl.attaching && !c.cl.streaming
    ensures |c.cl.started| == |streams| && forall k :: 0 <= k < d ==> c.cl.started[k] == b.cl.started[k]
  {
    SofarBegan(d, st, streams, items, seen, a, b, c, now);
    NeedsOne(items, st.tail, d);
    WentOn(Needs(items, st.tail, d), LINK_HEAD + |st.tail[d]|, queueMax, from, line, next);
    hide Sofar, Went, Needs, Began;
  }

  lemma AttachedWent(d: nat, st: Streams, streams: seq<Bytes>, items: seq<Item>, seen: seq<Seen>, a: Side, from: Line,
      b: Side, line: Line, queueMax: nat)
    requires Attached(d, st, streams, items, seen, a, from, b, line, queueMax)
    requires d < |streams| == |b.cl.started| == |st.tail| && b.cl.started[d]
    ensures Attached(d + 1, st, streams, items, seen, a, from, b, line, queueMax)
  {
    SofarWent(d, st, streams, items, seen, a, b);
    NeedsOne(items, st.tail, d);
    WentMore(Needs(items, st.tail, d), Needs(items, st.tail, d + 1), queueMax, from, line);
    hide Sofar, Went, Needs;
  }

  lemma AttachedEnd(n: nat, st: Streams, streams: seq<Bytes>, items: seq<Item>, seen: seq<Seen>, a: Side, from: Line,
      b: Side, line: Line, queueMax: nat, all: bool)
    requires Attached(n, st, streams, items, seen, a, from, b, line, queueMax)
    requires n == |streams| == |b.cl.started| == |st.tail| && all == forall k :: 0 <= k < n ==> b.cl.started[k]
    ensures PassedAll(st, streams, items, seen, a, b) && b.since.mark == a.since.mark
    ensures all ==> PassedAll(st, streams, items, seen, a, b.(cl := b.cl.(attaching := false, streaming := true)))
    ensures Went(Size(items) + TailSizes(st.tail), queueMax, from, line)
  {
    SofarEnd(n, st, streams, items, seen, a, b, all);
    NeedsAll(items, st.tail);
    hide Sofar, Went, Needs, PassedAll;
  }

  lemma StreamingOk(cl: Client, out: seq<Item>, b: Books, dcs: nat)
    requires ClientOk(cl, out, b, dcs)
    ensures ClientOk(cl.(attaching := false, streaming := true), out, b, dcs)
  {
  }

  /** A channel began at a heartbeat that was seen, or nothing changed. */
  ghost predicate Began(s: Option<Seen>, d: nat, now: nat, streams: seq<Bytes>, c0: Client, c: Client,
      was: seq<Bytes>, offered: seq<Bytes>, x0: Since, x: Since)
    requires d < |streams| && d < |c0.started| && d < |x0.start| && (s.Some? ==> s.value.pos <= |streams[d]|)
  {
    if s.None? then c == c0 && offered == was && x == x0
    else
      && SameClient(c0.(started := c0.started[d := true]), c)
      && Offered(was, offered, Data(d, now, 0, streams[d][s.value.pos..]))
      && x == x0.(start := x0.start[d := s.value.pos])
  }

  /** Each channel was offered its data among the items, if it is one to share. */
  predicate Shared(was: seq<Bytes>, now: seq<Bytes>, items: seq<Item>, started: seq<bool>, all: bool) {
    && |was| == |now| == |started|
    && forall d :: 0 <= d < |was| ==> now[d] == was[d] + if all || started[d] then DataOf(items, d) else []
  }

  lemma SharedStart(was: seq<Bytes>, started: seq<bool>, all: bool)
    requires |was| == |started|
    ensures Shared(was, was, [], started, all)
  {
  }

  lemma SharedMore(was: seq<Bytes>, mid: seq<Bytes>, now: seq<Bytes>, items: seq<Item>, x: Item, started: seq<bool>, all: bool, share: bool)
    requires Shared(was, mid, items, started, all) && Message(x, |was|)
    requires share == (all || (x.Data? && started[x.channel])) && if share then Offered(mid, now, x) else now == mid
    ensures Shared(was, now, items + [x], started, all)
  {
    forall d | 0 <= d < |was|
      ensures now[d] == was[d] + if all || started[d] then DataOf(items + [x], d) else []
    {
      assert (items + [x])[..|items|] == items;
      var more := DataOf(items, d);
      assert was[d] + more + Added(x, d) == was[d] + (more + Added(x, d));
      assert mid[d] + [] == mid[d] && more + [] == more;
    }
  }

  lemma SameFirst(c: Client)
    ensures SameClient(c, c)
  {
  }

  lemma SameNext(a: Client, b: Client, c: Client)
    requires SameClient(a, b) && SameClient(b, c)
    ensures SameClient(a, c) && c.started == a.started
  {
  }

  lemma MessageOf(items: seq<Item>, dcs: nat, i: nat)
    requires Messages(items, dcs) && i < |items|
    ensures Message(items[i], dcs)
  {
    assert items[i] in items;
  }

  lemma ClientFits(cl: Client, out: seq<Item>, b: Books, dcs: nat)
    requires ClientOk(cl, out, b, dcs)
    ensures |b.offered| == dcs == |cl.started|
  {
  }

  lemma LinkFits(st: Streams, streams: seq<Bytes>, x: Since, b: Books, dcs: nat)
    requires TailsOk(st, streams) && SinceOk(x, b, dcs)
    ensures |st.tailPos| == |st.tail| == |streams| && |x.start| == dcs
  {
  }

  lemma BeganNow(a: Client, b: Client, d: nat)
    requires SameClient(a, b) && d < |a.started| == |b.started|
    ensures SameClient(a.(started := a.started[d := true]), b.(started := b.started[d := true]))
  {
  }

  lemma StartedOk(cl: Client, out: seq<Item>, b: Books, dcs: nat, d: nat)
    requires ClientOk(cl, out, b, dcs) && d < dcs
    ensures ClientOk(cl.(started := cl.started[d := true]), out, b, dcs)
  {
  }

  lemma OfferIs(b: Books, d: nat, time: nat, bytes: Bytes, taken: bool, named: bool)
    requires Fits(b) && d < |b.dropped|
    ensures
      var u := Offer(b, d, time, bytes, taken, named);
      var ev := [Overflow(d, time, b.dropped[d], b.droppedControls)];
      && u.offered == b.offered[d := b.offered[d] + bytes]
      && u.dropped == (if !taken then b.dropped[d := b.dropped[d] + |bytes|] else if named then b.dropped[d := 0] else b.dropped)
      && u.droppedControls == (if taken && named then 0 else b.droppedControls)
      && PlainAll(u.items)
      == PlainAll(b.items) + if taken then (if named then ev else []) + [Data(d, time, 0, bytes)] else []
  {
  }

  lemma OtherIs(b: Books, x: Item, time: nat, taken: bool)
    requires x.Control?
    ensures
      var u := AfterOther(b, x, time, taken);
      var ev := [Overflow(0, time, 0, b.droppedControls)];
      && u.offered == b.offered && u.dropped == b.dropped
      && u.droppedControls == (if taken then 0 else b.droppedControls + 1)
      && PlainAll(u.items)
      == PlainAll(b.items) + if taken then (if b.droppedControls > 0 then ev else []) + [x] else []
  {
  }
}
