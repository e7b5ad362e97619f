/**
 * The recorder as it runs: a caller that queues what fits and counts what does not, and a
 * writer that takes the queue and puts it into the file and its index. Each method is one
 * critical section of either thread, or what it does on its own fields between two.
 */
module Recorder {
  import opened Numbers
  import opened Ledger
  import opened RecorderFile
  import opened IndexLanes
  import Thc = ThcFile

  /** The caller's fields. */
  datatype Caller = Caller(stream: seq<nat>, dropped: seq<nat>, nextGrid: seq<nat>, droppedControls: nat,
    overflowBytes: nat, overflowEvents: nat)

  /** What is shared under the lock. */
  datatype Shared = Shared(queue: seq<Item>, queued: nat, closing: bool, error: bool)

  /** The writer's fields: what it took and has not put yet, the sizes of what it has, the batch. */
  datatype Writer = Writer(list: seq<Item>, taken: nat, failed: bool, batch: Bytes, offset: nat)

  /** The caller's counters are what the books say. */
  predicate Agrees(c: Caller, b: Books) {
    && |c.stream| == |c.dropped| == |c.nextGrid| == |b.offered| && c.dropped == b.dropped
    && c.droppedControls == b.droppedControls
    && forall d :: 0 <= d < |c.stream| ==> c.stream[d] == |b.offered[d]|
  }

  predicate CallerOk(c: Caller, channels: nat) {
    |c.stream| == |c.dropped| == |c.nextGrid| == channels
  }

  /** The caller's counters after data of n bytes. */
  function CallerData(c: Caller, d: nat, n: nat, taken: bool): Caller
    requires CallerOk(c, |c.stream|) && d < |c.stream|
  {
    var t := c.(stream := c.stream[d := c.stream[d] + n]);
    if !taken then t.(dropped := t.dropped[d := t.dropped[d] + n], overflowBytes := t.overflowBytes + n)
    else if c.dropped[d] > 0 || c.droppedControls > 0
    then t.(dropped := t.dropped[d := 0], droppedControls := 0, overflowEvents := t.overflowEvents + 1)
    else t
  }

  lemma DataAgrees(c: Caller, b: Books, d: nat, time: nat, bytes: Bytes, taken: bool)
    requires Agrees(c, b) && Fits(b) && d < |b.offered|
    ensures Agrees(CallerData(c, d, |bytes|, taken), AfterData(b, d, time, bytes, taken))
    ensures |AfterData(b, d, time, bytes, taken).offered| == |b.offered|
  {
  }

  function CallerControl(c: Caller, taken: bool): Caller
    requires |c.dropped| > 0
  {
    if !taken then c.(droppedControls := c.droppedControls + 1)
    else if c.droppedControls > 0
    then c.(dropped := c.dropped[0 := 0], droppedControls := 0, overflowEvents := c.overflowEvents + 1)
    else c
  }

  lemma ControlAgrees(c: Caller, b: Books, x: Item, time: nat, taken: bool)
    requires Agrees(c, b) && Fits(b) && |b.dropped| > 0 && x.Control?
    ensures Agrees(CallerControl(c, taken), AfterControl(b, x, time, taken))
    ensures |AfterControl(b, x, time, taken).offered| == |b.offered|
  {
  }

  /** A chunk's payload does not fit the file. */
  predicate TooLong(x: Item) {
    ChunkOf(x).Some? && |ChunkOf(x).value.payload| > Thc.PAYLOAD_MAX
  }

  /** The queue's size counts what waits and what the writer is at. */
  predicate Counted(s: Shared, w: Writer) {
    s.queued == Sizes(s.queue) + Sizes(w.list) + w.taken
  }

  /** Everything queued is in the file, in the writer's hands, or waiting, in that order. */
  predicate InOrder(items: seq<Item>, done: seq<Item>, s: Shared, w: Writer) {
    items == done + w.list + s.queue
  }

  predicate Written(done: seq<Item>, w: Writer, file: Bytes) {
    !w.failed ==> w.offset == |file| && file + w.batch == FileOf(done)
  }

  predicate Refused(s: Shared, need: nat, droppable: bool) {
    s.error || (droppable && s.queued + need > QUEUE_MAX)
  }

  /** The indexer's lines so far, where the writer has not failed. */
  predicate IndexedSo(channels: nat, k: nat, done: seq<Item>, w: Writer, u: Indexed)
    requires k > 0
  {
    !w.failed ==> u == IndexOf(channels, k, done)
  }

  class Recorder {
    const channels: nat
    const k: nat
    var c: Caller
    var s: Shared
    var w: Writer
    var file: Bytes
    /** The writer's lanes and the index's lines. */
    var u: Indexed
    ghost var books: Books
    ghost var done: seq<Item>

    ghost predicate Valid()
      reads this
    {
      && k > 0 && channels > 0 && |books.offered| == channels
      && Balanced(books) && Agrees(c, books) && Counted(s, w) && InOrder(books.items, done, s, w)
      && Written(done, w, file) && IndexedSo(channels, k, done, w, u)
    }

    constructor (channels: nat, k: nat)
      requires channels > 0 && k > 0
      ensures Valid() && books == Start(channels) && this.channels == channels && this.k == k
    {
      this.channels, this.k := channels, k;
      c := Caller(seq(channels, _ => 0), seq(channels, _ => 0), seq(channels, _ => 0), 0, 0, 0);
      s, w := Shared([], 0, false, false), Writer([], 0, false, [], 0);
      file, u, books, done := [], Indexed(seq(channels, _ => Lane([], 0)), []), Start(channels), [];
      StartBalanced(channels);
    }

    /** All items or none; only droppable ones are turned away for the queue's size. */
    method Push(items: seq<Item>, droppable: bool) returns (taken: bool)
      requires Counted(s, w) && InOrder(books.items, done, s, w) && |items| <= 2
      modifies this`s
      ensures Counted(s, w) && taken == !Refused(old(s), Sizes(items), droppable)
      ensures taken <==> !old(s.error) && (droppable ==> old(s.queued) + Sizes(items) <= QUEUE_MAX)
      ensures InOrder(books.items + if taken then items else [], done, s, w)
      ensures s.error == old(s.error) && s.closing == old(s.closing)
    {
      assert books.items + [] == books.items;
      var need := Sizes(items);
      taken := !s.error && !(droppable && s.queued + need > QUEUE_MAX);
      if taken {
        SizesMore(s.queue, items);
        assert done + w.list + (s.queue + items) == done + w.list + s.queue + items;
        s := s.(queue := s.queue + items, queued := s.queued + need);
      }
    }

    /** Bytes read on a data channel: queued, or dropped and named by a later event. */
    method RecordData(channel: nat, time: nat, bytes: Bytes) returns (taken: bool)
      requires Valid()
      modifies this`c, this`s, this`books
      ensures Valid()
      ensures if channel >= channels || bytes == [] then books == old(books) && s == old(s)
        else books == AfterData(old(books), channel, time, bytes, taken)
      ensures channel < channels && bytes != [] ==>
        taken == !Refused(old(s), Sizes(DataItems(old(books), channel, time, bytes)), true)
    {
      taken := false;
      if channel >= channels || bytes == [] {
        return;
      }
      DataAgrees(c, books, channel, time, bytes, true);
      DataAgrees(c, books, channel, time, bytes, false);
      DataItemsAre(books, channel, time, bytes, true);
      DataItemsAre(books, channel, time, bytes, false);
      hide Balanced, Counted, InOrder, Written, IndexedSo, Sizes, Agrees, AfterData, Refused;
      var x := Data(channel, time, c.stream[channel], bytes);
      var owes := c.dropped[channel] > 0 || c.droppedControls > 0;
      taken := Push(if owes then [Overflow(channel, time, c.dropped[channel], c.droppedControls), x] else [x], true);
      DataBalanced(books, channel, time, bytes, taken);
      books := AfterData(books, channel, time, bytes, taken);
      c := CallerData(c, channel, |bytes|, taken);
    }

    /** A control message, after an event for those dropped before it. */
    method RecordControl(flags: Byte, time: nat, bytes: Bytes) returns (taken: bool)
      requires Valid()
      modifies this`c, this`s, this`books
      ensures Valid() && books == AfterControl(old(books), Control(flags, time, bytes), time, taken)
      ensures taken == !Refused(old(s), Sizes(ControlItems(old(books), Control(flags, time, bytes), time)), true)
    {
      var x := Control(flags, time, bytes);
      ControlAgrees(c, books, x, time, true);
      ControlAgrees(c, books, x, time, false);
      ControlItemsAre(books, x, time, true);
      ControlItemsAre(books, x, time, false);
      hide Balanced, Counted, InOrder, Written, IndexedSo, Sizes, Agrees, AfterControl, Refused;
      taken := Push(if c.droppedControls > 0 then [Overflow(0, time, c.dropped[0], c.droppedControls), x] else [x], true);
      ControlBalanced(books, x, time, taken);
      books := AfterControl(books, x, time, taken);
      c := CallerControl(c, taken);
    }

    /** Queues an item that owes and names nothing. */
    method PushOther(x: Item, droppable: bool) returns (taken: bool)
      requires Valid() && !x.Data? && !x.Overflow? && !x.Control?
      modifies this`s, this`books
      ensures Valid() && books == old(books).(items := old(books).items + if taken then [x] else [])
      ensures taken == !Refused(old(s), Sizes([x]), droppable)
    {
      hide Balanced, Counted, InOrder, Written, IndexedSo, Sizes, Refused;
      assert books.items + [] == books.items;
      taken := Push([x], droppable);
      if taken {
        ItemBalanced(books, x);
        books := books.(items := books.items + [x]);
      }
    }

    /** An event is never dropped. */
    method RecordEvent(code: nat, channel: nat, time: nat, bytes: Bytes) returns (taken: bool)
      requires Valid()
      modifies this`s, this`books
      ensures Valid() && books == old(books).(items := old(books).items + if taken then [Event(channel, time, code, bytes)] else [])
      ensures taken == !old(s.error)
    {
      taken := PushOther(Event(channel, time, code, bytes), false);
    }

    /** Queues a mark if the grid count is due, and moves the next due count past it. */
    method RecordHeartbeat(channel: nat, grid: nat, pos: nat) returns (taken: bool)
      requires Valid()
      modifies this`c, this`s, this`books
      ensures Valid()
      ensures var due := channel < channels && grid >= old(c.nextGrid)[channel];
        && c.nextGrid == (if due then old(c.nextGrid)[channel := NextGrid(grid, k)] else old(c.nextGrid))
        && (taken ==> due) && books == old(books).(items := old(books).items + if taken then [Mark(channel, grid, pos)] else [])
        && (due ==> taken == !Refused(old(s), Sizes([Mark(channel, grid, pos)]), true))
    {
      taken := false;
      assert books.items + [] == books.items;
      if channel >= channels || grid < c.nextGrid[channel] {
        return;
      }
      c := c.(nextGrid := c.nextGrid[channel := NextGrid(grid, k)]);
      taken := PushOther(Mark(channel, grid, pos), true);
    }

    /** Ends the recording: its END chunk, and the writer is told to finish. */
    method Close(time: nat, payload: Bytes) returns (taken: bool)
      requires Valid()
      modifies this`s, this`books
      ensures Valid() && s.closing && taken == !old(s.error)
      ensures books == old(books).(items := old(books).items + if taken then [End(time, payload)] else [])
    {
      taken := PushOther(End(time, payload), false);
      hide Balanced, Sizes, FileOf, IndexOf;
      s := s.(closing := true);
    }

    // ----- the writer

    /** Takes what is queued. */
    method Take()
      requires Valid() && w.list == []
      modifies this`s, this`w
      ensures Valid() && s == old(s).(queue := []) && w == old(w).(list := old(s.queue), failed := old(w.failed) || old(s.error))
    {
      hide Balanced, Agrees, FileOf, IndexOf;
      w, s := w.(list := s.queue, failed := w.failed || s.error), s.(queue := []);
      assert done + w.list + [] == done + [] + w.list;
    }

    /** Puts one item into the batch, and its chunk or heartbeat into the index. */
    method PutNext()
      requires Valid() && w.list != []
      modifies this`w, this`u, this`done
      ensures Valid() && done == old(done) + [old(w.list)[0]] && w.list == old(w.list)[1..]
      ensures w.failed == (old(w.failed) || TooLong(old(w.list)[0]))
    {
      hide Balanced, Agrees, FileOf, IndexOf, ItemBytes, IndexItem, TooLong;
      var x := w.list[0];
      PutIs(books.items, done, s, w, file, x);
      FileMore(done, x);
      IndexMore(channels, k, done, x);
      var at := w.offset + |w.batch|;
      done := done + [x];
      w := w.(list := w.list[1..], taken := w.taken + Size(x));
      if !w.failed {
        if TooLong(x) {
          w := w.(failed := true);
        } else {
          u := IndexItem(u, k, x, at);
          assert file + (w.batch + ItemBytes(x, at)) == file + w.batch + ItemBytes(x, at);
          w := w.(batch := w.batch + ItemBytes(x, at));
        }
      }
    }

    /** Writes the batch; the disk may take only part of it and fail. */
    method Flush(part: nat, ok: bool)
      requires Valid() && part <= |w.batch|
      modifies this`w, this`file
      ensures Valid() && w.failed == (old(w.failed) || !ok)
      ensures !w.failed ==> w.batch == [] && file == old(file) + old(w.batch) && file == FileOf(done)
      ensures old(file) <= file
    {
      hide Balanced, Agrees, FileOf, IndexOf;
      if w.failed {
      } else if ok {
        file := file + w.batch;
        assert file + [] == file;
        w := w.(offset := w.offset + |w.batch|, batch := []);
      } else {
        file := file + w.batch[..part];
        w := w.(failed := true);
      }
    }

    /** Gives back the room of what was put, and tells the caller of a failure. */
    method Account()
      requires Valid() && w.list == []
      modifies this`s, this`w
      ensures Valid() && s.queue == old(s.queue) && s.queued == Sizes(s.queue) && s.error == (old(s.error) || w.failed)
    {
      hide Balanced, Agrees, FileOf, IndexOf;
      s, w := s.(queued := s.queued - w.taken, error := s.error || w.failed), w.(taken := 0);
    }
  }

  lemma PutIs(items: seq<Item>, done: seq<Item>, s: Shared, w: Writer, file: Bytes, x: Item)
    requires InOrder(items, done, s, w) && w.list != [] && x == w.list[0] && Counted(s, w) && Written(done, w, file)
    ensures InOrder(items, done + [x], s, w.(list := w.list[1..]))
    ensures s.queued == Sizes(s.queue) + Sizes(w.list[1..]) + (w.taken + Size(x))
    ensures !w.failed ==> w.offset + |w.batch| == |FileOf(done)|
  {
    hide FileOf;
    assert done + w.list + s.queue == done + [x] + w.list[1..] + s.queue;
    assert !w.failed ==> |file + w.batch| == |FileOf(done)|;
  }
}
