/**
 * The index of a capture file: which heartbeats it names, and where in the file each begins.
 * A lane keeps only the chunks a later heartbeat can still begin in.
 */
module IndexLanes {
  import opened Numbers

  /** A chunk's place in the stream: len bytes from start on, and the file offset it is found at. */
  datatype Span = Span(start: nat, len: nat, chunk: nat)

  /** A heartbeat that checked good, and where in its stream it starts. */
  datatype Beat = Beat(grid: nat, pos: nat)

  /** A heartbeat begins at a payload offset of the chunk at a file offset. */
  datatype Entry = Entry(grid: nat, chunk: nat, payload: nat)

  /** Chunks a heartbeat may still begin in, and the next grid count to index. */
  datatype Lane = Lane(spans: seq<Span>, next: nat)

  /** What a data channel's lane is told: a chunk, bytes that never reached the file, a heartbeat. */
  datatype Step = Carry(len: nat, chunk: nat) | Lose(len: nat) | Beats(beat: Beat)

  /** The least multiple of k greater than grid. */
  function NextGrid(grid: nat, k: nat): nat
    requires k > 0
  {
    (grid / k + 1) * k
  }

  predicate Holds(s: Span, pos: nat) {
    s.start <= pos < s.start + s.len
  }

  /** Lets go of the chunks before pos. */
  function Prune(spans: seq<Span>, pos: nat): seq<Span> {
    if spans == [] || spans[0].start + spans[0].len > pos then spans else Prune(spans[1..], pos)
  }

  function AddChunk(l: Lane, start: nat, len: nat, chunk: nat): Lane {
    if len == 0 then l else l.(spans := l.spans + [Span(start, len, chunk)])
  }

  /** Makes an entry of a heartbeat that is due, if its chunk is known. */
  function AddBeat(l: Lane, k: nat, b: Beat): (Lane, Option<Entry>)
    requires k > 0
  {
    if b.grid < l.next then (l, None)
    else
      var spans := Prune(l.spans, b.pos);
      if spans == [] || spans[0].start > b.pos then (l.(spans := spans), None)
      else (Lane(spans, NextGrid(b.grid, k)), Some(Entry(b.grid, spans[0].chunk, b.pos - spans[0].start)))
  }

  function Listed(e: Option<Entry>): seq<Entry> {
    if e.Some? then [e.value] else []
  }

  /** A lane over a whole stream, from stream position at on. */
  function Run(l: Lane, k: nat, at: nat, steps: seq<Step>): seq<Entry>
    requires k > 0
    decreases |steps|
  {
    if steps == [] then []
    else
      match steps[0]
      case Carry(len, chunk) => Run(AddChunk(l, at, len, chunk), k, at + len, steps[1..])
      case Lose(len) => Run(l, k, at + len, steps[1..])
      case Beats(b) =>
        var (t, e) := AddBeat(l, k, b);
        Listed(e) + Run(t, k, at, steps[1..])
  }

  // ----- the same without letting go of anything

  /** Every chunk of a stream. */
  function Spans(at: nat, steps: seq<Step>): (r: seq<Span>)
    ensures forall s :: s in r ==> s.start >= at && s.len > 0
    decreases |steps|
  {
    if steps == [] then []
    else
      match steps[0]
      case Carry(len, chunk) =>
        (if len == 0 then [] else [Span(at, len, chunk)]) + Spans(at + len, steps[1..])
      case Lose(len) => Spans(at + len, steps[1..])
      case Beats(_) => Spans(at, steps[1..])
  }

  function BeatsOf(steps: seq<Step>): seq<Beat> {
    if steps == [] then [] else (if steps[0].Beats? then [steps[0].beat] else []) + BeatsOf(steps[1..])
  }

  /** Heartbeats come in stream order, and once their first byte has come. */
  predicate InStream(at: nat, last: nat, steps: seq<Step>)
    decreases |steps|
  {
    steps == [] ||
    match steps[0]
    case Carry(len, _) => InStream(at + len, last, steps[1..])
    case Lose(len) => InStream(at + len, last, steps[1..])
    case Beats(b) => last <= b.pos < at && InStream(at, b.pos, steps[1..])
  }

  /** The chunk a stream position lies in, among all. */
  function Find(spans: seq<Span>, pos: nat): (r: Option<Span>)
    ensures r.Some? ==> r.value in spans && Holds(r.value, pos)
    ensures r.None? ==> forall s :: s in spans ==> !Holds(s, pos)
  {
    if spans == [] then None else if Holds(spans[0], pos) then Some(spans[0]) else Find(spans[1..], pos)
  }

  /** The entry a heartbeat makes, if it is due and its chunk is among all. */
  function EntryOf(spans: seq<Span>, b: Beat): Option<Entry> {
    var s := Find(spans, b.pos);
    if s.Some? then Some(Entry(b.grid, s.value.chunk, b.pos - s.value.start)) else None
  }

  /** The entries of a stream by searching all its chunks for each heartbeat. */
  function Entries(spans: seq<Span>, k: nat, next: nat, beats: seq<Beat>): seq<Entry>
    requires k > 0
    decreases |beats|
  {
    if beats == [] then []
    else
      var e := if beats[0].grid < next then None else EntryOf(spans, beats[0]);
      Listed(e) + Entries(spans, k, if e.Some? then NextGrid(beats[0].grid, k) else next, beats[1..])
  }

  /** Chunks in stream order, apart. */
  predicate Apart(spans: seq<Span>) {
    && (forall s :: s in spans ==> s.len > 0)
    && forall i, j :: 0 <= i < j < |spans| ==> spans[i].start + spans[i].len <= spans[j].start
  }

  lemma {:induction false} PruneIs(spans: seq<Span>, pos: nat) returns (n: nat)
    ensures n <= |spans| && Prune(spans, pos) == spans[n..]
    ensures forall i :: 0 <= i < n ==> spans[i].start + spans[i].len <= pos
    ensures n < |spans| ==> spans[n].start + spans[n].len > pos
  {
    if spans == [] || spans[0].start + spans[0].len > pos {
      n := 0;
    } else {
      var m := PruneIs(spans[1..], pos);
      n := m + 1;
    }
  }

  /** In chunks that lie apart, the one at the front after pruning is the one searched for. */
  lemma {:induction false} PruneFinds(spans: seq<Span>, pos: nat)
    requires Apart(spans)
    ensures
      var p := Prune(spans, pos);
      Find(spans, pos) == if p == [] || p[0].start > pos then None else Some(p[0])
  {
    if spans != [] {
      if spans[0].start + spans[0].len > pos {
        if spans[0].start > pos {
          forall s | s in spans
            ensures !Holds(s, pos)
          {
            var i :| 0 <= i < |spans| && spans[i] == s;
            assert i > 0 ==> spans[0].start + spans[0].len <= spans[i].start;
          }
        }
      } else {
        PruneFinds(spans[1..], pos);
      }
    }
  }

  /** What was let go of, and what is still to come, does not hold pos. */
  lemma {:induction false} FindMiddle(a: seq<Span>, b: seq<Span>, c: seq<Span>, pos: nat)
    requires (forall s :: s in a ==> s.start + s.len <= pos) && forall s :: s in c ==> pos < s.start
    ensures Find(a + b + c, pos) == Find(b, pos)
  {
    if a != [] {
      assert (a + b + c)[0] == a[0] && (a + b + c)[1..] == a[1..] + b + c;
      FindMiddle(a[1..], b, c, pos);
    } else if b != [] {
      assert a + b + c == b + c;
      assert (b + c)[0] == b[0] && (b + c)[1..] == b[1..] + c;
      FindMiddle(a, b[1..], c, pos);
      assert a + b[1..] + c == b[1..] + c;
    } else {
      assert a + b + c == c;
    }
  }

  /**
   * Letting go of chunks changes nothing: every heartbeat finds the chunk a search over all
   * chunks of the stream finds, and makes the same entry.
   */
  lemma {:induction false} PruningLosesNothing(gone: seq<Span>, l: Lane, k: nat, at: nat, last: nat, steps: seq<Step>)
    requires k > 0 && InStream(at, last, steps) && Apart(l.spans)
    requires (forall s :: s in gone ==> s.start + s.len <= last) && forall s :: s in l.spans ==> s.start + s.len <= at
    ensures Run(l, k, at, steps) == Entries(gone + l.spans + Spans(at, steps), k, l.next, BeatsOf(steps))
    decreases |steps|
  {
    if steps != [] {
      var rest := steps[1..];
      match steps[0]
      case Carry(len, chunk) =>
        var t := AddChunk(l, at, len, chunk);
        assert Apart(t.spans);
        RunCarry(l, k, at, steps);
        CarryAdds(gone, l, at, steps);
        assert InStream(at + len, last, rest);
        hide Entries, Run, Apart, InStream, BeatsOf, Spans;
        PruningLosesNothing(gone, t, k, at + len, last, rest);
      case Lose(len) =>
        PruningLosesNothing(gone, l, k, at + len, last, rest);
        assert BeatsOf(steps) == BeatsOf(rest);
      case Beats(b) =>
        BeatLosesNothing(gone, l, k, at, last, steps);
    }
  }

  lemma CarryAdds(gone: seq<Span>, l: Lane, at: nat, steps: seq<Step>)
    requires steps != [] && steps[0].Carry?
    ensures
      var t := AddChunk(l, at, steps[0].len, steps[0].chunk);
      gone + t.spans + Spans(at + steps[0].len, steps[1..]) == gone + l.spans + Spans(at, steps)
    ensures BeatsOf(steps) == BeatsOf(steps[1..])
  {
    hide BeatsOf;
    var more := Spans(at + steps[0].len, steps[1..]);
    var one := if steps[0].len == 0 then [] else [Span(at, steps[0].len, steps[0].chunk)];
    assert Spans(at, steps) == one + more && AddChunk(l, at, steps[0].len, steps[0].chunk).spans == l.spans + one;
    assert gone + (l.spans + one) + more == gone + l.spans + (one + more);
    NoBeat(steps);
  }

  lemma NoBeat(steps: seq<Step>)
    requires steps != [] && !steps[0].Beats?
    ensures BeatsOf(steps) == BeatsOf(steps[1..])
  {
  }

  lemma RunCarry(l: Lane, k: nat, at: nat, steps: seq<Step>)
    requires k > 0 && steps != [] && steps[0].Carry?
    ensures Run(l, k, at, steps) == Run(AddChunk(l, at, steps[0].len, steps[0].chunk), k, at + steps[0].len, steps[1..])
  {
  }

  lemma BeatLosesNothing(gone: seq<Span>, l: Lane, k: nat, at: nat, last: nat, steps: seq<Step>)
    requires k > 0 && InStream(at, last, steps) && Apart(l.spans)
    requires (forall s :: s in gone ==> s.start + s.len <= last) && forall s :: s in l.spans ==> s.start + s.len <= at
    requires steps != [] && steps[0].Beats?
    ensures Run(l, k, at, steps) == Entries(gone + l.spans + Spans(at, steps), k, l.next, BeatsOf(steps))
    decreases |steps|, 0
  {
    var b, rest := steps[0].beat, steps[1..];
    var (t, e) := AddBeat(l, k, b);
    var later := Spans(at, steps);
    assert last <= b.pos < at && InStream(at, b.pos, rest) && later == Spans(at, rest);
    RunBeat(l, k, at, steps);
    BeatsFirst(steps);
    BeatAdds(gone, l, k, later, b);
    var n := PruneIs(l.spans, b.pos);
    hide AddBeat, InStream, Run, Entries, Spans, BeatsOf, EntryOf, Prune;
    var more := if b.grid < l.next then gone else gone + l.spans[..n];
    MoreGone(gone, l.spans, t.spans, if b.grid < l.next then 0 else n);
    PruningLosesNothing(more, t, k, at, b.pos, rest);
    EntriesStep(gone + l.spans + later, k, l.next, b, BeatsOf(rest));
  }

  lemma MoreGone(gone: seq<Span>, spans: seq<Span>, left: seq<Span>, n: nat)
    requires n <= |spans| && left == spans[n..]
    ensures gone + spans[..n] + left == gone + spans && (n == 0 ==> gone + spans[..n] == gone)
    ensures Apart(spans) ==> Apart(left)
  {
  }

  lemma RunBeat(l: Lane, k: nat, at: nat, steps: seq<Step>)
    requires k > 0 && steps != [] && steps[0].Beats?
    ensures
      var (t, e) := AddBeat(l, k, steps[0].beat);
      Run(l, k, at, steps) == Listed(e) + Run(t, k, at, steps[1..])
  {
  }

  lemma BeatsFirst(steps: seq<Step>)
    requires steps != [] && steps[0].Beats?
    ensures BeatsOf(steps) == [steps[0].beat] + BeatsOf(steps[1..])
  {
  }

  lemma EntriesStep(spans: seq<Span>, k: nat, next: nat, b: Beat, rest: seq<Beat>)
    requires k > 0
    ensures
      var e := if b.grid < next then None else EntryOf(spans, b);
      Entries(spans, k, next, [b] + rest) == Listed(e) + Entries(spans, k, if e.Some? then NextGrid(b.grid, k) else next, rest)
  {
    assert ([b] + rest)[1..] == rest;
  }

  /** A lane makes the entry a search over all chunks makes. */
  lemma BeatAdds(gone: seq<Span>, l: Lane, k: nat, later: seq<Span>, b: Beat)
    requires k > 0 && Apart(l.spans)
    requires (forall s :: s in gone ==> s.start + s.len <= b.pos) && forall s :: s in later ==> b.pos < s.start
    ensures
      var (t, e) := AddBeat(l, k, b);
      && e == (if b.grid < l.next then None else EntryOf(gone + l.spans + later, b))
      && t.next == (if e.Some? then NextGrid(b.grid, k) else l.next)
      && t.spans == if b.grid < l.next then l.spans else Prune(l.spans, b.pos)
  {
    PruneFinds(l.spans, b.pos);
    FindMiddle(gone, l.spans, later, b.pos);
  }

  /** So the index of a stream is that of a search over all its chunks. */
  lemma IndexIsSearch(k: nat, steps: seq<Step>)
    requires k > 0 && InStream(0, 0, steps)
    ensures Run(Lane([], 0), k, 0, steps) == Entries(Spans(0, steps), k, 0, BeatsOf(steps))
  {
    PruningLosesNothing([], Lane([], 0), k, 0, 0, steps);
    assert [] + [] + Spans(0, steps) == Spans(0, steps);
  }

  // ----- which heartbeats it names

  /** An entry names a heartbeat of the stream, and the very byte of the file it begins at. */
  predicate Names(e: Entry, spans: seq<Span>, beats: seq<Beat>) {
    exists b, s :: b in beats && s in spans && b.grid == e.grid && s.chunk == e.chunk && s.start + e.payload == b.pos && e.payload < s.len
  }

  lemma {:induction false} EntriesName(spans: seq<Span>, k: nat, next: nat, beats: seq<Beat>)
    requires k > 0
    ensures forall e :: e in Entries(spans, k, next, beats) ==> Names(e, spans, beats)
    decreases |beats|
  {
    if beats != [] {
      var e := if beats[0].grid < next then None else EntryOf(spans, beats[0]);
      EntriesName(spans, k, if e.Some? then NextGrid(beats[0].grid, k) else next, beats[1..]);
      if e.Some? {
        var s := Find(spans, beats[0].pos).value;
        assert beats[0] in beats && s in spans;
        assert Names(e.value, spans, beats);
      }
      forall x | x in Entries(spans, k, next, beats)
        ensures Names(x, spans, beats)
      {
        if !(e.Some? && x == e.value) {
          assert Names(x, spans, beats[1..]);
        }
      }
    }
  }

  predicate InSome(spans: seq<Span>, pos: nat) {
    exists s :: s in spans && Holds(s, pos)
  }

  predicate Findable(spans: seq<Span>, b: Beat) {
    InSome(spans, b.pos)
  }

  /** Grid counts do not go back. */
  predicate Rising(beats: seq<Beat>) {
    forall i, j :: 0 <= i < j < |beats| ==> beats[i].grid <= beats[j].grid
  }

  /** No heartbeat before has its chunk in the file and lies in the same K grid points. */
  predicate FirstOfItsK(spans: seq<Span>, k: nat, before: seq<Beat>, b: Beat)
    requires k > 0
  {
    Findable(spans, b) && forall x :: x in before && Findable(spans, x) ==> x.grid / k != b.grid / k
  }

  /** Of every K grid points the first heartbeat in the file, and no other. */
  function Firsts(spans: seq<Span>, k: nat, before: seq<Beat>, beats: seq<Beat>): seq<Entry>
    requires k > 0
    decreases |beats|
  {
    if beats == [] then []
    else
      (if FirstOfItsK(spans, k, before, beats[0]) then Listed(EntryOf(spans, beats[0])) else [])
      + Firsts(spans, k, before + [beats[0]], beats[1..])
  }

  lemma Due(grid: nat, h: nat, k: nat)
    requires k > 0
    ensures grid >= NextGrid(h, k) <==> grid / k > h / k
  {
    assert grid == k * (grid / k) + grid % k;
    if grid / k > h / k {
      MulMonotone(h / k + 1, grid / k, k);
    } else {
      MulMonotone(grid / k + 1, h / k + 1, k);
    }
  }

  lemma DivOrder(a: nat, b: nat, k: nat)
    requires k > 0 && a <= b
    ensures a / k <= b / k && NextGrid(a, k) <= NextGrid(b, k)
  {
    if a / k > b / k {
      MulMonotone(b / k + 1, a / k, k);
    }
    MulMonotone(a / k + 1, b / k + 1, k);
  }

  /** What next is after some heartbeats: past the K of each one in the file. */
  predicate Past(spans: seq<Span>, k: nat, before: seq<Beat>, next: nat)
    requires k > 0
  {
    && (forall x :: x in before && Findable(spans, x) ==> next >= NextGrid(x.grid, k))
    && (next == 0 || exists x :: x in before && Findable(spans, x) && next == NextGrid(x.grid, k))
  }

  /**
   * A channel's entries are exactly the first heartbeat in the file of every K grid points
   * that have one.
   */
  lemma {:induction false} EntriesAreFirsts(spans: seq<Span>, k: nat, next: nat, before: seq<Beat>, beats: seq<Beat>)
    requires k > 0 && Rising(before + beats) && Past(spans, k, before, next)
    ensures Entries(spans, k, next, beats) == Firsts(spans, k, before, beats)
    decreases |beats|
  {
    if beats != [] {
      var b := beats[0];
      DueIsFirst(spans, k, next, before, beats);
      var e := if b.grid < next then None else EntryOf(spans, b);
      var then_ := if e.Some? then NextGrid(b.grid, k) else next;
      assert before + [b] + beats[1..] == before + beats;
      forall x | x in before
        ensures x.grid <= b.grid
      {
        var i :| 0 <= i < |before| && before[i] == x;
        assert (before + beats)[i] == x && (before + beats)[|before|] == b;
      }
      PastOn(spans, k, next, before, b);
      EntriesAreFirsts(spans, k, then_, before + [b], beats[1..]);
    }
  }

  lemma FoundIs(spans: seq<Span>, b: Beat)
    ensures Findable(spans, b) <==> EntryOf(spans, b).Some?
  {
    var s := Find(spans, b.pos);
    if s.Some? {
      assert s.value in spans && Holds(s.value, b.pos);
    }
  }

  lemma DueIsFirst(spans: seq<Span>, k: nat, next: nat, before: seq<Beat>, beats: seq<Beat>)
    requires k > 0 && Rising(before + beats) && Past(spans, k, before, next) && beats != []
    ensures Findable(spans, beats[0]) ==> (beats[0].grid >= next <==> FirstOfItsK(spans, k, before, beats[0]))
    ensures Findable(spans, beats[0]) <==> EntryOf(spans, beats[0]).Some?
  {
    var b := beats[0];
    FoundIs(spans, b);
    hide Findable, NextGrid;
    if b.grid >= next {
      forall x | x in before && Findable(spans, x)
        ensures x.grid / k != b.grid / k
      {
        Due(b.grid, x.grid, k);
      }
    } else {
      var x :| x in before && Findable(spans, x) && next == NextGrid(x.grid, k);
      var i :| 0 <= i < |before| && before[i] == x;
      assert (before + beats)[i] == x && (before + beats)[|before|] == b;
      Due(b.grid, x.grid, k);
      DivOrder(x.grid, b.grid, k);
    }
  }

  lemma PastOn(spans: seq<Span>, k: nat, next: nat, before: seq<Beat>, b: Beat)
    requires k > 0 && Past(spans, k, before, next) && forall x :: x in before ==> x.grid <= b.grid
    ensures
      var e := if b.grid < next then None else EntryOf(spans, b);
      Past(spans, k, before + [b], if e.Some? then NextGrid(b.grid, k) else next)
  {
    FoundIs(spans, b);
    hide Findable, NextGrid, EntryOf;
    var found := b.grid >= next && Findable(spans, b);
    var next' := if found then NextGrid(b.grid, k) else next;
    forall x | x in before + [b] && Findable(spans, x)
      ensures next' >= NextGrid(x.grid, k)
    {
      DivOrder(x.grid, b.grid, k);
      if !found && x == b {
        var y :| y in before && Findable(spans, y) && next == NextGrid(y.grid, k);
        Due(b.grid, y.grid, k);
        DivOrder(y.grid, b.grid, k);
        SameK(b.grid, y.grid, k);
      }
    }
    if found {
      assert b in before + [b];
    } else if next != 0 {
      var y :| y in before && Findable(spans, y) && next == NextGrid(y.grid, k);
      assert y in before + [b];
    }
  }

  lemma SameK(a: nat, b: nat, k: nat)
    requires k > 0 && a / k == b / k
    ensures NextGrid(a, k) == NextGrid(b, k)
  {
  }

  // ----- the index made while recording, and one made from the file

  /** The recorder tells its writer only of heartbeats that are due. */
  function DueBeats(k: nat, next: nat, beats: seq<Beat>): seq<Beat>
    requires k > 0
    decreases |beats|
  {
    if beats == [] then []
    else if beats[0].grid < next then DueBeats(k, next, beats[1..])
    else [beats[0]] + DueBeats(k, NextGrid(beats[0].grid, k), beats[1..])
  }

  /** With every heartbeat's bytes in the file, the index is the one of a full parse. */
  lemma {:induction false} LiveIsRebuilt(spans: seq<Span>, k: nat, next: nat, beats: seq<Beat>)
    requires k > 0 && forall b :: b in beats ==> Findable(spans, b)
    ensures Entries(spans, k, next, DueBeats(k, next, beats)) == Entries(spans, k, next, beats)
    decreases |beats|
  {
    if beats != [] {
      var b := beats[0];
      FoundIs(spans, b);
      assert b in beats;
      hide Findable, EntryOf;
      if b.grid < next {
        LiveIsRebuilt(spans, k, next, beats[1..]);
        assert [] + Entries(spans, k, next, beats[1..]) == Entries(spans, k, next, beats[1..]);
      } else {
        LiveIsRebuilt(spans, k, NextGrid(b.grid, k), beats[1..]);
        EntriesStep(spans, k, next, b, DueBeats(k, NextGrid(b.grid, k), beats[1..]));
      }
    }
  }

  /** The index of a stream names the first heartbeat in the file of every K grid points. */
  lemma IndexNamesFirsts(k: nat, steps: seq<Step>)
    requires k > 0 && InStream(0, 0, steps) && Rising(BeatsOf(steps))
    ensures Run(Lane([], 0), k, 0, steps) == Firsts(Spans(0, steps), k, [], BeatsOf(steps))
    ensures forall e :: e in Run(Lane([], 0), k, 0, steps) ==> Names(e, Spans(0, steps), BeatsOf(steps))
  {
    IndexIsSearch(k, steps);
    assert [] + BeatsOf(steps) == BeatsOf(steps);
    hide InStream, Run, BeatsOf, Spans, Names;
    EntriesAreFirsts(Spans(0, steps), k, 0, [], BeatsOf(steps));
    EntriesName(Spans(0, steps), k, 0, BeatsOf(steps));
  }

  /** What the writer is told while recording. */
  function DueSteps(k: nat, next: nat, steps: seq<Step>): seq<Step>
    requires k > 0
    decreases |steps|
  {
    if steps == [] then []
    else if !steps[0].Beats? then [steps[0]] + DueSteps(k, next, steps[1..])
    else if steps[0].beat.grid < next then DueSteps(k, next, steps[1..])
    else [steps[0]] + DueSteps(k, NextGrid(steps[0].beat.grid, k), steps[1..])
  }

  lemma {:induction false} DueStepsAre(k: nat, next: nat, at: nat, last: nat, steps: seq<Step>)
    requires k > 0 && InStream(at, last, steps)
    ensures
      var due := DueSteps(k, next, steps);
      BeatsOf(due) == DueBeats(k, next, BeatsOf(steps)) && Spans(at, due) == Spans(at, steps) && InStream(at, last, due)
    decreases |steps|
  {
    if steps != [] {
      var s, rest := steps[0], steps[1..];
      FirstStep(at, last, s, rest);
      assert [s] + rest == steps;
      match s
      case Carry(len, _) =>
        DueStepsAre(k, next, at + len, last, rest);
        FirstStep(at, last, s, DueSteps(k, next, rest));
      case Lose(len) =>
        DueStepsAre(k, next, at + len, last, rest);
        FirstStep(at, last, s, DueSteps(k, next, rest));
      case Beats(b) =>
        assert ([b] + BeatsOf(rest))[1..] == BeatsOf(rest);
        if b.grid < next {
          DueStepsAre(k, next, at, b.pos, rest);
          EarlierLast(at, last, b.pos, DueSteps(k, next, rest));
        } else {
          DueStepsAre(k, NextGrid(b.grid, k), at, b.pos, rest);
          FirstStep(at, last, s, DueSteps(k, NextGrid(b.grid, k), rest));
        }
    }
  }

  lemma FirstStep(at: nat, last: nat, s: Step, rest: seq<Step>)
    ensures BeatsOf([s] + rest) == if s.Beats? then [s.beat] + BeatsOf(rest) else BeatsOf(rest)
    ensures s.Carry? ==>
      && Spans(at, [s] + rest) == (if s.len == 0 then [] else [Span(at, s.len, s.chunk)]) + Spans(at + s.len, rest)
      && InStream(at, last, [s] + rest) == InStream(at + s.len, last, rest)
    ensures s.Lose? ==>
      Spans(at, [s] + rest) == Spans(at + s.len, rest) && InStream(at, last, [s] + rest) == InStream(at + s.len, last, rest)
    ensures s.Beats? ==>
      && Spans(at, [s] + rest) == Spans(at, rest)
      && InStream(at, last, [s] + rest) == (last <= s.beat.pos < at && InStream(at, s.beat.pos, rest))
  {
    assert ([s] + rest)[1..] == rest;
  }

  lemma {:induction false} EarlierLast(at: nat, a: nat, b: nat, steps: seq<Step>)
    requires a <= b && InStream(at, b, steps)
    ensures InStream(at, a, steps)
    decreases |steps|
  {
    if steps != [] {
      match steps[0]
      case Carry(len, _) => EarlierLast(at + len, a, b, steps[1..]);
      case Lose(len) => EarlierLast(at + len, a, b, steps[1..]);
      case Beats(_) =>
    }
  }

  predicate NothingLost(steps: seq<Step>) {
    forall s :: s in steps ==> !s.Lose?
  }

  /** With nothing dropped, every stream position is in some chunk. */
  lemma {:induction false} AllFindable(at: nat, last: nat, steps: seq<Step>, before: seq<Span>)
    requires InStream(at, last, steps) && NothingLost(steps)
    requires forall pos: nat :: pos < at ==> InSome(before, pos)
    ensures forall b :: b in BeatsOf(steps) ==> Findable(before + Spans(at, steps), b)
    decreases |steps|
  {
    if steps != [] {
      assert steps[0] in steps;
      match steps[0]
      case Carry(len, chunk) =>
        var one := if len == 0 then [] else [Span(at, len, chunk)];
        forall pos: nat | pos < at + len
          ensures InSome(before + one, pos)
        {
          if pos < at {
            assert InSome(before, pos);
            var s :| s in before && Holds(s, pos);
            assert s in before + one;
          } else {
            assert one[0] in before + one && Holds(one[0], pos);
          }
        }
        AllFindable(at + len, last, steps[1..], before + one);
        assert before + one + Spans(at + len, steps[1..]) == before + Spans(at, steps);
        assert BeatsOf(steps) == BeatsOf(steps[1..]);
      case Lose(_) =>
        assert false;
      case Beats(b) =>
        AllFindable(at, b.pos, steps[1..], before);
        assert InSome(before, b.pos);
        var s :| s in before && Holds(s, b.pos);
        assert s in before + Spans(at, steps);
        assert Findable(before + Spans(at, steps), b);
    }
  }

  /** With nothing dropped, the index made while recording is the one made from the file. */
  lemma LiveEqualsRebuilt(k: nat, steps: seq<Step>)
    requires k > 0 && InStream(0, 0, steps) && NothingLost(steps)
    ensures Run(Lane([], 0), k, 0, DueSteps(k, 0, steps)) == Run(Lane([], 0), k, 0, steps)
  {
    DueStepsAre(k, 0, 0, 0, steps);
    AllFindable(0, 0, steps, []);
    assert [] + Spans(0, steps) == Spans(0, steps);
    hide InStream, Run, BeatsOf, Spans, Findable, Entries;
    IndexIsSearch(k, steps);
    IndexIsSearch(k, DueSteps(k, 0, steps));
    LiveIsRebuilt(Spans(0, steps), k, 0, BeatsOf(steps));
  }
}
