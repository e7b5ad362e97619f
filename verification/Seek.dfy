/**
 * Seeking in a capture file by its index: each data channel is parsed from an indexed
 * heartbeat on, and reports just what a parse from the start reports from there.
 */
module Seek {
  import opened Numbers
  import IndexLanes
  import Index
  import W = WireFormat
  import S = WireStreams
  import R = WireRoundTrip

  type Bytes = seq<Byte>

  /** Where parsing of a data channel starts: at a payload offset of the chunk at an offset. */
  datatype Sought = Sought(chunk: nat, payload: nat, grid: nat)

  /** A data channel's parser: what it still seeks, the grid it was started at, what it was fed. */
  datatype Feed = Feed(seek: Option<Sought>, start: Option<nat>, fed: seq<Bytes>)

  /** A DATA chunk of a channel, with its file offset. */
  datatype Piece = Piece(offset: nat, bytes: Bytes)

  function Handle(f: Feed, p: Piece): Feed {
    if f.seek.None? then f.(fed := f.fed + [p.bytes])
    else
      var sk := f.seek.value;
      if p.offset < sk.chunk then f
      else if p.offset == sk.chunk && sk.payload < |p.bytes|
      then Feed(None, Some(sk.grid), f.fed + [p.bytes[sk.payload..]])
      else Feed(None, Some(sk.grid), f.fed + [p.bytes])
  }

  function HandleAll(f: Feed, ps: seq<Piece>): Feed
    decreases |ps|
  {
    if ps == [] then f else HandleAll(Handle(f, ps[0]), ps[1..])
  }

  function StreamOf(ps: seq<Piece>): Bytes {
    if ps == [] then [] else ps[0].bytes + StreamOf(ps[1..])
  }

  /** Chunks lie in the file one after another. */
  predicate Placed(ps: seq<Piece>) {
    forall i, j :: 0 <= i < j < |ps| ==> ps[i].offset < ps[j].offset
  }

  lemma {:induction false} JoinedMore(a: seq<Bytes>, b: Bytes)
    ensures S.Joined(a + [b]) == S.Joined(a) + b
  {
    if a == [] {
      assert [b][1..] == [];
      assert b + [] == b;
    } else {
      JoinedMore(a[1..], b);
      assert (a + [b])[1..] == a[1..] + [b];
      assert a[0] + (S.Joined(a[1..]) + b) == a[0] + S.Joined(a[1..]) + b;
    }
  }

  /** Once nothing is sought any more, everything is fed. */
  lemma {:induction false} FedOn(f: Feed, ps: seq<Piece>)
    requires f.seek.None?
    ensures
      var t := HandleAll(f, ps);
      t.seek.None? && t.start == f.start && S.Joined(t.fed) == S.Joined(f.fed) + StreamOf(ps)
    decreases |ps|
  {
    if ps == [] {
      assert S.Joined(f.fed) + [] == S.Joined(f.fed);
    } else {
      FedOn(Handle(f, ps[0]), ps[1..]);
      JoinedMore(f.fed, ps[0].bytes);
      hide S.Joined;
      Assoc(S.Joined(f.fed), ps[0].bytes, StreamOf(ps[1..]));
    }
  }

  lemma Assoc(a: Bytes, b: Bytes, c: Bytes)
    ensures a + b + c == a + (b + c)
  {
  }

  /** A parser that seeks a place in the i-th chunk is fed the stream from there, and nothing else. */
  lemma {:induction false} SeekFeedsRest(sk: Sought, ps: seq<Piece>, i: nat)
    requires Placed(ps) && i < |ps| && ps[i].offset == sk.chunk && sk.payload < |ps[i].bytes|
    ensures
      var t := HandleAll(Feed(Some(sk), None, []), ps);
      var at := |StreamOf(ps[..i])| + sk.payload;
      t.start == Some(sk.grid) && at <= |StreamOf(ps)| && S.Joined(t.fed) == StreamOf(ps)[at..]
    decreases i
  {
    var f: Feed := Feed(Some(sk), None, []);
    if i == 0 {
      var part := ps[0].bytes[sk.payload..];
      FedOn(Handle(f, ps[0]), ps[1..]);
      assert |ps[..0]| == 0;
      var parts: seq<Bytes> := [part];
      assert f.fed + parts == parts && |parts[1..]| == 0;
      assert S.Joined(parts) == part;
      assert StreamOf(ps)[sk.payload..] == part + StreamOf(ps[1..]);
    } else {
      assert ps[0].offset < sk.chunk;
      SeekFeedsRest(sk, ps[1..], i - 1);
      assert ps[..i][1..] == ps[1..][..i - 1] && ps[..i][0] == ps[0];
      var at := |StreamOf(ps[1..][..i - 1])| + sk.payload;
      assert StreamOf(ps)[|ps[0].bytes| + at..] == StreamOf(ps[1..])[at..];
    }
  }

  // ----- by the index

  /** The chunks of a channel as its index sees them. */
  function SpansOf(ps: seq<Piece>, at: nat): seq<IndexLanes.Span> {
    if ps == [] then []
    else
      (if |ps[0].bytes| == 0 then [] else [IndexLanes.Span(at, |ps[0].bytes|, ps[0].offset)])
      + SpansOf(ps[1..], at + |ps[0].bytes|)
  }

  lemma {:induction false} SpanIs(ps: seq<Piece>, at: nat, s: IndexLanes.Span) returns (i: nat)
    requires s in SpansOf(ps, at)
    ensures i < |ps| && s == IndexLanes.Span(at + |StreamOf(ps[..i])|, |ps[i].bytes|, ps[i].offset)
    decreases |ps|
  {
    if |ps[0].bytes| > 0 && s == IndexLanes.Span(at, |ps[0].bytes|, ps[0].offset) {
      i := 0;
      assert ps[..0] == [];
    } else {
      var j := SpanIs(ps[1..], at + |ps[0].bytes|, s);
      i := j + 1;
      assert ps[..i][1..] == ps[1..][..j] && ps[..i][0] == ps[0];
    }
  }

  /** A parser was started at a heartbeat's grid count and fed the stream from its first byte. */
  predicate FedFrom(ps: seq<Piece>, b: IndexLanes.Beat, f: Feed) {
    f.start == Some(b.grid) && b.pos <= |StreamOf(ps)| && S.Joined(f.fed) == StreamOf(ps)[b.pos..]
  }

  /** Seeking an entry's place feeds the stream from its heartbeat's first byte on. */
  lemma SeekFeedsFromBeat(ps: seq<Piece>, beats: seq<IndexLanes.Beat>, e: IndexLanes.Entry)
    requires Placed(ps) && IndexLanes.Names(e, SpansOf(ps, 0), beats)
    ensures
      var t := HandleAll(Feed(Some(Sought(e.chunk, e.payload, e.grid)), None, []), ps);
      exists b :: b in beats && b.grid == e.grid && FedFrom(ps, b, t)
  {
    var b, s :| b in beats && s in SpansOf(ps, 0) && b.grid == e.grid && s.chunk == e.chunk && s.start + e.payload == b.pos && e.payload < s.len;
    var i := SpanIs(ps, 0, s);
    SeekFeedsRest(Sought(e.chunk, e.payload, e.grid), ps, i);
    assert FedFrom(ps, b, HandleAll(Feed(Some(Sought(e.chunk, e.payload, e.grid)), None, []), ps));
  }

  /** A beat of the stream that is the heartbeat a writer put after some calls. */
  predicate IsBeat(g: W.Config, before: seq<R.Op>, after: seq<R.Op>, b: IndexLanes.Beat)
    requires g.Sound() && R.OpsFit(g, before)
  {
    && after != [] && after[0].PutHeartbeat? && b.grid == after[0].grid
    && R.WriteAll(g, W.FreshWriter(g), before).Wrote? && b.pos == |R.WriteAll(g, W.FreshWriter(g), before).bytes|
  }

  /**
   * Seek equals suffix, in a file: a session that seeks the heartbeat put after some calls, by
   * an entry of the index, reports what the full parse reports from that heartbeat on, but for
   * that heartbeat's flag.
   */
  lemma SeekReportsSuffix(g: W.Config, before: seq<R.Op>, after: seq<R.Op>, ps: seq<Piece>, b: IndexLanes.Beat, f: Feed)
    requires g.Sound() && R.OpsFit(g, before) && R.OpsFit(g, after) && IsBeat(g, before, after, b)
    requires R.WriteAll(g, W.FreshWriter(g), before + after).Wrote? && R.Under256(0, before + after)
    requires StreamOf(ps) == R.WriteAll(g, W.FreshWriter(g), before + after).bytes
    requires FedFrom(ps, b, f)
    ensures
      var whole := W.Drain(g, W.Fresh(g), StreamOf(ps));
      var sought := S.FeedAll(g, W.StartAt(g, f.start.value, true), [], f.fed);
      && |sought.log| == |after| && |whole.log| == |before| + |after|
      && sought.log[1..] == whole.log[|before| + 1..]
      && whole.log[|before|].Beat? && whole.log[|before|].grid == b.grid && sought.log[0] == whole.log[|before|].(unverified := true)
  {
    assert after[0].PutHeartbeat? && b.grid == after[0].grid && R.OpFits(g, after[0]);
    hide R.WriteOp, W.Next;
    R.WriteConcat(g, W.FreshWriter(g), before, after);
    var head := R.WriteAll(g, W.FreshWriter(g), before).bytes;
    assert head + S.Joined(f.fed) == StreamOf(ps);
    R.BeatVerified(g, after[0]);
    hide *;
    R.SeekIsSuffix(g, before, after, f.fed);
  }

  // ----- picking the entry

  /** The indexed heartbeat of a channel to start from: the last at or before a tick. */
  function Pick(lines: seq<Index.Line>, d: nat, c: nat, tick: nat): Option<Sought> {
    if lines == [] then None
    else
      var best, l := Pick(lines[..|lines| - 1], d, c, tick), lines[|lines| - 1];
      if l.channel == d && l.entry.grid * c <= tick && (best.None? || l.entry.grid > best.value.grid)
      then Some(Sought(l.entry.chunk, l.entry.payload, l.entry.grid))
      else best
  }

  predicate Of(l: Index.Line, s: Sought) {
    s == Sought(l.entry.chunk, l.entry.payload, l.entry.grid)
  }

  predicate Eligible(l: Index.Line, d: nat, c: nat, tick: nat) {
    l.channel == d && l.entry.grid * c <= tick
  }

  lemma {:induction false} PickIsLast(lines: seq<Index.Line>, d: nat, c: nat, tick: nat)
    ensures
      var p := Pick(lines, d, c, tick);
      && (p.None? ==> forall l :: l in lines ==> !Eligible(l, d, c, tick))
      && (p.Some? ==> forall l :: l in lines && Eligible(l, d, c, tick) ==> l.entry.grid <= p.value.grid)
      && (p.Some? ==> exists l :: l in lines && Eligible(l, d, c, tick) && Of(l, p.value))
  {
    if lines != [] {
      var f, l := lines[..|lines| - 1], lines[|lines| - 1];
      PickIsLast(f, d, c, tick);
      var best := Pick(f, d, c, tick);
      assert forall x :: x in lines ==> x in f || x == l;
      if best.Some? {
        var y :| y in f && Eligible(y, d, c, tick) && Of(y, best.value);
        assert y in lines;
      }
      if Eligible(l, d, c, tick) {
        assert l in lines;
      }
    }
  }

  /** A session on a capture file, as far as its data goes. */
  class Session {
    const c: nat
    var feeds: seq<Feed>

    constructor (channels: nat, c: nat)
      ensures this.c == c && |feeds| == channels && forall d :: 0 <= d < channels ==> feeds[d] == Feed(None, None, [])
    {
      this.c, feeds := c, seq(channels, _ => Feed(None, None, []));
    }

    /** Sets each channel to seek what Pick chooses for it. */
    method SeekTo(lines: seq<Index.Line>, tick: nat)
      requires forall d :: 0 <= d < |feeds| ==> feeds[d] == Feed(None, None, [])
      modifies this
      ensures |feeds| == |old(feeds)|
      ensures forall d :: 0 <= d < |feeds| ==> feeds[d] == Feed(Pick(lines, d, c, tick), None, [])
    {
      var i := 0;
      while i < |lines|
        invariant 0 <= i <= |lines| && |feeds| == |old(feeds)|
        invariant forall d :: 0 <= d < |feeds| ==> feeds[d] == Feed(Pick(lines[..i], d, c, tick), None, [])
      {
        var d, e := lines[i].channel, lines[i].entry;
        assert lines[..i + 1][..i] == lines[..i];
        if d < |feeds| && e.grid * c <= tick && (feeds[d].seek.None? || e.grid > feeds[d].seek.value.grid) {
          feeds := feeds[d := Feed(Some(Sought(e.chunk, e.payload, e.grid)), None, [])];
        }
        i := i + 1;
      }
      assert lines[..i] == lines;
    }

    /** A DATA chunk read from the file: skipped, fed from a place in it, or fed. */
    method HandleData(channel: nat, offset: nat, bytes: Bytes)
      modifies this
      ensures |feeds| == |old(feeds)|
      ensures forall d :: 0 <= d < |feeds| ==>
        feeds[d] == if d == channel then Handle(old(feeds)[d], Piece(offset, bytes)) else old(feeds)[d]
    {
      if channel >= |feeds| {
        return;
      }
      var f := feeds[channel];
      if f.seek.Some? {
        var sk := f.seek.value;
        if offset < sk.chunk {
          return;
        }
        f := f.(seek := None, start := Some(sk.grid));
        if offset == sk.chunk && sk.payload < |bytes| {
          feeds := feeds[channel := f.(fed := f.fed + [bytes[sk.payload..]])];
          return;
        }
      }
      feeds := feeds[channel := f.(fed := f.fed + [bytes])];
    }
  }
}
