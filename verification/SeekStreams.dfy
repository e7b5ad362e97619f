/**
 * Capture files of parsed streams: the index is made of the heartbeats the parser reports as
 * the file's chunks are read, and seeking by it gives the end of the full parse.
 */
module SeekStreams {
  import opened Numbers
  import opened IndexLanes
  import opened Seek
  import opened WireBeats
  import W = WireFormat
  import S = WireStreams
  import R = WireRoundTrip
  import Index

  function BeatsIn(s: seq<Sighting>): seq<Beat> {
    if s == [] then [] else [Beat(s[0].grid, s[0].pos)] + BeatsIn(s[1..])
  }

  function BeatSteps(s: seq<Sighting>): seq<Step> {
    if s == [] then [] else [Beats(Beat(s[0].grid, s[0].pos))] + BeatSteps(s[1..])
  }

  /** What a channel's index is told as its chunks are read: a chunk, then the heartbeats found in it. */
  function FileSteps(g: W.Config, p: W.Core, rest: Bytes, ps: seq<Piece>): seq<Step>
    requires g.Valid() && W.CoreFits(g, p)
    decreases |ps|
  {
    if ps == [] then []
    else
      var r := W.Drain(g, p, rest + ps[0].bytes);
      [Carry(|ps[0].bytes|, ps[0].offset)] + BeatSteps(Sightings(g, p, rest + ps[0].bytes))
      + FileSteps(g, r.core, r.rest, ps[1..])
  }

  lemma {:induction false} BeatStepsAre(at: nat, last: nat, hi: nat, len: nat, s: seq<Sighting>, more: seq<Step>)
    requires Lie(s, len, last, hi) && len > 0 && last <= hi <= at && InStream(at, hi, more)
    ensures InStream(at, last, BeatSteps(s) + more)
    ensures Spans(at, BeatSteps(s) + more) == Spans(at, more)
    ensures BeatsOf(BeatSteps(s) + more) == BeatsIn(s) + BeatsOf(more)
    decreases |s|
  {
    hide InStream, Spans, BeatsOf;
    if s == [] {
      assert BeatSteps(s) + more == more && BeatsIn(s) + BeatsOf(more) == BeatsOf(more);
      EarlierLast(at, last, hi, more);
    } else {
      var b, rest := Beat(s[0].grid, s[0].pos), BeatSteps(s[1..]) + more;
      BeatStepsAre(at, s[0].pos, hi, len, s[1..], more);
      assert BeatSteps(s) + more == [Beats(b)] + rest;
      FirstStep(at, last, Beats(b), rest);
      assert BeatsIn(s) + BeatsOf(more) == [b] + (BeatsIn(s[1..]) + BeatsOf(more));
    }
  }

  lemma {:induction false} BeatsInConcat(a: seq<Sighting>, b: seq<Sighting>)
    ensures BeatsIn(a + b) == BeatsIn(a) + BeatsIn(b)
  {
    if a == [] {
      assert a + b == b;
    } else {
      assert (a + b)[0] == a[0] && (a + b)[1..] == a[1..] + b;
      BeatsInConcat(a[1..], b);
    }
  }

  function Chunks(ps: seq<Piece>): seq<Bytes> {
    if ps == [] then [] else [ps[0].bytes] + Chunks(ps[1..])
  }

  lemma {:induction false} ChunksJoin(ps: seq<Piece>)
    ensures S.Joined(Chunks(ps)) == StreamOf(ps)
  {
    if ps != [] {
      ChunksJoin(ps[1..]);
      assert Chunks(ps)[1..] == Chunks(ps[1..]);
    }
  }

  /** Steps in stream order that tell of some chunks, all of them kept, and some heartbeats. */
  predicate Tells(steps: seq<Step>, at: nat, last: nat, ps: seq<Piece>, beats: seq<Beat>) {
    InStream(at, last, steps) && Spans(at, steps) == SpansOf(ps, at) && NothingLost(steps) && BeatsOf(steps) == beats
  }

  /** A file's steps tell of its chunks and of what was found in them. */
  lemma {:induction false} FileStepsAre(g: W.Config, p: W.Core, rest: Bytes, ps: seq<Piece>)
    requires g.Valid() && W.CoreFits(g, p)
    ensures Tells(FileSteps(g, p, rest, ps), p.pos + |rest|, p.pos, ps, BeatsIn(SightingsAll(g, p, rest, Chunks(ps))))
    decreases |ps|
  {
    hide W.Drain, W.Next, S.Stuck, Spans, Sightings, InStream, SpansOf, BeatsOf;
    if ps == [] {
      NoSteps(p.pos + |rest|, p.pos);
      return;
    }
    var v := rest + ps[0].bytes;
    var r := W.Drain(g, p, v);
    var s, more := Sightings(g, p, v), FileSteps(g, r.core, r.rest, ps[1..]);
    var at, next := p.pos + |rest|, r.core.pos + |r.rest|;
    S.DrainLeavesLittle(g, p, v);
    SightingsLie(g, p, v);
    FileStepsAre(g, r.core, r.rest, ps[1..]);
    BeatStepsAre(next, p.pos, r.core.pos, g.HbLen(), s, more);
    StepsOfPiece(at, p.pos, ps, BeatSteps(s) + more);
    BeatsInConcat(s, SightingsAll(g, r.core, r.rest, Chunks(ps[1..])));
    assert FileSteps(g, p, rest, ps) == [Carry(|ps[0].bytes|, ps[0].offset)] + (BeatSteps(s) + more);
    assert Chunks(ps)[1..] == Chunks(ps[1..]) && Chunks(ps)[0] == ps[0].bytes;
    NoneLost(s);
  }

  lemma NoSteps(at: nat, last: nat)
    ensures InStream(at, last, []) && Spans(at, []) == SpansOf([], at) == [] && BeatsOf([]) == BeatsIn([])
  {
  }

  lemma {:induction false} NoneLost(s: seq<Sighting>)
    ensures NothingLost(BeatSteps(s))
  {
    if s != [] {
      NoneLost(s[1..]);
    }
  }

  lemma StepsOfPiece(at: nat, last: nat, ps: seq<Piece>, rest: seq<Step>)
    requires ps != []
    ensures
      var n := |ps[0].bytes|;
      var steps := [Carry(n, ps[0].offset)] + rest;
      && BeatsOf(steps) == BeatsOf(rest) && InStream(at, last, steps) == InStream(at + n, last, rest)
      && (Spans(at + n, rest) == SpansOf(ps[1..], at + n) ==> Spans(at, steps) == SpansOf(ps, at))
  {
    FirstStep(at, last, Carry(|ps[0].bytes|, ps[0].offset), rest);
  }

  /** The heartbeats a file's parse finds. */
  function BeatsFound(g: W.Config, ps: seq<Piece>): seq<Beat>
    requires g.Valid()
  {
    BeatsIn(Sightings(g, W.Fresh(g), StreamOf(ps)))
  }

  lemma {:induction false} BeatsInRise(s: seq<Sighting>, from: nat)
    requires GridsRise(s, from)
    ensures Rising(BeatsIn(s)) && |BeatsIn(s)| == |s| && forall i :: 0 <= i < |s| ==> BeatsIn(s)[i] == Beat(s[i].grid, s[i].pos)
  {
    if s != [] {
      BeatsInRise(s[1..], from);
    }
  }

  lemma StepsFrom(g: W.Config, p: W.Core, ps: seq<Piece>)
    requires g.Valid() && W.CoreFits(g, p) && p.pos == 0 && S.Stuck(g, p, [])
    ensures Tells(FileSteps(g, p, [], ps), 0, 0, ps, BeatsIn(Sightings(g, p, StreamOf(ps))))
  {
    hide *;
    FileStepsAre(g, p, [], ps);
    SightingsAnyCut(g, p, [], Chunks(ps));
    ChunksJoin(ps);
    NothingBefore(StreamOf(ps));
  }

  /** Read from its start, a file gives steps of all its chunks and of the heartbeats of its stream. */
  lemma WholeFileSteps(g: W.Config, ps: seq<Piece>)
    requires g.Valid()
    ensures Tells(FileSteps(g, W.Fresh(g), [], ps), 0, 0, ps, BeatsFound(g, ps)) && Rising(BeatsFound(g, ps))
  {
    hide W.Fresh, FileSteps, StreamOf, Sightings, BeatsIn, Tells, GridFrom;
    StartsEmpty(g);
    StepsFrom(g, W.Fresh(g), ps);
    FoundRise(g, ps);
  }

  lemma NothingBefore(s: Bytes)
    ensures [] + s == s
  {
  }

  lemma StartsEmpty(g: W.Config)
    requires g.Valid()
    ensures W.CoreFits(g, W.Fresh(g)) && W.Fresh(g).pos == 0 && GridFrom(W.Fresh(g)) == 0 && S.Stuck(g, W.Fresh(g), [])
  {
    R.StartIsStuck(g, 0, false);
  }

  lemma FoundRise(g: W.Config, ps: seq<Piece>)
    requires g.Valid()
    ensures Rising(BeatsFound(g, ps)) && BeatsFound(g, ps) == BeatsIn(Sightings(g, W.Fresh(g), StreamOf(ps)))
  {
    hide Sightings, StreamOf, BeatsIn;
    SightingsRise(g, W.Fresh(g), StreamOf(ps));
    BeatsInRise(Sightings(g, W.Fresh(g), StreamOf(ps)), 0);
  }

  /** The index of a file, as reading it makes it. */
  function IndexOf(g: W.Config, ps: seq<Piece>, k: nat): seq<Entry>
    requires g.Valid() && k > 0
  {
    Run(Lane([], 0), k, 0, FileSteps(g, W.Fresh(g), [], ps))
  }

  /**
   * While recording, a channel's index is told of the same chunks, and of the heartbeats a
   * parser of the same stream finds; how that parser's input is cut does not matter.
   */
  ghost predicate Live(g: W.Config, ps: seq<Piece>, steps: seq<Step>)
    requires g.Valid()
  {
    && InStream(0, 0, steps) && NothingLost(steps) && Spans(0, steps) == SpansOf(ps, 0)
    && exists cut :: S.Joined(cut) == StreamOf(ps) && BeatsOf(steps) == BeatsIn(SightingsAll(g, W.Fresh(g), [], cut))
  }

  /** The index made while recording is the one made from the file. */
  lemma LiveIndexIsFiles(g: W.Config, ps: seq<Piece>, k: nat, steps: seq<Step>)
    requires g.Valid() && k > 0 && Live(g, ps, steps)
    ensures Run(Lane([], 0), k, 0, DueSteps(k, 0, steps)) == IndexOf(g, ps, k)
  {
    hide Run, InStream, Spans, Entries, BeatsOf, FileSteps, Sightings, SightingsAll, StreamOf, S.Joined, DueSteps;
    var cut :| S.Joined(cut) == StreamOf(ps) && BeatsOf(steps) == BeatsIn(SightingsAll(g, W.Fresh(g), [], cut));
    R.StartIsStuck(g, 0, false);
    SightingsAnyCut(g, W.Fresh(g), [], cut);
    assert [] + StreamOf(ps) == StreamOf(ps);
    WholeFileSteps(g, ps);
    LiveEqualsRebuilt(k, steps);
    IndexIsSearch(k, steps);
    IndexIsSearch(k, FileSteps(g, W.Fresh(g), [], ps));
  }

  // ----- seeking

  lemma {:induction false} InBeats(s: seq<Sighting>, b: Beat)
    requires b in BeatsIn(s)
    ensures Sighting(b.grid, b.pos) in s
  {
    if b != Beat(s[0].grid, s[0].pos) {
      InBeats(s[1..], b);
    }
  }

  /** A session that sought an entry of the index of a written stream. */
  predicate SoughtSuffix(g: W.Config, ps: seq<Piece>, f: Feed, n: nat)
    requires g.Valid()
  {
    && f.start.Some?
    && var whole := W.Drain(g, W.Fresh(g), StreamOf(ps)).log;
       var sought := S.FeedAll(g, W.StartAt(g, f.start.value, true), [], f.fed).log;
    && n < |whole| && |sought| == |whole| - n && whole[n].Beat? && whole[n].grid == f.start.value
    && sought[0] == whole[n].(unverified := true) && sought[1..] == whole[n + 1..]
  }

  /** What a file holds of a channel: a written stream, in chunks one after another. */
  predicate Holding(g: W.Config, ops: seq<R.Op>, ps: seq<Piece>) {
    && g.Sound() && R.OpsFit(g, ops) && R.Under256(0, ops) && Placed(ps)
    && R.WriteAll(g, W.FreshWriter(g), ops).Wrote? && StreamOf(ps) == R.WriteAll(g, W.FreshWriter(g), ops).bytes
  }

  /** Seeking any entry of the file's index gives the end of the full parse, from its heartbeat on. */
  lemma {:induction false} EntrySeeks(g: W.Config, ops: seq<R.Op>, ps: seq<Piece>, k: nat, e: Entry) returns (n: nat)
    requires Holding(g, ops, ps) && k > 0 && e in IndexOf(g, ps, k)
    ensures
      var f := HandleAll(Feed(Some(Sought(e.chunk, e.payload, e.grid)), None, []), ps);
      SoughtSuffix(g, ps, f, n) && f.start == Some(e.grid)
  {
    hide W.Drain, W.Next, R.WriteAll, R.WriteOp, Run, FileSteps, HandleAll, Sightings, S.FeedAll, Names, FedFrom;
    hide InStream, BeatsOf, Spans, SpansOf, StreamOf, Written, BeatsIn, SoughtSuffix, R.Under256;
    WholeFileSteps(g, ps);
    IndexNamesFirsts(k, FileSteps(g, W.Fresh(g), [], ps));
    var f := HandleAll(Feed(Some(Sought(e.chunk, e.payload, e.grid)), None, []), ps);
    SeekFeedsFromBeat(ps, BeatsFound(g, ps), e);
    var b :| b in BeatsFound(g, ps) && b.grid == e.grid && FedFrom(ps, b, f);
    InBeats(Sightings(g, W.Fresh(g), StreamOf(ps)), b);
    WrittenStreamSighted(g, ops);
    n := WrittenAt(g, W.FreshWriter(g), ops, 0, Sighting(b.grid, b.pos));
    SeekAt(g, ops, ps, b, f, n);
    FedStarts(ps, b, f);
  }

  lemma FedStarts(ps: seq<Piece>, b: Beat, f: Feed)
    requires FedFrom(ps, b, f)
    ensures f.start == Some(b.grid)
  {
  }

  lemma {:induction false} SeekAt(g: W.Config, ops: seq<R.Op>, ps: seq<Piece>, b: Beat, f: Feed, n: nat)
    requires Holding(g, ops, ps) && FedFrom(ps, b, f) && n < |ops| && ops[n].PutHeartbeat? && ops[n].grid == b.grid
    requires R.WriteAll(g, W.FreshWriter(g), ops[..n]).Wrote? && b.pos == |R.WriteAll(g, W.FreshWriter(g), ops[..n]).bytes|
    ensures SoughtSuffix(g, ps, f, n)
  {
    hide W.Drain, W.Next, R.WriteAll, R.WriteOp, S.FeedAll, StreamOf, S.Joined, R.Under256, R.Report, W.Masked;
    var before, after := ops[..n], ops[n..];
    assert before + after == ops && after[0] == ops[n];
    assert IsBeat(g, before, after, b);
    FedStarts(ps, b, f);
    SeekReportsSuffix(g, before, after, ps, b, f);
  }

  /**
   * Seek equals suffix, for a whole recording: of a file that holds a written stream and whose
   * index of the channel is made from it, a session that seeks a tick either finds no indexed
   * heartbeat at or before it, or reports exactly the end of the full parse from the last one.
   */
  lemma {:induction false} SeekInRecording(g: W.Config, ops: seq<R.Op>, ps: seq<Piece>, k: nat, lines: seq<Index.Line>, d: nat, tick: nat)
    returns (n: nat)
    requires Holding(g, ops, ps) && k > 0 && forall l :: l in lines && l.channel == d ==> l.entry in IndexOf(g, ps, k)
    ensures
      var sk := Pick(lines, d, g.c, tick);
      if sk.None? then forall l :: l in lines ==> !Eligible(l, d, g.c, tick)
      else
        && SoughtSuffix(g, ps, HandleAll(Feed(sk, None, []), ps), n)
        && HandleAll(Feed(sk, None, []), ps).start == Some(sk.value.grid) && sk.value.grid * g.c <= tick
        && forall l :: l in lines && Eligible(l, d, g.c, tick) ==> l.entry.grid <= sk.value.grid
  {
    PickIsLast(lines, d, g.c, tick);
    var sk := Pick(lines, d, g.c, tick);
    n := 0;
    if sk.Some? {
      var l :| l in lines && Eligible(l, d, g.c, tick) && Of(l, sk.value);
      n := EntrySeeks(g, ops, ps, k, l.entry);
    }
  }
}
