/**
 * Joining a running capture, on what the parsers find: wherever the pulls cut a data channel's
 * stream, a client that attaches is given the stream from the first heartbeat it should.
 */
module LinkStreams {
  import opened Numbers
  import opened Ledger
  import opened LinkJoin
  import opened WireBeats
  import W = WireFormat
  import S = WireStreams
  import R = WireRoundTrip

  /** A data channel's heartbeats among those of a pull. */
  function OfChannel(seen: seq<Seen>, d: nat): seq<Sighting> {
    if seen == [] then []
    else (if seen[0].dc == d then [Sighting(seen[0].grid, seen[0].pos)] else []) + OfChannel(seen[1..], d)
  }

  /** Each pull's bytes go to the channel's parser, and what it sees is what the parser reports. */
  predicate Parsed(g: W.Config, p: W.Core, rest: Bytes, d: nat, pulls: seq<Pull>)
    requires g.Valid() && W.CoreFits(g, p)
    decreases |pulls|
  {
    pulls == [] ||
    var r := W.Drain(g, p, rest + pulls[0].more);
    OfChannel(pulls[0].seen, d) == Sightings(g, p, rest + pulls[0].more) && Parsed(g, r.core, r.rest, d, pulls[1..])
  }

  lemma {:induction false} OfChannelConcat(a: seq<Seen>, b: seq<Seen>, d: nat)
    ensures OfChannel(a + b, d) == OfChannel(a, d) + OfChannel(b, d)
  {
    if a == [] {
      assert a + b == b;
    } else {
      assert (a + b)[0] == a[0] && (a + b)[1..] == a[1..] + b;
      OfChannelConcat(a[1..], b, d);
      var head := if a[0].dc == d then [Sighting(a[0].grid, a[0].pos)] else [];
      WireBeats.Assoc(head, OfChannel(a[1..], d), OfChannel(b, d));
    }
  }

  lemma {:induction false} InChannel(seen: seq<Seen>, d: nat, b: Seen)
    requires b in seen && b.dc == d
    ensures Sighting(b.grid, b.pos) in OfChannel(seen, d)
  {
    if b != seen[0] {
      InChannel(seen[1..], d, b);
    }
  }

  /** The heartbeats a pull completes end in the bytes it brings. */
  lemma PullHonest(g: W.Config, p: W.Core, rest: Bytes, d: nat, pull: Pull)
    requires g.Valid() && W.CoreFits(g, p) && |rest| < g.HbLen() <= TAIL_KEEP
    requires OfChannel(pull.seen, d) == Sightings(g, p, rest + pull.more)
    ensures Honest(pull.seen, d, g.HbLen(), p.pos + |rest|, p.pos + |rest| + |pull.more|)
  {
    var v := rest + pull.more;
    var s := Sightings(g, p, v);
    SightingsLie(g, p, v);
    S.DrainLeavesLittle(g, p, v);
    hide Sightings, W.Drain;
    forall b | b in pull.seen && b.dc == d
      ensures EndsIn(b, g.HbLen(), p.pos + |rest|, p.pos + |v|)
    {
      InChannel(pull.seen, d, b);
      var i :| 0 <= i < |s| && s[i] == Sighting(b.grid, b.pos);
    }
  }

  lemma {:induction false} PullsHonest(g: W.Config, p: W.Core, rest: Bytes, d: nat, pulls: seq<Pull>)
    requires g.Valid() && W.CoreFits(g, p) && |rest| < g.HbLen() <= TAIL_KEEP && Parsed(g, p, rest, d, pulls)
    ensures AllHonest(p.pos + |rest|, d, g.HbLen(), pulls)
    decreases |pulls|
  {
    hide W.Drain, Honest, Sightings;
    if pulls != [] {
      var v := rest + pulls[0].more;
      PullHonest(g, p, rest, d, pulls[0]);
      S.DrainLeavesLittle(g, p, v);
      var r := W.Drain(g, p, v);
      PullsHonest(g, r.core, r.rest, d, pulls[1..]);
      assert r.core.pos + |r.rest| == p.pos + |rest| + |pulls[0].more|;
    }
  }

  function Cuts(pulls: seq<Pull>): seq<Bytes> {
    if pulls == [] then [] else [pulls[0].more] + Cuts(pulls[1..])
  }

  lemma {:induction false} CutsJoin(pulls: seq<Pull>)
    ensures S.Joined(Cuts(pulls)) == Brought(pulls)
  {
    if pulls != [] {
      CutsJoin(pulls[1..]);
      assert Cuts(pulls)[1..] == Cuts(pulls[1..]);
    }
  }

  lemma {:induction false} PullsSee(g: W.Config, p: W.Core, rest: Bytes, d: nat, pulls: seq<Pull>)
    requires g.Valid() && W.CoreFits(g, p) && Parsed(g, p, rest, d, pulls)
    ensures OfChannel(Beats(pulls), d) == SightingsAll(g, p, rest, Cuts(pulls))
    decreases |pulls|
  {
    hide W.Drain, Sightings;
    if pulls != [] {
      var r := W.Drain(g, p, rest + pulls[0].more);
      PullsSee(g, r.core, r.rest, d, pulls[1..]);
      OfChannelConcat(pulls[0].seen, Beats(pulls[1..]), d);
      assert Cuts(pulls)[1..] == Cuts(pulls[1..]);
    }
  }

  /**
   * What a client is given of a stream with these heartbeats: from the first of them at or
   * after a grid count on, everything; nothing while there is none.
   */
  predicate GivenFrom(s: seq<Sighting>, stream: Bytes, grid: nat, started: bool, start: nat, offered: Bytes) {
    if started then
      && start <= |stream| && offered == stream[start..]
      && exists i :: 0 <= i < |s| && FirstAt(s, grid, i) && s[i].pos == start
    else offered == [] && forall i :: 0 <= i < |s| ==> s[i].grid < grid
  }

  predicate FirstAt(s: seq<Sighting>, grid: nat, i: nat) {
    i < |s| && s[i].grid >= grid && forall k :: 0 <= k < i ==> s[k].grid < grid
  }

  lemma {:induction false} ChannelFirst(beats: seq<Seen>, d: nat, grid: nat, i: nat) returns (n: nat)
    requires i < |beats| && beats[i].dc == d && beats[i].grid >= grid
    requires forall k :: 0 <= k < i && beats[k].dc == d ==> beats[k].grid < grid
    ensures FirstAt(OfChannel(beats, d), grid, n) && OfChannel(beats, d)[n].pos == beats[i].pos
  {
    if i == 0 {
      n := 0;
    } else {
      n := ChannelFirst(beats[1..], d, grid, i - 1);
      n := if beats[0].dc == d then n + 1 else n;
    }
  }

  lemma {:induction false} ChannelNone(beats: seq<Seen>, d: nat, grid: nat)
    requires forall b :: b in beats && b.dc == d ==> b.grid < grid
    ensures forall i :: 0 <= i < |OfChannel(beats, d)| ==> OfChannel(beats, d)[i].grid < grid
  {
    if beats != [] {
      ChannelNone(beats[1..], d, grid);
    }
  }

  lemma JoinGives(j: Join, d: nat, grid: nat, beats: seq<Seen>)
    requires Contiguous(j) && StartsRight(j, d, grid, beats)
    ensures GivenFrom(OfChannel(beats, d), j.stream, grid, j.started, j.start, j.offered)
  {
    if j.started {
      var i :| 0 <= i < |beats| && beats[i].dc == d && beats[i].pos == j.start && beats[i].grid >= grid
        && forall k :: 0 <= k < i && beats[k].dc == d ==> beats[k].grid < grid;
      var n := ChannelFirst(beats, d, grid, i);
    } else {
      ChannelNone(beats, d, grid);
    }
  }

  const NO_JOIN := Join([], 0, false, 0, [])

  /**
   * A joining client, of any byte stream in any cutting into pulls: it is given exactly the
   * stream from the first byte of the first heartbeat at or after the grid count it was told,
   * among those the parse of the whole stream reports, and nothing while there is none.
   */
  lemma {:induction false} ClientGetsSuffix(g: W.Config, d: nat, grid: nat, pulls: seq<Pull>)
    requires g.Valid() && g.HbLen() <= TAIL_KEEP && Parsed(g, W.Fresh(g), [], d, pulls)
    ensures
      var t := AfterPulls(NO_JOIN, d, grid, pulls);
      && t.stream == Brought(pulls)
      && GivenFrom(Sightings(g, W.Fresh(g), Brought(pulls)), Brought(pulls), grid, t.started, t.start, t.offered)
  {
    var p := W.Fresh(g);
    R.StartIsStuck(g, 0, false);
    hide W.Drain, Sightings, AllHonest, AfterPulls, Contiguous, StartsRight, S.Stuck, SightingsAll;
    PullsHonest(g, p, [], d, pulls);
    NothingYet(d, grid);
    ClientJoins(NO_JOIN, d, grid, g.HbLen(), [], pulls);
    PullsSee(g, p, [], d, pulls);
    SightingsAnyCut(g, p, [], Cuts(pulls));
    CutsJoin(pulls);
    assert [] + Brought(pulls) == Brought(pulls) && [] + Beats(pulls) == Beats(pulls);
    JoinGives(AfterPulls(NO_JOIN, d, grid, pulls), d, grid, Beats(pulls));
  }

  lemma NothingYet(d: nat, grid: nat)
    ensures Contiguous(NO_JOIN) && StartsRight(NO_JOIN, d, grid, [])
  {
  }

  /** Of a written stream, the heartbeats are those the writer put, where it put them. */
  lemma {:induction false} ClientGetsWritten(g: W.Config, ops: seq<R.Op>, d: nat, grid: nat, pulls: seq<Pull>)
    requires g.Sound() && g.HbLen() <= TAIL_KEEP && R.OpsFit(g, ops) && R.Under256(0, ops)
    requires R.WriteAll(g, W.FreshWriter(g), ops).Wrote? && Brought(pulls) == R.WriteAll(g, W.FreshWriter(g), ops).bytes
    requires Parsed(g, W.Fresh(g), [], d, pulls)
    ensures
      var t := AfterPulls(NO_JOIN, d, grid, pulls);
      GivenFrom(Written(g, W.FreshWriter(g), ops, 0), Brought(pulls), grid, t.started, t.start, t.offered)
  {
    hide W.Drain, Parsed, R.WriteOp, AfterPulls, GivenFrom, Sightings, Written, R.WriteAll;
    ClientGetsSuffix(g, d, grid, pulls);
    WrittenStreamSighted(g, ops);
  }
}
