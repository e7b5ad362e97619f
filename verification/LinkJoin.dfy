/**
 * Joining a running capture: what a client that attaches is given of each data channel's
 * stream, pull by pull, is one contiguous piece of it from a heartbeat on.
 */
module LinkJoin {
  import opened Numbers
  import opened Ledger

  const TAIL_KEEP: nat := 4096

  /** A heartbeat seen in a pull. */
  datatype Seen = Seen(dc: nat, grid: nat, pos: nat)

  /** What a pull takes, in order: an item of the device, or a heartbeat found in its data. */
  datatype In = Read(x: Item) | Found(beat: Seen)

  function Added(x: Item, d: nat): Bytes {
    if x.Data? && x.channel == d then x.bytes else []
  }

  /** The data of one channel among some items. */
  function DataOf(items: seq<Item>, d: nat): Bytes {
    if items == [] then [] else DataOf(items[..|items| - 1], d) + Added(items[|items| - 1], d)
  }

  /** The first heartbeat of a channel at or after a grid count whose bytes the tail still has. */
  function FirstSeen(seen: seq<Seen>, d: nat, grid: nat, tailPos: nat): (r: Option<Seen>)
    ensures r.Some? ==> r.value in seen && r.value.dc == d && r.value.grid >= grid && r.value.pos >= tailPos
  {
    if seen == [] then None
    else if seen[0].dc == d && seen[0].grid >= grid && seen[0].pos >= tailPos then Some(seen[0])
    else FirstSeen(seen[1..], d, grid, tailPos)
  }

  /**
   * A data channel and a client: the stream so far and where its tail begins, and whether the
   * client's part began, where in the stream, and what it was offered.
   */
  datatype Join = Join(stream: Bytes, tailPos: nat, started: bool, start: nat, offered: Bytes)

  /** Between pulls only the last bytes of the stream are kept. */
  function Trimmed(tailPos: nat, len: nat): nat {
    if len > tailPos + TAIL_KEEP then len - TAIL_KEEP else tailPos
  }

  /** A pull that brings more of the stream, with the heartbeats found in it. */
  function AfterPull(j: Join, d: nat, grid: nat, more: Bytes, seen: seq<Seen>): Join {
    var t := j.(stream := j.stream + more, tailPos := Trimmed(j.tailPos, |j.stream|));
    if j.started then t.(offered := j.offered + more)
    else
      var s := FirstSeen(seen, d, grid, t.tailPos);
      if s.Some? && s.value.pos <= |t.stream| then
        t.(started := true, start := s.value.pos, offered := j.offered + t.stream[s.value.pos..])
      else t
  }

  /** A heartbeat of len bytes found in a pull ends in what it brought; so do those before it. */
  predicate EndsIn(b: Seen, len: nat, before: nat, after: nat) {
    before < b.pos + len <= after
  }

  predicate Honest(seen: seq<Seen>, d: nat, len: nat, before: nat, after: nat) {
    len <= TAIL_KEEP && forall b :: b in seen && b.dc == d ==> EndsIn(b, len, before, after)
  }

  /** The client's part begins at the first heartbeat at or after the grid count it was told. */
  predicate StartsRight(j: Join, d: nat, grid: nat, beats: seq<Seen>) {
    if j.started then
      exists i :: 0 <= i < |beats| && beats[i].dc == d && beats[i].pos == j.start && beats[i].grid >= grid
        && forall k :: 0 <= k < i && beats[k].dc == d ==> beats[k].grid < grid
    else forall b :: b in beats && b.dc == d ==> b.grid < grid
  }

  /** What was offered is the stream from where the client's part began, or nothing yet. */
  predicate Contiguous(j: Join) {
    && j.tailPos <= |j.stream| && (j.tailPos == 0 || j.tailPos + TAIL_KEEP <= |j.stream|)
    && (if j.started then j.start <= |j.stream| && j.offered == j.stream[j.start..] else j.offered == [])
  }

  lemma {:induction false} FirstSeenIs(seen: seq<Seen>, d: nat, grid: nat, tailPos: nat) returns (i: nat)
    requires forall b :: b in seen && b.dc == d ==> b.pos >= tailPos
    ensures i <= |seen| && forall k :: 0 <= k < i && seen[k].dc == d ==> seen[k].grid < grid
    ensures var s := FirstSeen(seen, d, grid, tailPos);
      if i < |seen| then s == Some(seen[i]) && seen[i].dc == d && seen[i].grid >= grid else s == None
  {
    if seen == [] || (seen[0].dc == d && seen[0].grid >= grid) {
      i := 0;
      assert seen != [] ==> seen[0] in seen;
    } else {
      var k := FirstSeenIs(seen[1..], d, grid, tailPos);
      i := k + 1;
    }
  }

  /** A heartbeat that ends in what a pull brought began in the tail that was kept. */
  lemma InTail(j: Join, d: nat, len: nat, more: Bytes, seen: seq<Seen>, b: Seen)
    requires Contiguous(j) && Honest(seen, d, len, |j.stream|, |j.stream + more|) && b in seen && b.dc == d
    ensures Trimmed(j.tailPos, |j.stream|) <= b.pos <= |j.stream + more|
  {
    assert EndsIn(b, len, |j.stream|, |j.stream + more|);
  }

  /** Every pull keeps it so, wherever it cuts the stream and its heartbeats. */
  lemma PullKeeps(j: Join, d: nat, grid: nat, len: nat, more: Bytes, beats: seq<Seen>, seen: seq<Seen>)
    requires Contiguous(j) && StartsRight(j, d, grid, beats) && Honest(seen, d, len, |j.stream|, |j.stream + more|)
    ensures
      var t := AfterPull(j, d, grid, more, seen);
      Contiguous(t) && StartsRight(t, d, grid, beats + seen)
  {
    var t := AfterPull(j, d, grid, more, seen);
    forall b | b in seen && b.dc == d
      ensures Trimmed(j.tailPos, |j.stream|) <= b.pos <= |j.stream + more|
    {
      InTail(j, d, len, more, seen, b);
    }
    var all := beats + seen;
    if j.started {
      assert t.stream[t.start..] == j.stream[j.start..] + more;
      var i :| 0 <= i < |beats| && beats[i].dc == d && beats[i].pos == j.start && beats[i].grid >= grid
        && forall k :: 0 <= k < i && beats[k].dc == d ==> beats[k].grid < grid;
      assert all[i] == beats[i] && forall k :: 0 <= k < i ==> all[k] == beats[k];
    } else {
      var i := FirstSeenIs(seen, d, grid, t.tailPos);
      if i < |seen| {
        assert seen[i] in seen;
        assert [] + t.stream[seen[i].pos..] == t.stream[seen[i].pos..];
        var n := |beats| + i;
        assert all[n] == seen[i];
        forall k | 0 <= k < n && all[k].dc == d
          ensures all[k].grid < grid
        {
          assert k < |beats| ==> all[k] == beats[k] && beats[k] in beats;
          assert k >= |beats| ==> all[k] == seen[k - |beats|];
        }
      } else {
        forall b | b in all && b.dc == d
          ensures b.grid < grid
        {
          if b !in beats {
            var k :| 0 <= k < |seen| && seen[k] == b;
          }
        }
      }
    }
  }

  /** What each pull brings of a channel. */
  datatype Pull = Pull(more: Bytes, seen: seq<Seen>)

  function AfterPulls(j: Join, d: nat, grid: nat, pulls: seq<Pull>): Join
    decreases |pulls|
  {
    if pulls == [] then j else AfterPulls(AfterPull(j, d, grid, pulls[0].more, pulls[0].seen), d, grid, pulls[1..])
  }

  predicate AllHonest(at: nat, d: nat, len: nat, pulls: seq<Pull>)
    decreases |pulls|
  {
    pulls == [] ||
    (Honest(pulls[0].seen, d, len, at, at + |pulls[0].more|) && AllHonest(at + |pulls[0].more|, d, len, pulls[1..]))
  }

  function Brought(pulls: seq<Pull>): Bytes {
    if pulls == [] then [] else pulls[0].more + Brought(pulls[1..])
  }

  function Beats(pulls: seq<Pull>): seq<Seen> {
    if pulls == [] then [] else pulls[0].seen + Beats(pulls[1..])
  }

  /**
   * A joining client: over any pulls of a stream whose heartbeats are no longer than the tail
   * kept, it is offered exactly a suffix of the stream, from the first byte of the first
   * heartbeat at or after the grid count it was told, no byte twice or missing.
   */
  lemma {:induction false} ClientJoins(j: Join, d: nat, grid: nat, len: nat, beats: seq<Seen>, pulls: seq<Pull>)
    requires Contiguous(j) && StartsRight(j, d, grid, beats) && AllHonest(|j.stream|, d, len, pulls)
    ensures
      var t := AfterPulls(j, d, grid, pulls);
      && t.stream == j.stream + Brought(pulls)
      && Contiguous(t) && StartsRight(t, d, grid, beats + Beats(pulls))
    decreases |pulls|
  {
    if pulls == [] {
      assert j.stream + [] == j.stream && beats + [] == beats;
    } else {
      var p := pulls[0];
      var t := AfterPull(j, d, grid, p.more, p.seen);
      PullKeeps(j, d, grid, len, p.more, beats, p.seen);
      assert t.stream == j.stream + p.more;
      hide Contiguous, StartsRight, Honest, AfterPull;
      ClientJoins(t, d, grid, len, beats + p.seen, pulls[1..]);
      Assoc(j.stream, p.more, Brought(pulls[1..]));
      Assoc(beats, p.seen, Beats(pulls[1..]));
    }
  }

  lemma Assoc<T>(a: seq<T>, b: seq<T>, c: seq<T>)
    ensures a + b + c == a + (b + c)
  {
  }
}
