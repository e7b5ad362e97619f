/**
 * What a decoder group is given of the store: records, levels at the grid points, losses, and
 * how far it may decode. Every call keeps what follows it in order, so however the replay is
 * cut into steps the codec's merge is fed as it must be.
 */
module ReplayOrder {
  import opened Numbers
  import opened MergeOrder
  import opened ReplayStore

  /** A record or a channel's level; everything up to tick has been given; a loss. */
  datatype Call = Give(e: Entry) | Done(tick: nat) | Tell(loss: Loss)

  /** A grid point whose levels were given, and the store they were read from. */
  datatype Look = Look(tick: nat, held: Held)

  /**
   * How far a group is. base and pos: where on each channel it began and will read on. read:
   * what it has read, of which the first n have been fed. Nothing still to come is before low;
   * next is the next grid point, start the first.
   */
  datatype Trail = Trail(base: seq<nat>, pos: seq<nat>, skip: nat, start: nat, next: nat, decoded: Option<nat>,
    calls: seq<Call>, read: seq<Entry>, n: nat, low: nat, looks: seq<Look>)

  // ----- the order of the calls

  /** What may come after what. */
  predicate Follows(x: Call, y: Call) {
    match (x, y)
    case (Give(a), Give(b)) => Before(a, b)
    case (Done(t), Give(b)) => t < b.tick
    case (Tell(l), Give(b)) => l.start < b.tick
    case (Done(t), Done(u)) => t <= u
    case _ => true
  }

  predicate Lined(calls: seq<Call>) {
    forall i, j :: 0 <= i < j < |calls| ==> Follows(calls[i], calls[j])
  }

  /** x leaves room for what comes from low on. */
  predicate Under(x: Call, low: nat) {
    match x
    case Give(e) => if e.isLevel then e.tick < low else e.tick <= low
    case Done(t) => t < low
    case Tell(l) => l.start < low
  }

  predicate Placed(calls: seq<Call>, low: nat) {
    forall x :: x in calls ==> Under(x, low)
  }

  predicate Ordered(s: Trail) {
    Lined(s.calls) && Placed(s.calls, s.low) && s.low <= s.next
  }

  lemma LinedMore(calls: seq<Call>, x: Call)
    requires Lined(calls) && forall y :: y in calls ==> Follows(y, x)
    ensures Lined(calls + [x])
  {
  }

  // ----- what was given

  function RecordsOf(calls: seq<Call>): (r: seq<Entry>) {
    if calls == [] then []
    else
      var x := calls[|calls| - 1];
      RecordsOf(calls[..|calls| - 1]) + if x.Give? && !x.e.isLevel then [x.e] else []
  }

  function LevelsOf(calls: seq<Call>): seq<Entry> {
    if calls == [] then []
    else
      var x := calls[|calls| - 1];
      LevelsOf(calls[..|calls| - 1]) + if x.Give? && x.e.isLevel then [x.e] else []
  }

  /** What a group skips: what is at or before the oldest tick of a store that dropped some. */
  predicate Skips(skip: nat, e: Entry) {
    skip != 0 && e.tick <= skip
  }

  function Unskipped(s: seq<Entry>, skip: nat): (r: seq<Entry>)
    ensures forall e :: e in r ==> e in s
  {
    if s == [] then []
    else
      var x := s[|s| - 1];
      Unskipped(s[..|s| - 1], skip) + if Skips(skip, x) then [] else [x]
  }

  /** The known levels of channels 0 to n - 1 at the end of a tick, as level entries. */
  function LevelsAt(h: Held, tick: nat, n: nat): seq<Entry> {
    if n == 0 then []
    else
      var v := h.level(n - 1, tick);
      LevelsAt(h, tick, n - 1) + if v.Some? then [Entry(tick, n - 1, v.value, true)] else []
  }

  function AllLevels(looks: seq<Look>, n: nat): seq<Entry> {
    if looks == [] then []
    else
      var l := looks[|looks| - 1];
      AllLevels(looks[..|looks| - 1], n) + LevelsAt(l.held, l.tick, n)
  }

  /** Every grid point from start to before next, once each. */
  predicate Grid(looks: seq<Look>, c: nat, start: nat, next: nat) {
    && (if looks == [] then next == start else looks[0].tick == start && next == looks[|looks| - 1].tick + c)
    && forall k :: 0 <= k < |looks| - 1 ==> looks[k + 1].tick == looks[k].tick + c
  }

  lemma GiveOne(calls: seq<Call>, x: Call)
    ensures RecordsOf(calls + [x]) == RecordsOf(calls) + if x.Give? && !x.e.isLevel then [x.e] else []
    ensures LevelsOf(calls + [x]) == LevelsOf(calls) + if x.Give? && x.e.isLevel then [x.e] else []
  {
    assert (calls + [x])[..|calls|] == calls;
  }

  lemma UnskippedOne(s: seq<Entry>, x: Entry, skip: nat)
    ensures Unskipped(s + [x], skip) == Unskipped(s, skip) + if Skips(skip, x) then [] else [x]
  {
    assert (s + [x])[..|s|] == s;
  }

  lemma {:induction false} RecordsIn(calls: seq<Call>, e: Entry)
    requires Give(e) in calls && !e.isLevel
    ensures e in RecordsOf(calls)
    decreases |calls|
  {
    if calls[|calls| - 1] != Give(e) {
      RecordsIn(calls[..|calls| - 1], e);
    }
  }

  // ----- losses

  /** The decoders have been let up to tick t. */
  predicate Reached(calls: seq<Call>, t: nat) {
    exists x :: x in calls && x.Done? && x.tick >= t
  }

  /** A loss is told once the decoders have taken everything before it. */
  predicate ToldAfter(calls: seq<Call>) {
    forall k :: 0 <= k < |calls| && calls[k].Tell? ==> Reached(calls[..k], calls[k].loss.start)
  }

  lemma ToldMore(calls: seq<Call>, x: Call)
    requires ToldAfter(calls) && (x.Tell? ==> Reached(calls, x.loss.start))
    ensures ToldAfter(calls + [x])
  {
    var all := calls + [x];
    forall k | 0 <= k < |all| && all[k].Tell?
      ensures Reached(all[..k], all[k].loss.start)
    {
      assert all[..k] == calls[..k];
      assert k == |calls| ==> calls[..k] == calls;
    }
  }

  lemma ReachedMore(calls: seq<Call>, more: seq<Call>, t: nat)
    requires Reached(calls, t)
    ensures Reached(calls + more, t)
  {
    var x :| x in calls && x.Done? && x.tick >= t;
    assert x in calls + more;
  }

  // ----- the invariant

  predicate Coming(h: Held, pos: seq<nat>, rest: seq<Entry>, low: nat)
    requires |pos| == |h.recs|
  {
    && (forall e :: e in rest ==> low <= e.tick)
    && forall i, k :: 0 <= i < |pos| && pos[i] <= k < |h.recs[i]| ==> low <= h.recs[i][k].tick
  }

  /** Nothing later than a tick has been fed. */
  predicate FedBy(read: seq<Entry>, n: nat, tick: nat) {
    n <= |read| && forall e :: e in read[..n] ==> e.tick <= tick
  }

  predicate Taken(h: Held, s: Trail) {
    && Took(h, s.base, s.pos, s.read) && s.n <= |s.read|
    && RecordsOf(s.calls) == Unskipped(s.read[..s.n], s.skip)
  }

  predicate Ahead(h: Held, s: Trail)
    requires |s.pos| == |h.recs| && s.n <= |s.read|
  {
    && h.wm.Some? && s.low <= h.wm.value + 1 && Coming(h, s.pos, s.read[s.n..], s.low)
    && FedBy(s.read, s.n, s.low)
  }

  ghost predicate Shown(c: nat, s: Trail) {
    Grid(s.looks, c, s.start, s.next) && LevelsOf(s.calls) == AllLevels(s.looks, |s.base|)
  }

  predicate Told(s: Trail) {
    && ToldAfter(s.calls)
    && (s.decoded.Some? ==> s.decoded.value < s.low && Reached(s.calls, s.decoded.value))
  }

  /** What every step of a group keeps. */
  ghost predicate Core(c: nat, h: Held, s: Trail) {
    Taken(h, s) && Ahead(h, s) && Ordered(s) && Shown(c, s) && Told(s)
  }

  // ----- every call keeps it

  lemma ComingLater(h: Held, k: Held, pos: seq<nat>, rest: seq<Entry>, low: nat)
    requires |pos| == |h.recs| && Coming(h, pos, rest, low) && Grows(h, k) && h.wm.Some? && low <= h.wm.value + 1
    ensures Coming(k, pos, rest, low)
  {
    forall i, j | 0 <= i < |pos| && pos[i] <= j < |k.recs[i]|
      ensures low <= k.recs[i][j].tick
    {
      assert Longer(h.recs[i], k.recs[i], h.wm);
      if j < |h.recs[i]| {
        assert k.recs[i][j] == h.recs[i][j];
      }
    }
  }

  lemma CoreLater(c: nat, h: Held, k: Held, s: Trail)
    requires Core(c, h, s) && Grows(h, k)
    ensures Core(c, k, s)
  {
    assert |s.pos| == |h.recs|;
    hide Took, Ordered, Shown, Told, Coming;
    TookLater(h, k, s.base, s.pos, s.read);
    ComingLater(h, k, s.pos, s.read[s.n..], s.low);
  }

  /** Everything up to t has been given. */
  lemma CoreDone(c: nat, h: Held, s: Trail, t: nat)
    requires Core(c, h, s) && t < s.low && forall x :: x in s.calls && x.Done? ==> x.tick <= t
    ensures
      var u := s.(calls := s.calls + [Done(t)]);
      Core(c, h, u) && Core(c, h, u.(decoded := Some(t)))
  {
    hide Took, Coming, Grid, AllLevels, RecordsOf, LevelsOf, ToldAfter;
    GiveOne(s.calls, Done(t));
    LinedMore(s.calls, Done(t));
    ToldMore(s.calls, Done(t));
    if s.decoded.Some? {
      ReachedMore(s.calls, [Done(t)], s.decoded.value);
    }
    assert Done(t) in s.calls + [Done(t)];
  }

  lemma CoreTell(c: nat, h: Held, s: Trail, l: Loss)
    requires Core(c, h, s) && l.start < s.low && Reached(s.calls, l.start)
    ensures Core(c, h, s.(calls := s.calls + [Tell(l)]))
  {
    hide Took, Coming, Grid, AllLevels, RecordsOf, LevelsOf, ToldAfter, Reached;
    GiveOne(s.calls, Tell(l));
    LinedMore(s.calls, Tell(l));
    ToldMore(s.calls, Tell(l));
    if s.decoded.Some? {
      ReachedMore(s.calls, [Tell(l)], s.decoded.value);
    }
  }

  /** Nothing before low is still to come, and all grid points before it are given. */
  lemma CoreLow(c: nat, h: Held, s: Trail, low: nat)
    requires Core(c, h, s) && s.low <= low <= s.next && low <= h.wm.value + 1 && Coming(h, s.pos, s.read[s.n..], low)
    ensures Core(c, h, s.(low := low))
  {
    hide Took, Coming, Grid, AllLevels, RecordsOf, LevelsOf, ToldAfter, Reached, Lined;
  }

  /** The next record that was read. */
  function Fed(s: Trail): Trail
    requires s.n < |s.read|
  {
    var e := s.read[s.n];
    s.(n := s.n + 1, calls := if Skips(s.skip, e) then s.calls else s.calls + [Give(e)])
  }

  lemma GivenBefore(h: Held, s: Trail, e: Entry)
    requires Taken(h, s) && Placed(s.calls, s.low) && s.n < |s.read| && e == s.read[s.n] && e.tick == s.low
    requires !e.isLevel
    ensures forall x :: x in s.calls ==> Follows(x, Give(e))
  {
    hide RecordsOf, Unskipped;
    forall x | x in s.calls
      ensures Follows(x, Give(e))
    {
      if x.Give? && !x.e.isLevel {
        RecordsIn(s.calls, x.e);
        assert x.e in s.read[..s.n];
        var k :| 0 <= k < s.n && s.read[k] == x.e;
        assert Before(s.read[k], s.read[s.n]);
      }
    }
  }

  lemma TakenFed(h: Held, s: Trail)
    requires Taken(h, s) && s.n < |s.read| && !s.read[s.n].isLevel
    ensures Taken(h, Fed(s))
  {
    var e := s.read[s.n];
    assert s.read[..s.n + 1] == s.read[..s.n] + [e];
    UnskippedOne(s.read[..s.n], e, s.skip);
    GiveOne(s.calls, Give(e));
    hide Took, RecordsOf, LevelsOf, Unskipped, Skips;
  }

  lemma ToldFed(s: Trail)
    requires Told(s) && s.n < |s.read|
    ensures Told(Fed(s))
  {
    var e := s.read[s.n];
    ToldMore(s.calls, Give(e));
    hide ToldAfter, Reached;
    if s.decoded.Some? {
      ReachedMore(s.calls, [Give(e)], s.decoded.value);
    }
  }

  lemma OrderedFed(h: Held, s: Trail)
    requires Taken(h, s) && Ordered(s) && s.n < |s.read| && s.read[s.n].tick == s.low && !s.read[s.n].isLevel
    ensures Ordered(Fed(s))
  {
    GivenBefore(h, s, s.read[s.n]);
    LinedMore(s.calls, Give(s.read[s.n]));
    hide Taken, Lined, Follows, Skips;
  }

  lemma AheadFed(h: Held, s: Trail)
    requires |s.pos| == |h.recs| && s.n < |s.read| && Ahead(h, s) && s.read[s.n].tick == s.low
    ensures Ahead(h, Fed(s))
  {
    assert s.read[..s.n + 1] == s.read[..s.n] + [s.read[s.n]];
    assert forall x :: x in s.read[s.n + 1..] ==> x in s.read[s.n..];
  }

  lemma ShownFed(c: nat, s: Trail)
    requires s.n < |s.read| && !s.read[s.n].isLevel && Shown(c, s)
    ensures Shown(c, Fed(s))
  {
    GiveOne(s.calls, Give(s.read[s.n]));
    hide Grid, AllLevels, LevelsOf, RecordsOf, Skips;
  }

  lemma CoreFed(c: nat, h: Held, s: Trail)
    requires Core(c, h, s) && s.n < |s.read| && s.read[s.n].tick == s.low && !s.read[s.n].isLevel
    ensures Core(c, h, Fed(s))
  {
    TakenFed(h, s);
    ToldFed(s);
    OrderedFed(h, s);
    ShownFed(c, s);
    assert |s.pos| == |h.recs|;
    AheadFed(h, s);
    hide Took, Told, Ordered, Shown, Ahead;
  }

  /** What comes from the next record on is not before it. */
  lemma ComingAt(h: Held, s: Trail)
    requires Taken(h, s) && s.n < |s.read|
    ensures |s.pos| == |h.recs| && Coming(h, s.pos, s.read[s.n..], s.read[s.n].tick)
  {
    hide RecordsOf, Unskipped;
    var e := s.read[s.n];
    forall x | x in s.read[s.n..]
      ensures e.tick <= x.tick
    {
      var k :| s.n <= k < |s.read| && s.read[k] == x;
      assert k > s.n ==> Before(s.read[s.n], s.read[k]);
    }
    assert e in s.read;
  }

  /** Once a record past the target has been read, only such are to come. */
  lemma ComingPast(h: Held, s: Trail, target: nat)
    requires Taken(h, s) && s.n < |s.read| && s.read[s.n].tick > target
    ensures |s.pos| == |h.recs| && Coming(h, s.pos, s.read[s.n..], target + 1)
  {
    ComingAt(h, s);
    hide Took, RecordsOf, Unskipped;
  }

  /** More records read. */
  lemma CoreRead(c: nat, h: Held, s: Trail, to: seq<nat>, out: seq<Entry>)
    requires Core(c, h, s) && Took(h, s.pos, to, out)
    ensures Core(c, h, s.(pos := to, read := s.read + out))
  {
    TookOn(h, s.base, s.pos, to, s.read, out);
    assert (s.read + out)[..s.n] == s.read[..s.n] && (s.read + out)[s.n..] == s.read[s.n..] + out;
    ComingRead(h, s.pos, to, s.read[s.n..], out, s.low);
    hide Took, Coming, Ordered, Shown, Told;
  }

  lemma ComingRead(h: Held, pos: seq<nat>, to: seq<nat>, rest: seq<Entry>, out: seq<Entry>, low: nat)
    requires Took(h, pos, to, out) && Coming(h, pos, rest, low)
    ensures Coming(h, to, rest + out, low)
  {
    forall e | e in out
      ensures low <= e.tick
    {
      var i, k := WhereTook(h, pos, to, out, e);
    }
  }

  // ----- the levels of a grid point

  /** Gives the levels of channels before n at the next grid point. */
  function Gives(s: seq<Entry>): (r: seq<Call>)
    ensures |r| == |s|
  {
    seq(|s|, i requires 0 <= i < |s| => Give(s[i]))
  }

  function Shows(s: Trail, c: nat, h: Held, n: nat): Trail {
    s.(next := s.next + c, looks := s.looks + [Look(s.next, h)], calls := s.calls + Gives(LevelsAt(h, s.next, n)))
  }

  lemma {:induction false} LevelsAtIs(h: Held, tick: nat, n: nat)
    ensures Ascending(LevelsAt(h, tick, n))
    ensures forall e :: e in LevelsAt(h, tick, n) ==> e.tick == tick && e.isLevel && e.channel < n
  {
    if n > 0 {
      LevelsAtIs(h, tick, n - 1);
    }
  }

  lemma {:induction false} GiveMany(calls: seq<Call>, s: seq<Entry>)
    requires forall e :: e in s ==> e.isLevel
    ensures RecordsOf(calls + Gives(s)) == RecordsOf(calls)
    ensures LevelsOf(calls + Gives(s)) == LevelsOf(calls) + s
    decreases |s|
  {
    if s == [] {
      assert calls + Gives(s) == calls;
    } else {
      var f := s[..|s| - 1];
      GiveMany(calls, f);
      assert calls + Gives(s) == (calls + Gives(f)) + [Give(s[|s| - 1])];
      GiveOne(calls + Gives(f), Give(s[|s| - 1]));
      assert s[|s| - 1] in s;
    }
  }

  lemma {:induction false} ToldMany(calls: seq<Call>, s: seq<Entry>)
    requires ToldAfter(calls)
    ensures ToldAfter(calls + Gives(s))
    decreases |s|
  {
    if s == [] {
      assert calls + Gives(s) == calls;
    } else {
      var f := s[..|s| - 1];
      ToldMany(calls, f);
      assert calls + Gives(s) == (calls + Gives(f)) + [Give(s[|s| - 1])];
      ToldMore(calls + Gives(f), Give(s[|s| - 1]));
    }
  }

  lemma LinedMany(calls: seq<Call>, s: seq<Entry>)
    requires Lined(calls) && Ascending(s) && forall x, e :: x in calls && e in s ==> Follows(x, Give(e))
    ensures Lined(calls + Gives(s))
  {
    var all := calls + Gives(s);
    forall i, j | 0 <= i < j < |all|
      ensures Follows(all[i], all[j])
    {
      if j >= |calls| {
        assert s[j - |calls|] in s;
        assert i < |calls| ==> calls[i] in calls;
      }
    }
  }

  /** While grid points before bound are given: levels before next and bound, the rest by low. */
  predicate Showing(s: Trail, bound: nat) {
    && Lined(s.calls) && s.low <= s.next && s.low <= bound
    && forall x :: x in s.calls ==> if x.Give? && x.e.isLevel then x.e.tick < s.next && x.e.tick < bound else Under(x, s.low)
  }

  /** The invariant while grid points before bound are given. */
  ghost predicate CoreShowing(c: nat, h: Held, s: Trail, bound: nat) {
    Taken(h, s) && Ahead(h, s) && Showing(s, bound) && Shown(c, s) && Told(s)
  }

  lemma ShowingMore(s: Trail, c: nat, h: Held, n: nat, bound: nat)
    requires Showing(s, bound) && s.next < bound && c > 0
    ensures Showing(Shows(s, c, h, n), bound)
  {
    var l := LevelsAt(h, s.next, n);
    LevelsAtIs(h, s.next, n);
    hide LevelsAt;
    LinedMany(s.calls, l);
    forall x | x in s.calls + Gives(l)
      ensures x in s.calls || (x.Give? && x.e in l)
    {
    }
  }

  lemma ShownMore(s: Trail, c: nat, h: Held)
    requires Shown(c, s)
    ensures Shown(c, Shows(s, c, h, |s.base|))
  {
    var l := LevelsAt(h, s.next, |s.base|);
    LevelsAtIs(h, s.next, |s.base|);
    GiveMany(s.calls, l);
    hide LevelsAt, LevelsOf;
    assert (s.looks + [Look(s.next, h)])[..|s.looks|] == s.looks;
  }

  lemma CoreShows(c: nat, h: Held, s: Trail, bound: nat)
    requires CoreShowing(c, h, s, bound) && s.next < bound && c > 0
    ensures CoreShowing(c, h, Shows(s, c, h, |s.base|), bound)
  {
    var l := LevelsAt(h, s.next, |s.base|);
    LevelsAtIs(h, s.next, |s.base|);
    GiveMany(s.calls, l);
    ToldMany(s.calls, l);
    ShowingMore(s, c, h, |s.base|, bound);
    ShownMore(s, c, h);
    hide Took, LevelsAt, Showing, Shown, Coming, ToldAfter, RecordsOf, LevelsOf, Reached;
    if s.decoded.Some? {
      ReachedMore(s.calls, Gives(l), s.decoded.value);
    }
  }

  lemma ShowsFrom(c: nat, h: Held, s: Trail, bound: nat)
    requires Core(c, h, s) && s.low <= bound
    ensures CoreShowing(c, h, s, bound)
  {
    hide Taken, Ahead, Shown, Told;
  }

  lemma ShowsTo(c: nat, h: Held, s: Trail, bound: nat)
    requires CoreShowing(c, h, s, bound) && bound <= s.next && bound <= h.wm.value + 1
    requires Coming(h, s.pos, s.read[s.n..], bound)
    ensures Core(c, h, s.(low := bound))
  {
    hide Took, Coming, Grid, AllLevels, RecordsOf, LevelsOf, ToldAfter, Reached, Lined;
  }
}
