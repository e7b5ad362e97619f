/**
 * What a replay amounts to: once a group has caught up, its decoders were given exactly the
 * store's records up to there in one order, and what it was given keeps the merge's contract.
 */
module ReplayMeans {
  import opened Numbers
  import opened MergeOrder
  import M = MergeMachine
  import opened ReplayStore
  import opened ReplayOrder
  import opened Replay

  // ----- every record up to the target, once, in order

  /** The records of a channel up to a tick. */
  function UpTo(s: seq<Entry>, target: nat): (r: seq<Entry>)
    ensures forall e :: e in r ==> e in s && e.tick <= target
  {
    if s == [] || s[0].tick > target then [] else [s[0]] + UpTo(s[1..], target)
  }

  lemma {:induction false} UpToSplit(a: seq<Entry>, b: seq<Entry>, target: nat)
    requires (forall e :: e in a ==> e.tick <= target) && (b != [] ==> b[0].tick > target)
    ensures UpTo(a + b, target) == a
  {
    if a == [] {
      assert a + b == b;
    } else {
      assert (a + b)[1..] == a[1..] + b;
      UpToSplit(a[1..], b, target);
    }
  }

  /** What each channel held from a group's first record on, up to a tick. */
  function Stored(h: Held, base: seq<nat>, target: nat): (q: seq<seq<Entry>>)
    requires |base| == |h.recs| && forall i :: 0 <= i < |base| ==> base[i] <= |h.recs[i]|
    ensures |q| == |base|
  {
    seq(|base|, i requires 0 <= i < |base| => UpTo(h.recs[i][base[i]..], target))
  }

  /** On each channel, the records fed are the stored ones up to the target. */
  lemma FedOf(c: nat, h: Held, s: Trail, target: nat, i: nat)
    requires Sound(h) && Core(c, h, s) && CaughtUp(s, target) && i < |s.base|
    ensures |s.base| == |h.recs| && s.base[i] <= |h.recs[i]| && s.n <= |s.read| && Owned(Ids(|h.recs|), s.read[..s.n])
    ensures Of(Ids(|h.recs|), s.read[..s.n], i) == UpTo(h.recs[i][s.base[i]..], target)
  {
    var ids, a, b := Ids(|h.recs|), s.read[..s.n], s.read[s.n..];
    TookOf(h, s.base, s.pos, s.read, i);
    assert Coming(h, s.pos, b, target + 1) && FedBy(s.read, s.n, target) && i < |s.pos| == |h.recs|;
    hide Core, CaughtUp, Sound;
    assert s.read == a + b;
    assert Owned(ids, a) && Owned(ids, b);
    OfConcat(ids, a, b, i);
    var rest := h.recs[i][s.pos[i]..];
    Joined(h.recs[i], s.base[i], s.pos[i], |h.recs[i]|);
    assert h.recs[i][s.base[i]..] == Of(ids, a, i) + (Of(ids, b, i) + rest) by {
      hide *;
      Slices(h.recs[i], s.base[i], s.pos[i], Of(ids, a, i), Of(ids, b, i));
    }
    LaterFirst(h, s.pos, b, target, i);
    UpToSplit(Of(ids, a, i), Of(ids, b, i) + rest, target);
  }

  lemma Slices(r: seq<Entry>, base: nat, pos: nat, a: seq<Entry>, b: seq<Entry>)
    requires base <= pos <= |r| && a + b == r[base..pos]
    ensures r[base..] == a + (b + r[pos..])
  {
    assert r[base..] == r[base..pos] + r[pos..];
  }

  lemma LaterFirst(h: Held, pos: seq<nat>, b: seq<Entry>, target: nat, i: nat)
    requires |pos| == |h.recs| && i < |pos| && pos[i] <= |h.recs[i]| && Owned(Ids(|h.recs|), b) && Coming(h, pos, b, target + 1)
    ensures
      var tail := Of(Ids(|h.recs|), b, i) + h.recs[i][pos[i]..];
      tail != [] ==> tail[0].tick > target
  {
    var mine, rest := Of(Ids(|h.recs|), b, i), h.recs[i][pos[i]..];
    if mine != [] {
      assert mine[0] in b;
    } else if rest != [] {
      assert rest[0] == h.recs[i][pos[i]];
    }
  }

  lemma FedIn(c: nat, h: Held, s: Trail)
    requires Core(c, h, s)
    ensures s.n <= |s.read| && Owned(Ids(|h.recs|), s.read[..s.n]) && InOrder(s.read[..s.n]) && |s.base| == |h.recs|
    ensures forall i :: 0 <= i < |s.base| ==> s.base[i] <= |h.recs[i]|
  {
  }

  lemma StoredOk(h: Held, base: seq<nat>, target: nat)
    requires Sound(h) && |base| == |h.recs| && forall i :: 0 <= i < |base| ==> base[i] <= |h.recs[i]|
    ensures QueuesOk(Ids(|h.recs|), Stored(h, base, target))
  {
    forall d | 0 <= d < |base|
      ensures QueueOk(Ids(|h.recs|), UpTo(h.recs[d][base[d]..], target), d)
    {
      assert Rising(h.recs[d], d);
      UpToRising(h.recs[d][base[d]..], target);
    }
  }

  lemma {:induction false} UpToRising(s: seq<Entry>, target: nat)
    requires forall a, b :: 0 <= a < b < |s| ==> s[a].tick < s[b].tick
    ensures UpTo(s, target) <= s
  {
    if s != [] && s[0].tick <= target {
      UpToRising(s[1..], target);
    }
  }

  /**
   * Once a group has caught up, its decoders were given every record the store had past the
   * skipped tick, up to the target, exactly once, in the one order of the merge: whatever the
   * steps, their targets and their batches were.
   */
  lemma GivesAll(c: nat, h: Held, s: Trail, target: nat)
    requires Sound(h) && Core(c, h, s) && CaughtUp(s, target)
    ensures |s.base| == |h.recs| && forall i :: 0 <= i < |s.base| ==> s.base[i] <= |h.recs[i]|
    ensures RecordsOf(s.calls) == Unskipped(Merged(Stored(h, s.base, target)), s.skip)
  {
    FedIn(c, h, s);
    var q, ids, fed := Stored(h, s.base, target), Ids(|h.recs|), s.read[..s.n];
    assert RecordsOf(s.calls) == Unskipped(fed, s.skip);
    StoredOk(h, s.base, target);
    M.MergedIs(ids, q);
    forall d: nat
      ensures Of(ids, fed, d) == Of(ids, Merged(q), d)
    {
      if d < |s.base| {
        FedOf(c, h, s, target, d);
      } else {
        hide Core, Merged, Stored, CaughtUp;
        M.OfNone(ids, fed, d);
      }
    }
    hide *;
    Unique(ids, fed, Merged(q));
  }

  /** Two groups that began at the same records were given the same, however each was stepped. */
  lemma StepsDoNotMatter(c: nat, h: Held, k: Held, s: Trail, t: Trail, target: nat)
    requires Sound(h) && Sound(k) && Core(c, h, s) && Core(c, k, t) && CaughtUp(s, target) && CaughtUp(t, target)
    requires Grows(h, k) && s.base == t.base && s.skip == t.skip
    ensures RecordsOf(s.calls) == RecordsOf(t.calls)
  {
    CoreLater(c, h, k, s);
    hide Core, Unskipped, Merged;
    GivesAll(c, k, s, target);
    GivesAll(c, k, t, target);
  }

  // ----- from a fresh group on

  /** A group's states after some steps, from its first, and the store as each step found it. */
  ghost predicate Steps(c: nat, hs: seq<Held>, ss: seq<Trail>) {
    && |hs| == |ss| > 0 && Begun(hs[0], c, ss[0])
    && (forall k :: 0 <= k < |hs| ==> Sound(hs[k]) && Core(c, hs[k], ss[k]))
    && forall k :: 0 < k < |hs| ==> Onward(ss[k - 1], ss[k])
  }

  lemma {:induction false} StepsBegan(c: nat, hs: seq<Held>, ss: seq<Trail>, k: nat)
    requires Steps(c, hs, ss) && k < |ss|
    ensures ss[k].base == hs[0].first && ss[k].skip == hs[0].oldest && ss[k].start == ss[0].start
  {
    hide Core, Sound;
    if k > 0 {
      StepsBegan(c, hs, ss, k - 1);
      assert Onward(ss[k - 1], ss[k]);
    }
  }

  /** A record a group should have been given: stored from where it began, not past the target. */
  predicate Due(h: Held, first: seq<nat>, oldest: nat, target: nat, e: Entry) {
    && e.channel < |h.recs| == |first| && first[e.channel] <= |h.recs[e.channel]| && e in h.recs[e.channel][first[e.channel]..]
    && e.tick <= target && (oldest == 0 || e.tick > oldest)
  }

  /**
   * Over any steps of a fresh group: once it has caught up with a target its decoders were given
   * exactly the records stored from the store's oldest at its first step on, up to the target,
   * less those at or before the oldest tick then, each once and in the order of the merge; none
   * is left out when that tick is 0.
   */
  lemma GivesFromStart(c: nat, hs: seq<Held>, ss: seq<Trail>, target: nat)
    requires Steps(c, hs, ss) && CaughtUp(ss[|ss| - 1], target)
    ensures
      var h, given := hs[|hs| - 1], RecordsOf(ss[|ss| - 1].calls);
      && (forall e :: e in given <==> Due(h, hs[0].first, hs[0].oldest, target, e))
      && (forall i, j :: 0 <= i < j < |given| ==> Before(given[i], given[j]))
  {
    var h, s, first, oldest := hs[|hs| - 1], ss[|ss| - 1], hs[0].first, hs[0].oldest;
    StepsBegan(c, hs, ss, |ss| - 1);
    assert Sound(h) && Core(c, h, s);
    hide CaughtUp, Sound, Steps;
    FedAscends(c, h, s);
    var fed := s.read[..s.n];
    assert RecordsOf(s.calls) == Unskipped(fed, oldest);
    hide Core, Unskipped, RecordsOf;
    UnskippedAscends(fed, oldest);
    forall e
      ensures e in RecordsOf(s.calls) <==> Due(h, first, oldest, target, e)
    {
      UnskippedHas(fed, oldest, e);
      FedHas(c, h, s, target, e);
    }
  }

  lemma FedAscends(c: nat, h: Held, s: Trail)
    requires Core(c, h, s)
    ensures s.n <= |s.read| && Ascending(s.read[..s.n])
  {
  }

  /** What was fed is what is stored up to the target. */
  lemma FedHas(c: nat, h: Held, s: Trail, target: nat, e: Entry)
    requires Sound(h) && Core(c, h, s) && CaughtUp(s, target)
    ensures s.n <= |s.read| && (e in s.read[..s.n] <==> Due(h, s.base, 0, target, e))
  {
    FedIn(c, h, s);
    var ids, fed, i := Ids(|h.recs|), s.read[..s.n], e.channel;
    if i < |h.recs| {
      FedOf(c, h, s, target, i);
      if e in fed {
        OfHolds(ids, fed, e);
      }
      assert Rising(h.recs[i], i);
      hide Core, CaughtUp, Sound;
      assert e in Of(ids, fed, i) ==> e in fed;
      UpToHas(h.recs[i][s.base[i]..], target, e);
    }
  }

  lemma {:induction false} UnskippedHas(s: seq<Entry>, skip: nat, e: Entry)
    ensures e in Unskipped(s, skip) <==> e in s && (skip == 0 || e.tick > skip)
  {
    if s != [] {
      var f, x := s[..|s| - 1], s[|s| - 1];
      UnskippedHas(f, skip, e);
      assert s == f + [x];
      UnskippedOne(f, x, skip);
    }
  }

  lemma {:induction false} UnskippedAscends(s: seq<Entry>, skip: nat)
    requires forall i, j :: 0 <= i < j < |s| ==> Before(s[i], s[j])
    ensures var u := Unskipped(s, skip); forall i, j :: 0 <= i < j < |u| ==> Before(u[i], u[j])
  {
    if s != [] {
      var f, x := s[..|s| - 1], s[|s| - 1];
      UnskippedAscends(f, skip);
      assert s == f + [x];
      UnskippedOne(f, x, skip);
      var u := Unskipped(f, skip);
      hide Unskipped;
      forall i | 0 <= i < |u|
        ensures Before(u[i], x)
      {
        assert u[i] in f;
        var k :| 0 <= k < |f| && f[k] == u[i];
      }
    }
  }

  lemma {:induction false} UpToHas(s: seq<Entry>, target: nat, e: Entry)
    requires forall a, b :: 0 <= a < b < |s| ==> s[a].tick < s[b].tick
    ensures e in UpTo(s, target) <==> e in s && e.tick <= target
  {
    if s != [] {
      if s[0].tick <= target {
        UpToHas(s[1..], target, e);
      } else if e in s {
        var i :| 0 <= i < |s| && s[i] == e;
      }
    }
  }

  /** A step goes up to the watermark once the capture has ended, and stays hold behind it before. */
  lemma TargetIs(h: Held, hold: nat, t: nat)
    ensures Target(h, false, hold) == h.wm
    ensures Target(h, true, hold) == Some(t) <==> h.wm == Some(t + hold)
  {
  }

  /** Every grid point from the first up to the target has been given the levels of. */
  lemma {:induction false} EveryGridPoint(looks: seq<Look>, c: nat, start: nat, next: nat, k: nat)
    requires Grid(looks, c, start, next) && start + k * c < next && c > 0
    ensures k < |looks| && looks[k].tick == start + k * c
  {
    MulMonotone(0, k, c);
    if looks != [] {
      GridTicks(looks, c, start, next, |looks| - 1);
      assert |looks| * c == (|looks| - 1) * c + c;
      if k >= |looks| {
        MulMonotone(|looks|, k, c);
      } else {
        GridTicks(looks, c, start, next, k);
      }
    }
  }

  lemma {:induction false} GridTicks(looks: seq<Look>, c: nat, start: nat, next: nat, k: nat)
    requires Grid(looks, c, start, next) && k < |looks|
    ensures looks[k].tick == start + k * c
  {
    if k > 0 {
      GridTicks(looks, c, start, next, k - 1);
      assert looks[k - 1 + 1].tick == looks[k - 1].tick + c;
      assert k * c == (k - 1) * c + c;
    }
  }

  lemma {:induction false} LevelsIn(looks: seq<Look>, n: nat, k: nat, e: Entry)
    requires k < |looks| && e in LevelsAt(looks[k].held, looks[k].tick, n)
    ensures e in AllLevels(looks, n)
    decreases |looks|
  {
    if k < |looks| - 1 {
      LevelsIn(looks[..|looks| - 1], n, k, e);
    }
  }

  lemma {:induction false} KnownIn(h: Held, tick: nat, n: nat, i: nat)
    requires i < n && h.level(i, tick).Some?
    ensures Entry(tick, i, h.level(i, tick).value, true) in LevelsAt(h, tick, n)
  {
    if i < n - 1 {
      KnownIn(h, tick, n - 1, i);
    }
  }

  /**
   * At every grid point up to the target, the level of every channel the store knew was given,
   * as the store had it when that grid point was passed.
   */
  lemma LevelsGiven(c: nat, h: Held, s: Trail, target: nat, k: nat, i: nat)
    requires Core(c, h, s) && CaughtUp(s, target) && c > 0 && s.start + k * c <= target && i < |s.base|
    ensures
      var t := s.start + k * c;
      && k < |s.looks| && s.looks[k].tick == t
      && var v := s.looks[k].held.level(i, t);
      v.Some? ==> Entry(t, i, v.value, true) in LevelsOf(s.calls)
  {
    hide Taken, Ahead, Told, LevelsAt, AllLevels, LevelsOf;
    EveryGridPoint(s.looks, c, s.start, s.next, k);
    var t, l := s.start + k * c, s.looks[k];
    if l.held.level(i, t).Some? {
      KnownIn(l.held, t, |s.base|, i);
      LevelsIn(s.looks, |s.base|, k, Entry(t, i, l.held.level(i, t).value, true));
    }
  }

  // ----- into the merge

  /** The calls that go through the codec's merge; a loss goes past it. */
  function Ins(owner: Owners, calls: seq<Call>): (r: seq<M.In>)
    requires forall x :: x in calls && x.Give? ==> x.e.channel < |owner|
    decreases |calls|
  {
    if calls == [] then []
    else
      var rest := Ins(owner, calls[1..]);
      match calls[0]
      case Give(e) => [M.Arrive(owner[e.channel], e)] + rest
      case Done(t) => [M.MarkAll(t)] + rest
      case Tell(_) => rest
  }

  function EntriesOf(calls: seq<Call>): (r: seq<Entry>)
    ensures forall e :: e in r ==> Give(e) in calls
    decreases |calls|
  {
    if calls == [] then [] else (if calls[0].Give? then [calls[0].e] else []) + EntriesOf(calls[1..])
  }

  /** The data channels that carry channels are those the channels are on. */
  predicate Carried(y: M.Layout) {
    forall i :: 0 <= i < |y.owner| ==> y.owner[i] < |y.empty| && !y.empty[y.owner[i]]
  }

  predicate Named(y: M.Layout, calls: seq<Call>) {
    forall x :: x in calls ==> (x.Give? ==> x.e.channel < |y.owner|) && (x.Done? ==> x.tick <= M.NO_LIMIT)
  }

  /** What has come leaves room for what is to come. */
  predicate Clear(s: M.State, a: seq<seq<Entry>>, calls: seq<Call>) {
    && |a| == |s.q| == |s.wm|
    && (forall d, x :: 0 <= d < |a| && a[d] != [] && x in calls && x.Give? ==> Before(a[d][|a[d]| - 1], x.e))
    && forall d, x :: 0 <= d < |s.wm| && s.wm[d].Some? && x in calls && x.Give? ==> x.e.tick > s.wm[d].value
  }

  lemma ClearGive(y: M.Layout, s: M.State, a: seq<seq<Entry>>, calls: seq<Call>, d: nat)
    requires M.Fits(y, s) && Clear(s, a, calls) && Lined(calls) && calls != [] && calls[0].Give? && d < |a|
    ensures Clear(M.Step(y, s, M.Arrive(d, calls[0].e)).0, M.Arrived(a, M.Arrive(d, calls[0].e)), calls[1..])
  {
    var e := calls[0].e;
    forall x | x in calls[1..] && x.Give?
      ensures x in calls && Before(e, x.e)
    {
      var j :| 1 <= j < |calls| && calls[j] == x;
      assert Follows(calls[0], calls[j]);
    }
  }

  lemma ClearDone(y: M.Layout, s: M.State, a: seq<seq<Entry>>, calls: seq<Call>)
    requires M.Fits(y, s) && Clear(s, a, calls) && Lined(calls) && calls != [] && calls[0].Done?
    ensures Clear(M.Step(y, s, M.MarkAll(calls[0].tick)).0, a, calls[1..])
  {
    var t := calls[0].tick;
    hide Drain;
    forall x | x in calls[1..] && x.Give?
      ensures x in calls && t < x.e.tick
    {
      var j :| 1 <= j < |calls| && calls[j] == x;
      assert Follows(calls[0], calls[j]);
    }
    assert M.Step(y, s, M.MarkAll(t)).0.wm == M.RaiseAll(s.wm, t);
  }

  lemma {:induction false} InsAllowed(y: M.Layout, s: M.State, a: seq<seq<Entry>>, calls: seq<Call>)
    requires M.Fits(y, s) && Carried(y) && Named(y, calls) && Clear(s, a, calls) && Lined(calls)
    ensures M.AllAllowed(y, s, a, Ins(y.owner, calls)) && M.NoFlush(Ins(y.owner, calls))
    decreases |calls|
  {
    if calls != [] {
      var rest := calls[1..];
      assert calls[0] in calls;
      match calls[0]
      case Give(e) =>
        var i := M.Arrive(y.owner[e.channel], e);
        ClearGive(y, s, a, calls, y.owner[e.channel]);
        InsAllowed(y, M.Step(y, s, i).0, M.Arrived(a, i), rest);
        assert M.Allowed(y, s, a, i);
        hide Clear, M.Step, M.Allowed;
        assert ([i] + Ins(y.owner, rest))[1..] == Ins(y.owner, rest);
      case Done(t) =>
        ClearDone(y, s, a, calls);
        InsAllowed(y, M.Step(y, s, M.MarkAll(t)).0, a, rest);
        assert M.Allowed(y, s, a, M.MarkAll(t));
        hide Clear, M.Step, M.Allowed;
        assert ([M.MarkAll(t)] + Ins(y.owner, rest))[1..] == Ins(y.owner, rest);
      case Tell(_) =>
        assert Clear(s, a, rest);
        InsAllowed(y, s, a, rest);
    }
  }

  /** What arrives on each data channel is its part of what was given. */
  lemma {:induction false} ArrivalsAre(y: M.Layout, a: seq<seq<Entry>>, calls: seq<Call>, d: nat)
    requires |a| == |y.empty| && Carried(y) && Named(y, calls) && d < |a|
    ensures Owned(y.owner, EntriesOf(calls))
    ensures M.Arrivals(a, Ins(y.owner, calls))[d] == a[d] + Of(y.owner, EntriesOf(calls), d)
    decreases |calls|
  {
    if calls == [] {
      assert a[d] + [] == a[d];
    } else {
      var rest := calls[1..];
      assert calls[0] in calls;
      InsFirst(y.owner, calls);
      match calls[0]
      case Give(e) =>
        var i := M.Arrive(y.owner[e.channel], e);
        ArrivalsAre(y, M.Arrived(a, i), rest, d);
        hide Of, Ins, EntriesOf;
        ArrivedOne(y.owner, a, e, EntriesOf(rest), d);
        ArrivalsOne(a, i, Ins(y.owner, rest));
      case Done(t) =>
        ArrivalsAre(y, a, rest, d);
        hide Of, Ins, EntriesOf;
        ArrivalsOne(a, M.MarkAll(t), Ins(y.owner, rest));
      case Tell(_) =>
        ArrivalsAre(y, a, rest, d);
    }
  }

  lemma InsFirst(owner: Owners, calls: seq<Call>)
    requires calls != [] && forall x :: x in calls && x.Give? ==> x.e.channel < |owner|
    ensures calls[0] in calls && forall x :: x in calls[1..] && x.Give? ==> x.e.channel < |owner|
    ensures calls[0].Give? ==> Ins(owner, calls) == [M.Arrive(owner[calls[0].e.channel], calls[0].e)] + Ins(owner, calls[1..])
    ensures calls[0].Give? ==> EntriesOf(calls) == [calls[0].e] + EntriesOf(calls[1..])
    ensures calls[0].Done? ==> Ins(owner, calls) == [M.MarkAll(calls[0].tick)] + Ins(owner, calls[1..])
    ensures calls[0].Tell? ==> Ins(owner, calls) == Ins(owner, calls[1..])
    ensures !calls[0].Give? ==> EntriesOf(calls) == EntriesOf(calls[1..])
  {
  }

  lemma ArrivedOne(owner: Owners, a: seq<seq<Entry>>, e: Entry, rest: seq<Entry>, d: nat)
    requires Owned(owner, rest) && e.channel < |owner| && d < |a|
    ensures Owned(owner, [e] + rest)
    ensures M.Arrived(a, M.Arrive(owner[e.channel], e))[d] + Of(owner, rest, d) == a[d] + Of(owner, [e] + rest, d)
  {
    OneMore(owner, e, rest, d);
    hide Of;
    M.Regroup2(a[d], [e], Of(owner, rest, d));
  }

  lemma ArrivalsOne(a: seq<seq<Entry>>, i: M.In, rest: seq<M.In>)
    ensures M.Arrivals(a, [i] + rest) == M.Arrivals(M.Arrived(a, i), rest)
  {
    assert ([i] + rest)[1..] == rest;
  }

  lemma {:induction false} EntriesInOrder(calls: seq<Call>)
    requires Lined(calls)
    ensures InOrder(EntriesOf(calls))
    decreases |calls|
  {
    if calls != [] {
      var rest := EntriesOf(calls[1..]);
      EntriesInOrder(calls[1..]);
      assert EntriesOf(calls) == if calls[0].Give? then [calls[0].e] + rest else rest;
      forall e | calls[0].Give? && e in EntriesOf(calls[1..])
        ensures Before(calls[0].e, e)
      {
        var j :| 1 <= j < |calls| && calls[j] == Give(e);
        assert Follows(calls[0], calls[j]);
      }
      if calls[0].Give? {
        Prepended(calls[0].e, rest);
      }
    }
  }

  lemma Prepended(e: Entry, s: seq<Entry>)
    requires InOrder(s) && forall x :: x in s ==> Before(e, x)
    ensures InOrder([e] + s)
  {
    var all := [e] + s;
    forall i, j | 0 <= i < j < |all|
      ensures !Before(all[j], all[i])
    {
      assert all[j] == s[j - 1] && s[j - 1] in s;
    }
  }

  /**
   * The replay keeps the merge's contract, wherever its steps fall, and the merge hands over
   * just what was given, in the order it was given.
   */
  lemma ReplayFeedsMerge(y: M.Layout, calls: seq<Call>)
    requires Carried(y) && Named(y, calls) && Lined(calls)
    ensures M.Contract(y, Ins(y.owner, calls))
    ensures M.Given(M.Output(y, Ins(y.owner, calls))) == EntriesOf(calls) && M.Lined(M.Output(y, Ins(y.owner, calls)))
  {
    var n := |y.empty|;
    var none := seq(n, _ => []);
    var ins, all := Ins(y.owner, calls), EntriesOf(calls);
    InsAllowed(y, M.Start(n), none, calls);
    M.Confluence(y, ins);
    var a := M.AllOf(n, ins);
    assert Owned(y.owner, all);
    EntriesInOrder(calls);
    forall d: nat
      ensures Of(y.owner, all, d) == if d < n then a[d] else []
    {
      if d < n {
        ArrivalsAre(y, none, calls, d);
        assert none[d] + Of(y.owner, all, d) == Of(y.owner, all, d);
      } else {
        M.OfNone(y.owner, all, d);
      }
    }
    hide Of, InOrder, M.AllOf, Ins, EntriesOf, M.Output, M.Given, M.Lined, M.Contract;
    ArrivedOk(y, a, all);
    M.MergedIs(y.owner, a);
    Unique(y.owner, all, Merged(a));
  }

  /** Parts of a sorted sequence are sorted. */
  lemma ArrivedOk(y: M.Layout, a: seq<seq<Entry>>, all: seq<Entry>)
    requires InOrder(all) && Owned(y.owner, all) && forall d: nat :: d < |a| ==> Of(y.owner, all, d) == a[d]
    ensures QueuesOk(y.owner, a)
  {
    forall d | 0 <= d < |a|
      ensures QueueOk(y.owner, a[d], d)
    {
      assert Of(y.owner, all, d) == a[d];
      OfInOrder(y.owner, all, d);
    }
  }

  lemma {:induction false} OfInOrder(owner: Owners, s: seq<Entry>, d: nat)
    requires InOrder(s) && Owned(owner, s)
    ensures InOrder(Of(owner, s, d))
  {
    if s != [] {
      OfInOrder(owner, s[1..], d);
      forall e | e in Of(owner, s[1..], d)
        ensures !Before(e, s[0])
      {
        var k :| 1 <= k < |s| && s[k] == e;
      }
    }
  }

  // ----- a group's calls are such

  lemma {:induction false} LevelsIn2(calls: seq<Call>, e: Entry)
    requires Give(e) in calls && e.isLevel
    ensures e in LevelsOf(calls)
    decreases |calls|
  {
    if calls[|calls| - 1] != Give(e) {
      LevelsIn2(calls[..|calls| - 1], e);
    }
  }

  lemma {:induction false} LevelChannels(looks: seq<Look>, n: nat)
    ensures forall e :: e in AllLevels(looks, n) ==> e.channel < n
    decreases |looks|
  {
    if looks != [] {
      var l := looks[|looks| - 1];
      LevelChannels(looks[..|looks| - 1], n);
      LevelsAtIs(l.held, l.tick, n);
    }
  }

  lemma CallsNamed(c: nat, h: Held, s: Trail, y: M.Layout)
    requires Sound(h) && Core(c, h, s) && |y.owner| == |h.recs|
    ensures Named(y, s.calls)
  {
    LevelChannels(s.looks, |s.base|);
    hide AllLevels, LevelsOf, RecordsOf;
    forall x | x in s.calls
      ensures (x.Give? ==> x.e.channel < |y.owner|) && (x.Done? ==> x.tick <= M.NO_LIMIT)
    {
      assert Under(x, s.low);
      if x.Give? && x.e.isLevel {
        LevelsIn2(s.calls, x.e);
      } else if x.Give? {
        RecordsIn(s.calls, x.e);
        assert x.e in s.read[..s.n];
        var k :| 0 <= k < s.n && s.read[k] == x.e;
        ReadIs(h, s, k);
      }
    }
  }

  /** So a group's codec hands its decoders the store's records and levels in that one order. */
  lemma GroupFeedsMerge(c: nat, h: Held, s: Trail, y: M.Layout)
    requires Sound(h) && Core(c, h, s) && Carried(y) && |y.owner| == |h.recs|
    ensures forall x :: x in s.calls && x.Give? ==> x.e.channel < |y.owner|
    ensures M.Contract(y, Ins(y.owner, s.calls)) && M.Given(M.Output(y, Ins(y.owner, s.calls))) == EntriesOf(s.calls)
  {
    CallsNamed(c, h, s, y);
    assert Lined(s.calls);
    hide Core;
    ReplayFeedsMerge(y, s.calls);
  }
}
