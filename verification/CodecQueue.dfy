/**
 * The release queue: items emitted by several decoders, each at or past the horizon its
 * decoder declared, come out sorted by their start, each exactly once.
 */
module CodecQueue {
  import opened Numbers

  const NEVER: nat := 0xFFFF_FFFF_FFFF_FFFF

  /** An item as the queue sees it: who emitted it, where it lies, its number. */
  datatype Held = Held(dec: nat, start: nat, end: nat, id: nat)

  /** floor is the highest horizon a release has gone by; emitted and released are the log. */
  datatype Queue = Queue(pending: seq<Held>, horizons: seq<nat>, tick: nat, finished: bool, nextId: nat,
                         emitted: seq<Held>, released: seq<Held>, floor: nat)

  function Start(decs: nat): Queue {
    Queue([], seq(decs, _ => 0), 0, false, 0, [], [], 0)
  }

  /** Stable insertion: x goes behind every item whose start is not later than its own. */
  function Insert(s: seq<Held>, x: Held): seq<Held> {
    if s == [] || s[|s| - 1].start <= x.start then s + [x] else Insert(s[..|s| - 1], x) + [s[|s| - 1]]
  }

  /** All of them sorted by start, in order of emission among equals. */
  function Sorted(s: seq<Held>): seq<Held> {
    if s == [] then [] else Insert(Sorted(s[..|s| - 1]), s[|s| - 1])
  }

  function Lowest(h: seq<nat>, n: nat): nat
    requires n <= |h|
  {
    if n == 0 then NEVER else Min(Lowest(h, n - 1), h[n - 1])
  }

  // ----- steps

  /** What happens: an item with kids children, a tick, a horizon, a request for the next item, the end. */
  datatype Op = Emit(dec: nat, start: nat, end: nat, kids: nat) | Tick(tick: nat) | Declare(d: nat, h: nat) | Next | End

  /** The item is numbered before its children. */
  function AfterEmit(q: Queue, dec: nat, start: nat, end: nat, kids: nat): Queue {
    var x := Held(dec, start, end, q.nextId + 1);
    q.(pending := Insert(q.pending, x), nextId := q.nextId + 1 + kids, emitted := q.emitted + [x])
  }

  /** Whether the first item can be released: no earlier one can come, and the hold is over. */
  predicate Due(q: Queue, hold: nat) {
    && q.pending != []
    && (q.finished
        || (q.pending[0].start < Lowest(q.horizons, |q.horizons|) && q.pending[0].end + hold <= q.tick))
  }

  function AfterNext(q: Queue, hold: nat): Queue {
    var floor := if q.finished || q.pending == [] then q.floor else Max(q.floor, Lowest(q.horizons, |q.horizons|));
    if Due(q, hold)
    then q.(pending := q.pending[1..], released := q.released + [q.pending[0]], floor := floor)
    else q.(floor := floor)
  }

  function Step(q: Queue, hold: nat, op: Op): Queue {
    match op
    case Emit(dec, start, end, kids) => AfterEmit(q, dec, start, end, kids)
    case Tick(tick) => q.(tick := tick)
    case Declare(d, h) => if d < |q.horizons| then q.(horizons := q.horizons[d := h]) else q
    case Next => AfterNext(q, hold)
    case End => q.(finished := true)
  }

  function Run(q: Queue, hold: nat, ops: seq<Op>): Queue
    decreases |ops|
  {
    if ops == [] then q else Run(Step(q, hold, ops[0]), hold, ops[1..])
  }

  /** No item starts before a horizon that was gone by, and none comes once all can be released. */
  predicate Allowed(q: Queue, op: Op) {
    op.Emit? ==> !q.finished && op.start >= q.floor
  }

  predicate AllAllowed(q: Queue, hold: nat, ops: seq<Op>)
    decreases |ops|
  {
    ops == [] || (Allowed(q, ops[0]) && AllAllowed(Step(q, hold, ops[0]), hold, ops[1..]))
  }

  // ----- sorted lists

  predicate ByStart(s: seq<Held>) {
    forall i, j :: 0 <= i < j < |s| ==> s[i].start <= s[j].start
  }

  lemma {:induction false} InsertByStart(s: seq<Held>, x: Held)
    requires ByStart(s)
    ensures ByStart(Insert(s, x)) && forall y :: y in Insert(s, x) <==> y == x || y in s
    decreases |s|
  {
    if !(s == [] || s[|s| - 1].start <= x.start) {
      var front, l := s[..|s| - 1], s[|s| - 1];
      InsertByStart(front, x);
      assert s == front + [l];
      forall y | y in Insert(front, x)
        ensures y.start <= l.start
      {
      }
    }
  }

  /** What starts no later than x stays in front of it. */
  lemma {:induction false} InsertBehind(a: seq<Held>, b: seq<Held>, x: Held)
    requires a != [] ==> a[|a| - 1].start <= x.start
    ensures Insert(a + b, x) == a + Insert(b, x)
    decreases |b|
  {
    if b == [] {
      assert a + b == a;
    } else {
      var front, l := b[..|b| - 1], b[|b| - 1];
      assert (a + b)[|a + b| - 1] == l && (a + b)[..|a + b| - 1] == a + front;
      InsertBehind(a, front, x);
      if l.start <= x.start {
        assert a + b + [x] == a + (b + [x]);
      } else {
        assert a + Insert(front, x) + [l] == a + (Insert(front, x) + [l]);
      }
    }
  }

  lemma {:induction false} InsertPermutes(s: seq<Held>, x: Held)
    ensures multiset(Insert(s, x)) == multiset(s) + multiset{x}
    decreases |s|
  {
    if !(s == [] || s[|s| - 1].start <= x.start) {
      InsertPermutes(s[..|s| - 1], x);
      assert s == s[..|s| - 1] + [s[|s| - 1]];
    }
  }

  lemma {:induction false} SortedIs(s: seq<Held>)
    ensures ByStart(Sorted(s)) && multiset(Sorted(s)) == multiset(s)
    decreases |s|
  {
    if s != [] {
      var front, l := s[..|s| - 1], s[|s| - 1];
      SortedIs(front);
      InsertByStart(Sorted(front), l);
      InsertPermutes(Sorted(front), l);
      assert s == front + [l];
    }
  }

  // ----- runs

  /** What was released and what is held are all that was emitted, sorted. */
  predicate Inv(q: Queue) {
    && q.released + q.pending == Sorted(q.emitted)
    && (!q.finished && q.released != [] ==> q.released[|q.released| - 1].start < q.floor)
  }

  lemma {:induction false} StepInv(q: Queue, hold: nat, op: Op)
    requires Inv(q) && Allowed(q, op)
    ensures Inv(Step(q, hold, op))
  {
    match op
    case Emit(dec, start, end, kids) =>
      var x := Held(dec, start, end, q.nextId + 1);
      assert (q.emitted + [x])[..|q.emitted|] == q.emitted;
      InsertBehind(q.released, q.pending, x);
      hide Insert;
    case Next =>
      hide Sorted, Lowest;
      if Due(q, hold) {
        assert q.released + [q.pending[0]] + q.pending[1..] == q.released + q.pending;
      }
    case _ => hide Sorted;
  }

  lemma {:induction false} RunInv(q: Queue, hold: nat, ops: seq<Op>)
    requires Inv(q) && AllAllowed(q, hold, ops)
    ensures Inv(Run(q, hold, ops))
    decreases |ops|
  {
    hide Inv, Step, Allowed;
    if ops != [] {
      StepInv(q, hold, ops[0]);
      RunInv(Step(q, hold, ops[0]), hold, ops[1..]);
    }
  }

  /**
   * Release order: in every run where no emission is behind the floor, the releases are sorted
   * by start, and released and pending items together are the emitted ones, each as often as it
   * was emitted. Once nothing is pending, the releases are the stable sort of the emissions.
   */
  lemma {:induction false} ReleaseOrder(decs: nat, hold: nat, ops: seq<Op>)
    requires AllAllowed(Start(decs), hold, ops)
    ensures
      var q := Run(Start(decs), hold, ops);
      && ByStart(q.released) && multiset(q.released) + multiset(q.pending) == multiset(q.emitted)
      && (q.pending == [] ==> q.released == Sorted(q.emitted))
  {
    var q := Run(Start(decs), hold, ops);
    RunInv(Start(decs), hold, ops);
    SortedIs(q.emitted);
    hide Run, Sorted, AllAllowed;
    assert q.released == Sorted(q.emitted)[..|q.released|];
    assert q.pending == [] ==> q.released + q.pending == q.released;
  }

  lemma {:induction false} LowestIs(h: seq<nat>, n: nat)
    requires n <= |h|
    ensures forall d :: 0 <= d < n ==> Lowest(h, n) <= h[d]
  {
    if n > 0 {
      LowestIs(h, n - 1);
    }
  }

  // ----- when items go

  /** The tick a run of operations leaves, and the horizon it leaves decoder d. */
  function LastTick(ops: seq<Op>, from: nat): nat {
    if ops == [] then from else LastTick(ops[1..], if ops[0].Tick? then ops[0].tick else from)
  }

  function LastHorizon(ops: seq<Op>, d: nat, from: nat): nat {
    if ops == [] then from
    else LastHorizon(ops[1..], d, if ops[0].Declare? && ops[0].d == d then ops[0].h else from)
  }

  lemma {:induction false} RunLeaves(q: Queue, hold: nat, ops: seq<Op>)
    ensures
      var r := Run(q, hold, ops);
      && r.tick == LastTick(ops, q.tick) && r.finished == (q.finished || End in ops) && |r.horizons| == |q.horizons|
      && forall d :: 0 <= d < |q.horizons| ==> r.horizons[d] == LastHorizon(ops, d, q.horizons[d])
    decreases |ops|
  {
    hide Insert, Lowest;
    if ops != [] {
      RunLeaves(Step(q, hold, ops[0]), hold, ops[1..]);
    }
  }

  lemma {:induction false} RunSplit(q: Queue, hold: nat, a: seq<Op>, b: seq<Op>)
    ensures Run(q, hold, a + b) == Run(Run(q, hold, a), hold, b)
    ensures AllAllowed(q, hold, a + b) <==> AllAllowed(q, hold, a) && AllAllowed(Run(q, hold, a), hold, b)
    decreases |a|
  {
    hide Step, Allowed;
    if a == [] {
      assert a + b == b;
    } else {
      assert (a + b)[0] == a[0] && (a + b)[1..] == a[1..] + b;
      RunSplit(Step(q, hold, a[0]), hold, a[1..], b);
    }
  }

  /** What comes later: nothing is taken back, and nothing starts before the floor. */
  predicate Onward(q: Queue, r: Queue) {
    && q.released <= r.released && q.emitted <= r.emitted && q.floor <= r.floor
    && (forall j :: |q.emitted| <= j < |r.emitted| ==> r.emitted[j].start >= q.floor)
    && (q.finished ==> r.finished && r.emitted == q.emitted)
  }

  lemma {:induction false} RunOnward(q: Queue, hold: nat, ops: seq<Op>)
    requires AllAllowed(q, hold, ops)
    ensures Onward(q, Run(q, hold, ops))
    decreases |ops|
  {
    hide Insert, Lowest;
    if ops != [] {
      RunOnward(Step(q, hold, ops[0]), hold, ops[1..]);
    }
  }

  /** What a run releases first is not after anything else it had, or gets later. */
  lemma FirstOfRest(q: Queue, r: Queue, f: Queue, x: Held)
    requires Inv(f) && Onward(r, f) && r.released == q.released + [x] && r.emitted == q.emitted
    requires r.finished || x.start < r.floor
    ensures forall j :: |q.released| <= j < |f.released| ==> f.released[j].start >= x.start
    ensures forall j :: |q.emitted| <= j < |f.emitted| ==> f.emitted[j].start >= x.start
  {
    SortedIs(f.emitted);
    hide Sorted;
    var all, n := Sorted(f.emitted), |q.released|;
    assert all == f.released + f.pending && f.released[n] == x;
    forall j | n <= j < |f.released|
      ensures f.released[j].start >= x.start
    {
      assert all[n] == x && all[j] == f.released[j];
    }
  }

  /** What an operation released, it released in time and before all that comes later. */
  predicate InTime(q: Queue, hold: nat, f: Queue) {
    var n := |q.released|;
    && |f.released| > n && f.released[..n] == q.released && f.released[n] in q.emitted
    && var x := f.released[n];
    && (q.finished
        || (x.end + hold <= q.tick && forall d :: 0 <= d < |q.horizons| ==> x.start < q.horizons[d]))
    && (forall j :: n <= j < |f.released| ==> f.released[j].start >= x.start)
    && forall j :: |q.emitted| <= j < |f.emitted| ==> f.emitted[j].start >= x.start
  }

  lemma HeldFrom(q: Queue, hold: nat, op: Op, r: Queue, f: Queue)
    requires Inv(q) && Inv(f) && r == Step(q, hold, op) && r.released != q.released && Onward(r, f)
    ensures op.Next? && InTime(q, hold, f)
  {
    ReleasedNow(q, hold, op);
    InEmitted(q);
    FirstOfRest(q, r, f, q.pending[0]);
    hide Step, Inv;
    assert f.released[|q.released|] == q.pending[0];
  }

  /**
   * Held long enough: in every run that keeps the contract, an item released before the end of
   * the input goes when the tick last advanced to is past its end by the hold, and when every
   * decoder last declared a horizon after its start. Nothing released or emitted after it, to
   * the end of the run, starts before it.
   */
  lemma {:induction false} HeldLongEnough(decs: nat, hold: nat, ops: seq<Op>, k: nat)
    requires AllAllowed(Start(decs), hold, ops) && k < |ops|
    requires Run(Start(decs), hold, ops[..k + 1]).released != Run(Start(decs), hold, ops[..k]).released
    ensures
      var q, f := Run(Start(decs), hold, ops[..k]), Run(Start(decs), hold, ops);
      && InTime(q, hold, f) && q.finished == (End in ops[..k]) && q.tick == LastTick(ops[..k], 0) && |q.horizons| == decs
      && forall d :: 0 <= d < decs ==> q.horizons[d] == LastHorizon(ops[..k], d, 0)
  {
    var a, b := ops[..k], ops[k + 1..];
    SplitAt(ops, k);
    RunSplit(Start(decs), hold, ops[..k + 1], b);
    RunSplit(Start(decs), hold, a, [ops[k]]);
    var q, r := Run(Start(decs), hold, a), Run(Start(decs), hold, ops[..k + 1]);
    OneStep(q, hold, ops[k]);
    StartOk(decs);
    RunLeaves(Start(decs), hold, a);
    hide *;
    RunInv(Start(decs), hold, a);
    RunInv(Start(decs), hold, ops);
    RunOnward(r, hold, b);
    HeldFrom(q, hold, ops[k], r, Run(Start(decs), hold, ops));
  }

  lemma SplitAt(ops: seq<Op>, k: nat)
    requires k < |ops|
    ensures ops[..k + 1] == ops[..k] + [ops[k]] && ops == ops[..k + 1] + ops[k + 1..]
  {
  }

  lemma OneStep(q: Queue, hold: nat, op: Op)
    ensures Run(q, hold, [op]) == Step(q, hold, op)
  {
    hide Step;
    assert [op][1..] == [];
  }

  lemma StartOk(decs: nat)
    ensures Inv(Start(decs))
  {
  }

  lemma InEmitted(q: Queue)
    requires Inv(q)
    ensures forall x :: x in q.pending ==> x in q.emitted
  {
    SortedIs(q.emitted);
    hide Sorted;
    forall x | x in q.pending
      ensures x in q.emitted
    {
      assert x in q.released + q.pending && x in multiset(q.emitted);
    }
  }

  /** An operation that releases something was asked to, and the first item was due. */
  lemma ReleasedNow(q: Queue, hold: nat, op: Op)
    requires Step(q, hold, op).released != q.released
    ensures
      var r := Step(q, hold, op);
      && op.Next? && q.pending != [] && r.released == q.released + [q.pending[0]] && r.emitted == q.emitted
      && r.finished == q.finished && r.floor >= q.floor
      && (q.finished
          || (q.pending[0].start < r.floor && q.pending[0].end + hold <= q.tick
              && forall d :: 0 <= d < |q.horizons| ==> q.pending[0].start < q.horizons[d]))
  {
    LowestIs(q.horizons, |q.horizons|);
    hide Insert, Lowest;
  }

  lemma {:induction false} LowestAt(h: seq<nat>, n: nat)
    requires n <= |h|
    ensures Lowest(h, n) <= NEVER
    ensures Lowest(h, n) == NEVER || exists d :: 0 <= d < n && Lowest(h, n) == h[d]
  {
    if n > 0 {
      LowestAt(h, n - 1);
    }
  }

  /** An item is past its hold, and no decoder can emit one that starts before it. */
  predicate Free(ops: seq<Op>, decs: nat, hold: nat, x: Held) {
    End in ops
    || (x.end + hold <= LastTick(ops, 0) && x.start < NEVER
        && forall d :: 0 <= d < decs ==> x.start < LastHorizon(ops, d, 0))
  }

  /**
   * A request releases the first item not released yet, of all emitted so far in their order,
   * exactly when it is free to go by the last tick and the last horizons given.
   */
  lemma {:induction false} GoesWhenFree(decs: nat, hold: nat, ops: seq<Op>, k: nat)
    requires AllAllowed(Start(decs), hold, ops) && k < |ops| && ops[k].Next?
    ensures
      var q, r := Run(Start(decs), hold, ops[..k]), Run(Start(decs), hold, ops[..k + 1]);
      var n, all := |q.released|, Sorted(q.emitted);
      r.released == q.released + if n < |all| && Free(ops[..k], decs, hold, all[n]) then [all[n]] else []
  {
    var a, b := ops[..k], ops[k + 1..];
    SplitAt(ops, k);
    RunSplit(Start(decs), hold, ops[..k + 1], b);
    RunSplit(Start(decs), hold, a, [ops[k]]);
    OneStep(Run(Start(decs), hold, a), hold, ops[k]);
    StartOk(decs);
    hide *;
    RunInv(Start(decs), hold, a);
    StartGoes(decs, hold, a);
    NextGoes(Run(Start(decs), hold, a), hold);
  }

  lemma NextGoes(q: Queue, hold: nat)
    requires Inv(q)
    ensures
      var n, all := |q.released|, Sorted(q.emitted);
      && (q.pending != [] <==> n < |all|) && (n < |all| ==> q.pending[0] == all[n])
      && Step(q, hold, Next).released == q.released + if n < |all| && Due(q, hold) then [all[n]] else []
  {
    hide Sorted, Lowest;
    assert Sorted(q.emitted) == q.released + q.pending;
    assert q.released + [] == q.released;
  }

  lemma {:induction false} StartGoes(decs: nat, hold: nat, ops: seq<Op>)
    ensures
      var q := Run(Start(decs), hold, ops);
      q.pending != [] ==> (Due(q, hold) <==> Free(ops, decs, hold, q.pending[0]))
  {
    RunLeaves(Start(decs), hold, ops);
    var q := Run(Start(decs), hold, ops);
    LowestIs(q.horizons, |q.horizons|);
    LowestAt(q.horizons, |q.horizons|);
    hide Run, Lowest, LastTick, LastHorizon;
    assert |q.horizons| == decs && forall d :: 0 <= d < decs ==> q.horizons[d] == LastHorizon(ops, d, 0);
  }

  /** What a decoder declares in its turn: the tick, or the lowest it asks for. */
  function LowestAsked(t: nat, asked: seq<nat>): nat {
    if asked == [] then t else Min(LowestAsked(t, asked[..|asked| - 1]), asked[|asked| - 1])
  }

  /** It is the tick or one of those asked for, and none of them is below it. */
  lemma {:induction false} LowestAskedIs(t: nat, asked: seq<nat>)
    ensures
      var h := LowestAsked(t, asked);
      && (h == t || h in asked) && h <= t && forall a :: a in asked ==> h <= a
  {
    if asked != [] {
      var f, a := asked[..|asked| - 1], asked[|asked| - 1];
      LowestAskedIs(t, f);
      assert asked == f + [a];
    }
  }

  /**
   * A decoder that emits at or past every horizon it declared keeps the contract: the floor
   * is below the highest each has declared.
   */
  predicate Own(q: Queue, own: seq<nat>) {
    |own| == |q.horizons| && forall d :: 0 <= d < |own| ==> q.horizons[d] <= own[d] && q.floor <= own[d]
  }

  function OwnAfter(q: Queue, own: seq<nat>, op: Op): seq<nat>
    requires |own| == |q.horizons|
  {
    if op.Declare? && op.d < |own| then own[op.d := Max(own[op.d], op.h)] else own
  }

  lemma {:induction false} OwnSuffices(q: Queue, hold: nat, own: seq<nat>, op: Op)
    requires Own(q, own) && (op.Emit? ==> !q.finished && op.dec < |own| && op.start >= own[op.dec])
    ensures Allowed(q, op) && Own(Step(q, hold, op), OwnAfter(q, own, op))
  {
    LowestIs(q.horizons, |q.horizons|);
    hide Lowest, Insert;
  }

  /** Every decoder emits at or past the horizons it declared, and none after the end. */
  predicate KeepsOwn(own: seq<nat>, finished: bool, ops: seq<Op>)
    decreases |ops|
  {
    ops == [] ||
    match ops[0]
    case Emit(dec, start, _, _) => !finished && dec < |own| && start >= own[dec] && KeepsOwn(own, finished, ops[1..])
    case Declare(d, h) => KeepsOwn(if d < |own| then own[d := Max(own[d], h)] else own, finished, ops[1..])
    case End => KeepsOwn(own, true, ops[1..])
    case _ => KeepsOwn(own, finished, ops[1..])
  }

  /** Decoders that each keep to their own horizons keep the queue's contract over a whole run. */
  lemma {:induction false} OwnAllows(q: Queue, hold: nat, own: seq<nat>, ops: seq<Op>)
    requires Own(q, own) && KeepsOwn(own, q.finished, ops)
    ensures AllAllowed(q, hold, ops)
    decreases |ops|
  {
    hide Own, Insert, AfterNext;
    if ops != [] {
      var op := ops[0];
      OwnFits(q, own);
      OwnSuffices(q, hold, own, op);
      hide Allowed;
      FinishedBy(q, hold, op);
      OwnAllows(Step(q, hold, op), hold, OwnAfter(q, own, op), ops[1..]);
    }
  }

  lemma OwnFits(q: Queue, own: seq<nat>)
    requires Own(q, own)
    ensures |own| == |q.horizons|
  {
  }

  lemma FinishedBy(q: Queue, hold: nat, op: Op)
    ensures Step(q, hold, op).finished == (q.finished || op.End?)
  {
    hide Insert, Lowest;
  }

  /** So, from the start, items of such decoders come out sorted, and only after their hold. */
  lemma {:induction false} OwnReleases(decs: nat, hold: nat, ops: seq<Op>)
    requires KeepsOwn(seq(decs, _ => 0), false, ops)
    ensures AllAllowed(Start(decs), hold, ops)
    ensures
      var q := Run(Start(decs), hold, ops);
      && ByStart(q.released) && multiset(q.released) + multiset(q.pending) == multiset(q.emitted)
      && (q.pending == [] ==> q.released == Sorted(q.emitted))
  {
    OwnAllows(Start(decs), hold, seq(decs, _ => 0), ops);
    ReleaseOrder(decs, hold, ops);
  }
}
