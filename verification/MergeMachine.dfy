/**
 * The merge as a state machine: entries arrive per data channel, watermarks release them, and
 * what is handed over is the one sorted merge of what arrived, however the data channels
 * interleaved.
 */
module MergeMachine {
  import opened Numbers
  import opened MergeOrder

  const NO_LIMIT: nat := 0xFFFF_FFFF_FFFF_FFFF

  /** The data channel of each channel, and which data channels carry none. */
  datatype Layout = Layout(owner: Owners, empty: seq<bool>)

  datatype State = State(q: seq<seq<Entry>>, wm: seq<Option<nat>>, released: Option<nat>)

  /** What comes in: an entry, a watermark of one data channel, one of all, or the end. */
  datatype In = Arrive(d: nat, e: Entry) | Mark(d: nat, tick: nat) | MarkAll(tick: nat) | Flush

  predicate Fits(y: Layout, s: State) {
    |s.q| == |s.wm| == |y.empty|
  }

  function Start(n: nat): State {
    State(seq(n, _ => []), seq(n, _ => None), None)
  }

  // ----- releasing

  /** Some data channel carries channels, and each that does has a watermark. */
  predicate Ready(y: Layout, wm: seq<Option<nat>>)
    requires |wm| == |y.empty|
  {
    && (exists d :: 0 <= d < |wm| && !y.empty[d])
    && forall d :: 0 <= d < |wm| && !y.empty[d] ==> wm[d].Some?
  }

  /** The lowest watermark of the first n data channels that carry channels. */
  function Lowest(y: Layout, wm: seq<Option<nat>>, n: nat): nat
    requires n <= |wm| == |y.empty|
  {
    if n == 0 then NO_LIMIT
    else
      var m := Lowest(y, wm, n - 1);
      if !y.empty[n - 1] && wm[n - 1].Some? && wm[n - 1].value < m then wm[n - 1].value else m
  }

  function LastTick(s: seq<Entry>, from: nat): nat {
    if s == [] then from else LastTick(s[1..], Max(from, s[0].tick))
  }

  function Gives(s: seq<Entry>): (r: seq<Out>)
    ensures |r| == |s|
  {
    seq(|s|, i requires 0 <= i < |s| => Gave(s[i]))
  }

  function From(s: State): nat {
    if s.released.Some? then s.released.value else 0
  }

  function LastOf(s: State, gave: seq<Entry>, limit: Option<nat>): nat {
    if limit.Some? then limit.value else LastTick(gave, From(s))
  }

  /** Hands over what is within the limit, or everything. */
  function Release(s: State, limit: Option<nat>): (State, seq<Out>) {
    var (gave, rest) := Drain(s.q, limit);
    var last := LastOf(s, gave, limit);
    if s.released.None? || last > From(s)
    then (s.(q := rest, released := Some(last)), Gives(gave) + [Advanced(last)])
    else (s.(q := rest), Gives(gave))
  }

  function ReleaseReady(y: Layout, s: State): (State, seq<Out>)
    requires Fits(y, s)
  {
    if Ready(y, s.wm) then Release(s, Some(Lowest(y, s.wm, |s.wm|))) else (s, [])
  }

  function Raise(wm: Option<nat>, tick: nat): Option<nat> {
    if wm.None? || tick > wm.value then Some(tick) else wm
  }

  function RaiseAll(wm: seq<Option<nat>>, tick: nat): (r: seq<Option<nat>>)
    ensures |r| == |wm|
  {
    seq(|wm|, d requires 0 <= d < |wm| => Raise(wm[d], tick))
  }

  function Step(y: Layout, s: State, i: In): (r: (State, seq<Out>))
    requires Fits(y, s)
    ensures Fits(y, r.0)
  {
    match i
    case Arrive(d, e) => if d < |s.q| then (s.(q := s.q[d := s.q[d] + [e]]), []) else (s, [])
    case Mark(d, tick) =>
      if d < |s.q| then ReleaseReady(y, s.(wm := s.wm[d := Raise(s.wm[d], tick)])) else (s, [])
    case MarkAll(tick) => ReleaseReady(y, s.(wm := RaiseAll(s.wm, tick)))
    case Flush => Release(s, None)
  }

  function Run(y: Layout, s: State, ins: seq<In>): (r: (State, seq<Out>))
    requires Fits(y, s)
    ensures Fits(y, r.0)
    decreases |ins|
  {
    if ins == [] then (s, [])
    else
      var (t, out) := Step(y, s, ins[0]);
      var (u, more) := Run(y, t, ins[1..]);
      (u, out + more)
  }

  // ----- what comes in

  /** What has arrived on each data channel. */
  function Arrived(a: seq<seq<Entry>>, i: In): (b: seq<seq<Entry>>)
    ensures |b| == |a|
  {
    if i.Arrive? && i.d < |a| then a[i.d := a[i.d] + [i.e]] else a
  }

  function Arrivals(a: seq<seq<Entry>>, ins: seq<In>): (b: seq<seq<Entry>>)
    ensures |b| == |a|
    decreases |ins|
  {
    if ins == [] then a else Arrivals(Arrived(a, ins[0]), ins[1..])
  }

  /**
   * The contract of the input: each data channel's entries come sorted, and none at or below
   * its watermark. Watermarks are ticks.
   */
  predicate Allowed(y: Layout, s: State, a: seq<seq<Entry>>, i: In)
    requires Fits(y, s) && |a| == |s.q|
  {
    match i
    case Arrive(d, e) =>
      && d < |a| && e.channel < |y.owner| && Owner(y.owner, e) == d && !y.empty[d]
      && (a[d] != [] ==> !Before(e, a[d][|a[d]| - 1]))
      && (s.wm[d].Some? ==> e.tick > s.wm[d].value)
    case Mark(d, tick) => tick <= NO_LIMIT
    case MarkAll(tick) => tick <= NO_LIMIT
    case Flush => true
  }

  predicate AllAllowed(y: Layout, s: State, a: seq<seq<Entry>>, ins: seq<In>)
    requires Fits(y, s) && |a| == |s.q|
    decreases |ins|
  {
    ins == [] || (Allowed(y, s, a, ins[0]) && AllAllowed(y, Step(y, s, ins[0]).0, Arrived(a, ins[0]), ins[1..]))
  }

  // ----- what goes out

  function Given(out: seq<Out>): seq<Entry> {
    if out == [] then []
    else Given(out[..|out| - 1]) + match out[|out| - 1] case Gave(e) => [e] case Advanced(_) => []
  }

  /** What comes after what: entries around the ticks said to be done, and those rising. */
  predicate Follows(x: Out, y: Out) {
    match (x, y)
    case (Gave(a), Gave(b)) => !Before(b, a)
    case (Gave(a), Advanced(t)) => a.tick <= t
    case (Advanced(t), Gave(b)) => t < b.tick
    case (Advanced(s), Advanced(t)) => s < t
  }

  /** Sorted, and each Advanced(t) after everything up to t and before everything later. */
  predicate Lined(out: seq<Out>) {
    forall i, j :: 0 <= i < j < |out| ==> Follows(out[i], out[j])
  }

  /** Everything given is at or before the released tick, everything said is. */
  predicate Done(out: seq<Out>, released: Option<nat>) {
    && (released.None? ==> out == [])
    && forall x :: x in out ==> released.Some? && (if x.Gave? then x.e.tick else x.tick) <= released.value
  }

  predicate Waiting(q: seq<seq<Entry>>, released: Option<nat>) {
    released.Some? ==> NoneWithin(q, released)
  }

  /** No data channel's watermark is behind the released tick. */
  predicate Ahead(y: Layout, s: State)
    requires Fits(y, s)
  {
    s.released.Some? ==>
      forall d :: 0 <= d < |s.wm| && !y.empty[d] ==> s.wm[d].Some? && s.released.value <= s.wm[d].value
  }

  ghost predicate Kept(y: Layout, q: seq<seq<Entry>>, given: seq<Entry>, a: seq<seq<Entry>>) {
    && |a| == |q| && Owned(y.owner, given)
    && (forall d :: 0 <= d < |q| ==> Of(y.owner, given, d) + q[d] == a[d])
    && forall d: nat :: d >= |q| ==> Of(y.owner, given, d) == []
  }

  ghost predicate Inv(y: Layout, s: State, out: seq<Out>, a: seq<seq<Entry>>) {
    && Fits(y, s) && QueuesOk(y.owner, s.q) && Kept(y, s.q, Given(out), a)
    && Lined(out) && Done(out, s.released) && Waiting(s.q, s.released)
  }

  // ----- every step keeps the invariant

  lemma {:induction false} GivenConcat(a: seq<Out>, b: seq<Out>)
    ensures Given(a + b) == Given(a) + Given(b)
    decreases |b|
  {
    if b == [] {
      assert a + b == a;
    } else {
      GivenConcat(a, b[..|b| - 1]);
      assert (a + b)[..|a + b| - 1] == a + b[..|b| - 1];
    }
  }

  lemma {:induction false} GivenGives(s: seq<Entry>)
    ensures Given(Gives(s)) == s
    decreases |s|
  {
    if s != [] {
      GivenGives(s[..|s| - 1]);
      assert Gives(s)[..|s| - 1] == Gives(s[..|s| - 1]);
    }
  }

  lemma GivenAdvanced(t: nat)
    ensures Given([Advanced(t)]) == []
  {
    assert [Advanced(t)][..0] == [];
  }

  lemma {:induction false} LastTickIs(s: seq<Entry>, from: nat)
    ensures LastTick(s, from) >= from && forall e :: e in s ==> e.tick <= LastTick(s, from)
  {
    if s != [] {
      LastTickIs(s[1..], Max(from, s[0].tick));
    }
  }

  /** What is given past the released tick, sorted, lines up with what was given. */
  lemma LinedMore(out: seq<Out>, released: Option<nat>, gave: seq<Entry>)
    requires Lined(out) && Done(out, released) && InOrder(gave)
    requires forall e :: e in gave ==> !(released.Some? && e.tick <= released.value)
    ensures Lined(out + Gives(gave))
  {
    var all := out + Gives(gave);
    forall i, j | 0 <= i < j < |all|
      ensures Follows(all[i], all[j])
    {
      if j >= |out| {
        assert gave[j - |out|] in gave;
        if i < |out| {
          assert out[i] in out;
        }
      }
    }
  }

  lemma LinedAdvance(out: seq<Out>, t: nat)
    requires Lined(out)
    requires forall x :: x in out ==> if x.Gave? then x.e.tick <= t else x.tick < t
    ensures Lined(out + [Advanced(t)])
  {
    var all := out + [Advanced(t)];
    forall i, j | 0 <= i < j < |all|
      ensures Follows(all[i], all[j])
    {
      if j == |out| {
        assert out[i] in out;
      }
    }
  }

  lemma GivesIn(gave: seq<Entry>, x: Out)
    requires x in Gives(gave)
    ensures x.Gave? && x.e in gave
  {
  }

  lemma FreshGiven(y: Layout, s: State, limit: Option<nat>)
    requires QueuesOk(y.owner, s.q) && Waiting(s.q, s.released)
    ensures
      var gave := Drain(s.q, limit).0;
      && InOrder(gave)
      && forall e :: e in gave ==> !(s.released.Some? && e.tick <= s.released.value) && e.tick <= LastOf(s, gave, limit)
  {
    var gave := Drain(s.q, limit).0;
    DrainIs(y.owner, s.q, limit);
    LastTickIs(gave, From(s));
    hide Drain, LastTick;
    forall e | e in gave
      ensures !(s.released.Some? && e.tick <= s.released.value) && e.tick <= LastOf(s, gave, limit)
    {
      assert InSome(s.q, e) && Within(e, limit);
      var d :| 0 <= d < |s.q| && e in s.q[d];
      assert s.released.Some? ==> !Within(e, s.released);
    }
  }

  /** A release hands over the next part of the sorted merge and says so. */
  lemma ReleaseLined(y: Layout, s: State, out: seq<Out>, limit: Option<nat>)
    requires QueuesOk(y.owner, s.q) && Lined(out) && Done(out, s.released) && Waiting(s.q, s.released)
    ensures
      var (t, more) := Release(s, limit);
      Lined(out + more) && Done(out + more, t.released) && Waiting(t.q, t.released)
  {
    var (gave, rest) := Drain(s.q, limit);
    FreshGiven(y, s, limit);
    LinedMore(out, s.released, gave);
    RestWaits(y.owner, s.q, limit, s.released);
    DrainIs(y.owner, s.q, limit);
    hide Drain, LastTick, Lined, Gives;
    SaidAndDone(s, out, gave, LastOf(s, gave, limit));
    if limit.None? {
      assert forall d :: 0 <= d < |rest| ==> rest[d] == [] by { AllOut(rest); }
    }
  }

  lemma AllOut(q: seq<seq<Entry>>)
    requires NoneWithin(q, None)
    ensures forall d :: 0 <= d < |q| ==> q[d] == []
  {
    forall d | 0 <= d < |q|
      ensures |q[d]| == 0
    {
      assert |q[d]| > 0 ==> q[d][0] in q[d] && !Within(q[d][0], None);
    }
  }

  lemma SaidAndDone(s: State, out: seq<Out>, gave: seq<Entry>, last: nat)
    requires Done(out, s.released) && Lined(out + Gives(gave))
    requires forall e :: e in gave ==> !(s.released.Some? && e.tick <= s.released.value) && e.tick <= last
    ensures
      if s.released.None? || last > From(s)
      then Lined(out + (Gives(gave) + [Advanced(last)])) && Done(out + (Gives(gave) + [Advanced(last)]), Some(last))
      else Done(out + Gives(gave), s.released)
  {
    var all := out + Gives(gave);
    hide Lined, Gives;
    forall x | x in all
      ensures x in out || (x.Gave? && x.e in gave)
    {
      if x !in out {
        GivesIn(gave, x);
      }
    }
    if s.released.None? || last > From(s) {
      LinedAdvance(all, last);
      assert out + (Gives(gave) + [Advanced(last)]) == all + [Advanced(last)];
    }
  }

  /** What is left was waiting already. */
  lemma RestWaits(owner: Owners, q: seq<seq<Entry>>, limit: Option<nat>, released: Option<nat>)
    requires QueuesOk(owner, q) && Waiting(q, released)
    ensures Waiting(Drain(q, limit).1, released)
  {
    var (gave, rest) := Drain(q, limit);
    forall d, e | 0 <= d < |rest| && e in rest[d]
      ensures e in q[d]
    {
      DrainKeeps(owner, q, limit, d);
      assert Of(owner, gave, d) + rest[d] == q[d];
    }
    hide Drain;
  }

  lemma ReleaseKept(y: Layout, s: State, given: seq<Entry>, a: seq<seq<Entry>>, limit: Option<nat>)
    requires QueuesOk(y.owner, s.q) && Kept(y, s.q, given, a)
    ensures
      var (gave, rest) := Drain(s.q, limit);
      QueuesOk(y.owner, rest) && Kept(y, rest, given + gave, a)
  {
    var (gave, rest) := Drain(s.q, limit);
    DrainIs(y.owner, s.q, limit);
    hide Drain, InOrder, QueuesOk;
    forall d | 0 <= d < |s.q|
      ensures Of(y.owner, given + gave, d) + rest[d] == a[d]
    {
      DrainKeeps(y.owner, s.q, limit, d);
      hide Of;
      OfConcat(y.owner, given, gave, d);
      Regroup2(Of(y.owner, given, d), Of(y.owner, gave, d), rest[d]);
    }
    forall d: nat | d >= |s.q|
      ensures Of(y.owner, given + gave, d) == []
    {
      OfConcat(y.owner, given, gave, d);
      NotOthers(y.owner, s.q, gave, d);
    }
  }

  lemma Regroup2<T>(a: seq<T>, b: seq<T>, c: seq<T>)
    ensures a + (b + c) == a + b + c
  {
  }

  lemma NotOthers(owner: Owners, q: seq<seq<Entry>>, gave: seq<Entry>, d: nat)
    requires QueuesOk(owner, q) && Owned(owner, gave) && d >= |q|
    requires forall e :: e in gave ==> InSome(q, e)
    ensures Of(owner, gave, d) == []
  {
    forall e | e in gave
      ensures Owner(owner, e) < |q|
    {
      assert InSome(q, e);
      var k :| 0 <= k < |q| && e in q[k];
      assert QueueOk(owner, q[k], k);
    }
    OfNone(owner, gave, d);
  }

  lemma {:induction false} OfNone(owner: Owners, s: seq<Entry>, d: nat)
    requires Owned(owner, s) && forall e :: e in s ==> Owner(owner, e) != d
    ensures Of(owner, s, d) == []
  {
    if s != [] {
      OfNone(owner, s[1..], d);
    }
  }

  lemma ReleaseInv(y: Layout, s: State, out: seq<Out>, a: seq<seq<Entry>>, limit: Option<nat>)
    requires Inv(y, s, out, a)
    ensures Inv(y, Release(s, limit).0, out + Release(s, limit).1, a)
  {
    var (gave, rest) := Drain(s.q, limit);
    ReleaseLined(y, s, out, limit);
    ReleaseKept(y, s, Given(out), a, limit);
    ReleaseGives(s, limit);
    GivenConcat(out, Release(s, limit).1);
    hide Drain, QueuesOk, Kept, Lined, Done, Waiting, Given, Gives;
  }

  lemma ReleaseGives(s: State, limit: Option<nat>)
    ensures Given(Release(s, limit).1) == Drain(s.q, limit).0
  {
    var gave := Drain(s.q, limit).0;
    GivenGives(gave);
    GivenAdvanced(LastOf(s, gave, limit));
    GivenConcat(Gives(gave), [Advanced(LastOf(s, gave, limit))]);
    hide Drain, Given, Gives, LastOf;
    assert gave + [] == gave;
  }

  lemma {:induction false} LowestIs(y: Layout, wm: seq<Option<nat>>, n: nat)
    requires n <= |wm| == |y.empty|
    ensures forall d :: 0 <= d < n && !y.empty[d] && wm[d].Some? ==> Lowest(y, wm, n) <= wm[d].value
    ensures Lowest(y, wm, n) == NO_LIMIT || exists d :: 0 <= d < n && !y.empty[d] && wm[d] == Some(Lowest(y, wm, n))
  {
    if n > 0 {
      LowestIs(y, wm, n - 1);
    }
  }

  /** Raising watermarks and releasing keeps them ahead of what is released. */
  lemma ReadyInv(y: Layout, s: State, out: seq<Out>, a: seq<seq<Entry>>)
    requires Inv(y, s, out, a) && Ahead(y, s)
    ensures var (t, more) := ReleaseReady(y, s); Inv(y, t, out + more, a) && Ahead(y, t)
  {
    LowestIs(y, s.wm, |s.wm|);
    hide Inv, Drain, LastTick;
    assert out + [] == out;
    if Ready(y, s.wm) {
      ReleaseInv(y, s, out, a, Some(Lowest(y, s.wm, |s.wm|)));
    }
  }

  lemma ArriveInv(y: Layout, s: State, out: seq<Out>, a: seq<seq<Entry>>, d: nat, e: Entry)
    requires Inv(y, s, out, a) && Ahead(y, s) && Allowed(y, s, a, Arrive(d, e))
    ensures Inv(y, s.(q := s.q[d := s.q[d] + [e]]), out, Arrived(a, Arrive(d, e)))
  {
    var t := s.(q := s.q[d := s.q[d] + [e]]);
    ArriveQueues(y, s.q, Given(out), a, d, e);
    ArriveWaits(y, s, d, e);
    hide Lined, Done, Given, Of, QueuesOk, Kept, Waiting;
  }

  lemma ArriveQueues(y: Layout, q: seq<seq<Entry>>, given: seq<Entry>, a: seq<seq<Entry>>, d: nat, e: Entry)
    requires QueuesOk(y.owner, q) && Kept(y, q, given, a) && d < |q| && e.channel < |y.owner| && Owner(y.owner, e) == d
    requires a[d] != [] ==> !Before(e, a[d][|a[d]| - 1])
    ensures QueuesOk(y.owner, q[d := q[d] + [e]]) && Kept(y, q[d := q[d] + [e]], given, a[d := a[d] + [e]])
  {
    hide Of;
    assert Of(y.owner, given, d) + q[d] == a[d];
    assert q[d] != [] ==> q[d][|q[d]| - 1] == a[d][|a[d]| - 1];
    assert QueueOk(y.owner, q[d], d);
    QueueMore(y.owner, q[d], d, e);
    hide QueueOk;
    Regroup2(Of(y.owner, given, d), q[d], [e]);
  }

  lemma ArriveWaits(y: Layout, s: State, d: nat, e: Entry)
    requires Fits(y, s) && Waiting(s.q, s.released) && Ahead(y, s) && d < |s.q| && !y.empty[d]
    requires s.wm[d].Some? ==> e.tick > s.wm[d].value
    ensures Waiting(s.q[d := s.q[d] + [e]], s.released)
  {
    assert s.released.Some? ==> s.wm[d].Some? && s.released.value <= s.wm[d].value;
  }

  lemma QueueMore(owner: Owners, q: seq<Entry>, d: nat, e: Entry)
    requires QueueOk(owner, q, d) && e.channel < |owner| && Owner(owner, e) == d
    requires q != [] ==> !Before(e, q[|q| - 1])
    ensures QueueOk(owner, q + [e], d)
  {
    forall i | 0 <= i < |q|
      ensures !Before(e, q[i])
    {
      assert i < |q| - 1 ==> !Before(q[|q| - 1], q[i]);
    }
  }

  // ----- whole runs

  lemma StepInv(y: Layout, s: State, out: seq<Out>, a: seq<seq<Entry>>, i: In)
    requires Inv(y, s, out, a) && Ahead(y, s) && QueuesOk(y.owner, a) && Allowed(y, s, a, i) && !i.Flush?
    ensures
      var (t, more) := Step(y, s, i);
      Inv(y, t, out + more, Arrived(a, i)) && Ahead(y, t) && QueuesOk(y.owner, Arrived(a, i))
  {
    match i
    case Arrive(d, e) =>
      ArriveInv(y, s, out, a, d, e);
      assert out + [] == out;
      assert QueueOk(y.owner, a[d], d);
      QueueMore(y.owner, a[d], d, e);
      hide Inv, QueueOk;
    case Mark(d, tick) =>
      assert out + [] == out;
      if d < |s.q| {
        var t := s.(wm := s.wm[d := Raise(s.wm[d], tick)]);
        assert Inv(y, t, out, a);
        assert Ahead(y, t);
        hide Inv, Ahead, ReleaseReady;
        ReadyInv(y, t, out, a);
      }
    case MarkAll(tick) =>
      var t := s.(wm := RaiseAll(s.wm, tick));
      assert Inv(y, t, out, a);
      assert Ahead(y, t);
      hide Inv, Ahead, ReleaseReady;
      ReadyInv(y, t, out, a);
  }

  lemma InvFits(y: Layout, s: State, out: seq<Out>, a: seq<seq<Entry>>)
    requires Inv(y, s, out, a)
    ensures Fits(y, s) && |a| == |s.q|
  {
  }

  predicate NoFlush(ins: seq<In>) {
    forall i :: i in ins ==> !i.Flush?
  }

  lemma {:induction false} RunInv(y: Layout, s: State, out: seq<Out>, a: seq<seq<Entry>>, ins: seq<In>)
    requires Inv(y, s, out, a) && Ahead(y, s) && QueuesOk(y.owner, a)
    requires AllAllowed(y, s, a, ins) && NoFlush(ins)
    ensures
      var (t, more) := Run(y, s, ins);
      Inv(y, t, out + more, Arrivals(a, ins)) && QueuesOk(y.owner, Arrivals(a, ins))
    decreases |ins|
  {
    InvFits(y, s, out, a);
    hide Inv, Ahead, QueuesOk, Step, Allowed;
    if ins == [] {
      assert out + [] == out;
    } else {
      var (t, said) := Step(y, s, ins[0]);
      StepInv(y, s, out, a, ins[0]);
      RunInv(y, t, out + said, Arrived(a, ins[0]), ins[1..]);
      var (u, more) := Run(y, t, ins[1..]);
      Regroup2(out, said, more);
    }
  }

  lemma {:induction false} RunConcat(y: Layout, s: State, a: seq<In>, b: seq<In>)
    requires Fits(y, s)
    ensures
      var r := Run(y, s, a);
      Run(y, s, a + b) == (Run(y, r.0, b).0, r.1 + Run(y, r.0, b).1)
    decreases |a|
  {
    hide Step;
    if a == [] {
      assert a + b == b;
      assert [] + Run(y, s, b).1 == Run(y, s, b).1;
    } else {
      var (t, said) := Step(y, s, a[0]);
      assert (a + b)[0] == a[0] && (a + b)[1..] == a[1..] + b;
      RunConcat(y, t, a[1..], b);
      var (v, out) := Run(y, t, a[1..]);
      var (u, more) := Run(y, v, b);
      assert said + (out + more) == said + out + more;
    }
  }

  lemma RunFlush(y: Layout, s: State)
    requires Fits(y, s)
    ensures Run(y, s, [Flush]) == Release(s, None)
  {
    var (t, out) := Step(y, s, Flush);
    assert Run(y, t, [Flush][1..]) == (t, []);
    assert out + [] == out;
  }

  /** What arrives on data channels that have nothing yet. */
  function AllOf(n: nat, ins: seq<In>): (a: seq<seq<Entry>>)
    ensures |a| == n
  {
    Arrivals(seq(n, _ => []), ins)
  }

  /** The input keeps the contract from the start, and does not end in the middle. */
  predicate Contract(y: Layout, ins: seq<In>) {
    var n := |y.empty|;
    AllAllowed(y, Start(n), seq(n, _ => []), ins) && NoFlush(ins)
  }

  /** What the merge hands over of an input, with the flush at its end. */
  function Output(y: Layout, ins: seq<In>): seq<Out> {
    Run(y, Start(|y.empty|), ins + [Flush]).1
  }

  lemma StartInv(y: Layout)
    ensures Inv(y, Start(|y.empty|), [], seq(|y.empty|, _ => [])) && Ahead(y, Start(|y.empty|))
    ensures QueuesOk(y.owner, seq(|y.empty|, _ => []))
  {
  }

  /** Sorted, with everything that arrived, it can only be the sorted merge. */
  lemma IsMerged(y: Layout, s: State, out: seq<Out>, a: seq<seq<Entry>>)
    requires Inv(y, s, out, a) && QueuesOk(y.owner, a) && forall d :: 0 <= d < |s.q| ==> s.q[d] == []
    ensures Given(out) == Merged(a)
  {
    var m := Merged(a);
    MergedIs(y.owner, a);
    GivenInOrder(out);
    KeptAll(y, s.q, Given(out), a);
    hide *;
    forall d: nat
      ensures Of(y.owner, Given(out), d) == Of(y.owner, m, d)
    {
    }
    Unique(y.owner, Given(out), m);
  }

  /** What the channel gave, with nothing left, is what arrived. */
  lemma KeptAll(y: Layout, q: seq<seq<Entry>>, given: seq<Entry>, a: seq<seq<Entry>>)
    requires Kept(y, q, given, a) && forall d :: 0 <= d < |q| ==> q[d] == []
    ensures forall d: nat :: Of(y.owner, given, d) == if d < |a| then a[d] else []
  {
    forall d | 0 <= d < |a|
      ensures Of(y.owner, given, d) == a[d]
    {
      assert Of(y.owner, given, d) + q[d] == a[d];
    }
  }

  lemma MergedIs(owner: Owners, a: seq<seq<Entry>>)
    requires QueuesOk(owner, a)
    ensures
      var m := Merged(a);
      InOrder(m) && Owned(owner, m) && forall d: nat :: Of(owner, m, d) == if d < |a| then a[d] else []
  {
    var (m, rest) := Drain(a, None);
    DrainIs(owner, a, None);
    AllOut(rest);
    forall d: nat
      ensures Of(owner, m, d) == if d < |a| then a[d] else []
    {
      if d < |a| {
        DrainKeeps(owner, a, None, d);
      } else {
        NotOthers(owner, a, m, d);
      }
    }
  }

  lemma GivenLast(out: seq<Out>)
    requires out != []
    ensures Given(out) == Given(out[..|out| - 1]) + match out[|out| - 1] case Gave(e) => [e] case Advanced(_) => []
  {
  }

  lemma {:induction false} GivenAt(out: seq<Out>) returns (at: seq<nat>)
    ensures |at| == |Given(out)|
    ensures forall k :: 0 <= k < |at| ==> at[k] < |out| && out[at[k]] == Gave(Given(out)[k])
    ensures forall i, j :: 0 <= i < j < |at| ==> at[i] < at[j]
    decreases |out|
  {
    if out == [] {
      at := [];
    } else {
      var front := out[..|out| - 1];
      at := GivenAt(front);
      assert forall k :: 0 <= k < |at| ==> out[at[k]] == front[at[k]];
      hide Given;
      assert Given(out) == Given(front) + match out[|out| - 1] case Gave(e) => [e] case Advanced(_) => [] by { GivenLast(out); }
      if out[|out| - 1].Gave? {
        at := at + [|out| - 1];
      }
    }
  }

  lemma GivenInOrder(out: seq<Out>)
    requires Lined(out)
    ensures InOrder(Given(out))
  {
    var at := GivenAt(out);
    var g := Given(out);
    forall i, j | 0 <= i < j < |g|
      ensures !Before(g[j], g[i])
    {
      assert Follows(out[at[i]], out[at[j]]);
    }
  }

  /**
   * Confluence: of every input that keeps the contract, however its data channels interleave
   * and wherever its watermarks fall, the merge hands over the one sorted merge of what
   * arrived; each Advanced(t), with t rising, comes after everything up to t and before
   * everything later.
   */
  lemma Confluence(y: Layout, ins: seq<In>)
    requires Contract(y, ins)
    ensures Given(Output(y, ins)) == Merged(AllOf(|y.empty|, ins)) && Lined(Output(y, ins))
  {
    var n := |y.empty|;
    StartInv(y);
    RunInv(y, Start(n), [], seq(n, _ => []), ins);
    var (s, out) := Run(y, Start(n), ins);
    assert [] + out == out;
    RunConcat(y, Start(n), ins, [Flush]);
    RunFlush(y, s);
    ReleaseInv(y, s, out, AllOf(n, ins), None);
    var (t, more) := Release(s, None);
    DrainIs(y.owner, s.q, None);
    AllOut(t.q);
    IsMerged(y, t, out + more, AllOf(n, ins));
  }

  /** So any two inputs with the same arrivals per data channel give the same. */
  lemma InterleavingsAgree(y: Layout, a: seq<In>, b: seq<In>)
    requires Contract(y, a) && Contract(y, b) && AllOf(|y.empty|, a) == AllOf(|y.empty|, b)
    ensures Given(Output(y, a)) == Given(Output(y, b))
  {
    hide *;
    Confluence(y, a);
    Confluence(y, b);
  }

  // ----- and in time

  /** The watermarks after some input: of each data channel the highest it was given. */
  function Marks(wm: seq<Option<nat>>, ins: seq<In>): (r: seq<Option<nat>>)
    ensures |r| == |wm|
    decreases |ins|
  {
    if ins == [] then wm else Marks(MarkedBy(wm, ins[0]), ins[1..])
  }

  function MarkedBy(wm: seq<Option<nat>>, i: In): (r: seq<Option<nat>>)
    ensures |r| == |wm|
  {
    if i.MarkAll? then RaiseAll(wm, i.tick)
    else if i.Mark? && i.d < |wm| then wm[i.d := Raise(wm[i.d], i.tick)]
    else wm
  }

  /** What was released last is the lowest watermark, once every data channel has one. */
  predicate Prompt(y: Layout, s: State)
    requires Fits(y, s)
  {
    s.released == if Ready(y, s.wm) then Some(Lowest(y, s.wm, |s.wm|)) else None
  }

  lemma {:induction false} LowestUpTo(y: Layout, wm: seq<Option<nat>>, n: nat)
    requires n <= |wm| == |y.empty|
    ensures Lowest(y, wm, n) <= NO_LIMIT
  {
    if n > 0 {
      LowestUpTo(y, wm, n - 1);
    }
  }

  lemma ReadyPrompt(y: Layout, s: State)
    requires Fits(y, s) && Ahead(y, s)
    requires s.released.Some? ==> Ready(y, s.wm) && s.released.value <= NO_LIMIT
    ensures var t := ReleaseReady(y, s).0; t.wm == s.wm && Prompt(y, t)
  {
    LowestIs(y, s.wm, |s.wm|);
    LowestUpTo(y, s.wm, |s.wm|);
    hide Drain, LastTick, Lowest;
  }

  lemma StepPrompt(y: Layout, s: State, i: In)
    requires Fits(y, s) && Ahead(y, s) && Prompt(y, s) && !i.Flush?
    ensures var t := Step(y, s, i).0; Fits(y, t) && Prompt(y, t) && t.wm == MarkedBy(s.wm, i)
  {
    LowestUpTo(y, s.wm, |s.wm|);
    hide Lowest, ReleaseReady;
    match i
    case Arrive(d, e) =>
    case Mark(d, tick) =>
      if d < |s.q| {
        var r := s.(wm := s.wm[d := Raise(s.wm[d], tick)]);
        assert Ready(y, s.wm) ==> Ready(y, r.wm);
        ReadyPrompt(y, r);
      }
    case MarkAll(tick) =>
      var r := s.(wm := RaiseAll(s.wm, tick));
      assert Ready(y, s.wm) ==> Ready(y, r.wm);
      ReadyPrompt(y, r);
  }

  lemma {:induction false} RunPrompt(y: Layout, s: State, out: seq<Out>, a: seq<seq<Entry>>, ins: seq<In>)
    requires Inv(y, s, out, a) && Ahead(y, s) && QueuesOk(y.owner, a) && Prompt(y, s)
    requires AllAllowed(y, s, a, ins) && NoFlush(ins)
    ensures var t := Run(y, s, ins).0; Prompt(y, t) && t.wm == Marks(s.wm, ins)
    decreases |ins|
  {
    InvFits(y, s, out, a);
    hide Inv, Ahead, QueuesOk, Step, Allowed, Prompt;
    if ins != [] {
      var (t, said) := Step(y, s, ins[0]);
      StepInv(y, s, out, a, ins[0]);
      StepPrompt(y, s, ins[0]);
      RunPrompt(y, t, out + said, Arrived(a, ins[0]), ins[1..]);
    }
  }

  lemma OfDone(y: Layout, s: State, out: seq<Out>, a: seq<seq<Entry>>, d: nat, e: Entry)
    requires Inv(y, s, out, a) && d < |a| && s.released.Some?
    ensures e in Of(y.owner, Given(out), d) <==> e in a[d] && e.tick <= s.released.value
  {
    var given := Of(y.owner, Given(out), d);
    assert given + s.q[d] == a[d];
    hide Of, Kept, Lined, QueuesOk, Given;
    if e in given {
      GaveIn(out, e);
      assert Gave(e) in out;
    }
    assert e in s.q[d] ==> !Within(e, s.released);
  }

  lemma GaveIn(out: seq<Out>, e: Entry)
    requires e in Given(out)
    ensures Gave(e) in out
  {
    var at := GivenAt(out);
    var k :| 0 <= k < |Given(out)| && Given(out)[k] == e;
    assert out[at[k]] in out;
  }

  lemma ReleasedUpTo(y: Layout, ins: seq<In>)
    requires Contract(y, ins)
    ensures
      var n := |y.empty|;
      var a, wm, out := AllOf(n, ins), Marks(seq(n, _ => None), ins), Run(y, Start(n), ins).1;
      if Ready(y, wm)
      then Owned(y.owner, Given(out)) &&
           forall d, e :: 0 <= d < n ==> (e in Of(y.owner, Given(out), d) <==> e in a[d] && e.tick <= Lowest(y, wm, n))
      else out == []
  {
    var n := |y.empty|;
    var none, a := seq(n, _ => []), AllOf(n, ins);
    StartInv(y);
    RunInv(y, Start(n), [], none, ins);
    RunPrompt(y, Start(n), [], none, ins);
    var (s, out) := Run(y, Start(n), ins);
    assert [] + out == out;
    assert Inv(y, s, out, a) && Prompt(y, s) && Kept(y, s.q, Given(out), a) && Done(out, s.released);
    hide Inv, Run, Marks, Of, Given, Lowest, Kept;
    if Ready(y, s.wm) {
      forall d, e | 0 <= d < n
        ensures e in Of(y.owner, Given(out), d) <==> e in a[d] && e.tick <= s.released.value
      {
        OfDone(y, s, out, a, d, e);
      }
    }
  }

  /** Data channel d was given a watermark at or past a tick. */
  predicate MarkedTo(ins: seq<In>, d: nat, tick: nat) {
    exists i :: i in ins && Marking(i, d) && i.tick >= tick
  }

  predicate Marking(i: In, d: nat) {
    i.MarkAll? || (i.Mark? && i.d == d)
  }

  lemma {:induction false} MarksAre(wm: seq<Option<nat>>, ins: seq<In>, d: nat, tick: nat)
    requires d < |wm|
    ensures
      var m := Marks(wm, ins)[d];
      m.Some? && m.value >= tick <==> (wm[d].Some? && wm[d].value >= tick) || MarkedTo(ins, d, tick)
    decreases |ins|
  {
    if ins != [] {
      var i := ins[0];
      MarksAre(MarkedBy(wm, i), ins[1..], d, tick);
      hide Marks;
      assert MarkedTo(ins, d, tick) <==> (Marking(i, d) && i.tick >= tick) || MarkedTo(ins[1..], d, tick);
    }
  }

  lemma {:induction false} MarksSmall(y: Layout, s: State, a: seq<seq<Entry>>, ins: seq<In>)
    requires Fits(y, s) && |a| == |s.q| && AllAllowed(y, s, a, ins)
    ensures forall i :: i in ins && (i.Mark? || i.MarkAll?) ==> i.tick <= NO_LIMIT
    decreases |ins|
  {
    if ins != [] {
      MarksSmall(y, Step(y, s, ins[0]).0, Arrived(a, ins[0]), ins[1..]);
      hide Step;
    }
  }

  /** Every data channel that carries channels was given a watermark at or past a tick. */
  predicate AllMarkedTo(y: Layout, ins: seq<In>, tick: nat) {
    forall d :: 0 <= d < |y.empty| && !y.empty[d] ==> MarkedTo(ins, d, tick)
  }

  lemma LowestReaches(y: Layout, ins: seq<In>, d: nat, tick: nat)
    requires d < |y.empty| && !y.empty[d] && forall i :: i in ins && (i.Mark? || i.MarkAll?) ==> i.tick <= NO_LIMIT
    ensures
      var n := |y.empty|;
      var wm := Marks(seq(n, _ => None), ins);
      Ready(y, wm) && tick <= Lowest(y, wm, n) <==> AllMarkedTo(y, ins, tick)
  {
    var n := |y.empty|;
    var none: seq<Option<nat>> := seq(n, _ => None);
    var wm := Marks(none, ins);
    LowestIs(y, wm, n);
    hide Marks, Lowest;
    forall x | 0 <= x < n
      ensures wm[x].Some? && wm[x].value >= tick <==> MarkedTo(ins, x, tick)
    {
      MarksAre(none, ins, x, tick);
    }
    if AllMarkedTo(y, ins, tick) {
      assert MarkedTo(ins, d, tick);
      assert Ready(y, wm);
    }
  }

  /**
   * Whenever the input stops, what has been handed over of each data channel is exactly what
   * arrived and lies at or before a watermark of every data channel that carries channels: what
   * can be released is, at once.
   */
  lemma ReleasedInTime(y: Layout, ins: seq<In>, d: nat, e: Entry)
    requires Contract(y, ins) && d < |y.empty| && !y.empty[d]
    ensures
      var out := Run(y, Start(|y.empty|), ins).1;
      && Owned(y.owner, Given(out))
      && (e in Of(y.owner, Given(out), d) <==> e in AllOf(|y.empty|, ins)[d] && AllMarkedTo(y, ins, e.tick))
  {
    var n := |y.empty|;
    hide *;
    ReleasedUpTo(y, ins);
    ContractMarks(y, ins);
    LowestReaches(y, ins, d, e.tick);
    NothingOf(y.owner, d);
  }

  lemma ContractMarks(y: Layout, ins: seq<In>)
    requires Contract(y, ins)
    ensures forall i :: i in ins && (i.Mark? || i.MarkAll?) ==> i.tick <= NO_LIMIT
  {
    MarksSmall(y, Start(|y.empty|), seq(|y.empty|, _ => []), ins);
  }

  lemma NothingOf(owner: Owners, d: nat)
    ensures Given([]) == [] && Owned(owner, []) && Of(owner, [], d) == []
  {
  }
}
