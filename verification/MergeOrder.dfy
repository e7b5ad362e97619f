/**
 * The order in which data channels are merged, and the one sorted merge of their queues.
 */
module MergeOrder {
  import opened Numbers

  /** A record, or a heartbeat's level of one channel at the end of its tick. */
  datatype Entry = Entry(tick: nat, channel: nat, level: nat, isLevel: bool)

  /** What the merge hands over: an entry, or that everything up to a tick has been given. */
  datatype Out = Gave(e: Entry) | Advanced(tick: nat)

  /** The strict order of delivery: tick first, then kind with levels last, then channel number. */
  predicate Before(a: Entry, b: Entry) {
    || a.tick < b.tick
    || (a.tick == b.tick
        && ((!a.isLevel && b.isLevel) || (a.isLevel == b.isLevel && a.channel < b.channel)))
  }

  predicate InOrder(s: seq<Entry>) {
    forall i, j :: 0 <= i < j < |s| ==> !Before(s[j], s[i])
  }

  /** The data channel of each channel; what is not below their number is none. */
  type Owners = seq<nat>

  function Owner(owner: Owners, e: Entry): nat
    requires e.channel < |owner|
  {
    owner[e.channel]
  }

  predicate Owned(owner: Owners, s: seq<Entry>) {
    forall e :: e in s ==> e.channel < |owner|
  }

  /** The entries of one data channel. */
  function Of(owner: Owners, s: seq<Entry>, d: nat): (r: seq<Entry>)
    requires Owned(owner, s)
    ensures forall e :: e in r ==> e in s && Owner(owner, e) == d
  {
    if s == [] then [] else (if Owner(owner, s[0]) == d then [s[0]] else []) + Of(owner, s[1..], d)
  }

  lemma {:induction false} OfConcat(owner: Owners, s: seq<Entry>, t: seq<Entry>, d: nat)
    requires Owned(owner, s) && Owned(owner, t)
    ensures Owned(owner, s + t) && Of(owner, s + t, d) == Of(owner, s, d) + Of(owner, t, d)
  {
    assert Owned(owner, s + t);
    if s == [] {
      assert s + t == t;
    } else {
      var h := s[0];
      OfConcat(owner, s[1..], t, d);
      assert [h] + (s[1..] + t) == s + t && [h] + s[1..] == s;
      OneMore(owner, h, s[1..] + t, d);
      OneMore(owner, h, s[1..], d);
      Regroup(h, Of(owner, s[1..], d), Of(owner, t, d));
    }
  }

  lemma Regroup(h: Entry, a: seq<Entry>, b: seq<Entry>)
    ensures [h] + (a + b) == [h] + a + b
  {
  }

  lemma {:induction false} OfHolds(owner: Owners, s: seq<Entry>, e: Entry)
    requires Owned(owner, s) && e in s
    ensures e in Of(owner, s, Owner(owner, e))
  {
    if s[0] != e {
      OfHolds(owner, s[1..], e);
    }
  }

  /** Two sorted sequences that agree on every data channel are the same. */
  lemma {:induction false} Unique(owner: Owners, s: seq<Entry>, t: seq<Entry>)
    requires InOrder(s) && InOrder(t) && Owned(owner, s) && Owned(owner, t)
    requires forall d: nat :: Of(owner, s, d) == Of(owner, t, d)
    ensures s == t
  {
    if s == [] {
      EmptyToo(owner, s, t);
    } else if t == [] {
      EmptyToo(owner, t, s);
    } else {
      SameFirst(owner, s, t);
      forall d: nat
        ensures Of(owner, s[1..], d) == Of(owner, t[1..], d)
      {
        assert Of(owner, s, d) == Of(owner, t, d);
        var k := if Owner(owner, s[0]) == d then 1 else 0;
        assert Of(owner, s[1..], d) == Of(owner, s, d)[k..] && Of(owner, t[1..], d) == Of(owner, t, d)[k..];
      }
      Unique(owner, s[1..], t[1..]);
    }
  }

  lemma EmptyToo(owner: Owners, s: seq<Entry>, t: seq<Entry>)
    requires Owned(owner, s) && Owned(owner, t) && s == []
    requires forall d: nat :: Of(owner, s, d) == Of(owner, t, d)
    ensures t == []
  {
    if t != [] {
      var d := Owner(owner, t[0]);
      assert |Of(owner, t, d)| == |Of(owner, s, d)|;
      OfHolds(owner, t, t[0]);
    }
  }

  lemma SameFirst(owner: Owners, s: seq<Entry>, t: seq<Entry>)
    requires InOrder(s) && InOrder(t) && Owned(owner, s) && Owned(owner, t) && s != [] && t != []
    requires forall d: nat :: Of(owner, s, d) == Of(owner, t, d)
    ensures s[0] == t[0]
  {
    var a, b := s[0], t[0];
    assert Of(owner, s, Owner(owner, a)) == Of(owner, t, Owner(owner, a));
    assert Of(owner, s, Owner(owner, b)) == Of(owner, t, Owner(owner, b));
    OfHolds(owner, s, a);
    OfHolds(owner, t, b);
    assert a in t && b in s;
    var i :| 0 <= i < |s| && s[i] == b;
    var j :| 0 <= j < |t| && t[j] == a;
    assert !Before(b, a) && !Before(a, b);
    assert Of(owner, s, Owner(owner, a))[0] == a && Of(owner, t, Owner(owner, b))[0] == b;
  }

  // ----- the queues

  /** Queue d holds entries of data channel d, sorted. */
  predicate QueueOk(owner: Owners, s: seq<Entry>, d: nat) {
    InOrder(s) && forall e :: e in s ==> e.channel < |owner| && Owner(owner, e) == d
  }

  predicate QueuesOk(owner: Owners, q: seq<seq<Entry>>) {
    forall d :: 0 <= d < |q| ==> QueueOk(owner, q[d], d)
  }

  predicate Within(e: Entry, limit: Option<nat>) {
    limit.None? || e.tick <= limit.value
  }

  /** Among the first n queues, one whose head no other head precedes and the limit allows. */
  function Best(q: seq<seq<Entry>>, limit: Option<nat>, n: nat): (b: Option<nat>)
    requires n <= |q|
    ensures b.Some? ==> b.value < n && q[b.value] != [] && Within(q[b.value][0], limit)
  {
    if n == 0 then None
    else
      var b := Best(q, limit, n - 1);
      var d := n - 1;
      if q[d] == [] || !Within(q[d][0], limit) then b
      else if b.None? || Before(q[d][0], q[b.value][0]) then Some(d)
      else b
  }

  lemma {:induction false} BestIsFirst(q: seq<seq<Entry>>, limit: Option<nat>, n: nat)
    requires n <= |q|
    ensures
      var b := Best(q, limit, n);
      forall d :: 0 <= d < n && q[d] != [] && Within(q[d][0], limit) ==> b.Some? && !Before(q[d][0], q[b.value][0])
  {
    if n > 0 {
      BestIsFirst(q, limit, n - 1);
    }
  }

  function Total(q: seq<seq<Entry>>): nat {
    if q == [] then 0 else |q[0]| + Total(q[1..])
  }

  lemma {:induction false} TotalPop(q: seq<seq<Entry>>, d: nat)
    requires d < |q| && q[d] != []
    ensures Total(q[d := q[d][1..]]) + 1 == Total(q)
  {
    if d == 0 {
      assert q[d := q[d][1..]][1..] == q[1..];
    } else {
      TotalPop(q[1..], d - 1);
      assert q[d := q[d][1..]][1..] == q[1..][d - 1 := q[1..][d - 1][1..]];
    }
  }

  /** Hands over the next entries up to limit: they and the queues left. */
  function Drain(q: seq<seq<Entry>>, limit: Option<nat>): (r: (seq<Entry>, seq<seq<Entry>>))
    ensures |r.1| == |q|
    decreases Total(q)
  {
    var b := Best(q, limit, |q|);
    if b.None? then ([], q)
    else
      TotalPop(q, b.value);
      var r := Drain(q[b.value := q[b.value][1..]], limit);
      ([q[b.value][0]] + r.0, r.1)
  }

  /** The one sorted merge of the queues. */
  function Merged(q: seq<seq<Entry>>): seq<Entry> {
    Drain(q, None).0
  }

  predicate AllWithin(s: seq<Entry>, limit: Option<nat>) {
    forall e :: e in s ==> Within(e, limit)
  }

  predicate NoneWithin(q: seq<seq<Entry>>, limit: Option<nat>) {
    forall d, e :: 0 <= d < |q| && e in q[d] ==> !Within(e, limit)
  }

  predicate InSome(q: seq<seq<Entry>>, e: Entry) {
    exists d :: 0 <= d < |q| && e in q[d]
  }

  /** e is not after anything in the queues. */
  predicate First(e: Entry, q: seq<seq<Entry>>) {
    forall d, x :: 0 <= d < |q| && x in q[d] ==> !Before(x, e)
  }

  lemma BestFirst(owner: Owners, q: seq<seq<Entry>>, limit: Option<nat>)
    requires QueuesOk(owner, q)
    ensures
      var b := Best(q, limit, |q|);
      && (b.None? ==> NoneWithin(q, limit))
      && (b.Some? ==> First(q[b.value][0], q))
  {
    BestIsFirst(q, limit, |q|);
    var b := Best(q, limit, |q|);
    forall d, x | 0 <= d < |q| && x in q[d]
      ensures b.None? ==> !Within(x, limit)
      ensures b.Some? ==> !Before(x, q[b.value][0])
    {
      var k :| 0 <= k < |q[d]| && q[d][k] == x;
      assert QueueOk(owner, q[d], d);
      assert k > 0 ==> !Before(x, q[d][0]);
    }
  }

  lemma PopOk(owner: Owners, q: seq<seq<Entry>>, b: nat)
    requires QueuesOk(owner, q) && b < |q| && q[b] != []
    ensures QueuesOk(owner, q[b := q[b][1..]])
  {
    assert QueueOk(owner, q[b], b);
  }

  /** What is handed over is sorted, within the limit, and all of that, and loses nothing. */
  lemma {:induction false} DrainIs(owner: Owners, q: seq<seq<Entry>>, limit: Option<nat>)
    requires QueuesOk(owner, q)
    ensures
      var (gave, rest) := Drain(q, limit);
      && InOrder(gave) && AllWithin(gave, limit) && Owned(owner, gave)
      && QueuesOk(owner, rest) && NoneWithin(rest, limit)
      && (forall e :: e in gave ==> InSome(q, e))
    decreases Total(q)
  {
    BestFirst(owner, q, limit);
    var b := Best(q, limit, |q|);
    if b.Some? {
      var h := q[b.value][0];
      var p := q[b.value := q[b.value][1..]];
      TotalPop(q, b.value);
      PopOk(owner, q, b.value);
      DrainIs(owner, p, limit);
      var (gave, rest) := Drain(p, limit);
      hide Drain, Best, NoneWithin;
      assert Drain(q, limit) == ([h] + gave, rest) by { DrainStep(q, limit); }
      forall e | e in gave
        ensures !Before(e, h) && InSome(q, e)
      {
        var d :| 0 <= d < |p| && e in p[d];
        assert e in q[d];
      }
      assert QueueOk(owner, q[b.value], b.value) && h in q[b.value];
    }
  }

  lemma DrainStep(q: seq<seq<Entry>>, limit: Option<nat>)
    requires Best(q, limit, |q|).Some?
    ensures
      var b := Best(q, limit, |q|).value;
      var (gave, rest) := Drain(q[b := q[b][1..]], limit);
      Drain(q, limit) == ([q[b][0]] + gave, rest)
  {
  }

  /** Per data channel, what is handed over and what is left is what was there. */
  lemma {:induction false} DrainKeeps(owner: Owners, q: seq<seq<Entry>>, limit: Option<nat>, d: nat)
    requires QueuesOk(owner, q) && d < |q|
    ensures
      var (gave, rest) := Drain(q, limit);
      Owned(owner, gave) && Of(owner, gave, d) + rest[d] == q[d]
    decreases Total(q)
  {
    var b := Best(q, limit, |q|);
    if b.Some? {
      var p := q[b.value := q[b.value][1..]];
      TotalPop(q, b.value);
      PopOk(owner, q, b.value);
      DrainKeeps(owner, p, limit, d);
      DrainStep(q, limit);
      hide Drain, Best, QueuesOk;
      assert QueueOk(owner, q[b.value], b.value) by { QueueOf(owner, q, b.value); }
      var (gave, rest) := Drain(p, limit);
      KeepsStep(owner, q, b.value, gave, rest[d], d);
    }
  }

  lemma QueueOf(owner: Owners, q: seq<seq<Entry>>, d: nat)
    requires QueuesOk(owner, q) && d < |q|
    ensures QueueOk(owner, q[d], d)
  {
  }

  lemma KeepsStep(owner: Owners, q: seq<seq<Entry>>, b: nat, gave: seq<Entry>, left: seq<Entry>, d: nat)
    requires b < |q| && d < |q| && q[b] != [] && QueueOk(owner, q[b], b) && Owned(owner, gave)
    requires Of(owner, gave, d) + left == q[b := q[b][1..]][d]
    ensures Owned(owner, [q[b][0]] + gave) && Of(owner, [q[b][0]] + gave, d) + left == q[d]
  {
    var h := q[b][0];
    assert h in q[b];
    OneMore(owner, h, gave, d);
    hide Of;
    if d == b {
      assert q[d] == [h] + q[b][1..];
      Regroup(h, Of(owner, gave, d), left);
    }
  }

  lemma OneMore(owner: Owners, h: Entry, s: seq<Entry>, d: nat)
    requires Owned(owner, s) && h.channel < |owner|
    ensures Owned(owner, [h] + s)
    ensures Of(owner, [h] + s, d) == if Owner(owner, h) == d then [h] + Of(owner, s, d) else Of(owner, s, d)
  {
    assert ([h] + s)[1..] == s;
  }
}
