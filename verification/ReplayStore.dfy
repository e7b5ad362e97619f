/**
 * What a decoder group sees of the store: records per channel, the watermark up to which they
 * are complete, levels and losses; and reading the records of all channels in one order.
 */
module ReplayStore {
  import opened Numbers
  import opened MergeOrder

  datatype Loss = Loss(start: nat, end: nat, lost: seq<nat>)

  /**
   * recs[i] is every record channel i ever had, of which the store has let go of the first
   * first[i]. level is the level of a channel at the end of a tick, where the store knows it.
   */
  datatype Held = Held(recs: seq<seq<Entry>>, first: seq<nat>, wm: Option<nat>, oldest: nat,
    losses: seq<Loss>, level: (nat, nat) -> Option<nat>)

  /** More channels than a channel's number can name are not possible. */
  const CHANNELS_MAX: nat := 0xFFFF

  /** A channel's records: its own, with rising ticks. */
  predicate Rising(s: seq<Entry>, i: nat) {
    && (forall a, b :: 0 <= a < b < |s| ==> s[a].tick < s[b].tick)
    && forall e :: e in s ==> e.channel == i && !e.isLevel
  }

  /** Ticks are 64 bits wide; the last one stands for no end. */
  const TICK_END: nat := 0xFFFF_FFFF_FFFF_FFFF

  predicate Sound(h: Held) {
    && (h.wm.Some? ==> h.wm.value < TICK_END)
    && |h.first| == |h.recs| <= CHANNELS_MAX
    && forall i :: 0 <= i < |h.recs| ==> h.first[i] <= |h.recs[i]| && Rising(h.recs[i], i)
  }

  predicate Past(e: Entry, wm: Option<nat>) {
    wm.Some? ==> e.tick > wm.value
  }

  /** Later: more records, none at or before the watermark. */
  predicate Grows(h: Held, k: Held) {
    && |h.recs| == |k.recs|
    && (h.wm.Some? ==> k.wm.Some? && h.wm.value <= k.wm.value)
    && forall i :: 0 <= i < |h.recs| ==> Longer(h.recs[i], k.recs[i], h.wm)
  }

  predicate Longer(s: seq<Entry>, t: seq<Entry>, wm: Option<nat>) {
    s <= t && forall k :: |s| <= k < |t| ==> Past(t[k], wm)
  }

  // ----- reading in one order

  /** Every channel on its own. */
  function Ids(n: nat): Owners {
    seq(n, i => i)
  }

  predicate Ascending(s: seq<Entry>) {
    forall i, j :: 0 <= i < j < |s| ==> Before(s[i], s[j])
  }

  /** Nothing still to be read comes before what was read. */
  predicate Rest(h: Held, pos: seq<nat>, s: seq<Entry>)
    requires |pos| == |h.recs|
  {
    forall i, k, e :: 0 <= i < |pos| && pos[i] <= k < |h.recs[i]| && e in s ==> Before(e, h.recs[i][k])
  }

  predicate Complete(s: seq<Entry>, wm: Option<nat>) {
    forall e :: e in s ==> wm.Some? && e.tick <= wm.value
  }

  /** The positions were there. */
  predicate Spans(h: Held, from: seq<nat>, to: seq<nat>) {
    && |from| == |to| == |h.recs|
    && forall i :: 0 <= i < |from| ==> from[i] <= to[i] <= |h.recs[i]|
  }

  /** Read from one position on each channel to another: each record once, in order, complete. */
  predicate Took(h: Held, from: seq<nat>, to: seq<nat>, s: seq<Entry>) {
    && Spans(h, from, to) && Ascending(s) && Complete(s, h.wm) && Rest(h, to, s)
    && Owned(Ids(|h.recs|), s)
    && forall i :: 0 <= i < |from| ==> Of(Ids(|h.recs|), s, i) == h.recs[i][from[i]..to[i]]
  }

  /** What the store still has to give from pos on. */
  predicate InReach(h: Held, pos: seq<nat>) {
    && |pos| == |h.recs| == |h.first|
    && forall i :: 0 <= i < |pos| ==> h.first[i] <= pos[i] <= |h.recs[i]|
  }

  /** Nothing from pos on is complete. */
  predicate NoneLeft(h: Held, pos: seq<nat>)
    requires |pos| == |h.recs|
  {
    forall i, k :: 0 <= i < |pos| && pos[i] <= k < |h.recs[i]| ==> Past(h.recs[i][k], h.wm)
  }

  lemma TookNothing(h: Held, pos: seq<nat>)
    requires Spans(h, pos, pos)
    ensures Took(h, pos, pos, [])
  {
  }

  lemma OneOf(n: nat, e: Entry, d: nat)
    requires e.channel < n
    ensures Owned(Ids(n), [e]) && Of(Ids(n), [e], d) == if e.channel == d then [e] else []
  {
    assert [e][1..] == [];
  }

  lemma InChannel(h: Held, i: nat, k: nat)
    requires Sound(h) && i < |h.recs| && k < |h.recs[i]|
    ensures h.recs[i][k].channel == i && !h.recs[i][k].isLevel
    ensures forall j :: k < j < |h.recs[i]| ==> h.recs[i][k].tick < h.recs[i][j].tick
  {
    assert Rising(h.recs[i], i) && h.recs[i][k] in h.recs[i];
  }

  /** The channel whose next record is the first of all complete ones. */
  predicate IsNext(h: Held, pos: seq<nat>, b: nat)
    requires |pos| == |h.recs|
  {
    && b < |pos| && pos[b] < |h.recs[b]| && !Past(h.recs[b][pos[b]], h.wm) && h.wm.Some?
    && forall i :: 0 <= i < |pos| && pos[i] < |h.recs[i]| && !Past(h.recs[i][pos[i]], h.wm) ==>
      !Before(h.recs[i][pos[i]], h.recs[b][pos[b]])
  }

  lemma NextIsFirst(h: Held, pos: seq<nat>, b: nat)
    requires Sound(h) && |pos| == |h.recs| && IsNext(h, pos, b)
    ensures Rest(h, pos[b := pos[b] + 1], [h.recs[b][pos[b]]])
  {
    var x := h.recs[b][pos[b]];
    InChannel(h, b, pos[b]);
    forall i, k | 0 <= i < |pos| && pos[b := pos[b] + 1][i] <= k < |h.recs[i]|
      ensures Before(x, h.recs[i][k])
    {
      InChannel(h, i, k);
      InChannel(h, i, pos[i]);
      assert !Past(h.recs[i][pos[i]], h.wm) ==> !Before(h.recs[i][pos[i]], x);
    }
  }

  lemma TookOne(h: Held, pos: seq<nat>, b: nat)
    requires Sound(h) && Spans(h, pos, pos) && IsNext(h, pos, b)
    ensures Took(h, pos, pos[b := pos[b] + 1], [h.recs[b][pos[b]]])
  {
    var x := h.recs[b][pos[b]];
    InChannel(h, b, pos[b]);
    NextIsFirst(h, pos, b);
    OneOf(|h.recs|, x, 0);
    forall i | 0 <= i < |pos|
      ensures Of(Ids(|h.recs|), [x], i) == h.recs[i][pos[i]..pos[b := pos[b] + 1][i]]
    {
      OneOf(|h.recs|, x, i);
    }
    hide Of, Sound;
  }

  lemma TookMore(h: Held, from: seq<nat>, to: seq<nat>, s: seq<Entry>, b: nat)
    requires Sound(h) && Took(h, from, to, s) && IsNext(h, to, b)
    ensures Took(h, from, to[b := to[b] + 1], s + [h.recs[b][to[b]]])
  {
    assert Spans(h, to, to);
    hide Took, Sound, IsNext;
    TookOne(h, to, b);
    TookOn(h, from, to, to[b := to[b] + 1], s, [h.recs[b][to[b]]]);
  }

  lemma Joined(s: seq<Entry>, a: nat, b: nat, c: nat)
    requires a <= b <= c <= |s|
    ensures s[a..b] + s[b..c] == s[a..c]
  {
  }

  /** What was read of a channel is what lies between the positions. */
  lemma TookOf(h: Held, a: seq<nat>, b: seq<nat>, s: seq<Entry>, i: nat)
    requires Took(h, a, b, s) && i < |a|
    ensures Owned(Ids(|h.recs|), s) && i < |b| && i < |h.recs| && a[i] <= b[i] <= |h.recs[i]|
    ensures Of(Ids(|h.recs|), s, i) == h.recs[i][a[i]..b[i]]
  {
  }

  lemma TookOfOn(h: Held, a: seq<nat>, b: seq<nat>, c: seq<nat>, s: seq<Entry>, t: seq<Entry>, i: nat)
    requires Took(h, a, b, s) && Took(h, b, c, t) && i < |a|
    ensures Owned(Ids(|h.recs|), s + t) && i < |c| && i < |h.recs| && a[i] <= c[i] <= |h.recs[i]|
    ensures Of(Ids(|h.recs|), s + t, i) == h.recs[i][a[i]..c[i]]
  {
    TookOf(h, a, b, s, i);
    TookOf(h, b, c, t, i);
    hide *;
    OfConcat(Ids(|h.recs|), s, t, i);
    Joined(h.recs[i], a[i], b[i], c[i]);
  }

  /** Where in the store a record that was read lies. */
  lemma WhereTook(h: Held, a: seq<nat>, b: seq<nat>, s: seq<Entry>, x: Entry) returns (i: nat, k: nat)
    requires Took(h, a, b, s) && x in s
    ensures i == x.channel && i < |a| && a[i] <= k < b[i] && h.recs[i][k] == x
  {
    i := x.channel;
    OfHolds(Ids(|h.recs|), s, x);
    assert x in h.recs[i][a[i]..b[i]];
    k :| a[i] <= k < b[i] && h.recs[i][k] == x;
  }

  /** One reading goes on where the last one stopped. */
  lemma TookOn(h: Held, a: seq<nat>, b: seq<nat>, c: seq<nat>, s: seq<Entry>, t: seq<Entry>)
    requires Took(h, a, b, s) && Took(h, b, c, t)
    ensures Took(h, a, c, s + t)
  {
    forall i | 0 <= i < |a|
      ensures Of(Ids(|h.recs|), s + t, i) == h.recs[i][a[i]..c[i]]
    {
      TookOfOn(h, a, b, c, s, t, i);
    }
    hide Of;
    forall e, x | e in s && x in t
      ensures Before(e, x)
    {
      var i, k := WhereTook(h, b, c, t, x);
    }
    hide Before;
    assert Ascending(s + t);
  }

  /** What was read stays what there was to read, however the store grows. */
  lemma TookLater(h: Held, k: Held, a: seq<nat>, b: seq<nat>, s: seq<Entry>)
    requires Took(h, a, b, s) && Grows(h, k)
    ensures Took(k, a, b, s)
  {
    forall i | 0 <= i < |a|
      ensures h.recs[i] <= k.recs[i] && h.recs[i][a[i]..b[i]] == k.recs[i][a[i]..b[i]]
    {
      assert Longer(h.recs[i], k.recs[i], h.wm);
    }
    hide Of;
    forall i, j, e | 0 <= i < |b| && b[i] <= j < |k.recs[i]| && e in s
      ensures Before(e, k.recs[i][j])
    {
      assert Longer(h.recs[i], k.recs[i], h.wm);
      if j < |h.recs[i]| {
        assert k.recs[i][j] == h.recs[i][j];
      }
    }
  }

  /**
   * The records of all channels from pos on, in order, up to the watermark and at most max;
   * not ok if the store has let go of some.
   */
  method ReadMerged(h: Held, pos: seq<nat>, max: nat) returns (ok: bool, out: seq<Entry>, to: seq<nat>)
    requires Sound(h) && |pos| == |h.recs|
    ensures ok <==> InReach(h, pos)
    ensures !ok ==> out == [] && to == pos
    ensures ok ==> Took(h, pos, to, out) && |out| <= max && (|out| < max ==> h.wm.None? || NoneLeft(h, to))
  {
    ok, out, to := true, [], pos;
    for i := 0 to |pos|
      invariant ok <==> forall j :: 0 <= j < i ==> h.first[j] <= pos[j] <= |h.recs[j]|
    {
      if pos[i] < h.first[i] || pos[i] > |h.recs[i]| {
        ok := false;
      }
    }
    if ok {
      TookNothing(h, pos);
    }
    var stop := !ok || h.wm.None?;
    while !stop && |out| < max
      invariant ok ==> Took(h, pos, to, out) && |out| <= max
      invariant !ok ==> stop && out == [] && to == pos
      invariant ok && stop ==> h.wm.None? || NoneLeft(h, to)
      decreases !stop, max - |out|
    {
      var best := NextChannel(h, to);
      if best.None? {
        stop := true;
      } else {
        TookMore(h, pos, to, out, best.value);
        hide Took, IsNext, Sound;
        out := out + [h.recs[best.value][to[best.value]]];
        to := to[best.value := to[best.value] + 1];
      }
    }
  }

  /** The channel holding the next record to read; None if nothing more is complete. */
  method NextChannel(h: Held, pos: seq<nat>) returns (best: Option<nat>)
    requires Sound(h) && Spans(h, pos, pos) && h.wm.Some?
    ensures best.Some? ==> IsNext(h, pos, best.value)
    ensures best.None? ==> NoneLeft(h, pos)
  {
    best := None;
    for i := 0 to |pos|
      invariant best.Some? ==>
        best.value < i && pos[best.value] < |h.recs[best.value]| && !Past(h.recs[best.value][pos[best.value]], h.wm)
      invariant forall j :: 0 <= j < i && pos[j] < |h.recs[j]| && !Past(h.recs[j][pos[j]], h.wm) ==>
        best.Some? && !Before(h.recs[j][pos[j]], h.recs[best.value][pos[best.value]])
    {
      if pos[i] < |h.recs[i]| {
        var e := h.recs[i][pos[i]];
        InChannel(h, i, pos[i]);
        if best.Some? {
          InChannel(h, best.value, pos[best.value]);
        }
        if e.tick <= h.wm.value && (best.None? || e.tick < h.recs[best.value][pos[best.value]].tick) {
          best := Some(i);
        }
      }
    }
    if best.None? {
      forall i, k | 0 <= i < |pos| && pos[i] <= k < |h.recs[i]|
        ensures Past(h.recs[i][k], h.wm)
      {
        InChannel(h, i, pos[i]);
      }
    }
  }
}
