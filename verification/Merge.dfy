/** The merge as it runs: queues filled and emptied in place, handing over as it goes. */
module Merge {
  import opened Numbers
  import opened MergeOrder
  import opened MergeMachine

  class Merge {
    const owner: Owners
    const block: seq<seq<nat>>
    var q: seq<seq<Entry>>
    var wm: seq<Option<nat>>
    var released: Option<nat>
    /** What was handed over. */
    var given: seq<Out>

    function Y(): Layout {
      Layout(owner, seq(|block|, d requires 0 <= d < |block| => block[d] == []))
    }

    function View(): State
      reads this
    {
      State(q, wm, released)
    }

    /** Every data channel has a queue, and its channels are its own. */
    predicate Valid()
      reads this
    {
      Fits(Y(), View())
    }

    /** channels are the enabled ones; block says which of them each data channel carries. */
    constructor (owner: Owners, block: seq<seq<nat>>)
      ensures Valid() && View() == Start(|block|) && given == []
      ensures this.owner == owner && this.block == block
    {
      this.owner, this.block := owner, block;
      q, wm, released := seq(|block|, _ => []), seq(|block|, _ => None), None;
      given := [];
    }

    /** The least head among the queues, by Before, no later than the limit. */
    method NextQueue(limit: Option<nat>) returns (best: Option<nat>)
      ensures best == Best(q, limit, |q|)
    {
      best := None;
      for d := 0 to |q|
        invariant best == Best(q, limit, d)
      {
        if q[d] != [] && Within(q[d][0], limit) {
          if best.None? || Before(q[d][0], q[best.value][0]) {
            best := Some(d);
          }
        }
      }
    }

    /** The lowest watermark of the data channels that carry channels; None if one has none yet. */
    method LimitNow() returns (limit: Option<nat>)
      requires Valid()
      ensures limit == if Ready(Y(), wm) then Some(Lowest(Y(), wm, |wm|)) else None
    {
      var low, any := NO_LIMIT, false;
      for d := 0 to |wm|
        invariant low == Lowest(Y(), wm, d)
        invariant any == exists k :: 0 <= k < d && !Y().empty[k]
        invariant forall k :: 0 <= k < d && !Y().empty[k] ==> wm[k].Some?
      {
        if block[d] != [] {
          if wm[d].None? {
            return None;
          }
          if wm[d].value < low {
            low := wm[d].value;
          }
          any := true;
        }
      }
      limit := if any then Some(low) else None;
    }

    /** Hands over what is within the limit, or everything; the last tick of it or of before. */
    method GiveAll(limit: Option<nat>, from: nat) returns (last: nat, ghost gave: seq<Entry>)
      modifies this`q, this`given
      ensures Drain(old(q), limit) == (gave, q) && given == old(given) + Gives(gave) && last == LastTick(gave, from)
    {
      ghost var was := q;
      hide Best, Drain;
      last, gave := from, [];
      var best := NextQueue(limit);
      DrainOnce(q, limit);
      assert [] + Drain(q, limit).0 == Drain(q, limit).0 && given + Gives([]) == given;
      while best.Some?
        invariant |q| == |was| && best == Best(q, limit, |q|)
        invariant Drain(was, limit) == (gave + Drain(q, limit).0, Drain(q, limit).1)
        invariant given == old(given) + Gives(gave) && last == LastTick(gave, from)
        invariant best.None? ==> Drain(q, limit) == ([], q)
        decreases Total(q)
      {
        var e := q[best.value][0];
        TotalPop(q, best.value);
        DrainStep(q, limit);
        GiveMore(gave, from, e, Drain(q[best.value := q[best.value][1..]], limit).0);
        assert given + [Gave(e)] == old(given) + Gives(gave + [e]);
        if e.tick > last {
          last := e.tick;
        }
        q := q[best.value := q[best.value][1..]];
        given, gave := given + [Gave(e)], gave + [e];
        DrainOnce(q, limit);
        best := NextQueue(limit);
      }
      assert gave + [] == gave;
    }

    /** The same, and says how far it got. */
    method HandOver(limit: Option<nat>)
      requires Valid()
      modifies this`q, this`released, this`given
      ensures Valid()
      ensures
        var (s, out) := Release(old(View()), limit);
        View() == s && given == old(given) + out
    {
      ghost var s := View();
      hide Drain, LastTick, Gives;
      var last, gave := GiveAll(limit, if released.Some? then released.value else 0);
      ReleaseIs(s, limit, gave, q);
      if limit.Some? {
        last := limit.value;
      }
      if released.None? || last > released.value {
        released := Some(last);
        assert given + [Advanced(last)] == old(given) + (Gives(gave) + [Advanced(last)]);
        given := given + [Advanced(last)];
      }
    }

    method ReleaseNow()
      requires Valid()
      modifies this`q, this`released, this`given
      ensures Valid()
      ensures
        var (s, out) := ReleaseReady(Y(), old(View()));
        View() == s && given == old(given) + out
    {
      hide Release, Lowest, Ready;
      var limit := LimitNow();
      if limit.Some? {
        HandOver(limit);
      }
    }

    /** Appends to the queue of the channel's data channel, if it has one. */
    method Record(tick: nat, channel: nat, level: nat)
      requires Valid()
      modifies this`q
      ensures Valid() && View() == Run(Y(), old(View()), EntryIn(Entry(tick, channel, level, false))).0
    {
      Push(Entry(tick, channel, level, false));
    }

    /** Appends a level entry to the queue of the channel's data channel, if it has one. */
    method Level(tick: nat, channel: nat, level: nat)
      requires Valid()
      modifies this`q
      ensures Valid() && View() == Run(Y(), old(View()), EntryIn(Entry(tick, channel, level, true))).0
    {
      Push(Entry(tick, channel, level, true));
    }

    /** What an entry brings in: nothing, if its channel is not of the capture. */
    function EntryIn(e: Entry): seq<In> {
      if e.channel < |owner| && owner[e.channel] < |block| then [Arrive(owner[e.channel], e)] else []
    }

    method Push(e: Entry)
      requires Valid()
      modifies this`q
      ensures Valid() && View() == Run(Y(), old(View()), EntryIn(e)).0 && Run(Y(), old(View()), EntryIn(e)).1 == []
    {
      if e.channel < |owner| && owner[e.channel] < |q| {
        var d := owner[e.channel];
        RunArrive(Y(), View(), d, e);
        q := q[d := q[d] + [e]];
      }
    }

    /** Empties the queues, in one sorted run. */
    method Finish()
      requires Valid()
      modifies this`q, this`released, this`given
      ensures Valid()
      ensures
        var (s, out) := Step(Y(), old(View()), Flush);
        View() == s && given == old(given) + out
    {
      hide Release;
      HandOver(None);
    }

    /**
     * Appends the levels to queue d, raises its watermark, and releases up to the lowest of all:
     * the step Mark of the machine after Arrive for each level.
     */
    method Heartbeat(d: nat, tick: nat, levels: seq<nat>)
      requires Valid() && forall k :: 0 <= k < |block| ==> forall c :: c in block[k] ==> c < |owner| && owner[c] == k
      modifies this`q, this`wm, this`released, this`given
      ensures Valid()
      ensures
        var (s, out) := Run(Y(), old(View()), BeatIn(d, tick, levels));
        View() == s && given == old(given) + out
    {
      if d < |block| {
        Levels(d, tick, levels, |block[d]|);
        ghost var t := View();
        BeatRuns(Y(), old(View()), LevelsIn(d, tick, levels, |block[d]|), d, tick);
        if wm[d].None? || tick > wm[d].value {
          wm := wm[d := Some(tick)];
        }
        assert View() == t.(wm := t.wm[d := Raise(t.wm[d], tick)]);
        hide ReleaseReady, Run, LevelsIn;
        ReleaseNow();
      } else {
        assert given + [] == given;
      }
    }

    /** The levels of the first n channels of data channel d. */
    function LevelsIn(d: nat, tick: nat, levels: seq<nat>, n: nat): seq<In>
      requires d < |block| && n <= |block[d]|
    {
      if n == 0 then []
      else LevelsIn(d, tick, levels, n - 1) + [Arrive(d, Entry(tick, block[d][n - 1], if n - 1 < |levels| then levels[n - 1] else 0, true))]
    }

    function BeatIn(d: nat, tick: nat, levels: seq<nat>): seq<In> {
      if d < |block| then LevelsIn(d, tick, levels, |block[d]|) + [Mark(d, tick)] else []
    }

    method Levels(d: nat, tick: nat, levels: seq<nat>, n: nat)
      requires Valid() && d < |block| && n <= |block[d]|
      requires forall c :: c in block[d] ==> c < |owner| && owner[c] == d
      modifies this`q
      ensures Valid() && Run(Y(), old(View()), LevelsIn(d, tick, levels, n)) == (View(), [])
    {
      hide Step;
      ghost var s := View();
      for i := 0 to n
        invariant Valid() && Run(Y(), s, LevelsIn(d, tick, levels, i)) == (View(), [])
      {
        var e := Entry(tick, block[d][i], if i < |levels| then levels[i] else 0, true);
        assert block[d][i] in block[d];
        RunConcat(Y(), s, LevelsIn(d, tick, levels, i), [Arrive(d, e)]);
        RunArrive(Y(), View(), d, e);
        q := q[d := q[d] + [e]];
      }
    }

    /** Raises every watermark to tick at once and releases: the step MarkAll of the machine. */
    method Advance(tick: nat)
      requires Valid()
      modifies this`q, this`wm, this`released, this`given
      ensures Valid()
      ensures
        var (s, out) := Step(Y(), old(View()), MarkAll(tick));
        View() == s && given == old(given) + out
    {
      ghost var w := wm;
      for d := 0 to |wm|
        invariant |wm| == |w| && q == old(q) && released == old(released) && given == old(given)
        invariant forall k :: 0 <= k < d ==> wm[k] == Raise(w[k], tick)
        invariant forall k :: d <= k < |wm| ==> wm[k] == w[k]
      {
        if wm[d].None? || tick > wm[d].value {
          wm := wm[d := Some(tick)];
        }
      }
      assert wm == RaiseAll(w, tick);
      hide Release, Ready, Lowest, RaiseAll;
      ReleaseNow();
    }
  }

  lemma DrainOnce(q: seq<seq<Entry>>, limit: Option<nat>)
    ensures Best(q, limit, |q|).None? ==> Drain(q, limit) == ([], q)
  {
  }

  lemma ReleaseIs(s: State, limit: Option<nat>, gave: seq<Entry>, rest: seq<seq<Entry>>)
    requires Drain(s.q, limit) == (gave, rest)
    ensures
      var last := LastOf(s, gave, limit);
      Release(s, limit) == if s.released.None? || last > From(s)
                           then (s.(q := rest, released := Some(last)), Gives(gave) + [Advanced(last)])
                           else (s.(q := rest), Gives(gave))
  {
  }

  lemma GiveMore(s: seq<Entry>, from: nat, e: Entry, rest: seq<Entry>)
    ensures Gives(s + [e]) == Gives(s) + [Gave(e)] && s + ([e] + rest) == s + [e] + rest
    ensures LastTick(s + [e], from) == Max(LastTick(s, from), e.tick)
  {
    LastTickMore(s, from, e);
  }

  lemma {:induction false} LastTickMore(s: seq<Entry>, from: nat, e: Entry)
    ensures LastTick(s + [e], from) == Max(LastTick(s, from), e.tick)
  {
    if s != [] {
      assert (s + [e])[1..] == s[1..] + [e];
      LastTickMore(s[1..], Max(from, s[0].tick), e);
    } else {
      assert ([] + [e])[1..] == [];
    }
  }

  lemma BeatRuns(y: Layout, s: State, ins: seq<In>, d: nat, tick: nat)
    requires MergeMachine.Fits(y, s) && d < |s.q| && Run(y, s, ins).1 == []
    ensures
      var t := Run(y, s, ins).0;
      && MergeMachine.Fits(y, t) && |t.wm| == |s.wm|
      && Run(y, s, ins + [Mark(d, tick)]) == ReleaseReady(y, t.(wm := t.wm[d := Raise(t.wm[d], tick)]))
  {
    hide ReleaseReady;
    var t := Run(y, s, ins).0;
    RunConcat(y, s, ins, [Mark(d, tick)]);
    var r := Step(y, t, Mark(d, tick));
    assert [Mark(d, tick)][0] == Mark(d, tick) && Run(y, r.0, [Mark(d, tick)][1..]) == (r.0, []);
    assert r.1 + [] == r.1 && [] + r.1 == r.1;
    assert Run(y, t, [Mark(d, tick)]) == r;
    assert d < |t.q| && |t.wm| == |s.wm|;
    assert r == ReleaseReady(y, t.(wm := t.wm[d := Raise(t.wm[d], tick)]));
    assert Run(y, s, ins + [Mark(d, tick)]) == (r.0, r.1);
  }

  lemma RunArrive(y: Layout, s: State, d: nat, e: Entry)
    requires MergeMachine.Fits(y, s) && d < |s.q|
    ensures Run(y, s, [Arrive(d, e)]) == (s.(q := s.q[d := s.q[d] + [e]]), [])
  {
    var t := s.(q := s.q[d := s.q[d] + [e]]);
    var none: seq<Out> := [];
    assert [Arrive(d, e)][0] == Arrive(d, e) && [Arrive(d, e)][1..] == [];
    assert Step(y, s, Arrive(d, e)) == (t, none) && Run(y, t, []) == (t, none);
    assert none + none == none;
  }
}
