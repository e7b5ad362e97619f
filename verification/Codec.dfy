/** The session's items as it runs: emitted into the queue and released from it, in place. */
module Codec {
  import opened Numbers
  import opened CodecQueue

  class Session {
    const hold: nat
    var pending: seq<Held>
    var horizons: seq<nat>
    var tick: nat
    var finished: bool
    var nextId: nat
    ghost var emitted: seq<Held>
    ghost var released: seq<Held>
    ghost var floor: nat

    ghost function View(): Queue
      reads this
    {
      Queue(pending, horizons, tick, finished, nextId, emitted, released, floor)
    }

    constructor (decs: nat, hold: nat)
      ensures View() == Start(decs) && this.hold == hold
    {
      this.hold := hold;
      pending, horizons, tick, finished, nextId := [], seq(decs, _ => 0), 0, false, 0;
      emitted, released, floor := [], [], 0;
    }

    /** The backward scan finds the place the specified insertion gives. */
    method PendingInsert(x: Held)
      modifies this`pending
      ensures pending == Insert(old(pending), x)
    {
      ghost var was := pending;
      var at: nat := |pending|;
      assert pending[..at] == pending && pending[at..] == [];
      assert Insert(was, x) + [] == Insert(was, x);
      while at > 0 && pending[at - 1].start > x.start
        invariant at <= |pending| && pending == was
        invariant Insert(was, x) == Insert(was[..at], x) + was[at..]
      {
        assert was[..at][..at - 1] == was[..at - 1] && was[..at][at - 1] == was[at - 1];
        assert Insert(was[..at - 1], x) + [was[at - 1]] + was[at..] == Insert(was[..at - 1], x) + was[at - 1..];
        at := at - 1;
      }
      pending := pending[..at] + [x] + pending[at..];
    }

    /** A finished item with kids children, numbered before them. */
    method Emit(dec: nat, start: nat, end: nat, kids: nat)
      modifies this`pending, this`nextId, this`emitted
      ensures View() == AfterEmit(old(View()), dec, start, end, kids)
    {
      hide Insert;
      var x := Held(dec, start, end, nextId + 1);
      nextId := nextId + 1 + kids;
      PendingInsert(x);
      emitted := emitted + [x];
    }

    /** Everything up to and including t has been given; the decoders declare from there. */
    method Advance(t: nat)
      modifies this`tick
      ensures View() == Step(old(View()), hold, Tick(t))
    {
      tick := t;
    }

    /** Decoder d's turn in an advance to t: its horizon, and the lower ones it asks for. */
    method Turn(d: nat, t: nat, asked: seq<nat>)
      requires d < |horizons|
      modifies this`horizons
      ensures View() == Step(old(View()), hold, Declare(d, LowestAsked(t, asked)))
      ensures forall a :: a in asked ==> horizons[d] <= Min(a, t)
    {
      ghost var was := horizons;
      horizons := horizons[d := t];
      for i := 0 to |asked|
        invariant horizons == was[d := LowestAsked(t, asked[..i])]
      {
        assert asked[..i + 1][..i] == asked[..i];
        if asked[i] < horizons[d] {
          horizons := horizons[d := asked[i]];
        }
      }
      assert asked[..|asked|] == asked;
      LowestAskedIs(t, asked);
    }

    method Finish()
      modifies this`finished
      ensures View() == Step(old(View()), hold, End)
    {
      finished := true;
    }

    /** The next item to release, None if none can be yet. */
    method NextItem() returns (r: Option<Held>)
      modifies this`pending, this`released, this`floor
      ensures View() == AfterNext(old(View()), hold)
      ensures r == if Due(old(View()), hold) then Some(old(pending)[0]) else None
    {
      if |pending| == 0 {
        return None;
      }
      var it := pending[0];
      if !finished {
        var horizon := NEVER;
        for i := 0 to |horizons|
          invariant horizon == Lowest(horizons, i)
          invariant View() == old(View())
        {
          if horizons[i] < horizon {
            horizon := horizons[i];
          }
        }
        hide Lowest;
        floor := Max(floor, horizon);
        if it.start >= horizon || it.end + hold > tick {
          return None;
        }
      }
      pending := pending[1..];
      released := released + [it];
      r := Some(it);
    }
  }
}
