/**
 * One channel of the store over whole runs: any order of records, heartbeats, loss reports
 * and trims. Every state a run reaches keeps the promise of StoreTruth, and the fast queries
 * on it agree with reading every tick.
 */
module StoreRuns {
  import opened Numbers
  import opened StoreChannel
  import opened StoreTruth

  /** Heartbeats held for late losses without a sample rate. */
  const LATE_BEATS := 1024

  /** What happens to a channel. The trims are the ones the store makes to stay in its limit. */
  datatype Op =
    | Put(tick: nat, level: nat)
    | Beat(tick: nat, level: nat)
    | Lose(start: nat, end: nat)
    | TrimAnchor(i: nat)
    | TrimLoss(i: nat)
    | Drop(n: nat)

  /** A channel, its data channel's held heartbeats, what happened, and the first tick still to come. */
  datatype Track = Track(c: Chan, ring: seq<Mark>, h: History, next: nat)

  const BEGIN := Track(NewChan(), [], History({}, {}), 0)

  /** The heartbeats still held when one of tick comes; late is their lifetime in ticks, or 0. */
  function Held(ring: seq<Mark>, tick: nat, late: nat): seq<Mark>
    decreases |ring|
  {
    if ring != [] && (if late > 0 then ring[0].tick + late < tick else |ring| >= LATE_BEATS)
    then Held(ring[1..], tick, late)
    else ring
  }

  function Step(t: Track, late: nat, op: Op): Track {
    match op
    case Put(tick, level) =>
      if Accepts(t.c, tick)
      then Track(ApplyRecord(t.c, tick, level), t.ring, t.h.(recs := t.h.recs + {tick}), tick + 1)
      else t
    case Beat(tick, level) =>
      t.(c := ApplyBeat(t.c, tick, level), ring := Held(t.ring, tick, late) + [Mark(tick, level)], next := tick + 1)
    case Lose(start, end) =>
      if end < start then t
      else t.(c := ApplyLoss(t.c, t.ring, start, end), h := t.h.(losses := t.h.losses + {Ival(start, end)}))
    case TrimAnchor(i) =>
      if i < |t.c.anchors| then t.(c := TrimTo(t.c, t.c.anchors[i].tick)) else t
    case TrimLoss(i) =>
      if i < |t.c.ivals| then t.(c := TrimTo(t.c, t.c.ivals[i].end)) else t
    case Drop(n) =>
      if 0 < n <= |t.c.recs| then t.(c := DropBlock(t.c, n)) else t
  }

  function Run(t: Track, late: nat, ops: seq<Op>): Track
    decreases |ops|
  {
    if ops == [] then t else Run(Step(t, late, ops[0]), late, ops[1..])
  }

  /** Records and heartbeats are right, and heartbeats come in order. Losses come at any time. */
  ghost predicate Allowed(t: Track, op: Op, right: Rule) {
    match op
    case Put(tick, level) => level < 2 && right(tick, level)
    case Beat(tick, level) =>
      level < 2 && right(tick, level) && tick < OPEN && forall x :: x in t.ring ==> x.tick <= tick
    case Lose(start, end) => end < OPEN
    case _ => true
  }

  ghost predicate AllAllowed(t: Track, late: nat, ops: seq<Op>, right: Rule)
    decreases |ops|
  {
    ops == [] || (Allowed(t, ops[0], right) && AllAllowed(Step(t, late, ops[0]), late, ops[1..], right))
  }

  ghost predicate TrackSafe(t: Track, right: Rule) {
    Safe(t.c, t.ring, right, t.h)
  }

  lemma BeginSafe(right: Rule)
    ensures TrackSafe(BEGIN, right)
  {
  }

  lemma {:induction false} HeldIsSuffix(ring: seq<Mark>, tick: nat, late: nat) returns (e: nat)
    ensures e <= |ring| && Held(ring, tick, late) == ring[e..]
    decreases |ring|
  {
    if ring != [] && (if late > 0 then ring[0].tick + late < tick else |ring| >= LATE_BEATS) {
      var d := HeldIsSuffix(ring[1..], tick, late);
      e := d + 1;
    } else {
      e := 0;
    }
  }

  lemma StepSafe(t: Track, late: nat, op: Op, right: Rule)
    requires TrackSafe(t, right) && Allowed(t, op, right)
    ensures TrackSafe(Step(t, late, op), right)
  {
    hide Safe, ApplyRecord, ApplyBeat, ApplyLoss, TrimTo, DropBlock, Held, Accepts;
    match op
    case Put(tick, level) =>
      if Accepts(t.c, tick) {
        RecordSafe(t.c, t.ring, right, t.h, tick, level);
      }
    case Beat(tick, level) =>
      var e := HeldIsSuffix(t.ring, tick, late);
      BeatSafe(t.c, t.ring, right, t.h, tick, level);
      RingSafe(ApplyBeat(t.c, tick, level), t.ring, right, t.h, Mark(tick, level), e);
    case Lose(start, end) =>
      if start <= end {
        LossSafe(t.c, t.ring, right, t.h, start, end);
      }
    case TrimAnchor(i) =>
      if i < |t.c.anchors| {
        assert t.c.anchors[i] in t.c.anchors;
        TrimSafe(t.c, t.ring, right, t.h, t.c.anchors[i].tick);
      }
    case TrimLoss(i) =>
      if i < |t.c.ivals| {
        assert t.c.ivals[i] in t.c.ivals;
        TrimSafe(t.c, t.ring, right, t.h, t.c.ivals[i].end);
      }
    case Drop(n) =>
      if 0 < n <= |t.c.recs| {
        DropSafe(t.c, t.ring, right, t.h, n);
      }
  }

  lemma {:induction false} RunSafe(t: Track, late: nat, ops: seq<Op>, right: Rule)
    requires TrackSafe(t, right) && AllAllowed(t, late, ops, right)
    ensures TrackSafe(Run(t, late, ops), right)
    decreases |ops|
  {
    hide TrackSafe, Step, Allowed;
    if ops != [] {
      StepSafe(t, late, ops[0], right);
      RunSafe(Step(t, late, ops[0]), late, ops[1..], right);
    }
  }

  /**
   * The store never reports a wrong level. After every run of true records, true heartbeats,
   * losses reported early, late or overlapping, and trims, the level at every tick held, up
   * to which each missing change lies in a reported loss, is unknown or the true one.
   */
  lemma RunNeverWrong(late: nat, ops: seq<Op>, signal: Signal, w: nat, tick: nat)
    requires AllAllowed(BEGIN, late, ops, Says(signal))
    requires Explained(signal, Run(BEGIN, late, ops).h, w) && tick <= w && tick < OPEN
    ensures
      var c := Run(BEGIN, late, ops).c;
      LevelAt(c, tick) == UNKNOWN || LevelAt(c, tick) == signal(tick)
  {
    BeginSafe(Says(signal));
    RunSafe(BEGIN, late, ops, Says(signal));
    var t := Run(BEGIN, late, ops);
    if !t.c.dropped || tick >= t.c.cover {
      hide Safe;
      NeverWrong(t.c, t.ring, signal, t.h, w, tick);
    }
  }
}
