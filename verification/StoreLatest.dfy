/**
 * What the store makes of the last thing it was given: after a record or a heartbeat the
 * channel's level is known, and is that one, as long as no loss told reaches past it.
 */
module StoreLatest {
  import opened Numbers
  import opened StoreChannel
  import opened StoreTruth
  import opened StoreRuns
  import opened StoreQueries
  import StoreTrims

  /** The latest record or heartbeat given. The store takes no record past half of its tick range. */
  function Latest(m: Option<Mark>, ops: seq<Op>): Option<Mark>
    decreases |ops|
  {
    if ops == [] then m else Latest(Given(m, ops[0]), ops[1..])
  }

  function Given(m: Option<Mark>, op: Op): Option<Mark> {
    match op
    case Put(tick, level) => if tick <= OPEN / 2 then Some(Mark(tick, level)) else m
    case Beat(tick, level) => Some(Mark(tick, level))
    case _ => m
  }

  /** When a loss is told the channel still holds the newest record it took. */
  predicate HoldsNewest(c: Chan) {
    c.haveLast ==> c.recs != []
  }

  predicate NewestHeld(t: Track, late: nat, ops: seq<Op>)
    decreases |ops|
  {
    ops == [] || ((ops[0].Lose? ==> HoldsNewest(t.c)) && NewestHeld(Step(t, late, ops[0]), late, ops[1..]))
  }

  // ----- the invariant

  predicate NoneOpen(spans: seq<Gap>) {
    forall s :: s in spans ==> s.known != OPEN
  }

  /** A span waits only for what is still to come. */
  predicate Waiting(spans: seq<Gap>, next: nat) {
    forall s :: s in spans && s.from < next ==> s.known < next
  }

  /** The last thing given is held: as a record, or among the heartbeats held. */
  predicate LastHeld(c: Chan, ring: seq<Mark>, next: nat) {
    && (c.haveLast ==> c.lastTick < next)
    && (c.recs != [] ==> c.haveLast && c.recs[|c.recs| - 1].tick == c.lastTick)
    && (next > 0 ==> (ring != [] && ring[|ring| - 1].tick == next - 1) || (c.haveLast && c.lastTick == next - 1))
  }

  ghost predicate Settled(t: Track, m: Option<Mark>) {
    && Waiting(t.c.spans, t.next) && LastHeld(t.c, t.ring, t.next)
    && (t.c.dropped && t.c.cover >= t.next ==> Hole(t.c.spans, t.c.cover)) && (t.c.dropped ==> t.c.cover < OPEN)
    && t.next == (if m.Some? then m.value.tick + 1 else 0)
    && (m.Some? && NoneOpen(t.c.spans) ==> t.c.cur == m.value.level)
  }

  lemma BeginSettled()
    ensures Settled(BEGIN, None)
  {
  }

  lemma ExactSpans(t: Track, right: Rule)
    requires TrackSafe(t, right) && Exact(t)
    ensures SpansOk(t.c.spans) && Past(t.c, t.ring, t.next)
  {
    SafeSorted(t, right);
    SortedSpans(t.c, t.ring);
    hide TrackSafe, Sorted, AllTrue;
  }

  /** A hole that reaches past what was given is in an open span. */
  lemma HoleOpen(spans: seq<Gap>, x: nat, next: nat)
    requires SpansOk(spans) && Hole(spans, x) && x >= next && forall s :: s in spans ==> s.known == OPEN || s.known < next
    ensures exists s :: s in spans && s.known == OPEN && s.start <= x < s.from
  {
    var s :| s in spans && s.start <= x < s.from;
    SpanOf(spans, s);
  }

  // ----- records and heartbeats

  /** News at tick that closes the open span if it can. */
  lemma NewsSettles(a: seq<Gap>, b: seq<Gap>, tick: nat, next: nat)
    requires ClosedAt(a, b, tick) && next <= tick + 1
    requires forall s :: s in a ==> s.known == OPEN || s.known < next
    ensures Waiting(b, tick + 1) && forall x: nat :: Hole(a, x) ==> Hole(b, x)
  {
    forall x: nat | Hole(a, x)
      ensures Hole(b, x)
    {
      var s :| s in a && s.start <= x < s.from;
      assert s in b || s.(known := tick) in b;
    }
  }

  lemma PutAccepted(t: Track, m: Option<Mark>, tick: nat)
    requires LastHeld(t.c, t.ring, t.next) && t.next <= tick
    ensures Accepts(t.c, tick) <==> tick <= OPEN / 2
  {
  }

  lemma PutHeld(c: Chan, ring: seq<Mark>, next: nat, tick: nat, level: nat)
    requires LastHeld(c, ring, next) && next <= tick
    ensures LastHeld(ApplyRecord(c, tick, level), ring, tick + 1)
  {
    hide CloseOpen;
  }

  lemma MakeSettled(t: Track, m: Option<Mark>)
    requires Waiting(t.c.spans, t.next) && LastHeld(t.c, t.ring, t.next) && m.Some? && t.next == m.value.tick + 1
    requires t.c.dropped && t.c.cover >= t.next ==> Hole(t.c.spans, t.c.cover)
    requires t.c.dropped ==> t.c.cover < OPEN
    requires NoneOpen(t.c.spans) ==> t.c.cur == m.value.level
    ensures Settled(t, m)
  {
  }

  lemma SettledParts(t: Track, m: Option<Mark>)
    requires Settled(t, m)
    ensures Waiting(t.c.spans, t.next) && LastHeld(t.c, t.ring, t.next)
    ensures t.c.dropped ==> t.c.cover < OPEN && (t.c.cover >= t.next ==> Hole(t.c.spans, t.c.cover))
    ensures m.Some? && NoneOpen(t.c.spans) ==> t.c.cur == m.value.level
    ensures t.next == if m.Some? then m.value.tick + 1 else 0
  {
  }

  lemma SpansPast(c: Chan, ring: seq<Mark>, next: nat)
    requires Past(c, ring, next)
    ensures forall s :: s in c.spans ==> s.known == OPEN || s.known < next
  {
  }

  lemma PutSettles(t: Track, m: Option<Mark>, late: nat, tick: nat, level: nat, right: Rule)
    requires TrackSafe(t, right) && Exact(t) && Settled(t, m) && t.next <= tick && level < 2
    ensures Settled(Step(t, late, Put(tick, level)), Given(m, Put(tick, level)))
  {
    hide TrackSafe, Exact, Settled, Accepts, CloseOpen, ClosedAt, SpansOk, Past, Waiting, LastHeld, Hole, NoneOpen;
    SettledParts(t, m);
    PutAccepted(t, m, tick);
    if tick <= OPEN / 2 {
      var d := ApplyRecord(t.c, tick, level);
      ExactSpans(t, right);
      SpansPast(t.c, t.ring, t.next);
      CloseOpenIs(t.c.spans, tick);
      NewsSettles(t.c.spans, d.spans, tick, t.next);
      PutHeld(t.c, t.ring, t.next, tick, level);
      MakeSettled(Step(t, late, Put(tick, level)), Some(Mark(tick, level)));
    }
  }

  lemma BeatHeld(c: Chan, ring: seq<Mark>, next: nat, late: nat, tick: nat, level: nat)
    requires LastHeld(c, ring, next) && next <= tick + 1
    ensures LastHeld(ApplyBeat(c, tick, level), Held(ring, tick, late) + [Mark(tick, level)], tick + 1)
  {
    hide CloseOpen, Keeps, AnchorPut, Held;
  }

  lemma BeatSettles(t: Track, m: Option<Mark>, late: nat, tick: nat, level: nat, right: Rule)
    requires TrackSafe(t, right) && Exact(t) && Settled(t, m) && t.next <= tick + 1
    ensures Settled(Step(t, late, Beat(tick, level)), Given(m, Beat(tick, level)))
  {
    hide TrackSafe, Exact, Settled, Keeps, CloseOpen, ClosedAt, SpansOk, Past, Waiting, LastHeld, Hole, NoneOpen, AnchorPut, Held;
    SettledParts(t, m);
    var d := ApplyBeat(t.c, tick, level);
    ExactSpans(t, right);
    SpansPast(t.c, t.ring, t.next);
    if Keeps(t.c, tick, level) {
      CloseOpenIs(t.c.spans, tick);
      NewsSettles(t.c.spans, d.spans, tick, t.next);
    } else {
      NotKept(t, m, tick, level);
    }
    BeatHeld(t.c, t.ring, t.next, late, tick, level);
    MakeSettled(Step(t, late, Beat(tick, level)), Some(Mark(tick, level)));
  }

  /** A heartbeat not kept comes before what the open span waits for, or says what is known. */
  lemma NotKept(t: Track, m: Option<Mark>, tick: nat, level: nat)
    requires SpansOk(t.c.spans) && Past(t.c, t.ring, t.next) && t.next <= tick + 1 && !Keeps(t.c, tick, level)
    ensures Waiting(t.c.spans, tick + 1) && (NoneOpen(t.c.spans) ==> t.c.cur == level)
  {
    var s, n := t.c.spans, |t.c.spans|;
    forall x | x in s && x.from < tick + 1
      ensures x.known < tick + 1
    {
      var i :| 0 <= i < n && s[i] == x;
      if i < n - 1 {
        assert s[i].known < s[n - 1].start && GapOk(s[n - 1]);
      }
    }
    assert n > 0 ==> s[n - 1] in s;
  }

  // ----- losses

  lemma ResolveOpen(c: Chan, ring: seq<Mark>, from: nat, next: nat)
    requires Past(c, ring, next) && from >= next
    ensures Resolve(c, ring, from) == OPEN
  {
    NoneFrom(c.recs, from, next);
    NoneFrom(c.anchors, from, next);
    NoneFrom(ring, from, next);
    hide CountLt;
  }

  lemma NoneFrom(m: seq<Mark>, from: nat, next: nat)
    requires Before(m, next) && from >= next
    ensures CountLt(m, from) == |m|
  {
    assert forall i :: 0 <= i < |m| ==> m[i] in m;
  }

  /** A span that waits for no more than what was given ends at what is held of it. */
  lemma ResolveLast(c: Chan, ring: seq<Mark>, from: nat, next: nat)
    requires Sorted(c, ring) && LastHeld(c, ring, next) && HoldsNewest(c) && from < next <= OPEN
    ensures Resolve(c, ring, from) < next
  {
    hide SpansOk;
    var i, k := CountLt(c.recs, from), CountLt(ring, from);
    ResolveBelow(c, ring, from);
    if ring != [] && ring[|ring| - 1].tick == next - 1 {
      assert k < |ring|;
      assert ring[k].tick <= ring[|ring| - 1].tick;
    } else {
      assert i < |c.recs|;
      assert c.recs[i].tick <= c.recs[|c.recs| - 1].tick;
    }
  }

  lemma ResolveBelow(c: Chan, ring: seq<Mark>, from: nat)
    ensures var i := CountLt(c.recs, from); i < |c.recs| && c.recs[i].tick < OPEN ==> Resolve(c, ring, from) <= c.recs[i].tick
    ensures var k := CountLt(ring, from); k < |ring| ==> Resolve(c, ring, from) <= ring[k].tick
  {
    hide CountLt;
  }

  lemma NewWaits(a: seq<Gap>, b: seq<Gap>, m: Gap, next: nat)
    requires TookUp(a, b, m) && Waiting(a, next) && (m.from < next ==> m.known < next)
    ensures Waiting(b, next)
  {
  }

  lemma NewOpen(c: Chan, ring: seq<Mark>, b: seq<Gap>, m: Gap, next: nat)
    requires TookUp(c.spans, b, m) && Waiting(c.spans, next) && Past(c, ring, next) && m.known == Resolve(c, ring, m.from)
    requires NoneOpen(b)
    ensures NoneOpen(c.spans)
  {
    hide Past, Resolve;
    assert next <= OPEN by { PastOpen(c, ring, next); }
    if m.from >= next {
      ResolveOpen(c, ring, m.from, next);
    }
    assert m in b && m.from < next;
    assert forall s :: s in c.spans && s.known == OPEN ==> s.from >= next;
    assert forall s :: s in c.spans && s.known == OPEN ==> s in b;
  }

  lemma PastOpen(c: Chan, ring: seq<Mark>, next: nat)
    requires Past(c, ring, next)
    ensures next <= OPEN
  {
  }

  lemma LossLeaves(c: Chan, ring: seq<Mark>, start: nat, end: nat)
    ensures
      var d, (spans, m) := ApplyLoss(c, ring, start, end), SpansWith(c, ring, start, end + 1);
      && d.spans == spans && d.recs == c.recs && d.haveLast == c.haveLast && d.lastTick == c.lastTick
      && SameTrim(c, d) && d.cur == if m.known == OPEN then UNKNOWN else c.cur
  {
    hide SpansWith, Grounded, AnchorPut, IvalAdd;
  }

  lemma LossSettles(t: Track, m: Option<Mark>, start: nat, end: nat, right: Rule)
    requires TrackSafe(t, right) && Exact(t) && Settled(t, m) && HoldsNewest(t.c) && start <= end < OPEN
    ensures Settled(t.(c := ApplyLoss(t.c, t.ring, start, end)), m)
  {
    var c, d := t.c, ApplyLoss(t.c, t.ring, start, end);
    hide TrackSafe, Exact, SpansOk, Past, SpansWith, Resolve, AllTrue, Sorted, TookUp, ApplyLoss;
    ExactSpans(t, right);
    SafeSorted(t, right);
    LossLeaves(c, t.ring, start, end);
    SpansWithTakesUp(c, t.ring, start, end + 1);
    var (spans, n) := SpansWith(c, t.ring, start, end + 1);
    PastOpen(c, t.ring, t.next);
    if n.from < t.next {
      ResolveLast(c, t.ring, n.from, t.next);
    }
    NewWaits(c.spans, spans, n, t.next);
    RootsKept(c.spans, spans, n, c.cover);
    TookUpParts(c.spans, spans, n);
    if NoneOpen(spans) {
      NewOpen(c, t.ring, spans, n, t.next);
    }
    hide Waiting, Hole;
  }

  // ----- trims

  /** What a trim at a tick leaves of the spans. */
  lemma TrimSpans(a: seq<Gap>, at: nat, next: nat)
    requires SpansOk(a) && Waiting(a, next) && at < OPEN
    ensures
      var b := SpansAfter(a, at);
      && Waiting(b, next) && (NoneOpen(b) ==> NoneOpen(a))
      && forall x: nat :: x >= at && Hole(a, x) ==> Hole(b, x)
  {
    SpansAfterKeeps(a, at);
    var b := SpansAfter(a, at);
    hide SpansAfter;
    forall x: nat | x >= at && Hole(a, x)
      ensures Hole(b, x)
    {
      var s :| s in a && s.start <= x < s.from;
      SpanOf(a, s);
      assert s in b;
    }
  }

  /** A trim past what was given is at the end of a loss. */
  lemma TrimAtHole(t: Track, right: Rule, at: nat)
    requires TrackSafe(t, right) && Exact(t) && TrimTick(t.c, at) && at >= t.next && (t.c.dropped ==> at > t.c.cover)
    ensures Hole(t.c.spans, at)
  {
    InfoBefore(t.c, t.next);
    assert at !in Info(t.c);
    var l :| l in t.c.ivals && l.end == at;
    assert Shielded(t.c.spans, Ival(l.end, l.end));
  }

  lemma TrimIn(t: Track, m: Option<Mark>, right: Rule, at: nat)
    requires TrackSafe(t, right) && Exact(t) && Settled(t, m) && TrimTick(t.c, at)
    ensures at < OPEN
  {
    if !t.c.dropped || at > t.c.cover {
      BelowOpen(t, right, at);
    }
  }

  lemma TrimLeaves(c: Chan, at: nat)
    ensures
      var d := TrimTo(c, at);
      && d.recs == c.recs && d.haveLast == c.haveLast && d.lastTick == c.lastTick && d.cur == c.cur && d.dropped
      && d.cover == (if c.dropped && at <= c.cover then c.cover else at) && d.spans == SpansAfter(c.spans, at)
  {
  }

  lemma TrimSettles(t: Track, m: Option<Mark>, right: Rule, at: nat)
    requires TrackSafe(t, right) && Exact(t) && Settled(t, m) && TrimTick(t.c, at)
    ensures Settled(t.(c := TrimTo(t.c, at)), m)
  {
    hide TrackSafe, Exact, SpansOk, Past, TrimTo, TrimTick, SpansAfter, Waiting, Hole, NoneOpen;
    ExactSpans(t, right);
    TrimIn(t, m, right, at);
    if at >= t.next && (t.c.dropped ==> at > t.c.cover) {
      TrimAtHole(t, right, at);
    }
    TrimLeaves(t.c, at);
    TrimSpans(t.c.spans, at, t.next);
  }

  lemma DropSettles(t: Track, m: Option<Mark>, right: Rule, n: nat)
    requires TrackSafe(t, right) && Exact(t) && Settled(t, m) && 0 < n <= |t.c.recs|
    ensures Settled(t.(c := DropBlock(t.c, n)), m)
  {
    hide TrackSafe, Exact, TrimTo, Settled;
    assert t.c.recs[n - 1] in t.c.recs;
    var at := t.c.recs[n - 1].tick;
    TrimSettles(t, m, right, at);
    TrimLeaves(t.c, at);
    RecsGone(t.(c := TrimTo(t.c, at)), m, n);
  }

  lemma RecsGone(t: Track, m: Option<Mark>, n: nat)
    requires Settled(t, m) && n <= |t.c.recs|
    ensures Settled(t.(c := t.c.(recs := t.c.recs[n..])), m)
  {
    hide Waiting, Hole, NoneOpen;
  }

  // ----- runs

  lemma StepSettles(t: Track, m: Option<Mark>, late: nat, op: Op, right: Rule)
    requires TrackSafe(t, right) && Exact(t) && Settled(t, m) && Allowed(t, op, right) && InOrder(t, op)
    requires op.Lose? ==> HoldsNewest(t.c)
    ensures Settled(Step(t, late, op), Given(m, op))
  {
    hide TrackSafe, Exact, Settled, ApplyLoss, TrimTo, DropBlock;
    match op
    case Put(tick, level) => PutSettles(t, m, late, tick, level, right);
    case Beat(tick, level) => BeatSettles(t, m, late, tick, level, right);
    case Lose(start, end) =>
      if start <= end {
        LossSettles(t, m, start, end, right);
        SettledHistory(t.(c := ApplyLoss(t.c, t.ring, start, end)), Step(t, late, op), m);
      }
    case TrimAnchor(i) =>
      if i < |t.c.anchors| {
        assert t.c.anchors[i] in t.c.anchors;
        TrimSettles(t, m, right, t.c.anchors[i].tick);
      }
    case TrimLoss(i) =>
      if i < |t.c.ivals| {
        assert t.c.ivals[i] in t.c.ivals;
        TrimSettles(t, m, right, t.c.ivals[i].end);
      }
    case Drop(n) =>
      if 0 < n <= |t.c.recs| {
        DropSettles(t, m, right, n);
      }
  }

  lemma SettledHistory(t: Track, u: Track, m: Option<Mark>)
    requires Settled(t, m) && u == t.(h := u.h)
    ensures Settled(u, m)
  {
  }

  lemma {:induction false} RunSettles(t: Track, m: Option<Mark>, late: nat, ops: seq<Op>, right: Rule)
    requires TrackSafe(t, right) && Exact(t) && Settled(t, m)
    requires AllAllowed(t, late, ops, right) && AllInOrder(t, late, ops) && NewestHeld(t, late, ops)
    ensures TrackSafe(Run(t, late, ops), right) && Exact(Run(t, late, ops)) && Settled(Run(t, late, ops), Latest(m, ops))
    decreases |ops|
  {
    hide TrackSafe, Exact, Settled, Step, Allowed, InOrder, HoldsNewest, Given;
    if ops != [] {
      StepSafe(t, late, ops[0], right);
      StepExact(t, late, ops[0], right);
      StepSettles(t, m, late, ops[0], right);
      RunSettles(Step(t, late, ops[0]), Given(m, ops[0]), late, ops[1..], right);
    }
  }

  // ----- what reads unknown

  /** The run comes in tick order, and losses are told while the newest record is held. */
  ghost predicate InOrderHeld(late: nat, ops: seq<Op>) {
    AllAllowed(BEGIN, late, ops, Everything()) && AllInOrder(BEGIN, late, ops) && NewestHeld(BEGIN, late, ops)
  }

  /** Some loss told reaches tick or past it. */
  predicate Reached(losses: set<Ival>, tick: nat) {
    exists l :: l in losses && l.end >= tick
  }

  lemma OpenLost(t: Track, m: Mark, tick: nat)
    requires Exact(t) && Settled(t, Some(m)) && InSpan(t.c.spans, tick) && tick >= m.tick
    ensures Reached(t.h.losses, m.tick)
  {
    var s :| s in t.c.spans && s.start <= tick < s.known;
    assert s.from > m.tick;
    assert Sourced(t.h.losses, s);
  }

  lemma LostOpen(t: Track, right: Rule, m: Mark, tick: nat, l: Ival)
    requires TrackSafe(t, right) && Exact(t) && Settled(t, Some(m)) && tick >= m.tick && (t.c.dropped ==> tick >= t.c.cover)
    requires tick < OPEN && l in t.h.losses && l.end >= m.tick && l.start <= tick
    ensures InSpan(t.c.spans, tick)
  {
    ExactSpans(t, right);
    SpansPast(t.c, t.ring, t.next);
    assert Trimmed(t.c, l.end + 1) || Shielded(t.c.spans, l);
    hide TrackSafe, Exact, SpansOk, Past, Waiting, LastHeld;
    if Shielded(t.c.spans, l) && !Trimmed(t.c, l.end + 1) {
      ShieldSpan(t.c.spans, l, t.next, tick);
    } else {
      HoleOpen(t.c.spans, t.c.cover, t.next);
      var s :| s in t.c.spans && s.known == OPEN && s.start <= t.c.cover < s.from;
    }
  }

  lemma ShieldSpan(spans: seq<Gap>, l: Ival, next: nat, tick: nat)
    requires SpansOk(spans) && Shielded(spans, l) && l.end + 1 >= next && l.start <= tick < OPEN
    requires forall s :: s in spans ==> s.known == OPEN || s.known < next
    ensures InSpan(spans, tick)
  {
    var s :| s in spans && s.start <= l.start && l.end < s.from;
    SpanOf(spans, s);
  }

  /**
   * From the latest record or heartbeat given on, what is held reads unknown only if a loss told
   * reaches that tick or past it; and it does, if that loss has started.
   */
  lemma LatestUnknown(late: nat, ops: seq<Op>, tick: nat)
    requires InOrderHeld(late, ops) && Latest(None, ops).Some? && Latest(None, ops).value.tick <= tick < OPEN
    requires Run(BEGIN, late, ops).c.dropped ==> tick >= Run(BEGIN, late, ops).c.cover
    ensures
      var t, m := Run(BEGIN, late, ops), Latest(None, ops).value;
      && (LevelAt(t.c, tick) == UNKNOWN ==> Reached(t.h.losses, m.tick))
      && forall l :: l in t.h.losses && l.end >= m.tick && l.start <= tick ==> LevelAt(t.c, tick) == UNKNOWN
  {
    var t, m := Run(BEGIN, late, ops), Latest(None, ops).value;
    BeginSafe(Everything());
    BeginExact();
    BeginSettled();
    hide TrackSafe, Exact, Settled, LevelAt, InSpan, Run, Latest, Everything, NewestHeld, AllInOrder, AllAllowed;
    RunSettles(BEGIN, None, late, ops, Everything());
    UnknownIff(t, Everything(), tick);
    if InSpan(t.c.spans, tick) {
      OpenLost(t, m, tick);
    }
    forall l | l in t.h.losses && l.end >= m.tick && l.start <= tick
      ensures InSpan(t.c.spans, tick)
    {
      LostOpen(t, Everything(), m, tick, l);
    }
  }

  // ----- which level is read

  /** The newest tick something kept speaks of. */
  ghost predicate IsTop(c: Chan, p: nat) {
    && (p in Info(c) || (c.dropped && p == c.cover)) && (c.dropped ==> c.cover <= p)
    && forall i :: i in Info(c) ==> i <= p
  }

  /** The signal there is the channel's level, and heartbeats held since say the same. */
  ghost predicate TopIs(t: Track, signal: Signal, p: nat) {
    IsTop(t.c, p) && signal(p) == t.c.cur && forall x :: x in t.ring && x.tick > p ==> x.level == t.c.cur
  }

  ghost predicate Tops(t: Track, signal: Signal) {
    NoneOpen(t.c.spans) && t.next > 0 ==> exists p :: TopIs(t, signal, p)
  }

  lemma CoverPast(t: Track, m: Option<Mark>, right: Rule)
    requires TrackSafe(t, right) && Exact(t) && Settled(t, m) && NoneOpen(t.c.spans) && t.c.dropped
    ensures t.c.cover < t.next
  {
    ExactSpans(t, right);
    hide TrackSafe, Exact, SpansOk, Waiting, LastHeld;
    if t.c.cover >= t.next {
      SpansPast(t.c, t.ring, t.next);
      HoleOpen(t.c.spans, t.c.cover, t.next);
    }
  }

  /** Before anything is given a span is open. */
  lemma StartsOpen(t: Track, m: Option<Mark>, right: Rule)
    requires TrackSafe(t, right) && Exact(t) && Settled(t, m) && NoneOpen(t.c.spans)
    ensures t.next > 0
  {
    if t.c.dropped {
      CoverPast(t, m, right);
    } else {
      var s :| s in t.c.spans && s.start == 0;
      assert s.known < t.next;
    }
  }

  lemma PutTops(t: Track, u: Track, m: Option<Mark>, late: nat, tick: nat, level: nat, signal: Signal)
    requires Past(t.c, t.ring, t.next) && t.next <= tick && level < 2 && signal(tick) == level
    requires u == Step(t, late, Put(tick, level)) && Accepts(t.c, tick)
    requires u.c.dropped && NoneOpen(u.c.spans) ==> u.c.cover < u.next
    ensures Tops(u, signal)
  {
    hide CloseOpen, Accepts, NoneOpen;
    PutInfo(t.c, tick, level);
    InfoBefore(t.c, t.next);
    hide Info;
    if NoneOpen(u.c.spans) {
      assert TopIs(u, signal, tick);
    }
  }

  lemma BeatRingIs(t: Track, late: nat, tick: nat, level: nat)
    ensures forall x :: x in Step(t, late, Beat(tick, level)).ring ==> x in t.ring || x == Mark(tick, level)
  {
    var e := HeldIsSuffix(t.ring, tick, late);
    hide Held, ApplyBeat;
  }

  lemma KeptTops(t: Track, u: Track, late: nat, tick: nat, level: nat, signal: Signal)
    requires Past(t.c, t.ring, t.next) && t.next <= tick + 1 && signal(tick) == level
    requires u == Step(t, late, Beat(tick, level)) && Keeps(t.c, tick, level)
    requires u.c.dropped && NoneOpen(u.c.spans) ==> u.c.cover < u.next
    ensures Tops(u, signal)
  {
    hide CloseOpen, NoneOpen, Keeps, AnchorPut, Held;
    BeatRingIs(t, late, tick, level);
    BeatInfo(t.c, tick, level);
    InfoBefore(t.c, t.next);
    hide Info;
    if NoneOpen(u.c.spans) {
      assert TopIs(u, signal, tick);
    }
  }

  lemma IgnoredTops(t: Track, u: Track, m: Option<Mark>, late: nat, tick: nat, level: nat, right: Rule, signal: Signal)
    requires TrackSafe(t, right) && Exact(t) && Settled(t, m) && Tops(t, signal)
    requires t.next <= tick + 1 && u == Step(t, late, Beat(tick, level)) && !Keeps(t.c, tick, level)
    ensures Tops(u, signal)
  {
    hide NoneOpen, TrackSafe, Exact, Settled, Keeps, Info, Held, SpansOk, Past, Waiting;
    ExactSpans(t, right);
    BeatRingIs(t, late, tick, level);
    NotKept(t, m, tick, level);
    if NoneOpen(t.c.spans) {
      StartsOpen(t, m, right);
      var p :| TopIs(t, signal, p);
      assert TopIs(u, signal, p);
    }
  }

  lemma BeatTops(t: Track, u: Track, m: Option<Mark>, late: nat, tick: nat, level: nat, right: Rule, signal: Signal)
    requires TrackSafe(t, right) && Exact(t) && Settled(t, m) && Tops(t, signal)
    requires t.next <= tick + 1 && signal(tick) == level && u == Step(t, late, Beat(tick, level))
    requires u.c.dropped && NoneOpen(u.c.spans) ==> u.c.cover < u.next
    ensures Tops(u, signal)
  {
    hide NoneOpen, TrackSafe, Exact, Settled, Keeps, Tops, Step, Past, SpansOk;
    ExactSpans(t, right);
    if Keeps(t.c, tick, level) {
      KeptTops(t, u, late, tick, level, signal);
    } else {
      IgnoredTops(t, u, m, late, tick, level, right, signal);
    }
  }

  /** A loss adds at most the first held heartbeat that ends its span. */
  lemma LossInfo(c: Chan, ring: seq<Mark>, start: nat, end: nat) returns (x: Option<Mark>)
    requires SpansOk(c.spans) && start <= end < OPEN
    ensures x.Some? ==> x.value in ring
    ensures Info(ApplyLoss(c, ring, start, end)) == Info(c) + if x.Some? then {x.value.tick} else {}
  {
    hide SpansWith, Grounded, Resolve, AnchorPut, IvalAdd, Ticks, SpansOk, TookUp;
    SpansWithTakesUp(c, ring, start, end + 1);
    var n := SpansWith(c, ring, start, end + 1).1;
    ResolveCases(c, ring, n.from);
    var k := CountLt(ring, n.from);
    x := None;
    if n.known != OPEN && k < |ring| && ring[k].tick < Grounded(c, n.from) {
      AnchorPutTicks(c.anchors, Mark(n.known, ring[k].level));
      x := Some(ring[k]);
    }
  }

  lemma LossNotOpen(t: Track, m: Option<Mark>, start: nat, end: nat, right: Rule)
    requires TrackSafe(t, right) && Exact(t) && Settled(t, m) && start <= end < OPEN
    requires NoneOpen(ApplyLoss(t.c, t.ring, start, end).spans)
    ensures NoneOpen(t.c.spans) && ApplyLoss(t.c, t.ring, start, end).cur == t.c.cur
  {
    hide TrackSafe, Exact, SpansOk, Past, SpansWith, Resolve, TookUp, ApplyLoss, LastHeld, Hole;
    ExactSpans(t, right);
    LossLeaves(t.c, t.ring, start, end);
    SpansWithTakesUp(t.c, t.ring, start, end + 1);
    var (spans, n) := SpansWith(t.c, t.ring, start, end + 1);
    TookUpParts(t.c.spans, spans, n);
    NewOpen(t.c, t.ring, spans, n, t.next);
  }

  lemma LossTops(t: Track, u: Track, m: Option<Mark>, start: nat, end: nat, signal: Signal)
    requires TrackSafe(t, Says(signal)) && Exact(t) && Settled(t, m) && Tops(t, signal) && start <= end < OPEN
    requires u == t.(c := ApplyLoss(t.c, t.ring, start, end), h := u.h)
    ensures Tops(u, signal)
  {
    hide NoneOpen, Settled, Exact, Info, SpansOk, Past, Waiting, ApplyLoss, TopIs;
    if NoneOpen(u.c.spans) && t.next > 0 {
      ExactSpans(t, Says(signal));
      LossNotOpen(t, m, start, end, Says(signal));
      LossLeaves(t.c, t.ring, start, end);
      var x := LossInfo(t.c, t.ring, start, end);
      var p :| TopIs(t, signal, p);
      SafeSorted(t, Says(signal));
      hide TrackSafe, SpansWith;
      if x.Some? && x.value.tick > p {
        LaterTop(t, u, signal, p, x.value);
      } else {
        SameTop(t, u, signal, p, if x.Some? then {x.value.tick} else {});
      }
    }
  }

  lemma LaterTop(t: Track, u: Track, signal: Signal, p: nat, x: Mark)
    requires TopIs(t, signal, p) && x in t.ring && x.tick > p && signal(x.tick) == x.level
    requires u.ring == t.ring && SameTrim(t.c, u.c) && u.c.cur == t.c.cur && Info(u.c) == Info(t.c) + {x.tick}
    ensures TopIs(u, signal, x.tick)
  {
    hide Info;
  }

  lemma SameTop(t: Track, u: Track, signal: Signal, p: nat, more: set<nat>)
    requires TopIs(t, signal, p) && forall i :: i in more ==> i <= p
    requires u.ring == t.ring && SameTrim(t.c, u.c) && u.c.cur == t.c.cur && Info(u.c) == Info(t.c) + more
    ensures TopIs(u, signal, p)
  {
    hide Info;
  }

  // ----- trims

  /** With no span open, a trim is not past the newest tick kept. */
  lemma TrimBelowTop(t: Track, right: Rule, at: nat, p: nat)
    requires TrackSafe(t, right) && NoneOpen(t.c.spans) && IsTop(t.c, p) && TrimTick(t.c, at)
    ensures at <= p
  {
    hide Info, Sorted, AllTrue, LossesCovered, AllHeld;
    if at !in Info(t.c) && !Trimmed(t.c, at + 1) {
      var l :| l in t.c.ivals && l.end == at;
      assert Shielded(t.c.spans, Ival(l.end, l.end));
      var s :| s in t.c.spans && s.start <= at < s.from;
      SafeSorted(t, right);
      SortedSpans(t.c, t.ring);
      SpanOf(t.c.spans, s);
      assert s.known <= p;
    }
  }

  /** What a trim up to a tick leaves kept. */
  lemma TrimTop(c: Chan, d: Chan, at: nat, p: nat)
    requires IsTop(c, p) && at <= p && TrimsTo(c, d, at) && d.cover == (if c.dropped && at <= c.cover then c.cover else at)
    ensures IsTop(d, p)
  {
    hide SpansAfter, IvalsAfter;
    assert Info(d) <= Info(c);
    if p in Info(c) && p > d.cover {
      if p in Ticks(c.recs) {
        var x :| x in c.recs && x.tick == p;
        assert x in d.recs;
      } else {
        var x :| x in c.anchors && x.tick == p;
        assert x in d.anchors;
      }
    }
  }

  lemma TrimTops(t: Track, u: Track, m: Option<Mark>, right: Rule, at: nat, signal: Signal)
    requires TrackSafe(t, right) && Exact(t) && Settled(t, m) && Tops(t, signal) && TrimTick(t.c, at)
    requires u == t.(c := u.c) && TrimsTo(t.c, u.c, at) && u.c.cur == t.c.cur
    requires u.c.cover == if t.c.dropped && at <= t.c.cover then t.c.cover else at
    ensures Tops(u, signal)
  {
    hide TrackSafe, Exact, Waiting, Hole, NoneOpen, SpansOk, Past, IsTop, TrimTick;
    TrimIn(t, m, right, at);
    ExactSpans(t, right);
    TrimSpans(t.c.spans, at, t.next);
    hide SpansAfter;
    if NoneOpen(u.c.spans) && u.next > 0 {
      var p :| TopIs(t, signal, p);
      TrimBelowTop(t, right, at, p);
      TrimTop(t.c, u.c, at, p);
      assert TopIs(u, signal, p);
    }
  }

  lemma DropLeaves(c: Chan, n: nat)
    requires 0 < n <= |c.recs| && Ascending(c.recs) && Ascending(c.anchors)
    ensures
      var d, at := DropBlock(c, n), c.recs[n - 1].tick;
      TrimsTo(c, d, at) && d.cur == c.cur && d.cover == if c.dropped && at <= c.cover then c.cover else at
  {
    DropIs(c, n);
    TrimLeaves(c, c.recs[n - 1].tick);
    hide TrimTo, TrimsTo;
  }

  lemma StepTops(t: Track, m: Option<Mark>, late: nat, op: Op, signal: Signal)
    requires TrackSafe(t, Says(signal)) && Exact(t) && Settled(t, m) && Tops(t, signal)
    requires Allowed(t, op, Says(signal)) && InOrder(t, op) && (op.Lose? ==> HoldsNewest(t.c))
    ensures Tops(Step(t, late, op), signal)
  {
    var right, u := Says(signal), Step(t, late, op);
    hide TrackSafe, Exact, Settled, ApplyLoss, TrimTo, DropBlock, Tops, TrimsTo, Held, Sorted, AllTrue, SpansOk, Past, Accepts;
    StepSafe(t, late, op, right);
    StepExact(t, late, op, right);
    StepSettles(t, m, late, op, right);
    ExactSpans(t, right);
    if u.c.dropped && NoneOpen(u.c.spans) {
      CoverPast(u, Given(m, op), right);
    }
    hide NoneOpen;
    SafeSorted(t, right);
    SortedParts(t.c, t.ring);
    match op
    case Put(tick, level) =>
      if Accepts(t.c, tick) {
        PutTops(t, u, m, late, tick, level, signal);
      }
    case Beat(tick, level) => BeatTops(t, u, m, late, tick, level, right, signal);
    case Lose(start, end) =>
      if start <= end {
        LossTops(t, u, m, start, end, signal);
      }
    case TrimAnchor(i) =>
      if i < |t.c.anchors| {
        assert t.c.anchors[i] in t.c.anchors;
        TrimIs(t.c, t.c.anchors[i].tick);
        TrimLeaves(t.c, t.c.anchors[i].tick);
        TrimTops(t, u, m, right, t.c.anchors[i].tick, signal);
      }
    case TrimLoss(i) =>
      if i < |t.c.ivals| {
        assert t.c.ivals[i] in t.c.ivals;
        TrimIs(t.c, t.c.ivals[i].end);
        TrimLeaves(t.c, t.c.ivals[i].end);
        TrimTops(t, u, m, right, t.c.ivals[i].end, signal);
      }
    case Drop(n) =>
      if 0 < n <= |t.c.recs| {
        assert t.c.recs[n - 1] in t.c.recs;
        DropLeaves(t.c, n);
        TrimTops(t, u, m, right, t.c.recs[n - 1].tick, signal);
      }
  }

  lemma {:induction false} RunTops(t: Track, m: Option<Mark>, late: nat, ops: seq<Op>, signal: Signal)
    requires TrackSafe(t, Says(signal)) && Exact(t) && Settled(t, m) && Tops(t, signal)
    requires AllAllowed(t, late, ops, Says(signal)) && AllInOrder(t, late, ops) && NewestHeld(t, late, ops)
    ensures Tops(Run(t, late, ops), signal)
    decreases |ops|
  {
    hide TrackSafe, Exact, Settled, Tops, Step, Allowed, InOrder, HoldsNewest, Given;
    if ops != [] {
      StepSafe(t, late, ops[0], Says(signal));
      StepExact(t, late, ops[0], Says(signal));
      StepSettles(t, m, late, ops[0], Says(signal));
      StepTops(t, m, late, ops[0], signal);
      RunTops(Step(t, late, ops[0]), Given(m, ops[0]), late, ops[1..], signal);
    }
  }

  /** A known level is what the newest tick kept says. */
  lemma KnownTop(c: Chan, ring: seq<Mark>, right: Rule, tick: nat, p: nat)
    requires Sorted(c, ring) && AllTrue(c, ring, right) && IsTop(c, p) && p <= tick
    requires LevelAt(c, tick) != UNKNOWN
    ensures right(p, LevelAt(c, tick))
  {
    hide SpansOk, CountLe, Ascending, NonDescending, CountStarted;
    TopCounted(c, tick, p);
    hide IsTop;
    var k, a := CountLe(c.recs, tick), CountLe(c.anchors, tick);
    assert k > 0 ==> c.recs[k - 1] in c.recs;
    assert a > 0 ==> c.anchors[a - 1] in c.anchors;
  }

  /** The newest tick kept is that of the last mark counted, or the cover. */
  lemma TopCounted(c: Chan, tick: nat, p: nat)
    requires Ascending(c.recs) && Ascending(c.anchors) && IsTop(c, p) && p <= tick
    ensures
      var k, a := CountLe(c.recs, tick), CountLe(c.anchors, tick);
      && (k > 0 ==> c.recs[k - 1].tick <= p) && (a > 0 ==> c.anchors[a - 1].tick <= p)
      && ((k > 0 && c.recs[k - 1].tick == p) || (a > 0 && c.anchors[a - 1].tick == p) || (c.dropped && p == c.cover))
  {
    LastCounted(c.recs, tick);
    LastCounted(c.anchors, tick);
    hide CountLe, Ascending, NonDescending;
    var k, a := CountLe(c.recs, tick), CountLe(c.anchors, tick);
    assert k > 0 ==> c.recs[k - 1].tick in Ticks(c.recs) && c.recs[k - 1].tick in Info(c);
    assert a > 0 ==> c.anchors[a - 1].tick in Ticks(c.anchors) && c.anchors[a - 1].tick in Info(c);
    assert p in Info(c) ==> p in Ticks(c.recs) || p in Ticks(c.anchors);
    hide Ticks, Info;
  }

  lemma NoneReached(t: Track, m: Option<Mark>, right: Rule)
    requires TrackSafe(t, right) && Exact(t) && Settled(t, m) && m.Some? && !Reached(t.h.losses, m.value.tick)
    ensures NoneOpen(t.c.spans)
  {
    ExactSpans(t, right);
    PastOpen(t.c, t.ring, t.next);
    forall s | s in t.c.spans
      ensures s.known != OPEN
    {
      assert Sourced(t.h.losses, s);
      assert s.from < t.next;
    }
  }

  /**
   * The latest record or heartbeat given is what is read: with no loss told that reaches it,
   * from its tick on, and from the cover on, the level is its level. Records and heartbeats of
   * one tick must agree, and losses be told while the newest record is held.
   */
  lemma LatestReads(late: nat, ops: seq<Op>, signal: Signal, tick: nat)
    requires AllAllowed(BEGIN, late, ops, Says(signal)) && AllInOrder(BEGIN, late, ops) && NewestHeld(BEGIN, late, ops)
    requires Latest(None, ops).Some? && Latest(None, ops).value.tick <= tick < OPEN
    requires Run(BEGIN, late, ops).c.dropped ==> tick >= Run(BEGIN, late, ops).c.cover
    requires !Reached(Run(BEGIN, late, ops).h.losses, Latest(None, ops).value.tick)
    ensures LevelAt(Run(BEGIN, late, ops).c, tick) == Latest(None, ops).value.level
  {
    var t, m, right := Run(BEGIN, late, ops), Latest(None, ops), Says(signal);
    BeginSafe(right);
    BeginExact();
    BeginSettled();
    assert Tops(BEGIN, signal);
    hide TrackSafe, Exact, Tops, LevelAt, Run, Latest, NewestHeld, AllInOrder, AllAllowed, Waiting, LastHeld;
    RunSettles(BEGIN, None, late, ops, right);
    RunTops(BEGIN, None, late, ops, signal);
    NoneReached(t, m, right);
    ReadsTop(t, m, signal, tick);
  }

  lemma ReadsTop(t: Track, m: Option<Mark>, signal: Signal, tick: nat)
    requires TrackSafe(t, Says(signal)) && Exact(t) && Settled(t, m) && Tops(t, signal) && NoneOpen(t.c.spans)
    requires m.Some? && m.value.tick <= tick < OPEN && (t.c.dropped ==> tick >= t.c.cover)
    ensures LevelAt(t.c, tick) == m.value.level
  {
    hide TrackSafe, Exact, LevelAt, Waiting, LastHeld, Hole, SpansOk;
    var p :| TopIs(t, signal, p);
    SafeSorted(t, Says(signal));
    ExactSpans(t, Says(signal));
    UnknownIff(t, Says(signal), tick);
    NotIn(t, tick);
    TopPast(t, p);
    hide Past, Sorted, AllTrue, NoneOpen;
    if t.c.dropped {
      CoverPast(t, m, Says(signal));
    }
    hide Settled;
    KnownTop(t.c, t.ring, Says(signal), tick, p);
  }

  lemma NotIn(t: Track, tick: nat)
    requires Past(t.c, t.ring, t.next) && NoneOpen(t.c.spans) && t.next <= tick + 1
    ensures !InSpan(t.c.spans, tick)
  {
  }

  lemma TopPast(t: Track, p: nat)
    requires Past(t.c, t.ring, t.next) && IsTop(t.c, p)
    ensures p < t.next || (t.c.dropped && p == t.c.cover)
  {
    InfoBefore(t.c, t.next);
    hide Info;
  }

  // ----- one heartbeat

  /** Levels are two, and each mark has one of them. */
  ghost function Binary(): Rule {
    (tick: nat, level: nat) => level < 2
  }

  lemma {:induction false} AllBinary(t: Track, late: nat, ops: seq<Op>)
    requires AllAllowed(t, late, ops, Everything())
    ensures AllAllowed(t, late, ops, Binary())
    decreases |ops|
  {
    hide Step;
    if ops != [] {
      AllBinary(Step(t, late, ops[0]), late, ops[1..]);
    }
  }

  lemma AnchorLast(a: seq<Mark>, m: Mark)
    requires Ascending(a) && forall x :: x in a ==> x.tick <= m.tick
    ensures
      var b := AnchorPut(a, m);
      b != [] && b[|b| - 1] == m && CountLe(b, m.tick) == |b|
  {
    AnchorPutAscends(a, m);
    var b := AnchorPut(a, m);
    assert forall i :: 0 <= i < |a| ==> a[i] in a;
    assert CountLe(a, m.tick) == |a|;
    assert b[|b| - 1] == m;
    assert forall i :: 0 <= i < |b| ==> b[i].tick <= m.tick;
    CountLtIs(b, m.tick + 1, |b|);
  }

  /** A heartbeat that is kept is what is read at its tick. */
  lemma KeptReads(t: Track, tick: nat, level: nat)
    requires Ascending(t.c.anchors) && Before(t.c.anchors, tick + 1) && Before(t.c.recs, tick + 1) && Keeps(t.c, tick, level)
    requires t.c.dropped ==> tick >= t.c.cover
    requires !InSpan(ApplyBeat(t.c, tick, level).spans, tick) && SpansOk(ApplyBeat(t.c, tick, level).spans)
    ensures LevelAt(ApplyBeat(t.c, tick, level), tick) == level
  {
    var d := ApplyBeat(t.c, tick, level);
    AnchorLast(t.c.anchors, Mark(tick, level));
    NotStarted(d.spans, tick);
    var k := CountLe(d.recs, tick);
    assert k > 0 ==> d.recs[k - 1] in t.c.recs;
    hide AnchorPut, CountStarted, CountLe, CloseOpen, Keeps, InSpan, SpansOk;
  }

  /** The level the channel reads before is a level, or unknown. */
  lemma ReadsLevel(t: Track, tick: nat)
    requires TrackSafe(t, Binary())
    ensures LevelAt(t.c, tick) <= UNKNOWN
  {
    hide SpansOk, CountLe, CountStarted;
    var k, a := CountLe(t.c.recs, tick), CountLe(t.c.anchors, tick);
    assert k > 0 ==> t.c.recs[k - 1] in t.c.recs;
    assert a > 0 ==> t.c.anchors[a - 1] in t.c.anchors;
  }

  /** What a channel that was given a level last, and lost nothing since, reads. */
  predicate Disagrees(m: Option<Mark>, level: nat, read: nat) {
    m.Some? && m.value.level == level && read != UNKNOWN && read != level
  }

  /** One heartbeat, with no loss told that reaches it. */
  lemma BeatReadsStep(t: Track, m: Option<Mark>, late: nat, tick: nat, level: nat)
    requires TrackSafe(t, Binary()) && Exact(t) && Settled(t, m) && t.next <= tick + 1 && tick < OPEN && level < 2
    requires !Reached(t.h.losses, tick) && (t.c.dropped ==> tick >= t.c.cover)
    ensures LevelAt(Step(t, late, Beat(tick, level)).c, tick) == level <==> !Disagrees(m, level, LevelAt(t.c, tick))
  {
    var u, right := Step(t, late, Beat(tick, level)), Binary();
    assert Allowed(t, Beat(tick, level), right);
    hide TrackSafe, Exact, LevelAt, Settled, Keeps, SpansOk, Past, ApplyBeat, Reached, Waiting, LastHeld, NoneOpen, Sorted, AllTrue;
    StepSafe(t, late, Beat(tick, level), right);
    StepExact(t, late, Beat(tick, level), right);
    StepSettles(t, m, late, Beat(tick, level), right);
    NoneReached(u, Some(Mark(tick, level)), right);
    ExactSpans(t, right);
    ExactSpans(u, right);
    NotIn(u, tick);
    SafeSorted(t, right);
    SortedParts(t.c, t.ring);
    UnknownIff(u, right, tick);
    ReadsLevel(t, tick);
    SettledParts(t, m);
    BeatLeaves(t.c, tick, level);
    MarksBefore(t, tick);
    if Keeps(t.c, tick, level) {
      KeptReads(t, tick, level);
      KeptWas(t, m, tick, level);
      UnknownIff(t, right, tick);
    } else {
      NotKept(t, m, tick, level);
      StartsOpen(t, m, right);
    }
  }

  lemma BeatLeaves(c: Chan, tick: nat, level: nat)
    ensures SameTrim(c, ApplyBeat(c, tick, level)) && (!Keeps(c, tick, level) ==> ApplyBeat(c, tick, level) == c)
  {
    hide Keeps, CloseOpen, AnchorPut;
  }

  lemma MarksBefore(t: Track, tick: nat)
    requires Past(t.c, t.ring, t.next) && t.next <= tick + 1
    ensures Before(t.c.anchors, tick + 1) && Before(t.c.recs, tick + 1)
  {
  }

  /** A heartbeat is kept where the level is unknown, or other than what was given last. */
  lemma KeptWas(t: Track, m: Option<Mark>, tick: nat, level: nat)
    requires SpansOk(t.c.spans) && Settled(t, m) && Keeps(t.c, tick, level) && tick < OPEN
    ensures InSpan(t.c.spans, tick) || (m.Some? ==> m.value.level != level)
  {
    var s, n := t.c.spans, |t.c.spans|;
    if n > 0 && s[n - 1].known == OPEN {
      assert s[n - 1] in s && GapOk(s[n - 1]);
    } else {
      forall x | x in s
        ensures x.known != OPEN
      {
        var i :| 0 <= i < n && s[i] == x;
        assert i < n - 1 ==> s[i].known < s[n - 1].start && GapOk(s[n - 1]);
      }
    }
  }

  /**
   * A heartbeat that comes in order, with no loss told that reaches it, is read at its tick if
   * and only if the channel does not read other than what it was given last while the heartbeat
   * only repeats that.
   */
  lemma BeatReadsIff(late: nat, ops: seq<Op>, tick: nat, level: nat)
    requires InOrderHeld(late, ops) && InOrder(Run(BEGIN, late, ops), Beat(tick, level)) && tick < OPEN && level < 2
    requires !Reached(Run(BEGIN, late, ops).h.losses, tick)
    requires Run(BEGIN, late, ops).c.dropped ==> tick >= Run(BEGIN, late, ops).c.cover
    ensures
      var t := Run(BEGIN, late, ops);
      LevelAt(Step(t, late, Beat(tick, level)).c, tick) == level
      <==> !Disagrees(Latest(None, ops), level, LevelAt(t.c, tick))
  {
    BeginSafe(Binary());
    BeginExact();
    BeginSettled();
    hide TrackSafe, Exact, Settled, LevelAt, Latest, Run, Step, Disagrees, NewestHeld, AllInOrder, AllAllowed, Everything, Binary, Reached;
    AllBinary(BEGIN, late, ops);
    RunSettles(BEGIN, None, late, ops, Binary());
    BeatReadsStep(Run(BEGIN, late, ops), Latest(None, ops), late, tick, level);
  }

  // ----- where it is not

  lemma RunOps(t: Track, late: nat, op: Op, rest: seq<Op>)
    ensures Run(t, late, [op] + rest) == Run(Step(t, late, op), late, rest)
  {
    hide Step;
    assert ([op] + rest)[1..] == rest;
  }

  /**
   * A record and a heartbeat of one tick that contradict each other, a trim at that tick, and
   * the heartbeat once more: the channel reads the record.
   */
  lemma RepeatMisread(late: nat)
    ensures
      var c := TrimTo(ApplyBeat(ApplyRecord(NewChan(), 5, 1), 5, 0), 5);
      !Keeps(c, 5, 0) && LevelAt(ApplyBeat(c, 5, 0), 5) == 1
  {
    var a := ApplyBeat(ApplyRecord(NewChan(), 5, 1), 5, 0);
    StoreTrims.TrimCanLose();
    assert a.cur == 0 && a.spans == [Gap(0, 0, 5)];
    hide ApplyBeat, ApplyRecord, LevelAt, CountLe;
    assert SpansAfter([Gap(0, 0, 5)], 5) == [];
    BeatLeaves(TrimTo(a, 5), 5, 0);
  }

  /** A loss told before anything else starts at 100; a record at 50 does not make the level known. */
  lemma AheadUnknown()
    ensures
      var c := ApplyRecord(ApplyLoss(NewChan(), [], 100, 110), 50, 1);
      LevelAt(c, 50) == UNKNOWN && LevelAt(c, 60) == UNKNOWN
  {
    var c := ApplyLoss(NewChan(), [], 100, 110);
    var s := [Gap(0, 0, OPEN)];
    assert s[..0] == [] && CountStarted(s, 100) == 1 && s[..1] == s && s[1..] == [];
    assert CountLt([], 0) == 0 && CountLt([], 111) == 0;
    assert Resolve(NewChan(), [], 111) == OPEN;
    assert MergeLeft(NewChan(), [], s, Gap(100, 111, OPEN)) == ([], Gap(0, 111, OPEN));
    assert c.spans == [Gap(0, 111, OPEN)];
    hide ApplyLoss, Resolve;
    var d := ApplyRecord(c, 50, 1);
    assert d.spans == [Gap(0, 111, OPEN)];
    assert d.spans[1..] == [];
    hide ApplyRecord, CountLe;
    assert CountStarted(d.spans, 50) == 1 && CountStarted(d.spans, 60) == 1;
  }
}
