/**
 * The store as a state machine: its channels, the heartbeats held per data channel, and the
 * trims that keep it in its limit. Each channel is in the state that its own operations lead
 * to, so that what StoreRuns and StoreQueries say of runs holds of the store.
 */
module StoreMachine {
  import opened Numbers
  import opened StoreChannel
  import opened StoreTruth
  import opened StoreRuns
  import opened StoreQueries
  import StoreLatest

  /** A heartbeat held for late losses: its level of every channel. */
  datatype Beat = Beat(tick: nat, levels: seq<nat>)

  /** A data channel: how far it has arrived, and its recent heartbeats, oldest first. */
  datatype Data = Data(wm: Option<nat>, ring: seq<Beat>)

  function LevelFor(b: Beat, i: nat): nat {
    if i < |b.levels| then b.levels[i] else 0
  }

  /** The held heartbeats as one channel sees them. */
  function Marks(ring: seq<Beat>, i: nat): (m: seq<Mark>)
    ensures |m| == |ring|
  {
    seq(|ring|, k requires 0 <= k < |ring| => Mark(ring[k].tick, LevelFor(ring[k], i)))
  }

  predicate RingSorted(ring: seq<Beat>) {
    forall a, b :: 0 <= a < b < |ring| ==> ring[a].tick <= ring[b].tick
  }

  function HeldBeats(ring: seq<Beat>, tick: nat, late: nat): seq<Beat>
    decreases |ring|
  {
    if ring != [] && (if late > 0 then ring[0].tick + late < tick else |ring| >= LATE_BEATS)
    then HeldBeats(ring[1..], tick, late)
    else ring
  }

  lemma {:induction false} HeldMarks(ring: seq<Beat>, tick: nat, late: nat, i: nat)
    ensures Marks(HeldBeats(ring, tick, late), i) == Held(Marks(ring, i), tick, late)
    decreases |ring|
  {
    if ring != [] {
      assert Marks(ring, i)[1..] == Marks(ring[1..], i);
      HeldMarks(ring[1..], tick, late, i);
    }
  }

  /** A ring with one heartbeat more. */
  function Pushed(ring: seq<Beat>, b: Beat, late: nat): seq<Beat> {
    HeldBeats(ring, b.tick, late) + [b]
  }

  lemma PushedMarks(ring: seq<Beat>, b: Beat, late: nat, i: nat)
    ensures Marks(Pushed(ring, b, late), i) == Held(Marks(ring, i), b.tick, late) + [Mark(b.tick, LevelFor(b, i))]
  {
    HeldMarks(ring, b.tick, late, i);
    hide Held, HeldBeats;
  }

  lemma {:induction false} HeldSuffix(ring: seq<Beat>, tick: nat, late: nat)
    ensures |HeldBeats(ring, tick, late)| <= |ring|
    ensures HeldBeats(ring, tick, late) == ring[|ring| - |HeldBeats(ring, tick, late)|..]
    decreases |ring|
  {
    if ring != [] {
      HeldSuffix(ring[1..], tick, late);
    }
  }

  /** The channels, what is held per data channel, and the oldest tick held. */
  datatype State = State(views: seq<Chan>, data: seq<Data>, oldest: nat)

  /** The data channel of each channel, and how long heartbeats are held. */
  datatype Layout = Layout(dc: seq<nat>, late: nat)

  /** What happens to the store. */
  datatype Change =
    | Record(i: nat, tick: nat, level: nat)
    | Heartbeat(d: nat, beat: Beat)
    | Lost(start: nat, end: nat, lost: seq<nat>)
    | Trim(j: nat, op: Op)

  predicate Fits(s: State, y: Layout) {
    |s.views| == |y.dc| && forall i :: 0 <= i < |y.dc| ==> y.dc[i] < |s.data|
  }

  // ----- trims

  /** The tick a channel is trimmed at. */
  predicate TrimsAt(c: Chan, t: nat, op: Op) {
    match op
    case TrimAnchor(k) => k < |c.anchors| && t == c.anchors[k].tick
    case TrimLoss(k) => k < |c.ivals| && t == c.ivals[k].end
    case Drop(n) => 0 < n <= |c.recs| && t == c.recs[n - 1].tick
    case _ => false
  }

  predicate CanTrim(c: Chan, op: Op) {
    match op
    case TrimAnchor(k) => k < |c.anchors|
    case TrimLoss(k) => k < |c.ivals|
    case Drop(n) => 0 < n <= |c.recs|
    case _ => false
  }

  function TickOf(c: Chan, op: Op): (t: nat)
    requires CanTrim(c, op)
    ensures TrimsAt(c, t, op)
  {
    match op
    case TrimAnchor(k) => c.anchors[k].tick
    case TrimLoss(k) => c.ivals[k].end
    case Drop(n) => c.recs[n - 1].tick
  }

  function TrimOf(c: Chan, t: nat, op: Op): Chan
    requires TrimsAt(c, t, op)
  {
    var d := TrimTo(c, t);
    if op.Drop? then d.(recs := c.recs[op.n..]) else d
  }

  /** The state with channel i as a trim at t leaves it. */
  function AfterTrim(s: State, i: nat, t: nat, op: Op): State
    requires i < |s.views| && TrimsAt(s.views[i], t, op)
  {
    s.(views := s.views[i := TrimOf(s.views[i], t, op)], oldest := Max(s.oldest, t))
  }

  // ----- steps

  function MaxTick(wm: Option<nat>, tick: nat): Option<nat> {
    if wm.None? || tick > wm.value then Some(tick) else wm
  }

  function BeatOn(s: State, y: Layout, d: nat, b: Beat, i: nat): Chan
    requires Fits(s, y) && i < |s.views|
  {
    if y.dc[i] == d then ApplyBeat(s.views[i], b.tick, LevelFor(b, i)) else s.views[i]
  }

  function LossOn(s: State, y: Layout, start: nat, end: nat, lost: seq<nat>, i: nat): Chan
    requires Fits(s, y) && i < |s.views|
  {
    if i < |lost| && lost[i] > 0 then ApplyLoss(s.views[i], Marks(s.data[y.dc[i]].ring, i), start, end) else s.views[i]
  }

  function BeatViews(s: State, y: Layout, d: nat, b: Beat): seq<Chan>
    requires Fits(s, y)
  {
    seq(|s.views|, i requires 0 <= i < |s.views| => BeatOn(s, y, d, b, i))
  }

  function LossViews(s: State, y: Layout, start: nat, end: nat, lost: seq<nat>): seq<Chan>
    requires Fits(s, y)
  {
    seq(|s.views|, i requires 0 <= i < |s.views| => LossOn(s, y, start, end, lost, i))
  }

  function After(s: State, y: Layout, ch: Change): (u: State)
    requires Fits(s, y)
    ensures Fits(u, y)
  {
    match ch
    case Record(i, tick, level) =>
      if i < |s.views| && Accepts(s.views[i], tick)
      then s.(views := s.views[i := ApplyRecord(s.views[i], tick, level)])
      else s
    case Heartbeat(d, b) =>
      if d < |s.data|
      then s.(views := BeatViews(s, y, d, b),
              data := s.data[d := Data(MaxTick(s.data[d].wm, b.tick), Pushed(s.data[d].ring, b, y.late))])
      else s
    case Lost(start, end, lost) =>
      if end < start then s
      else s.(views := LossViews(s, y, start, end, lost))
    case Trim(j, op) =>
      if j < |s.views| && CanTrim(s.views[j], op) then AfterTrim(s, j, TickOf(s.views[j], op), op) else s
  }

  function AfterAll(s: State, y: Layout, chs: seq<Change>): (u: State)
    requires Fits(s, y)
    ensures Fits(u, y)
    decreases |chs|
  {
    if chs == [] then s else AfterAll(After(s, y, chs[0]), y, chs[1..])
  }

  function Empty(n: nat, dcs: nat): State {
    State(seq(n, _ => NewChan()), seq(dcs, _ => Data(None, [])), 0)
  }

  // ----- what happens to one channel

  function OpsOf(s: State, y: Layout, ch: Change, i: nat): seq<Op>
    requires i < |y.dc|
  {
    match ch
    case Record(k, tick, level) => if k == i then [Put(tick, level)] else []
    case Heartbeat(d, b) => if y.dc[i] == d then [Op.Beat(b.tick, LevelFor(b, i))] else []
    case Lost(start, end, lost) => if i < |lost| && lost[i] > 0 then [Lose(start, end)] else []
    case Trim(j, op) => if j == i && i < |s.views| && CanTrim(s.views[i], op) then [op] else []
  }

  function AllOpsOf(s: State, y: Layout, chs: seq<Change>, i: nat): seq<Op>
    requires Fits(s, y) && i < |y.dc|
    decreases |chs|
  {
    if chs == [] then [] else OpsOf(s, y, chs[0], i) + AllOpsOf(After(s, y, chs[0]), y, chs[1..], i)
  }

  /** The channel is where track t is. */
  predicate OnTrack(s: State, y: Layout, t: Track, i: nat)
    requires Fits(s, y) && i < |s.views|
  {
    s.views[i] == t.c && Marks(s.data[y.dc[i]].ring, i) == t.ring
  }

  lemma RunOne(t: Track, late: nat, op: Op)
    ensures Run(t, late, [op]) == Step(t, late, op)
  {
    hide Step;
    assert Run(Step(t, late, op), late, []) == Step(t, late, op);
  }

  lemma {:induction false} RunConcat(t: Track, late: nat, a: seq<Op>, b: seq<Op>)
    ensures Run(t, late, a + b) == Run(Run(t, late, a), late, b)
    decreases |a|
  {
    hide Step;
    if a == [] {
      assert a + b == b;
    } else {
      assert (a + b)[0] == a[0] && (a + b)[1..] == a[1..] + b;
      RunConcat(Step(t, late, a[0]), late, a[1..], b);
    }
  }

  lemma StepOnTrack(s: State, y: Layout, t: Track, ch: Change, i: nat)
    requires Fits(s, y) && i < |s.views| && OnTrack(s, y, t, i)
    ensures OnTrack(After(s, y, ch), y, Run(t, y.late, OpsOf(s, y, ch, i)), i)
  {
    hide ApplyRecord, ApplyBeat, ApplyLoss, TrimTo, Marks, Pushed, Held, Accepts, Run;
    var ops := OpsOf(s, y, ch, i);
    assert Run(t, y.late, []) == t by { RunNone(t, y.late); }
    if ops != [] {
      RunOne(t, y.late, ops[0]);
      if ch.Heartbeat? {
        PushedMarks(s.data[ch.d].ring, ch.beat, y.late, i);
      }
    }
  }

  lemma RunNone(t: Track, late: nat)
    ensures Run(t, late, []) == t
  {
  }

  lemma {:induction false} RunOnTrack(s: State, y: Layout, t: Track, chs: seq<Change>, i: nat)
    requires Fits(s, y) && i < |s.views| && OnTrack(s, y, t, i)
    ensures OnTrack(AfterAll(s, y, chs), y, Run(t, y.late, AllOpsOf(s, y, chs, i)), i)
    decreases |chs|
  {
    hide OnTrack, After, OpsOf, Step;
    if chs != [] {
      var u := After(s, y, chs[0]);
      var ops := OpsOf(s, y, chs[0], i);
      StepOnTrack(s, y, t, chs[0], i);
      RunOnTrack(u, y, Run(t, y.late, ops), chs[1..], i);
      RunConcat(t, y.late, ops, AllOpsOf(u, y, chs[1..], i));
    }
  }

  /** Every channel of the store is in the state that its own operations lead to. */
  lemma ChannelRuns(y: Layout, dcs: nat, chs: seq<Change>, i: nat)
    requires i < |y.dc| && forall k :: 0 <= k < |y.dc| ==> y.dc[k] < dcs
    ensures
      var s := Empty(|y.dc|, dcs);
      AfterAll(s, y, chs).views[i] == Run(BEGIN, y.late, AllOpsOf(s, y, chs, i)).c
  {
    var s := Empty(|y.dc|, dcs);
    assert OnTrack(s, y, BEGIN, i);
    RunOnTrack(s, y, BEGIN, chs, i);
  }

  lemma {:induction false} AfterAllConcat(s: State, y: Layout, a: seq<Change>, b: seq<Change>)
    requires Fits(s, y)
    ensures AfterAll(s, y, a + b) == AfterAll(AfterAll(s, y, a), y, b)
    decreases |a|
  {
    hide After;
    if a == [] {
      assert a + b == b;
    } else {
      assert (a + b)[0] == a[0] && (a + b)[1..] == a[1..] + b;
      AfterAllConcat(After(s, y, a[0]), y, a[1..], b);
    }
  }

  lemma AfterOne(s: State, y: Layout, ch: Change)
    requires Fits(s, y)
    ensures AfterAll(s, y, [ch]) == After(s, y, ch)
  {
    hide After;
    assert AfterAll(After(s, y, ch), y, []) == After(s, y, ch);
  }

  // ----- reading a level

  /** LevelAt, or None before the oldest tick and past the watermark of its data channel. */
  function ReadLevel(s: State, y: Layout, i: nat, tick: nat): Option<nat>
    requires Fits(s, y) && i < |s.views|
  {
    var wm := s.data[y.dc[i]].wm;
    if tick < s.oldest || wm.None? || tick > wm.value then None else Some(LevelAt(s.views[i], tick))
  }

  predicate LayoutOk(y: Layout, dcs: nat) {
    forall k :: 0 <= k < |y.dc| ==> y.dc[k] < dcs
  }

  /** The store after the changes, from an empty one. */
  function Reached(y: Layout, dcs: nat, chs: seq<Change>): (s: State)
    requires LayoutOk(y, dcs)
    ensures Fits(s, y)
  {
    AfterAll(Empty(|y.dc|, dcs), y, chs)
  }

  /** What happened to channel i. */
  function HistoryOf(y: Layout, dcs: nat, chs: seq<Change>, i: nat): Track
    requires LayoutOk(y, dcs) && i < |y.dc|
  {
    Run(BEGIN, y.late, AllOpsOf(Empty(|y.dc|, dcs), y, chs, i))
  }

  /** Channel i's part of the changes is as right says, heartbeats in order. */
  ghost predicate Honest(y: Layout, dcs: nat, chs: seq<Change>, i: nat, right: Rule)
    requires LayoutOk(y, dcs) && i < |y.dc|
  {
    AllAllowed(BEGIN, y.late, AllOpsOf(Empty(|y.dc|, dcs), y, chs, i), right)
  }

  /** Its records and heartbeats come in tick order. */
  predicate Orderly(y: Layout, dcs: nat, chs: seq<Change>, i: nat)
    requires LayoutOk(y, dcs) && i < |y.dc|
  {
    AllInOrder(BEGIN, y.late, AllOpsOf(Empty(|y.dc|, dcs), y, chs, i))
  }

  /** Every missing change that has arrived lies in a loss reported so far. */
  ghost predicate AllExplained(y: Layout, dcs: nat, chs: seq<Change>, i: nat, signal: Signal)
    requires LayoutOk(y, dcs) && i < |y.dc|
  {
    var wm := Reached(y, dcs, chs).data[y.dc[i]].wm;
    wm.Some? ==> Explained(signal, HistoryOf(y, dcs, chs, i).h, wm.value)
  }

  /**
   * Of a store fed with true records and heartbeats, where every missing change that has
   * arrived lies in a loss reported so far, no reading is wrong, in whatever order things
   * came and whatever was trimmed.
   */
  lemma ReadingsTrue(y: Layout, dcs: nat, chs: seq<Change>, i: nat, signal: Signal, tick: nat)
    requires LayoutOk(y, dcs) && i < |y.dc| && tick < OPEN
    requires Honest(y, dcs, chs, i, Says(signal)) && AllExplained(y, dcs, chs, i, signal)
    ensures
      var r := ReadLevel(Reached(y, dcs, chs), y, i, tick);
      r == None || r == Some(UNKNOWN) || r == Some(signal(tick))
  {
    var u := Reached(y, dcs, chs);
    ChannelRuns(y, dcs, chs, i);
    if ReadLevel(u, y, i, tick).Some? {
      hide LevelAt, Run, AllAllowed, Explained, AfterAll;
      RunNeverWrong(y.late, AllOpsOf(Empty(|y.dc|, dcs), y, chs, i), signal, u.data[y.dc[i]].wm.value, tick);
    }
  }

  /** What the channels let go of is older than the store's oldest tick. */
  ghost predicate Covers(s: State) {
    forall i :: 0 <= i < |s.views| && s.views[i].dropped ==> s.views[i].cover <= s.oldest
  }

  lemma {:induction false} OldestCovers(s: State, y: Layout, chs: seq<Change>)
    requires Fits(s, y) && Covers(s)
    ensures Covers(AfterAll(s, y, chs))
    decreases |chs|
  {
    hide After;
    if chs != [] {
      CoversAfter(s, y, chs[0]);
      OldestCovers(After(s, y, chs[0]), y, chs[1..]);
    }
  }

  lemma CoversAfter(s: State, y: Layout, ch: Change)
    requires Fits(s, y) && Covers(s)
    ensures Covers(After(s, y, ch))
  {
    hide After;
    var u := After(s, y, ch);
    forall i | 0 <= i < |u.views| && u.views[i].dropped
      ensures u.views[i].cover <= u.oldest
    {
      CoverAfter(s, y, ch, i);
      assert s.views[i].dropped ==> s.views[i].cover <= s.oldest;
    }
  }

  /** A channel's cover stays, or moves up to the store's oldest tick at most. */
  predicate CoverMoves(s: State, u: State, i: nat)
    requires i < |s.views| == |u.views|
  {
    && s.oldest <= u.oldest
    && (SameTrim(s.views[i], u.views[i]) || (s.views[i].dropped && u.views[i].cover == s.views[i].cover) || u.views[i].cover <= u.oldest)
  }

  lemma CoverAfter(s: State, y: Layout, ch: Change, i: nat)
    requires Fits(s, y) && i < |s.views|
    ensures CoverMoves(s, After(s, y, ch), i)
  {
    match ch
    case Record(k, tick, level) => hide CloseOpen, Accepts;
    case Heartbeat(d, b) => hide CloseOpen, Keeps, AnchorPut, Pushed;
    case Lost(start, end, lost) => LossCover(s, y, start, end, lost, i);
    case Trim(j, op) =>
      if j < |s.views| && CanTrim(s.views[j], op) {
        TrimToCover(s.views[j], TickOf(s.views[j], op));
      }
      hide TrimTo;
  }

  lemma LossCover(s: State, y: Layout, start: nat, end: nat, lost: seq<nat>, i: nat)
    requires Fits(s, y) && i < |s.views|
    ensures CoverMoves(s, After(s, y, Lost(start, end, lost)), i)
  {
    hide SpanAdd, IvalAdd, Marks;
    SpanAddTrim(s.views[i], Marks(s.data[y.dc[i]].ring, i), start, end + 1);
  }

  lemma TrimToCover(c: Chan, t: nat)
    ensures
      var d := TrimTo(c, t);
      && d.dropped && (d.cover == if !c.dropped || t > c.cover then t else c.cover)
      && d.haveLast == c.haveLast && d.lastTick == c.lastTick && d.recs == c.recs
  {
  }

  lemma SpanAddTrim(c: Chan, ring: seq<Mark>, start: nat, from: nat)
    ensures SameTrim(c, SpanAdd(c, ring, start, from))
  {
    hide SpansWith, Grounded, AnchorPut, CountLt;
  }

  // ----- what a trim leaves

  predicate AllTrims(chs: seq<Change>) {
    forall c :: c in chs ==> c.Trim?
  }

  lemma {:induction false} TrimsKeepLast(s: State, y: Layout, chs: seq<Change>, i: nat)
    requires Fits(s, y) && AllTrims(chs) && i < |s.views|
    ensures
      var u := AfterAll(s, y, chs);
      u.views[i].haveLast == s.views[i].haveLast && u.views[i].lastTick == s.views[i].lastTick && u.data == s.data
    decreases |chs|
  {
    if chs != [] {
      TrimKeepsLast(s, y, chs[0], i);
      hide After;
      TrimsKeepLast(After(s, y, chs[0]), y, chs[1..], i);
    }
  }

  lemma BeatsKeepLast(s: State, y: Layout, d: nat, b: Beat)
    requires Fits(s, y)
    ensures forall i :: 0 <= i < |s.views| ==> BeatOn(s, y, d, b, i).haveLast == s.views[i].haveLast
  {
    hide Keeps, CloseOpen, AnchorPut, LevelFor;
  }

  lemma LossKeepsLast(c: Chan, ring: seq<Mark>, start: nat, end: nat)
    ensures ApplyLoss(c, ring, start, end).haveLast == c.haveLast
  {
    hide SpansWith, Grounded, AnchorPut, CountLt, IvalAdd;
  }

  lemma LossesKeepLast(s: State, y: Layout, start: nat, end: nat, lost: seq<nat>)
    requires Fits(s, y)
    ensures forall i :: 0 <= i < |s.views| ==> LossOn(s, y, start, end, lost, i).haveLast == s.views[i].haveLast
  {
    hide ApplyLoss, Marks;
    forall i | 0 <= i < |s.views|
      ensures LossOn(s, y, start, end, lost, i).haveLast == s.views[i].haveLast
    {
      LossKeepsLast(s.views[i], Marks(s.data[y.dc[i]].ring, i), start, end);
    }
  }

  lemma TrimsKeepLasts(s: State, y: Layout, chs: seq<Change>)
    requires Fits(s, y) && AllTrims(chs)
    ensures
      var u := AfterAll(s, y, chs);
      forall i :: 0 <= i < |s.views| ==> u.views[i].haveLast == s.views[i].haveLast && u.views[i].lastTick == s.views[i].lastTick
  {
    hide AfterAll, AllTrims;
    forall i | 0 <= i < |s.views|
      ensures AfterAll(s, y, chs).views[i].haveLast == s.views[i].haveLast
      ensures AfterAll(s, y, chs).views[i].lastTick == s.views[i].lastTick
    {
      TrimsKeepLast(s, y, chs, i);
    }
  }

  lemma TrimKeepsLast(s: State, y: Layout, ch: Change, i: nat)
    requires Fits(s, y) && ch.Trim? && i < |s.views|
    ensures
      var u := After(s, y, ch);
      u.views[i].haveLast == s.views[i].haveLast && u.views[i].lastTick == s.views[i].lastTick && u.data == s.data
  {
    if ch.j == i && CanTrim(s.views[i], ch.op) {
      TrimToParts(s.views[i], TickOf(s.views[i], ch.op));
      hide TrimTo;
    }
  }

  /** A trim at a tick its operation names is what that operation does. */
  lemma TrimIsChange(s: State, y: Layout, i: nat, t: nat, op: Op)
    requires Fits(s, y) && i < |s.views| && TrimsAt(s.views[i], t, op)
    ensures After(s, y, Trim(i, op)) == AfterTrim(s, i, t, op)
  {
    hide TrimTo;
  }

  // ----- columns

  /** The column of channel i from tick a to before tick b. */
  function ColumnOf(s: State, y: Layout, i: nat, a: nat, b: nat): Column
    requires Fits(s, y) && i < |s.views| && a <= b
  {
    Drawn(s.views[i], s.oldest, s.data[y.dc[i]].wm, a, b)
  }

  /** LevelAt of tick - 1, or unknown if that tick was let go of. */
  function LevelBefore(s: State, i: nat, tick: nat): nat
    requires i < |s.views|
  {
    if tick == 0 || tick - 1 < s.oldest then UNKNOWN else LevelAt(s.views[i], tick - 1)
  }

  /** What reading the ticks from a to before b one by one says, with the losses reported. */
  predicate Naive(s: State, i: nat, losses: set<Ival>, a: nat, b: nat, col: Column)
    requires i < |s.views| && a < b
  {
    && (CountIn(s.views[i].recs, a, b) < 0x1_0000_0000 ==> col.changes == CountIn(s.views[i].recs, a, b))
    && col.start == LevelBefore(s, i, a) && col.end == LevelBefore(s, i, b)
    && (col.unknown <==> exists q :: a <= q <= b - 1 && LevelAt(s.views[i], q) == UNKNOWN)
    && (a >= s.oldest ==> (col.loss <==> exists l :: l in losses && l.start <= l.end && l.start <= b - 1 && a <= l.end))
  }

  /** Channel i was fed with records and heartbeats in order, whatever levels they have. */
  ghost predicate Fed(y: Layout, dcs: nat, chs: seq<Change>, i: nat) {
    LayoutOk(y, dcs) && i < |y.dc| && Honest(y, dcs, chs, i, Everything()) && Orderly(y, dcs, chs, i)
  }

  /** The column drawn of channel i from a to before b is the naive one. */
  ghost predicate ColumnTrue(y: Layout, dcs: nat, chs: seq<Change>, i: nat, a: nat, b: nat)
    requires LayoutOk(y, dcs) && i < |y.dc| && a < b
  {
    var s := Reached(y, dcs, chs);
    Naive(s, i, HistoryOf(y, dcs, chs, i).h.losses, a, b, ColumnOf(s, y, i, a, b))
  }

  /**
   * A column says what reading its ticks one by one would say: the levels it starts from and
   * ends with, how many records it holds, whether some tick in it reads unknown, and, from the
   * store's oldest tick on, whether a reported loss on the channel overlaps it.
   */
  lemma ColumnMeans(y: Layout, dcs: nat, chs: seq<Change>, i: nat, a: nat, b: nat)
    requires Fed(y, dcs, chs, i) && a < b <= OPEN
    ensures ColumnTrue(y, dcs, chs, i, a, b)
  {
    FlagsOf(y, dcs, chs, i, a, b);
    hide Reached, HistoryOf, Honest, Orderly, Naive, ColumnOf;
    ReachedCovers(y, dcs, chs);
    FromFlags(Reached(y, dcs, chs), y, i, HistoryOf(y, dcs, chs, i).h, a, b);
  }

  lemma FlagsOf(y: Layout, dcs: nat, chs: seq<Change>, i: nat, a: nat, b: nat)
    requires Fed(y, dcs, chs, i) && a < b <= OPEN
    ensures Facts(Reached(y, dcs, chs).views[i], HistoryOf(y, dcs, chs, i).h.losses, a, b)
  {
    var ops := AllOpsOf(Empty(|y.dc|, dcs), y, chs, i);
    hide AfterAll, AllOpsOf, Run, AllAllowed, AllInOrder, Facts, Everything;
    ChannelRuns(y, dcs, chs, i);
    FactsExact(y.late, ops, a, b);
  }

  lemma ReachedCovers(y: Layout, dcs: nat, chs: seq<Change>)
    requires LayoutOk(y, dcs)
    ensures Covers(Reached(y, dcs, chs))
  {
    hide AfterAll;
    assert Covers(Empty(|y.dc|, dcs));
    OldestCovers(Empty(|y.dc|, dcs), y, chs);
  }

  lemma FromFlags(s: State, y: Layout, i: nat, h: History, a: nat, b: nat)
    requires Fits(s, y) && i < |s.views| && a < b && Covers(s)
    requires Facts(s.views[i], h.losses, a, b)
    ensures Naive(s, i, h.losses, a, b, ColumnOf(s, y, i, a, b))
  {
    hide LevelAt, UnknownIn, LossIn, CountIn, CountLt;
  }

  /** Two columns side by side say together what one over both says. */
  predicate Joins(x: Column, y: Column, z: Column, held: bool) {
    && x.end == y.start && z.start == x.start && z.end == y.end && z.changes == (x.changes + y.changes) % 0x1_0000_0000
    && z.unknown == (x.unknown || y.unknown) && z.noData == (x.noData || y.noData) && (held ==> z.loss == (x.loss || y.loss))
  }

  /**
   * Adjacent columns join: zooming out gives the levels at the outer edges, the sum of the
   * changes, and marks what either one marks.
   */
  lemma ColumnsJoin(y: Layout, dcs: nat, chs: seq<Change>, i: nat, a: nat, b: nat, c: nat)
    requires Fed(y, dcs, chs, i) && a < b < c <= OPEN
    ensures
      var s := Reached(y, dcs, chs);
      Joins(ColumnOf(s, y, i, a, b), ColumnOf(s, y, i, b, c), ColumnOf(s, y, i, a, c), a >= s.oldest)
  {
    FlagsOf(y, dcs, chs, i, a, b);
    FlagsOf(y, dcs, chs, i, b, c);
    FlagsOf(y, dcs, chs, i, a, c);
    hide Reached, HistoryOf, Honest, Orderly, ColumnOf;
    ReachedCovers(y, dcs, chs);
    FlagsJoin(Reached(y, dcs, chs), y, i, HistoryOf(y, dcs, chs, i).h.losses, a, b, c);
  }

  lemma FlagsJoin(s: State, y: Layout, i: nat, losses: set<Ival>, a: nat, b: nat, c: nat)
    requires Fits(s, y) && i < |s.views| && a < b < c && Covers(s)
    requires Facts(s.views[i], losses, a, b) && Facts(s.views[i], losses, b, c) && Facts(s.views[i], losses, a, c)
    ensures Joins(ColumnOf(s, y, i, a, b), ColumnOf(s, y, i, b, c), ColumnOf(s, y, i, a, c), a >= s.oldest)
  {
    hide LevelAt, Changes, UnknownIn, LossIn, Facts;
    var v := s.views[i];
    UnknownJoins(v, losses, a, b, c);
    ChangesJoin(v, losses, a, b, c);
    if a >= s.oldest {
      LossJoins(v, losses, a, b, c);
    }
  }

  lemma UnknownJoins(v: Chan, losses: set<Ival>, a: nat, b: nat, c: nat)
    requires a < b < c && Facts(v, losses, a, b) && Facts(v, losses, b, c) && Facts(v, losses, a, c)
    ensures UnknownIn(v, a, c - 1) == (UnknownIn(v, a, b - 1) || UnknownIn(v, b, c - 1))
  {
    hide LevelAt, UnknownIn, LossIn, CountIn, CountLt;
    if UnknownIn(v, a, c - 1) {
      var q :| a <= q <= c - 1 && LevelAt(v, q) == UNKNOWN;
      assert q <= b - 1 || b <= q;
    }
    if UnknownIn(v, a, b - 1) {
      var q :| a <= q <= b - 1 && LevelAt(v, q) == UNKNOWN;
    }
    if UnknownIn(v, b, c - 1) {
      var q :| b <= q <= c - 1 && LevelAt(v, q) == UNKNOWN;
    }
  }

  lemma ChangesJoin(v: Chan, losses: set<Ival>, a: nat, b: nat, c: nat)
    requires a < b < c && Facts(v, losses, a, b) && Facts(v, losses, b, c) && Facts(v, losses, a, c)
    ensures Changes(v.recs, a, c) == (Changes(v.recs, a, b) + Changes(v.recs, b, c)) % 0x1_0000_0000
  {
    hide LevelAt, UnknownIn, LossIn, CountIn, CountLt;
  }

  lemma LossJoins(v: Chan, losses: set<Ival>, a: nat, b: nat, c: nat)
    requires a < b < c && Facts(v, losses, a, b) && Facts(v, losses, b, c) && Facts(v, losses, a, c)
    requires v.dropped ==> a >= v.cover
    ensures LossIn(v, a, c - 1) == (LossIn(v, a, b - 1) || LossIn(v, b, c - 1))
  {
    hide LevelAt, UnknownIn, LossIn, CountIn, CountLt;
    if LossIn(v, a, c - 1) {
      var l :| l in losses && l.start <= l.end && l.start <= c - 1 && a <= l.end;
      assert l.start <= b - 1 || b <= l.end;
    }
    if LossIn(v, a, b - 1) {
      var l :| l in losses && l.start <= l.end && l.start <= b - 1 && a <= l.end;
    }
    if LossIn(v, b, c - 1) {
      var l :| l in losses && l.start <= l.end && l.start <= c - 1 && b <= l.end;
    }
  }

  /** A level at a column's edge is unknown, or the signal's. */
  predicate Right(level: nat, signal: Signal, tick: nat) {
    level == UNKNOWN || (tick > 0 && level == signal(tick - 1))
  }

  /** Of a store fed with the truth, a column within what is held and arrived has no wrong level. */
  lemma ColumnLevelsTrue(y: Layout, dcs: nat, chs: seq<Change>, i: nat, signal: Signal, a: nat, b: nat)
    requires LayoutOk(y, dcs) && i < |y.dc| && a < b <= OPEN
    requires Honest(y, dcs, chs, i, Says(signal)) && AllExplained(y, dcs, chs, i, signal)
    ensures
      var col := ColumnOf(Reached(y, dcs, chs), y, i, a, b);
      !col.noData ==> Right(col.start, signal, a) && Right(col.end, signal, b)
  {
    hide Reached, LevelAt, Honest, AllExplained, UnknownIn, LossIn, Changes;
    if a > 0 {
      ReadingsTrue(y, dcs, chs, i, signal, a - 1);
    }
    ReadingsTrue(y, dcs, chs, i, signal, b - 1);
  }

  // ----- what a heartbeat makes known

  lemma {:induction false} OpsConcat(s: State, y: Layout, a: seq<Change>, b: seq<Change>, i: nat)
    requires Fits(s, y) && i < |y.dc|
    ensures AllOpsOf(s, y, a + b, i) == AllOpsOf(s, y, a, i) + AllOpsOf(AfterAll(s, y, a), y, b, i)
    decreases |a|
  {
    hide After, OpsOf;
    if a == [] {
      assert a + b == b;
    } else {
      assert (a + b)[0] == a[0] && (a + b)[1..] == a[1..] + b;
      OpsConcat(After(s, y, a[0]), y, a[1..], b, i);
    }
  }

  /** Losses are told while every channel holds the newest record it took, as the store sees to. */
  predicate ToldHolding(s: State, y: Layout, chs: seq<Change>)
    requires Fits(s, y)
    decreases |chs|
  {
    if chs == [] then true
    else
      && (chs[0].Lost? ==> forall i :: 0 <= i < |s.views| ==> StoreLatest.HoldsNewest(s.views[i]))
      && ToldHolding(After(s, y, chs[0]), y, chs[1..])
  }

  lemma {:induction false} ToldNewest(s: State, y: Layout, t: Track, chs: seq<Change>, i: nat)
    requires Fits(s, y) && i < |s.views| && OnTrack(s, y, t, i) && ToldHolding(s, y, chs)
    ensures StoreLatest.NewestHeld(t, y.late, AllOpsOf(s, y, chs, i))
    decreases |chs|
  {
    hide OnTrack, After, Step, StoreLatest.HoldsNewest;
    if chs != [] {
      var ops, rest := OpsOf(s, y, chs[0], i), AllOpsOf(After(s, y, chs[0]), y, chs[1..], i);
      SameChan(s, y, t, i);
      StepOnTrack(s, y, t, chs[0], i);
      ToldNewest(After(s, y, chs[0]), y, Run(t, y.late, ops), chs[1..], i);
      if ops == [] {
        RunNone(t, y.late);
        assert ops + rest == rest;
      } else {
        RunOne(t, y.late, ops[0]);
        assert ops == [ops[0]] && (ops + rest)[1..] == rest;
      }
    }
  }

  lemma SameChan(s: State, y: Layout, t: Track, i: nat)
    requires Fits(s, y) && i < |s.views| && OnTrack(s, y, t, i)
    ensures s.views[i] == t.c
  {
  }

  lemma {:induction false} LatestLast(m: Option<Mark>, ops: seq<Op>, tick: nat, level: nat)
    ensures StoreLatest.Latest(m, ops + [Op.Beat(tick, level)]) == Some(Mark(tick, level))
    decreases |ops|
  {
    hide StoreLatest.Given;
    var all := ops + [Op.Beat(tick, level)];
    if ops == [] {
      assert all == [Op.Beat(tick, level)] && all[1..] == [];
      BeatGiven(m, tick, level);
    } else {
      assert all[0] == ops[0] && all[1..] == ops[1..] + [Op.Beat(tick, level)];
      LatestLast(StoreLatest.Given(m, ops[0]), ops[1..], tick, level);
    }
  }

  lemma BeatGiven(m: Option<Mark>, tick: nat, level: nat)
    ensures StoreLatest.Given(m, Op.Beat(tick, level)) == Some(Mark(tick, level))
  {
  }

  /** What is given to channel i of a store comes in order, agrees with a signal, and is held. */
  ghost predicate WellFed(y: Layout, dcs: nat, chs: seq<Change>, i: nat, signal: Signal) {
    && LayoutOk(y, dcs) && i < |y.dc| && Honest(y, dcs, chs, i, Says(signal)) && Orderly(y, dcs, chs, i)
    && ToldHolding(Empty(|y.dc|, dcs), y, chs)
  }

  /**
   * A heartbeat is read at once: just after it, every channel of its data channel on which no
   * loss told reaches its tick reads its level there, from the store's oldest tick on.
   */
  lemma HeartbeatRead(y: Layout, dcs: nat, chs: seq<Change>, b: Beat, i: nat, signal: Signal)
    requires i < |y.dc| && WellFed(y, dcs, chs + [Heartbeat(y.dc[i], b)], i, signal) && b.tick < OPEN
    requires
      var all := chs + [Heartbeat(y.dc[i], b)];
      Reached(y, dcs, all).oldest <= b.tick && !StoreLatest.Reached(HistoryOf(y, dcs, all, i).h.losses, b.tick)
    ensures ReadLevel(Reached(y, dcs, chs + [Heartbeat(y.dc[i], b)]), y, i, b.tick) == Some(LevelFor(b, i))
  {
    var s, ch := Empty(|y.dc|, dcs), Heartbeat(y.dc[i], b);
    var all := chs + [ch];
    var mid, ops := AfterAll(s, y, chs), AllOpsOf(s, y, chs, i);
    var op := Op.Beat(b.tick, LevelFor(b, i));
    AfterAllConcat(s, y, chs, [ch]);
    AfterOne(mid, y, ch);
    Arrived(mid, y, y.dc[i], b);
    OpsConcat(s, y, chs, [ch], i);
    OneOp(mid, y, ch, i);
    LatestLast(None, ops, b.tick, LevelFor(b, i));
    assert OnTrack(s, y, BEGIN, i);
    ToldNewest(s, y, BEGIN, all, i);
    ChannelRuns(y, dcs, all, i);
    ReachedCovers(y, dcs, all);
    hide AfterAll, AllOpsOf, Run, LevelAt, AllAllowed, AllInOrder, StoreLatest.NewestHeld, StoreLatest.Latest, LevelFor, After;
    StoreLatest.LatestReads(y.late, ops + [op], signal, b.tick);
  }

  lemma Arrived(s: State, y: Layout, d: nat, b: Beat)
    requires Fits(s, y) && d < |s.data|
    ensures var wm := After(s, y, Heartbeat(d, b)).data[d].wm; wm.Some? && wm.value >= b.tick
  {
    hide BeatViews, Pushed;
  }

  lemma OneOp(s: State, y: Layout, ch: Change, i: nat)
    requires Fits(s, y) && i < |y.dc|
    ensures AllOpsOf(s, y, [ch], i) == OpsOf(s, y, ch, i)
  {
    hide After, OpsOf;
    assert AllOpsOf(After(s, y, ch), y, [], i) == [];
    assert OpsOf(s, y, ch, i) + [] == OpsOf(s, y, ch, i);
  }
}
