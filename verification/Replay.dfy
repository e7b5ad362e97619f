/** A decoder group's replay of the store, in bounded steps. */
module Replay {
  import opened Numbers
  import opened MergeOrder
  import opened ReplayStore
  import opened ReplayOrder

  /** Records read at most per reading and, but for the last reading, per step. */
  const READ_MAX: nat := 4096
  const REPLAY_STEP: nat := 65536
  /** Losses remembered, and known at once. */
  const FED_MAX: nat := 64
  const KNOWN_LINES: nat := 64

  /** A loss the store has, and whether this step has told it. */
  datatype Known = Known(loss: Loss, given: bool)

  // ----- the losses of one step

  /** In one step's calls, a loss comes after the records up to its start and before the later. */
  predicate TellsPlaced(part: seq<Call>) {
    forall i, j :: 0 <= i < j < |part| && part[i].Give? && !part[i].e.isLevel && part[j].Tell? ==>
      part[i].e.tick <= part[j].loss.start
  }

  /** What is not told yet starts no earlier than the records given in this step. */
  predicate Unhurried(known: seq<Known>, part: seq<Call>) {
    forall k, x :: k in known && !k.given && x in part && x.Give? && !x.e.isLevel ==> x.e.tick <= k.loss.start
  }

  predicate AllTold(known: seq<Known>, part: seq<Call>) {
    forall k :: k in known && k.given ==> Tell(k.loss) in part
  }

  /** Only what is known is told. */
  predicate NoneElse(known: seq<Known>, part: seq<Call>) {
    forall x :: x in part && x.Tell? ==> exists k :: k in known && k.loss == x.loss
  }

  predicate StepOk(known: seq<Known>, part: seq<Call>) {
    TellsPlaced(part) && Unhurried(known, part) && AllTold(known, part) && NoneElse(known, part)
  }

  /** What is remembered as told was told. */
  predicate Heard(fed: seq<Loss>, calls: seq<Call>) {
    forall l :: l in fed ==> Tell(l) in calls
  }

  lemma HeardOn(fed: seq<Loss>, a: seq<Call>, b: seq<Call>)
    requires Heard(fed, a) && a <= b
    ensures Heard(fed, b)
  {
    forall l | l in fed
      ensures Tell(l) in b
    {
      var i :| 0 <= i < |a| && a[i] == Tell(l);
      assert b[i] == Tell(l);
    }
  }

  lemma NoneHeard(calls: seq<Call>)
    ensures Heard([], calls)
  {
  }

  lemma HeardMore(fed: seq<Loss>, l: Loss, calls: seq<Call>)
    requires Heard(fed, calls)
    ensures Heard(Remember(fed, l), calls + [Tell(l)])
  {
  }

  lemma StepGives(known: seq<Known>, part: seq<Call>, more: seq<Call>)
    requires StepOk(known, part) && forall x :: x in more ==> x.Done? || (x.Give? && x.e.isLevel)
    ensures StepOk(known, part + more)
  {
    var all := part + more;
    forall k | 0 <= k < |more|
      ensures !more[k].Tell?
    {
      assert more[k] in more;
    }
    forall i, j | 0 <= i < j < |all| && all[i].Give? && !all[i].e.isLevel && all[j].Tell?
      ensures all[i].e.tick <= all[j].loss.start
    {
    }
  }

  lemma StepFeeds(known: seq<Known>, part: seq<Call>, e: Entry)
    requires StepOk(known, part) && forall k :: k in known && !k.given ==> e.tick <= k.loss.start
    ensures StepOk(known, part + [Give(e)])
  {
  }

  lemma StepTells(known: seq<Known>, part: seq<Call>, i: nat)
    requires StepOk(known, part) && i < |known| && !known[i].given
    ensures StepOk(known[i := known[i].(given := true)], part + [Tell(known[i].loss)])
  {
    var l := known[i].loss;
    var now := known[i := known[i].(given := true)];
    forall k | k in now
      ensures k in known || k == Known(l, true)
    {
    }
    assert known[i] in known;
    assert now[i] == Known(l, true);
    NoneElseOn(known, part, i);
    assert TellsPlaced(part + [Tell(l)]) by {
      forall x | x in part && x.Give? && !x.e.isLevel
        ensures x.e.tick <= l.start
      {
      }
    }
  }

  lemma NoneElseOn(known: seq<Known>, part: seq<Call>, i: nat)
    requires NoneElse(known, part) && i < |known|
    ensures NoneElse(known[i := known[i].(given := true)], part + [Tell(known[i].loss)])
  {
    var now := known[i := known[i].(given := true)];
    forall x | x in part + [Tell(known[i].loss)] && x.Tell?
      ensures exists k :: k in now && k.loss == x.loss
    {
      if x in part {
        var k :| k in known && k.loss == x.loss;
        var j :| 0 <= j < |known| && known[j] == k;
        assert now[j] in now && now[j].loss == x.loss;
      } else {
        assert now[i] in now;
      }
    }
  }

  /** The losses of the store that overlap from..to, at most max. */
  function Window(losses: seq<Loss>, from: nat, to: nat, max: nat): (r: seq<Loss>)
    ensures forall l :: l in r ==> l in losses && l.start <= to && from <= l.end
  {
    if losses == [] || max == 0 || losses[0].start > to then []
    else if losses[0].end < from then Window(losses[1..], from, to, max)
    else [losses[0]] + Window(losses[1..], from, to, max - 1)
  }

  predicate Meets(l: Loss, from: nat, to: nat) {
    l.start <= to && from <= l.end
  }

  function CountMeeting(losses: seq<Loss>, from: nat, to: nat): nat {
    if losses == [] then 0 else (if Meets(losses[0], from, to) then 1 else 0) + CountMeeting(losses[1..], from, to)
  }

  predicate ByStart(losses: seq<Loss>) {
    forall i, j :: 0 <= i < j < |losses| ==> losses[i].start <= losses[j].start
  }

  /** Of losses in order of their start, the first max that overlap are there. */
  lemma {:induction false} WindowHas(losses: seq<Loss>, from: nat, to: nat, max: nat, i: nat)
    requires ByStart(losses) && i < |losses| && Meets(losses[i], from, to) && CountMeeting(losses[..i], from, to) < max
    ensures losses[i] in Window(losses, from, to, max)
  {
    if i > 0 {
      assert losses[..i][1..] == losses[1..][..i - 1];
      assert losses[0].start <= losses[i].start;
      WindowHas(losses[1..], from, to, if Meets(losses[0], from, to) then max - 1 else max, i - 1);
    }
  }

  predicate Same(a: Loss, b: Loss) {
    a.start == b.start && a.end == b.end
  }

  predicate Seen(fed: seq<Loss>, l: Loss) {
    exists x :: x in fed && Same(x, l)
  }

  /** Those not told lately. */
  function Unseen(losses: seq<Loss>, fed: seq<Loss>): (r: seq<Known>)
    ensures forall l :: l in losses && !Seen(fed, l) ==> Known(l, false) in r
    ensures forall k :: k in r ==> k.loss in losses && !Seen(fed, k.loss) && !k.given
  {
    if losses == [] then []
    else
      var l := losses[|losses| - 1];
      Unseen(losses[..|losses| - 1], fed) + if Seen(fed, l) then [] else [Known(l, false)]
  }

  function Remember(fed: seq<Loss>, l: Loss): seq<Loss> {
    (if |fed| == FED_MAX then fed[1..] else fed) + [l]
  }

  lemma CoreBase(c: nat, h: Held, s: Trail)
    requires Core(c, h, s)
    ensures |s.base| == |s.pos| == |h.recs| && s.n <= |s.read| && Taken(h, s)
    ensures h.wm.Some? && Coming(h, s.pos, s.read[s.n..], s.low) && s.low <= h.wm.value + 1
    ensures s.n < |s.read| ==> s.low <= s.read[s.n].tick
  {
    assert s.n < |s.read| ==> s.read[s.n] in s.read[s.n..];
  }

  lemma NotBefore(c: nat, h: Held, s: Trail, known: seq<Known>, mark: nat, k: nat)
    requires Going(c, h, s, known, mark)
    ensures s.n + k < |s.read| ==> s.read[s.n].tick <= s.read[s.n + k].tick
  {
    assert s.n + k < |s.read| && k > 0 ==> Before(s.read[s.n], s.read[s.n + k]);
  }

  /** What of a list has been fed, is kept and comes, while it is gone through from w on. */
  ghost predicate Feeding(w: Trail, s: Trail, keep: seq<Entry>, next: seq<Entry>, i: nat, target: nat, from: nat, upto: nat) {
    && w.n <= s.n <= |s.read| && i <= |next| && s.read[s.n..] == keep + next[i..]
    && s.n + |keep| == w.n + i && (keep != [] ==> keep[0].tick > target)
    && (if s.n > w.n then upto == s.low == s.read[s.n - 1].tick <= target else upto == from && s.low == w.low)
    && w.calls <= s.calls && s == w.(n := s.n, low := s.low, looks := s.looks, calls := s.calls, next := s.next)
  }

  lemma FeedingStart(s: Trail, next: seq<Entry>, target: nat, from: nat)
    requires s.n <= |s.read| && next == s.read[s.n..]
    ensures Feeding(s, s, [], next, 0, target, from, from)
  {
  }

  lemma FeedingNext(w: Trail, s: Trail, keep: seq<Entry>, next: seq<Entry>, i: nat, target: nat, from: nat, upto: nat)
    requires Feeding(w, s, keep, next, i, target, from, upto) && i < |next|
    requires s.n + |keep| < |s.read| ==> s.read[s.n].tick <= s.read[s.n + |keep|].tick
    ensures s.n < |s.read|
    ensures next[i].tick <= target ==> s.read[s.n] == next[i]
    ensures next[i].tick > target ==> Feeding(w, s, keep + [next[i]], next, i + 1, target, from, upto)
  {
    assert |s.read[s.n..]| == |keep| + |next| - i;
    assert s.read[s.n..][|keep|] == next[i];
    assert keep != [] ==> s.read[s.n..][0] == keep[0];
    assert keep + next[i..] == (keep + [next[i]]) + next[i + 1..];
  }

  lemma FeedingFed(w: Trail, s: Trail, t: Trail, keep: seq<Entry>, next: seq<Entry>, i: nat, target: nat, from: nat, upto: nat)
    requires exists u :: Feeding(w, s, keep, next, i, target, from, u)
    requires i < |next| && s.n < |s.read| && s.read[s.n] == next[i] && next[i].tick <= target && upto == next[i].tick
    requires t == s.(n := s.n + 1, low := upto, looks := t.looks, calls := t.calls, next := t.next) && s.calls <= t.calls
    ensures Feeding(w, t, keep, next, i + 1, target, from, upto)
  {
    assert s.read[s.n..] == keep + next[i..] && s.read[s.n..][0] == next[i];
    assert keep == [];
    assert s.read[s.n + 1..] == s.read[s.n..][1..];
  }

  lemma FeedingEnd(w: Trail, s: Trail, keep: seq<Entry>, next: seq<Entry>, i: nat, target: nat, from: nat, upto: nat)
    requires Feeding(w, s, keep, next, i, target, from, upto) && i == |next|
    ensures w.n <= s.n <= |s.read| && keep == s.read[s.n..] && s.n + |keep| == w.n + |next|
    ensures keep != [] ==> keep[0].tick > target
    ensures if s.n > w.n then upto == s.low == s.read[s.n - 1].tick <= target else upto == from && s.low == w.low
    ensures w.calls <= s.calls && s == w.(n := s.n, low := s.low, looks := s.looks, calls := s.calls, next := s.next)
  {
    assert keep + next[i..] == keep;
  }

  lemma SameAs(a: seq<Known>)
    ensures SameLosses(a, a)
  {
  }

  lemma SameOn(a: seq<Known>, b: seq<Known>, c: seq<Known>)
    requires SameLosses(a, b) && SameLosses(b, c)
    ensures SameLosses(a, c)
  {
  }

  lemma NoneUnseen(fed: seq<Loss>)
    ensures Unseen([], fed) == []
  {
  }

  lemma UnseenOne(losses: seq<Loss>, i: nat, fed: seq<Loss>)
    requires i < |losses|
    ensures Unseen(losses[..i + 1], fed) == Unseen(losses[..i], fed) + if Seen(fed, losses[i]) then [] else [Known(losses[i], false)]
  {
    assert losses[..i + 1][..i] == losses[..i];
  }

  /** How far a step is that began at w, with what it read too far waiting. */
  predicate Stepping(h: Held, w: Trail, s: Trail, pend: seq<Entry>, target: nat, all: bool, total: nat, upto: nat) {
    && w.n <= s.n <= |s.read| && pend == s.read[s.n..] && |pend| <= READ_MAX
    && (if all then |s.pos| == |h.recs| && Coming(h, s.pos, pend, target + 1) else pend == [] && total == s.n - w.n)
    && (if s.n > w.n then upto == s.low == s.read[s.n - 1].tick <= target else upto == 0 && s.low == w.low)
  }

  lemma GoingFits(c: nat, h: Held, s: Trail, known: seq<Known>, mark: nat)
    requires Going(c, h, s, known, mark)
    ensures |s.pos| == |h.recs| && s.n <= |s.read| && mark <= |s.calls|
  {
  }

  lemma SteppingRead(h: Held, w: Trail, s: Trail, pend: seq<Entry>, target: nat, total: nat, upto: nat, buf: seq<Entry>)
    requires Stepping(h, w, s, pend, target, false, total, upto)
    ensures s.n == |s.read| && (s.read + buf)[s.n..] == buf && pend == []
  {
    assert |s.read[s.n..]| == 0;
  }

  lemma SteppingFed(c: nat, h: Held, w: Trail, s: Trail, r: Trail, t: Trail, known: seq<Known>, mark: nat, buf: seq<Entry>,
      pend: seq<Entry>, target: nat, total: nat, upto: nat, upto': nat)
    requires Stepping(h, w, s, [], target, false, total, upto) && Going(c, h, t, known, mark)
    requires r == s.(pos := r.pos, read := s.read + buf) && Feeding(r, t, pend, buf, |buf|, target, upto, upto')
    requires h.wm.Some? && target <= h.wm.value && |buf| <= READ_MAX
    requires |r.pos| == |h.recs| && (|buf| < READ_MAX ==> NoneLeft(h, r.pos))
    ensures Stepping(h, w, t, pend, target, pend != [] || |buf| < READ_MAX, total + |buf|, upto')
  {
    hide Going, Coming, NoneLeft, Feeding;
    FeedingEnd(r, t, pend, buf, |buf|, target, upto, upto');
    assert |s.read[s.n..]| == 0;
    if pend != [] || |buf| < READ_MAX {
      assert pend != [] ==> t.n < |t.read| && t.read[t.n] == pend[0];
      GoingAllRead(c, h, t, known, mark, target);
    }
  }

  lemma GoingAllRead(c: nat, h: Held, s: Trail, known: seq<Known>, mark: nat, target: nat)
    requires Going(c, h, s, known, mark) && h.wm.Some? && target <= h.wm.value && |s.pos| == |h.recs|
    requires if s.n < |s.read| then s.read[s.n].tick > target else NoneLeft(h, s.pos)
    ensures s.n <= |s.read| && Coming(h, s.pos, s.read[s.n..], target + 1)
  {
    AllRead(c, h, s, target);
  }

  lemma StillInReach(h: Held, pos: seq<nat>, to: seq<nat>, s: seq<Entry>)
    requires InReach(h, pos) && Took(h, pos, to, s)
    ensures InReach(h, to)
  {
  }

  lemma FinishFacts(c: nat, h: Held, w: Trail, s: Trail, known: seq<Known>, mark: nat, pend: seq<Entry>, target: nat, all: bool, total: nat, upto: nat)
    requires Sound(h) && Going(c, h, s, known, mark) && Stepping(h, w, s, pend, target, all, total, upto)
    requires w.low <= target && h.wm.Some? && target <= h.wm.value && (all || total >= REPLAY_STEP)
    ensures |s.base| == |h.recs| && s.low <= target + 1 && s.n <= |s.read| && pend == s.read[s.n..] && |pend| <= READ_MAX
    ensures all ==> |s.pos| == |h.recs| && Coming(h, s.pos, s.read[s.n..], target + 1)
    ensures FedBy(s.read, s.n, target)
    ensures !all ==> 0 < upto == s.low <= target && total == s.n - w.n
    ensures s.decoded.Some? ==> s.decoded.value < s.low
    ensures h.wm.value < TICK_END && w.n <= s.n
  {
    if !all {
      StepPastZero(h, s, w.n);
    }
  }

  // ----- what a step promises

  /** How far a step may go; None if nowhere yet. */
  function Target(h: Held, reading: bool, hold: nat): Option<nat> {
    var back := if reading then hold else 0;
    if h.wm.None? || h.wm.value < back then None else Some(h.wm.value - back)
  }

  /** A group begins at the store's oldest records, past its oldest tick, at the first grid point from there. */
  predicate Begun(h: Held, c: nat, s: Trail) {
    && s.base == h.first && s.skip == h.oldest
    && h.oldest <= s.start < h.oldest + c && exists k :: 0 <= k <= s.start && s.start == k * c
  }

  /** Nothing given is taken back. */
  predicate Onward(w: Trail, s: Trail) {
    w.calls <= s.calls && s.base == w.base && s.skip == w.skip && s.start == w.start && w.n <= s.n
  }

  /** Everything up to the target has been given, and nothing before what comes after it. */
  predicate CaughtUp(s: Trail, target: nat) {
    && s.decoded == Some(target) && s.low == target + 1
    && FedBy(s.read, s.n, target)
  }

  /** There is something left to do. */
  predicate Behind(w: Trail, target: Option<nat>) {
    target.Some? && (w.decoded.Some? ==> w.decoded.value < target.value)
  }

  /** Nothing to do, or the target reached, or a step's worth of records fed. */
  predicate Stepped(target: Option<nat>, w: Trail, s: Trail, work: bool) {
    if Behind(w, target) then CaughtUp(s, target.value) || (work && s.n >= w.n + REPLAY_STEP)
    else !work && s.calls == w.calls
  }

  /** How far back a loss may have come since a group's last step. */
  function LateFrom(decoded: Option<nat>, late: nat): nat {
    if decoded.Some? && decoded.value > late then decoded.value - late else 0
  }

  /**
   * The losses of the store that reach back to from and start by the target, the first FED_MAX of
   * them, were told, now or before.
   */
  ghost predicate Informed(h: Held, from: nat, target: nat, calls: seq<Call>) {
    ByStart(h.losses) ==>
      forall i :: 0 <= i < |h.losses| && Meets(h.losses[i], from, target) && CountMeeting(h.losses[..i], from, target) < FED_MAX ==>
        ToldOf(h.losses[i], calls)
  }

  /** A loss of the same range was told. */
  ghost predicate ToldOf(l: Loss, calls: seq<Call>) {
    exists x :: Tell(x) in calls && x.start == l.start && x.end == l.end
  }

  lemma InformedBy(h: Held, from: nat, target: nat, fed: seq<Loss>, w: seq<Call>, s: seq<Call>)
    requires w <= s && Heard(fed, w)
    requires forall k :: k in Unseen(Window(h.losses, from, target, FED_MAX), fed) ==> Tell(k.loss) in s[|w|..]
    ensures Informed(h, from, target, s)
  {
    if ByStart(h.losses) {
      forall i | 0 <= i < |h.losses| && Meets(h.losses[i], from, target) && CountMeeting(h.losses[..i], from, target) < FED_MAX
        ensures ToldOf(h.losses[i], s)
      {
        var l := h.losses[i];
        WindowHas(h.losses, from, target, FED_MAX, i);
        hide Window, Unseen, CountMeeting;
        HeardOn(fed, w, s);
        if Seen(fed, l) {
          var x :| x in fed && Same(x, l);
          assert Tell(x) in s;
        } else {
          assert Known(l, false) in Unseen(Window(h.losses, from, target, FED_MAX), fed);
          assert Tell(l) in s[|w|..];
        }
      }
    }
  }

  /**
   * What the store tells a step of losses is told in it or was before, and nothing else, each in
   * its place.
   */
  ghost predicate LossesTold(h: Held, target: Option<nat>, late: nat, w: Trail, s: Trail) {
    && w.calls <= s.calls && TellsPlaced(s.calls[|w.calls|..])
    && (forall l :: Tell(l) in s.calls[|w.calls|..] ==>
      target.Some? && l in h.losses && Meets(l, LateFrom(w.decoded, late), target.value))
    && (Behind(w, target) && CaughtUp(s, target.value) && |h.recs| <= KNOWN_LINES ==>
      Informed(h, LateFrom(w.decoded, late), target.value, s.calls))
  }

  lemma StepTold(h: Held, target: nat, late: nat, w: Trail, s: Trail, fed: seq<Loss>, all: bool)
    requires w.calls <= s.calls && TellsPlaced(s.calls[|w.calls|..]) && Heard(fed, w.calls) && (CaughtUp(s, target) ==> all)
    requires forall l :: Tell(l) in s.calls[|w.calls|..] ==> exists k :: k in KnownAt(h, w.decoded, late, target, fed) && k.loss == l
    requires all ==> forall k :: k in KnownAt(h, w.decoded, late, target, fed) ==> Tell(k.loss) in s.calls[|w.calls|..]
    ensures LossesTold(h, Some(target), late, w, s)
  {
    KnownAtMeets(h, w.decoded, late, target, fed);
    hide Window, Unseen, Heard, TellsPlaced, CaughtUp, Informed, Meets;
    if all && |h.recs| <= KNOWN_LINES {
      InformedBy(h, LateFrom(w.decoded, late), target, fed, w.calls, s.calls);
    }
  }

  lemma KnownAtMeets(h: Held, decoded: Option<nat>, late: nat, target: nat, fed: seq<Loss>)
    ensures forall k :: k in KnownAt(h, decoded, late, target, fed) ==> k.loss in h.losses && Meets(k.loss, LateFrom(decoded, late), target)
  {
  }

  lemma SameTold(h: Held, target: Option<nat>, late: nat, w: Trail, v: Trail, s: Trail)
    requires w.calls == v.calls && w.decoded == v.decoded && LossesTold(h, target, late, v, s)
    ensures LossesTold(h, target, late, w, s)
  {
  }

  /** A step that does nothing tells nothing. */
  lemma NothingTold(h: Held, target: Option<nat>, late: nat, s: Trail)
    requires !Behind(s, target)
    ensures LossesTold(h, target, late, s, s)
  {
  }

  lemma LateFacts(c: nat, h: Held, s: Trail)
    requires Core(c, h, s)
    ensures s.decoded.Some? ==> forall t: nat :: t <= s.decoded.value ==> t < s.low && Reached(s.calls, t)
  {
    if s.decoded.Some? {
      ReachedBelow(s.calls, s.decoded.value);
    }
  }

  lemma SteppingStart(c: nat, h: Held, w: Trail, t: Trail, known: seq<Known>, mark: nat, next: seq<Entry>,
      pend: seq<Entry>, target: nat, upto: nat)
    requires Feeding(w, t, pend, next, |next|, target, 0, upto) && Going(c, h, t, known, mark)
    requires h.wm.Some? && target <= h.wm.value && |next| <= READ_MAX
    ensures |pend| <= |next| && Stepping(h, w, t, pend, target, pend != [], |next| - |pend|, upto)
    ensures t == w.(n := t.n, low := t.low, looks := t.looks, calls := t.calls, next := t.next) && w.calls <= t.calls
  {
    FeedingEnd(w, t, pend, next, |next|, target, 0, upto);
    GoingFits(c, h, t, known, mark);
    hide Going, Coming, NoneLeft, Feeding;
    if pend != [] {
      assert t.n < |t.read| && t.read[t.n] == pend[0];
      GoingAllRead(c, h, t, known, mark, target);
    }
  }

  lemma StartsUnder(given: seq<Known>, known: seq<Known>, target: nat)
    requires SameLosses(given, known) && forall k :: k in given ==> k.loss.start <= target
    ensures forall k :: k in known ==> k.loss.start <= target
  {
    forall k | k in known
      ensures k.loss.start <= target
    {
      var i :| 0 <= i < |known| && known[i] == k;
      assert given[i] in given;
    }
  }

  lemma StepEnds(c: nat, h: Held, s: Trail, known: seq<Known>, mark: nat, given: seq<Known>, all: bool)
    requires Going(c, h, s, known, mark) && SameLosses(given, known) && (all ==> forall k :: k in known ==> k.given)
    ensures Core(c, h, s) && mark <= |s.calls| && TellsPlaced(s.calls[mark..])
    ensures all ==> forall k :: k in given ==> Tell(k.loss) in s.calls[mark..]
    ensures forall l :: Tell(l) in s.calls[mark..] ==> exists k :: k in given && k.loss == l
  {
    forall l | Tell(l) in s.calls[mark..]
      ensures exists k :: k in given && k.loss == l
    {
      var k :| k in known && k.loss == l;
      var i :| 0 <= i < |known| && known[i] == k;
      assert given[i] in given && given[i].loss == l;
    }
    if all {
      forall k | k in given
        ensures Tell(k.loss) in s.calls[mark..]
      {
        var i :| 0 <= i < |given| && given[i] == k;
        assert known[i] in known;
      }
    }
  }

  lemma FeedFacts(c: nat, h: Held, s: Trail, known: seq<Known>, mark: nat)
    requires Sound(h) && Going(c, h, s, known, mark) && s.n < |s.read|
    ensures |s.base| == |s.pos| == |h.recs| && !s.read[s.n].isLevel && h.wm.Some?
    ensures s.low <= s.read[s.n].tick <= h.wm.value && Coming(h, s.pos, s.read[s.n..], s.read[s.n].tick)
  {
    CoreBase(c, h, s);
    ReadIs(h, s, s.n);
    ComingAt(h, s);
  }

  lemma NoLevels(h: Held, tick: nat, calls: seq<Call>)
    ensures calls + Gives(LevelsAt(h, tick, 0)) == calls
  {
  }

  lemma MoreLevels(h: Held, tick: nat, i: nat, calls: seq<Call>)
    ensures
      var v := h.level(i, tick);
      calls + Gives(LevelsAt(h, tick, i + 1))
      == calls + Gives(LevelsAt(h, tick, i)) + if v.Some? then [Give(Entry(tick, i, v.value, true))] else []
  {
    var l := LevelsAt(h, tick, i);
    var v := h.level(i, tick);
    if v.Some? {
      assert Gives(l + [Entry(tick, i, v.value, true)]) == Gives(l) + [Give(Entry(tick, i, v.value, true))];
    }
  }

  lemma ReachedBelow(calls: seq<Call>, t: nat)
    requires Reached(calls, t)
    ensures forall u: nat :: u <= t ==> Reached(calls, u)
  {
    var x :| x in calls && x.Done? && x.tick >= t;
  }

  lemma DonesUnder(c: nat, h: Held, s: Trail, t: nat)
    requires Core(c, h, s) && s.low <= t + 1
    ensures forall x :: x in s.calls && x.Done? ==> x.tick <= t
  {
    hide Taken, Ahead, Shown, Told;
    forall x | x in s.calls && x.Done?
      ensures x.tick <= t
    {
      assert Under(x, s.low);
    }
  }

  /** Between steps: what was read and not fed waits, and nothing before what is decoded is to come. */
  predicate Waits(s: Trail, pend: seq<Entry>) {
    && s.n <= |s.read| && pend == s.read[s.n..] && |pend| <= READ_MAX
    && s.low == if s.decoded.Some? then s.decoded.value + 1 else 0
  }

  /** The first grid point not before a tick. */
  function FirstGrid(tick: nat, c: nat): nat
    requires c > 0
  {
    (tick + c - 1) / c * c
  }

  lemma FirstGridIs(tick: nat, c: nat)
    requires c > 0
    ensures tick <= FirstGrid(tick, c) < tick + c
    ensures exists m: nat :: FirstGrid(tick, c) == m * c
  {
    var q := (tick + c - 1) / c;
    assert (tick + c - 1) == q * c + (tick + c - 1) % c;
  }

  predicate SameLosses(a: seq<Known>, b: seq<Known>) {
    |a| == |b| && forall i :: 0 <= i < |a| ==> a[i].loss == b[i].loss
  }

  /** The losses a step knows of: those of the store up to the target, not told lately. */
  function KnownAt(h: Held, decoded: Option<nat>, late: nat, target: nat, fed: seq<Loss>): seq<Known> {
    if |h.recs| > KNOWN_LINES then [] else Unseen(Window(h.losses, LateFrom(decoded, late), target, FED_MAX), fed)
  }

  lemma KnownAtIs(h: Held, decoded: Option<nat>, late: nat, target: nat, fed: seq<Loss>)
    ensures forall k :: k in KnownAt(h, decoded, late, target, fed) ==> !k.given && k.loss.start <= target
  {
  }

  /** The invariant inside a step whose calls began at mark. */
  ghost predicate Going(c: nat, h: Held, s: Trail, known: seq<Known>, mark: nat) {
    Core(c, h, s) && mark <= |s.calls| && StepOk(known, s.calls[mark..])
  }

  lemma GoingDone(c: nat, h: Held, s: Trail, known: seq<Known>, mark: nat, t: nat)
    requires Going(c, h, s, known, mark) && t < s.low <= t + 1
    ensures
      var u := s.(calls := s.calls + [Done(t)]);
      Going(c, h, u, known, mark) && Going(c, h, u.(decoded := Some(t)), known, mark) && Reached(u.calls, t)
  {
    hide Core, StepOk;
    DonesUnder(c, h, s, t);
    CoreDone(c, h, s, t);
    StepGives(known, s.calls[mark..], [Done(t)]);
    assert (s.calls + [Done(t)])[mark..] == s.calls[mark..] + [Done(t)];
    assert Done(t) in s.calls + [Done(t)];
  }

  lemma GoingFed(c: nat, h: Held, s: Trail, known: seq<Known>, mark: nat)
    requires Going(c, h, s, known, mark)
    requires s.n < |s.read| && s.read[s.n].tick == s.low && !s.read[s.n].isLevel
    requires forall k :: k in known && !k.given ==> s.low <= k.loss.start
    ensures Going(c, h, Fed(s), known, mark)
  {
    hide Core, StepOk;
    CoreFed(c, h, s);
    StepFeeds(known, s.calls[mark..], s.read[s.n]);
    assert (s.calls + [Give(s.read[s.n])])[mark..] == s.calls[mark..] + [Give(s.read[s.n])];
  }

  lemma GoingTell(c: nat, h: Held, s: Trail, known: seq<Known>, mark: nat, i: nat)
    requires Going(c, h, s, known, mark) && i < |known| && !known[i].given
    requires known[i].loss.start < s.low && Reached(s.calls, known[i].loss.start)
    ensures Going(c, h, s.(calls := s.calls + [Tell(known[i].loss)]), known[i := known[i].(given := true)], mark)
  {
    hide Core, StepOk, Reached;
    CoreTell(c, h, s, known[i].loss);
    StepTells(known, s.calls[mark..], i);
    assert (s.calls + [Tell(known[i].loss)])[mark..] == s.calls[mark..] + [Tell(known[i].loss)];
  }

  lemma GoingShows(c: nat, h: Held, s: Trail, known: seq<Known>, mark: nat, bound: nat)
    requires CoreShowing(c, h, s, bound) && mark <= |s.calls| && StepOk(known, s.calls[mark..]) && s.next < bound && c > 0
    ensures
      var u := Shows(s, c, h, |s.base|);
      CoreShowing(c, h, u, bound) && StepOk(known, u.calls[mark..])
  {
    hide CoreShowing, StepOk, LevelsAt;
    CoreShows(c, h, s, bound);
    LevelsAtIs(h, s.next, |s.base|);
    var more := Gives(LevelsAt(h, s.next, |s.base|));
    StepGives(known, s.calls[mark..], more);
    assert (s.calls + more)[mark..] == s.calls[mark..] + more;
  }

  // ----- a step does not stop before tick 1

  /** Records of one tick are at most one per channel. */
  lemma {:induction false} OnePerChannel(s: seq<Entry>, k: nat)
    requires Ascending(s) && k < |s| && forall e :: e in s ==> !e.isLevel && e.tick == s[0].tick
    ensures s[k].channel >= k
  {
    if k > 0 {
      OnePerChannel(s, k - 1);
      assert Before(s[k - 1], s[k]) && s[k] in s && s[k - 1] in s;
    }
  }

  lemma ReadIs(h: Held, s: Trail, k: nat)
    requires Sound(h) && Taken(h, s) && k < |s.read|
    ensures s.read[k].channel < |h.recs| && !s.read[k].isLevel && s.read[k] in s.read
    ensures h.wm.Some? && s.read[k].tick <= h.wm.value
  {
    var i, j := WhereTook(h, s.base, s.pos, s.read, s.read[k]);
    InChannel(h, i, j);
    hide Rest;
  }

  lemma StepPastZero(h: Held, s: Trail, from: nat)
    requires Sound(h) && Taken(h, s) && from + REPLAY_STEP <= s.n
    ensures s.read[s.n - 1].tick > 0
  {
    var part := s.read[from..s.n];
    if s.read[s.n - 1].tick == 0 {
      forall e | e in part
        ensures !e.isLevel && e.tick == 0
      {
        var k :| from <= k < s.n && s.read[k] == e;
        ReadIs(h, s, k);
        assert k < s.n - 1 ==> Before(s.read[k], s.read[s.n - 1]);
      }
      assert part[0] in part;
      assert Ascending(part);
      ReadIs(h, s, s.n - 1);
      OnePerChannel(part, |part| - 1);
    }
  }

  lemma FreshGoing(c: nat, h: Held, base: seq<nat>, skip: nat, start: nat, known: seq<Known>)
    requires Sound(h) && h.wm.Some? && base == h.first && forall k :: k in known ==> !k.given
    ensures Going(c, h, Trail(base, base, skip, start, start, None, [], [], 0, 0, []), known, 0)
    ensures Core(c, h, Trail(base, base, skip, start, start, None, [], [], 0, 0, []))
  {
    TookNothing(h, base);
    var none: seq<Entry>, calls: seq<Call> := [], [];
    assert none[..0] == none && none[0..] == none && calls[0..] == calls;
  }

  lemma ReadyGoing(c: nat, h: Held, s: Trail, known: seq<Known>)
    requires Core(c, h, s) && forall x :: x in known ==> !x.given
    ensures Going(c, h, s, known, |s.calls|)
  {
    assert s.calls[|s.calls|..] == [];
  }

  lemma GoingRead(c: nat, h: Held, s: Trail, known: seq<Known>, mark: nat, to: seq<nat>, out: seq<Entry>)
    requires Going(c, h, s, known, mark) && Took(h, s.pos, to, out)
    ensures Going(c, h, s.(pos := to, read := s.read + out), known, mark)
  {
    hide Core, StepOk;
    CoreRead(c, h, s, to, out);
  }

  /** Nothing up to the target is to come any more. */
  lemma AllRead(c: nat, h: Held, s: Trail, target: nat)
    requires Core(c, h, s) && h.wm.Some? && target <= h.wm.value
    requires if s.n < |s.read| then s.read[s.n].tick > target else NoneLeft(h, s.pos)
    ensures |s.pos| == |h.recs| && Coming(h, s.pos, s.read[s.n..], target + 1)
  {
    if s.n < |s.read| {
      ComingPast(h, s, target);
    }
  }

  /** Where a group began, what it read, how much of it was fed, and what is still to come. */
  datatype Trace = Trace(base: seq<nat>, start: nat, read: seq<Entry>, n: nat, low: nat, looks: seq<Look>)

  class Group {
    /** The grid: a heartbeat's levels every c ticks; late: how far back a loss may come. */
    const c: nat
    const late: nat
    var pos: seq<nat>
    var skip: nat
    var nextLevel: nat
    var decoded: Option<nat>
    var started: bool
    var pend: seq<Entry>
    var fed: seq<Loss>
    var known: seq<Known>
    /** What the group's codec was given. */
    var calls: seq<Call>
    ghost var g: Trace

    ghost function View(): Trail
      reads this
    {
      Trail(g.base, pos, skip, g.start, nextLevel, decoded, calls, g.read, g.n, g.low, g.looks)
    }

    ghost predicate Fresh()
      reads this
    {
      calls == [] && pend == [] && decoded.None? && fed == [] && g == Trace([], 0, [], 0, 0, [])
    }

    /** Fresh, or as far as its trail says, with what it read too far waiting. */
    ghost predicate Valid(h: Held)
      reads this
    {
      && c > 0
      && if started then Core(c, h, View()) && Waits(View(), pend) && Heard(fed, calls) else Fresh()
    }

    constructor (c: nat, late: nat)
      requires c > 0
      ensures forall h :: Valid(h)
      ensures this.c == c && this.late == late && !started
    {
      this.c, this.late := c, late;
      pos, skip, nextLevel, decoded, started := [], 0, 0, None, false;
      pend, fed, known, calls := [], [], [], [];
      g := Trace([], 0, [], 0, 0, []);
    }

    /** Every known loss that starts before tick is told. */
    method LossesBefore(ghost h: Held, tick: nat, ghost mark: nat)
      requires Going(c, h, View(), known, mark)
      requires forall k :: k in known && !k.given && k.loss.start < tick ==> k.loss.start < g.low && Reached(calls, k.loss.start)
      requires Heard(fed, calls)
      modifies this`known, this`fed, this`calls
      ensures Going(c, h, View(), known, mark) && Heard(fed, calls)
      ensures |known| == |old(known)| && old(calls) <= calls
      ensures forall i :: 0 <= i < |known| ==>
        known[i].loss == old(known)[i].loss && known[i].given == (old(known)[i].given || known[i].loss.start < tick)
    {
      hide Going, Reached, Heard, Remember;
      var i := 0;
      while i < |known|
        invariant 0 <= i <= |known| == |old(known)| && Heard(fed, calls)
        invariant Going(c, h, View(), known, mark) && old(calls) <= calls
        invariant forall k :: 0 <= k < i ==>
          known[k].loss == old(known)[k].loss && known[k].given == (old(known)[k].given || known[k].loss.start < tick)
        invariant forall k :: i <= k < |known| ==> known[k] == old(known)[k]
      {
        var k := known[i];
        if !k.given && k.loss.start < tick {
          assert k in old(known);
          ghost var more := calls[|old(calls)|..];
          assert calls == old(calls) + more;
          ReachedMore(old(calls), more, k.loss.start);
          GoingTell(c, h, View(), known, mark, i);
          HeardMore(fed, k.loss, calls);
          known := known[i := k.(given := true)];
          fed := Remember(fed, k.loss);
          calls := calls + [Tell(k.loss)];
        }
        i := i + 1;
      }
    }

    /** The levels of every channel the store knows, at every grid point before tick. */
    method LevelsBefore(h: Held, tick: nat, ghost mark: nat)
      requires c > 0 && Going(c, h, View(), known, mark)
      requires |g.base| == |h.recs| && g.low <= tick <= h.wm.value + 1 && Coming(h, pos, g.read[g.n..], tick)
      modifies this`nextLevel, this`calls, this`g
      ensures Going(c, h, View(), known, mark)
      ensures g == old(g).(low := tick, looks := g.looks) && old(calls) <= calls
    {
      hide Core, CoreShowing, StepOk, LevelsAt, Coming;
      ShowsFrom(c, h, View(), tick);
      while nextLevel < tick
        invariant CoreShowing(c, h, View(), tick) && mark <= |calls| && StepOk(known, calls[mark..])
        invariant g == old(g).(looks := g.looks) && old(calls) <= calls
        decreases tick - nextLevel
      {
        GoingShows(c, h, View(), known, mark, tick);
        ghost var was := calls;
        var i := 0;
        NoLevels(h, nextLevel, calls);
        while i < |h.recs|
          modifies this`calls
          invariant 0 <= i <= |h.recs|
          invariant calls == was + Gives(LevelsAt(h, nextLevel, i))
        {
          MoreLevels(h, nextLevel, i, was);
          var v := h.level(i, nextLevel);
          if v.Some? {
            calls := calls + [Give(Entry(nextLevel, i, v.value, true))];
          }
          i := i + 1;
        }
        g := g.(looks := g.looks + [Look(nextLevel, h)]);
        nextLevel := nextLevel + c;
      }
      ShowsTo(c, h, View(), tick);
      g := g.(low := tick);
    }

    /** Whether a known loss not told yet starts before tick. */
    method LossDue(tick: nat) returns (due: bool)
      ensures due <==> exists k :: k in known && !k.given && k.loss.start < tick
    {
      due := false;
      for i := 0 to |known|
        invariant !due && forall k :: k in known[..i] ==> k.given || k.loss.start >= tick
      {
        if !known[i].given && known[i].loss.start < tick {
          return true;
        }
      }
    }

    /** Gives what is due before e, and then e. */
    method Feed(h: Held, e: Entry, ghost mark: nat)
      requires Sound(h) && Going(c, h, View(), known, mark) && Heard(fed, calls)
      requires c > 0 && g.n < |g.read| && e == g.read[g.n]
      modifies this`nextLevel, this`calls, this`g, this`known, this`fed
      ensures Going(c, h, View(), known, mark)
      ensures g == old(g).(n := old(g.n) + 1, low := e.tick, looks := g.looks) && old(calls) <= calls
      ensures SameLosses(old(known), known) && Heard(fed, calls)
    {
      hide Core, Going, Coming, Sound, Taken, Reached, Rising, Took, Heard;
      ghost var were := known;
      FeedFacts(c, h, View(), known, mark);
      LevelsBefore(h, e.tick, mark);
      HeardOn(fed, old(calls), calls);
      var due := LossDue(e.tick);
      if due && e.tick > 0 {
        GoingDone(c, h, View(), known, mark, e.tick - 1);
        HeardOn(fed, calls, calls + [Done(e.tick - 1)]);
        calls := calls + [Done(e.tick - 1)];
        ReachedBelow(calls, e.tick - 1);
        LossesBefore(h, e.tick, mark);
      }
      GoingFed(c, h, View(), known, mark);
      if skip == 0 || e.tick > skip {
        HeardOn(fed, calls, calls + [Give(e)]);
        calls := calls + [Give(e)];
      }
      g := g.(n := g.n + 1);
    }

    /** Feeds entry i of what was read next. */
    method FeedOne(h: Held, e: Entry, ghost mark: nat, ghost w: Trail, ghost keep: seq<Entry>, ghost next: seq<Entry>, ghost i: nat,
        ghost target: nat, ghost from: nat, ghost upto: nat)
      requires Sound(h) && Going(c, h, View(), known, mark) && Heard(fed, calls)
      requires c > 0 && g.n < |g.read| && i < |next| && e == g.read[g.n] == next[i] && e.tick <= target
      requires Feeding(w, View(), keep, next, i, target, from, upto)
      modifies this`nextLevel, this`calls, this`g, this`known, this`fed
      ensures Going(c, h, View(), known, mark) && SameLosses(old(known), known) && Heard(fed, calls)
      ensures Feeding(w, View(), keep, next, i + 1, target, from, e.tick)
    {
      hide Core, Going, Sound, SameLosses, Feeding, Heard;
      ghost var was := View();
      Feed(h, e, mark);
      FeedingFed(w, was, View(), keep, next, i, target, from, e.tick);
    }

    /** The store's losses up to the target not given yet. */
    method LossesKnown(h: Held, upto: nat)
      modifies this`known
      ensures known == KnownAt(h, decoded, late, upto, fed)
    {
      hide Window, Unseen, Seen;
      var from := if decoded.Some? && decoded.value > late then decoded.value - late else 0;
      assert from == LateFrom(decoded, late);
      known := [];
      if |h.recs| <= KNOWN_LINES {
        var losses := Window(h.losses, from, upto, FED_MAX);
        var i := 0;
        NoneUnseen(fed);
        while i < |losses|
          invariant 0 <= i <= |losses| && known == Unseen(losses[..i], fed)
        {
          UnseenOne(losses, i, fed);
          if !Seen(fed, losses[i]) {
            known := known + [Known(losses[i], false)];
          }
          i := i + 1;
        }
        assert losses[..i] == losses;
      }
    }

    /** Feeds what was read next up to the target; what is past it waits. */
    method FeedAll(h: Held, target: nat, next: seq<Entry>, from: nat, ghost mark: nat) returns (upto: nat)
      requires Sound(h) && Going(c, h, View(), known, mark) && c > 0 && Heard(fed, calls)
      requires g.n <= |g.read| && next == g.read[g.n..]
      modifies this`nextLevel, this`calls, this`g, this`known, this`fed, this`pend
      ensures Going(c, h, View(), known, mark) && SameLosses(old(known), known) && Heard(fed, calls)
      ensures Feeding(old(View()), View(), pend, next, |next|, target, from, upto)
    {
      hide Core, Going, Sound, SameLosses, Feeding, Heard;
      var keep, i := [], 0;
      upto := from;
      FeedingStart(View(), next, target, from);
      SameAs(known);
      while i < |next|
        invariant Going(c, h, View(), known, mark) && SameLosses(old(known), known) && Heard(fed, calls)
        invariant i <= |next| && Feeding(old(View()), View(), keep, next, i, target, from, upto)
      {
        var e := next[i];
        NotBefore(c, h, View(), known, mark, |keep|);
        FeedingNext(old(View()), View(), keep, next, i, target, from, upto);
        if e.tick <= target {
          ghost var were := known;
          FeedOne(h, e, mark, old(View()), keep, next, i, target, from, upto);
          upto := e.tick;
          SameOn(old(known), were, known);
        } else {
          keep := keep + [e];
        }
        i := i + 1;
      }
      pend := keep;
    }

    /** A new codec: nothing read, nothing given. */
    method Restart()
      modifies this
      ensures !started && Fresh()
    {
      pos, decoded, started := [], None, false;
      pend, fed, known, calls := [], [], [], [];
      g := Trace([], 0, [], 0, 0, []);
    }

    /** From the store's oldest records, and the first grid point it holds the levels of. */
    method Begin(h: Held)
      requires Sound(h) && Valid(h) && !started && h.wm.Some?
      modifies this`pos, this`skip, this`nextLevel, this`started, this`g, this`pend
      ensures Valid(h) && started && pos == h.first && skip == h.oldest && InReach(h, pos)
      ensures g == Trace(h.first, FirstGrid(h.oldest, c), [], 0, 0, [])
    {
      hide Core, Going, Heard, Rising;
      NoneHeard(calls);
      pos, skip, nextLevel := h.first, h.oldest, (h.oldest + c - 1) / c * c;
      FirstGridIs(h.oldest, c);
      g := Trace(h.first, nextLevel, [], 0, 0, []);
      FreshGoing(c, h, h.first, h.oldest, nextLevel, []);
      pend, started := [], true;
    }

    /** Reads the next batch from the store and feeds it. */
    method Batch(h: Held, target: nat, total: nat, upto: nat, ghost mark: nat, ghost w: Trail)
      returns (ok: bool, all: bool, total': nat, upto': nat)
      requires Sound(h) && Going(c, h, View(), known, mark) && c > 0 && h.wm.Some? && target <= h.wm.value
      requires Stepping(h, w, View(), pend, target, false, total, upto) && Heard(fed, calls)
      modifies this`nextLevel, this`calls, this`g, this`known, this`fed, this`pend, this`pos
      ensures Heard(fed, calls) && (!ok ==> !InReach(h, old(pos)))
      ensures ok ==> Going(c, h, View(), known, mark) && Stepping(h, w, View(), pend, target, all, total', upto')
      ensures ok ==> old(calls) <= calls && SameLosses(old(known), known) && (!all ==> total' == total + READ_MAX)
      ensures ok ==> g == old(g).(n := g.n, low := g.low, looks := g.looks, read := g.read) && InReach(h, pos)
    {
      GoingFits(c, h, View(), known, mark);
      hide Going, Sound, SameLosses, Stepping, InReach, Took, NoneLeft, Feeding, Heard;
      var buf, to;
      ghost var was := View();
      ok, buf, to := ReadMerged(h, pos, READ_MAX);
      all, total', upto' := false, total, upto;
      if ok {
        GoingRead(c, h, View(), known, mark, to, buf);
        StillInReach(h, pos, to, buf);
        SteppingRead(h, w, View(), pend, target, total, upto, buf);
        g, pos := g.(read := g.read + buf), to;
        ghost var red := View();
        upto' := FeedAll(h, target, buf, upto, mark);
        total' := total + |buf|;
        all := pend != [] || |buf| < READ_MAX;
        FeedingEnd(red, View(), pend, buf, |buf|, target, upto, upto');
        SteppingFed(c, h, w, was, red, View(), known, mark, buf, pend, target, total, upto, upto');
      }
    }

    /** The levels up to the target, and the losses not told yet. */
    method GiveRest(h: Held, target: nat, ghost mark: nat)
      requires Going(c, h, View(), known, mark) && c > 0
      requires |g.base| == |h.recs| && g.low <= target + 1 <= h.wm.value + 1 && Coming(h, pos, g.read[g.n..], target + 1)
      requires target < TICK_END && Heard(fed, calls) && forall k :: k in known ==> k.loss.start <= target
      modifies this`nextLevel, this`calls, this`g, this`known, this`fed
      ensures Heard(fed, calls) && Going(c, h, View(), known, mark) && SameLosses(old(known), known)
      ensures old(calls) <= calls && g == old(g).(low := target + 1, looks := g.looks)
      ensures forall k :: k in known ==> k.given
    {
      hide Going, Coming, Reached, Heard;
      SameAs(known);
      LevelsBefore(h, target + 1, mark);
      HeardOn(fed, old(calls), calls);
      var due := LossDue(TICK_END);
      if due {
        GoingDone(c, h, View(), known, mark, target);
        HeardOn(fed, calls, calls + [Done(target)]);
        calls := calls + [Done(target)];
        ReachedBelow(calls, target);
        LossesBefore(h, TICK_END, mark);
      }
    }

    /** Everything up to a tick has been given: the decoders may go that far. */
    method Advance(h: Held, upto: nat, ghost mark: nat)
      requires Going(c, h, View(), known, mark) && upto < g.low <= upto + 1
      requires decoded.Some? ==> decoded.value < g.low
      modifies this`calls, this`decoded
      ensures Going(c, h, View(), known, mark) && old(calls) <= calls && decoded == Some(upto)
    {
      hide Going;
      if decoded.None? || upto > decoded.value {
        GoingDone(c, h, View(), known, mark, upto);
        calls := calls + [Done(upto)];
        decoded := Some(upto);
      }
    }

    /** Lets the decoders up to the target, or up to where the records read are sure to be complete. */
    method Finish(h: Held, target: nat, all: bool, total: nat, upto: nat, ghost mark: nat, ghost w: Trail)
      requires Sound(h) && Going(c, h, View(), known, mark) && c > 0 && h.wm.Some? && target <= h.wm.value
      requires Stepping(h, w, View(), pend, target, all, total, upto) && (all || total >= REPLAY_STEP)
      requires w.low <= target && (decoded.Some? ==> decoded.value < target) && Heard(fed, calls)
      requires forall k :: k in known ==> k.loss.start <= target
      modifies this`nextLevel, this`calls, this`g, this`known, this`fed, this`decoded
      ensures Going(c, h, View(), known, mark) && Waits(View(), pend) && SameLosses(old(known), known) && Heard(fed, calls)
      ensures old(calls) <= calls && g == old(g).(low := g.low, looks := g.looks) && w.n <= g.n && FedBy(g.read, g.n, target)
      ensures if all then decoded == Some(target) && (forall k :: k in known ==> k.given) else g.low <= target && total == g.n - w.n
    {
      FinishFacts(c, h, w, View(), known, mark, pend, target, all, total, upto);
      hide Going, Stepping, Sound, Coming, SameLosses, FedBy, Heard;
      var last := upto;
      if all {
        last := target;
        GiveRest(h, target, mark);
      } else {
        SameAs(known);
        last := if upto > 0 then upto - 1 else 0;
      }
      ghost var was := calls;
      Advance(h, last, mark);
      HeardOn(fed, was, calls);
    }

    /** A step of a group, up to the watermark less what it holds back while the capture runs. */
    method Step(h: Held, reading: bool, hold: nat, ghost was: Held) returns (work: bool, restarted: bool)
      requires Sound(h) && Valid(was) && (started ==> Grows(was, h))
      modifies this
      ensures Valid(h)
      ensures restarted ==> work && !started && old(started) && !InReach(h, old(pos))
      ensures !restarted && old(started) ==> Onward(old(View()), View())
      ensures !old(started) && started ==> Begun(h, c, View())
      ensures !restarted ==> Stepped(Target(h, reading, hold), old(View()), View(), work)
      ensures !restarted ==> LossesTold(h, Target(h, reading, hold), late, old(View()), View())
    {
      hide Core, Grows, Sound, InReach, LossesTold, Heard;
      work, restarted := false, false;
      var back := if reading then hold else 0;
      if h.wm.None? || h.wm.value < back || (decoded.Some? && decoded.value >= h.wm.value - back) {
        if started {
          CoreLater(c, was, h, View());
        }
        NothingTold(h, Target(h, reading, hold), late, View());
      } else {
        if started {
          CoreLater(c, was, h, View());
        } else {
          Begin(h);
        }
        ghost var mid := View();
        work, restarted := StepTo(h, h.wm.value - back);
        if !restarted {
          SameTold(h, Target(h, reading, hold), late, old(View()), mid, View());
        }
      }
    }

    /** What is read up to the target, the levels and losses with it, and how far that goes. */
    method StepTo(h: Held, target: nat) returns (work: bool, restarted: bool)
      requires Sound(h) && Valid(h) && started && h.wm.Some? && target <= h.wm.value && Behind(View(), Some(target))
      modifies this
      ensures Valid(h)
      ensures restarted ==> work && !started && !InReach(h, old(pos))
      ensures !restarted ==> started && Onward(old(View()), View()) && Stepped(Some(target), old(View()), View(), work)
      ensures !restarted ==> LossesTold(h, Some(target), late, old(View()), View())
    {
      hide Core, Going, Sound, Reached, InReach, Stepping, Feeding, SameLosses, KnownAt, Coming, TellsPlaced, FedBy, Heard, LossesTold;
      ghost var begun, told := View(), fed;
      work, restarted := false, false;
      ghost var mark, given := |calls|, KnownAt(h, decoded, late, target, fed);
      Open(h, target);
      ghost var v, next, known0 := View(), pend, known;
      var total := |pend|;
      var upto := FeedAll(h, target, pend, 0, mark);
      SteppingStart(c, h, v, View(), known, mark, next, pend, target, upto);
      total := total - |pend|;
      ghost var known1 := known;
      var ok, all;
      ok, all, total, upto := ReadOn(h, target, pend != [], total, upto, mark, v);
      if ok {
        SameOn(known0, known1, known);
        SameOn(given, known0, known);
        KnownAtIs(h, v.decoded, late, target, old(fed));
        StartsUnder(given, known, target);
        ghost var known2 := known;
        Finish(h, target, all, total, upto, mark, v);
        SameOn(given, known2, known);
        StepEnds(c, h, View(), known, mark, given, all);
        StepTold(h, target, late, begun, View(), told, all);
        work := total > 0 || !all;
      } else {
        Restart();
        work, restarted := true, true;
      }
    }

    /** The losses known, of which those that came late are told at once. */
    method Open(h: Held, target: nat)
      requires Core(c, h, View()) && Heard(fed, calls)
      modifies this`known, this`fed, this`calls
      ensures Going(c, h, View(), known, |old(calls)|) && old(calls) <= calls && Heard(fed, calls)
      ensures SameLosses(KnownAt(h, decoded, late, target, old(fed)), known)
    {
      LossesKnown(h, target);
      ghost var given := known;
      KnownAtIs(h, decoded, late, target, fed);
      ReadyGoing(c, h, View(), known);
      LateFacts(c, h, View());
      hide Core, Going, Reached, KnownAt, Heard;
      LossesBefore(h, if decoded.Some? then decoded.value + 1 else 0, |old(calls)|);
    }

    /** Reads on, batch by batch, until it has all up to the target or a step's worth. */
    method ReadOn(h: Held, target: nat, all0: bool, total0: nat, upto0: nat, ghost mark: nat, ghost w: Trail)
      returns (ok: bool, all: bool, total: nat, upto: nat)
      requires Sound(h) && Going(c, h, View(), known, mark) && c > 0 && h.wm.Some? && target <= h.wm.value
      requires Stepping(h, w, View(), pend, target, all0, total0, upto0) && Heard(fed, calls)
      modifies this`nextLevel, this`calls, this`g, this`known, this`fed, this`pend, this`pos
      ensures Heard(fed, calls) && (!ok ==> !InReach(h, old(pos)))
      ensures ok ==> Going(c, h, View(), known, mark) && Stepping(h, w, View(), pend, target, all, total, upto)
      ensures ok ==> (all || total >= REPLAY_STEP) && old(calls) <= calls && SameLosses(old(known), known)
      ensures ok ==> g == old(g).(n := g.n, low := g.low, looks := g.looks, read := g.read)
    {
      hide Sound, Going, Stepping, InReach, SameLosses, Heard;
      ok, all, total, upto := true, all0, total0, upto0;
      SameAs(known);
      while !all && total < REPLAY_STEP
        invariant ok && Heard(fed, calls) && Going(c, h, View(), known, mark) && Stepping(h, w, View(), pend, target, all, total, upto)
        invariant old(calls) <= calls && SameLosses(old(known), known) && (pos == old(pos) || InReach(h, pos))
        invariant g == old(g).(n := g.n, low := g.low, looks := g.looks, read := g.read)
        decreases !all, REPLAY_STEP - total
      {
        ghost var were := known;
        ok, all, total, upto := Batch(h, target, total, upto, mark, w);
        if !ok {
          return;
        }
        SameOn(old(known), were, known);
      }
    }
  }
}
