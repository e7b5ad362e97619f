/**
 * Mismatches and the losses that excuse them, over every run of the parser: a parser told of
 * losses does all a parser told of none does, and keeps the mismatches no loss explains. It
 * does not matter when the losses come, nor that those which ended are forgotten.
 */
module WireLosses {
  import opened Numbers
  import opened WireFormat
  import opened WireStreams

  function Times(b: Blame, m: Span, n: nat): Blame {
    if n == 0 then b else Mismatch(Times(b, m, n - 1), m)
  }

  /** The block's first k channels that contradict a heartbeat's levels. */
  function Found(g: Config, level: seq<int>, levels: seq<Byte>, k: nat): nat
    requires |level| == g.count && k <= g.count && g.first + g.count <= g.n && |levels| == g.Nb()
  {
    if k == 0 then 0
    else Found(g, level, levels, k - 1) + if Contradicts(g, level, levels, k - 1) then 1 else 0
  }

  function Counted(b: Blame): nat {
    b.open + b.excused
  }

  lemma {:induction false} TimesCounts(b: Blame, m: Span, n: nat)
    ensures Counted(Times(b, m, n)) == Counted(b) + n && Times(b, m, n).losses == b.losses
  {
    if n > 0 {
      TimesCounts(b, m, n - 1);
    }
  }

  lemma {:induction false} JudgeIsTimes(g: Config, b: Blame, level: seq<int>, levels: seq<Byte>, m: Span, k: nat)
    requires |level| == g.count && k <= g.count && g.first + g.count <= g.n && |levels| == g.Nb()
    ensures Judge(g, b, level, levels, m, k) == Times(b, m, Found(g, level, levels, k))
  {
    if k > 0 {
      JudgeIsTimes(g, b, level, levels, m, k - 1);
    }
  }

  /**
   * A heartbeat the parser takes is one sight; what it finds, and whether it is the latest
   * good one, depends on the records and levels alone and not on any loss.
   */
  lemma AcceptIsSight(g: Config, p: Core, grid: nat, levels: seq<Byte>)
    requires g.Valid() && CoreFits(g, p) && |levels| == g.Nb() && p.trusted
    ensures
      var n := Found(g, p.level, levels, g.count);
      var q := Accept(g, p, grid, levels);
      && q.blame == Times(p.blame, Span(p.hbTick, q.hbTick), n)
      && q.lastGood == if n == 0 then q.hbTick else p.lastGood
  {
    var n := Found(g, p.level, levels, g.count);
    var m := Span(p.hbTick, GridTick(g, grid));
    JudgeIsTimes(g, p.blame, p.level, levels, m, g.count);
    TimesCounts(p.blame, m, n);
  }

  lemma TimesKeepsCounters(b: Blame, m: Span, n: nat)
    requires b.open >= |b.mismatches|
    ensures Times(b, m, n).open >= |Times(b, m, n).mismatches|
  {
  }

  // ----- filters

  /** Two lists of losses explain the same spans from tick on. */
  ghost predicate SameFrom(a: seq<Span>, b: seq<Span>, tick: nat) {
    forall m: Span :: m.start >= tick ==> (Covered(a, m) <==> Covered(b, m))
  }

  lemma {:induction false} LiveCovers(losses: seq<Span>, tick: nat, m: Span)
    requires m.start >= tick
    ensures Covered(Live(losses, tick), m) <==> Covered(losses, m)
  {
    if losses != [] {
      LiveCovers(losses[1..], tick, m);
      CoveredConcat([losses[0]], losses[1..], m);
      assert [losses[0]] + losses[1..] == losses;
      CoveredConcat(if losses[0].end >= tick then [losses[0]] else [], Live(losses[1..], tick), m);
    }
  }

  lemma {:induction false} LiveIsPart(losses: seq<Span>, tick: nat, m: Span)
    ensures Covered(Live(losses, tick), m) ==> Covered(losses, m)
  {
    if losses != [] {
      LiveIsPart(losses[1..], tick, m);
      CoveredConcat([losses[0]], losses[1..], m);
      assert [losses[0]] + losses[1..] == losses;
      CoveredConcat(if losses[0].end >= tick then [losses[0]] else [], Live(losses[1..], tick), m);
    }
  }

  lemma CoveredConcat(a: seq<Span>, b: seq<Span>, m: Span)
    ensures Covered(a + b, m) <==> Covered(a, m) || Covered(b, m)
  {
    var ab := a + b;
    if Covered(a, m) {
      var i :| 0 <= i < |a| && Overlaps(a[i], m);
      assert Overlaps(ab[i], m);
    }
    if Covered(b, m) {
      var i :| 0 <= i < |b| && Overlaps(b[i], m);
      assert Overlaps(ab[|a| + i], m);
    }
  }

  lemma {:induction false} UnexplainedConcat(a: seq<Span>, b: seq<Span>, losses: seq<Span>)
    ensures Unexplained(a + b, losses) == Unexplained(a, losses) + Unexplained(b, losses)
  {
    if a == [] {
      assert a + b == b;
    } else {
      assert (a + b)[1..] == a[1..] + b;
      UnexplainedConcat(a[1..], b, losses);
    }
  }

  /** Filtering again with the new losses is filtering once with all of them. */
  lemma {:induction false} UnexplainedTwice(spans: seq<Span>, old_: seq<Span>, now: seq<Span>, all: seq<Span>)
    requires forall m: Span :: Covered(all, m) <==> Covered(old_, m) || Covered(now, m)
    ensures Unexplained(Unexplained(spans, old_), now) == Unexplained(spans, all)
  {
    if spans != [] {
      UnexplainedTwice(spans[1..], old_, now, all);
      var head := if Covered(old_, spans[0]) then [] else [spans[0]];
      UnexplainedConcat(head, Unexplained(spans[1..], old_), now);
    }
  }

  lemma {:induction false} UnexplainedSame(spans: seq<Span>, a: seq<Span>, b: seq<Span>)
    requires forall i :: 0 <= i < |spans| ==> (Covered(a, spans[i]) <==> Covered(b, spans[i]))
    ensures Unexplained(spans, a) == Unexplained(spans, b)
  {
    if spans != [] {
      UnexplainedSame(spans[1..], a, b);
    }
  }

  // ----- the invariant of a run

  /** After a run that detected spans with losses reported: exactly the unexplained are open. */
  ghost predicate Settled(b: Blame, tick: nat, spans: seq<Span>, losses: seq<Span>) {
    && b.mismatches == Unexplained(spans, losses)
    && b.open == |b.mismatches|
    && b.excused == |spans| - |b.mismatches|
    && SameFrom(b.losses, losses, tick)
    && forall m: Span :: Covered(b.losses, m) ==> Covered(losses, m)
  }

  lemma {:induction false} SeenSettles(b: Blame, tick: nat, next: nat, n: nat, spans: seq<Span>, losses: seq<Span>)
    requires Settled(b, tick, spans, losses)
    ensures Settled(Times(b, Span(tick, next), n), tick, spans + seq(n, _ => Span(tick, next)), losses)
  {
    var m := Span(tick, next);
    if n == 0 {
      assert spans + seq(0, _ => m) == spans;
    } else {
      SeenSettles(b, tick, next, n - 1, spans, losses);
      var before := spans + seq(n - 1, _ => m);
      assert spans + seq(n, _ => m) == before + [m];
      UnexplainedConcat(before, [m], losses);
      assert [m][1..] == [];
    }
  }

  lemma LossSettles(b: Blame, tick: nat, loss: Span, spans: seq<Span>, losses: seq<Span>)
    requires Settled(b, tick, spans, losses)
    ensures Settled(AddLoss(b, tick, loss), tick, spans, losses + [loss])
  {
    var live := Live(b.losses, tick);
    var now := live + [loss];
    var all := losses + [loss];
    forall m: Span
      ensures Covered(all, m) <==> Covered(losses, m) || Covered(now, m)
      ensures Covered(now, m) ==> Covered(all, m)
      ensures m.start >= tick ==> (Covered(now, m) <==> Covered(all, m))
    {
      CoveredConcat(live, [loss], m);
      CoveredConcat(losses, [loss], m);
      LiveIsPart(b.losses, tick, m);
      if m.start >= tick {
        LiveCovers(b.losses, tick, m);
      }
    }
    UnexplainedTwice(spans, losses, now, all);
    UnexplainedShorter(b.mismatches, now);
  }

  lemma SettledLater(b: Blame, tick: nat, next: nat, spans: seq<Span>, losses: seq<Span>)
    requires Settled(b, tick, spans, losses) && tick <= next
    ensures Settled(b, next, spans, losses)
  {
  }

  // ----- a parser beside one that is told of no loss

  /** Equal in everything but mismatches and losses. */
  predicate Alike(p: Core, r: Core) {
    p == r.(blame := p.blame)
  }

  /** r was told of no loss, p of losses: what r found and no loss explains is open in p. */
  ghost predicate Paired(p: Core, r: Core, losses: seq<Span>) {
    && Alike(p, r) && Settled(p.blame, p.hbTick, r.blame.mismatches, losses)
    && r.blame == Blame([], r.blame.mismatches, |r.blame.mismatches|, 0)
  }

  lemma {:induction false} TimesUntold(b: Blame, m: Span, n: nat)
    requires b.losses == []
    ensures Times(b, m, n) == b.(mismatches := b.mismatches + seq(n, _ => m), open := b.open + n)
  {
    if n > 0 {
      TimesUntold(b, m, n - 1);
      assert b.mismatches + seq(n - 1, _ => m) + [m] == b.mismatches + seq(n, _ => m);
    } else {
      assert b.mismatches + seq(0, _ => m) == b.mismatches;
    }
  }

  lemma {:induction false} AcceptPaired(g: Config, p: Core, r: Core, losses: seq<Span>, grid: nat, levels: seq<Byte>)
    requires g.Valid() && CoreFits(g, p) && |levels| == g.Nb() && Paired(p, r, losses) && p.hbTick <= GridTick(g, grid)
    ensures Paired(Accept(g, p, grid, levels), Accept(g, r, grid, levels), losses)
  {
    var tick, spans := GridTick(g, grid), r.blame.mismatches;
    if p.trusted {
      var n, m := Found(g, p.level, levels, g.count), Span(p.hbTick, tick);
      AcceptIsSight(g, p, grid, levels);
      AcceptIsSight(g, r, grid, levels);
      TimesUntold(r.blame, m, n);
      SeenSettles(p.blame, p.hbTick, tick, n, spans, losses);
      SettledLater(Times(p.blame, m, n), p.hbTick, tick, spans + seq(n, _ => m), losses);
    } else {
      SettledLater(p.blame, p.hbTick, tick, spans, losses);
    }
    hide Settled, Judge, Found, Times, BlockLevels, GridTick;
  }

  lemma {:induction false} HeartbeatPaired(g: Config, p: Core, r: Core, losses: seq<Span>, hb: seq<Byte>)
    requires g.Valid() && CoreOk(g, p) && Paired(p, r, losses) && |hb| == g.HbLen()
    ensures
      var (q, log) := Heartbeat(g, p, hb);
      var (s, same) := Heartbeat(g, r, hb);
      Paired(q, s, losses) && log == same && CoreOk(g, q)
  {
    hide Settled, Accept, Crc8, Unwrap;
    var grid := Unwrap(if p.haveGrid then p.grid else p.firstGrid, hb[g.w]);
    if p.haveGrid {
      MulMonotone(p.grid, grid, g.c);
    }
    AcceptPaired(g, p, r, losses, grid, hb[g.w + 1..|hb| - 1]);
    HeartbeatWatched(g, p, hb);
  }

  lemma {:induction false} RecordPaired(g: Config, p: Core, r: Core, losses: seq<Span>, raw: seq<Byte>)
    requires g.Valid() && CoreOk(g, p) && Paired(p, r, losses) && |raw| == g.w
    ensures
      var (q, log) := Record(g, p, raw);
      var (s, same) := Record(g, r, raw);
      Paired(q, s, losses) && log == same && CoreOk(g, q)
  {
    hide Settled, Crc8, LeValue, Low, High;
  }

  lemma {:induction false} NextPaired(g: Config, p: Core, r: Core, losses: seq<Span>, v: seq<Byte>)
    requires g.Valid() && CoreOk(g, p) && Paired(p, r, losses)
    ensures
      var a, b := Next(g, p, v), Next(g, r, v);
      && a.Take? == b.Take?
      && (a.Take? ==> Paired(a.core, b.core, losses) && a.used == b.used && a.log == b.log && CoreOk(g, a.core))
  {
    hide Settled, Heartbeat, Record, LeValue, AllZero;
    if p.synced && |v| >= g.w {
      if LeValue(v[..g.w]) == 0 {
        if |v| >= g.HbLen() {
          HeartbeatPaired(g, p.(hbPos := p.pos), r.(hbPos := r.pos), losses, v[..g.HbLen()]);
        }
      } else {
        RecordPaired(g, p, r, losses, v[..g.w]);
      }
    }
  }

  lemma {:induction false} DrainPaired(g: Config, p: Core, r: Core, losses: seq<Span>, v: seq<Byte>)
    requires g.Valid() && CoreOk(g, p) && Paired(p, r, losses)
    ensures
      var a, b := Drain(g, p, v), Drain(g, r, v);
      Paired(a.core, b.core, losses) && a.rest == b.rest && a.log == b.log && CoreOk(g, a.core)
    decreases |v|, if p.synced then 0 else 1
  {
    hide Paired, CoreOk, Next;
    NextPaired(g, p, r, losses, v);
    OkFits(g, p);
    PairedFits(g, p, r, losses);
    var m := Next(g, p, v);
    if m.Take? {
      DrainPaired(g, m.core, Next(g, r, v).core, losses, v[m.used..]);
    }
  }

  lemma OkFits(g: Config, p: Core)
    requires CoreOk(g, p)
    ensures CoreFits(g, p)
  {
  }

  lemma PairedFits(g: Config, p: Core, r: Core, losses: seq<Span>)
    requires CoreFits(g, p) && Paired(p, r, losses)
    ensures CoreFits(g, r) && r.synced == p.synced && p.blame.open >= |p.blame.mismatches|
  {
  }

  // ----- runs

  /** What a parser is given: bytes, a break of the stream, a loss. */
  datatype Deed = Fed(bytes: seq<Byte>) | Broken | Told(loss: Span)

  /** Counts that go with the mismatches kept, as every parser's do. */
  predicate Sound(g: Config, p: Core) {
    CoreFits(g, p) && p.blame.open >= |p.blame.mismatches|
  }

  lemma {:induction false} JudgeSound(g: Config, b: Blame, level: seq<int>, levels: seq<Byte>, m: Span, k: nat)
    requires |level| == g.count && k <= g.count && g.first + g.count <= g.n && |levels| == g.Nb() && b.open >= |b.mismatches|
    ensures var j := Judge(g, b, level, levels, m, k); j.open >= |j.mismatches|
  {
    JudgeIsTimes(g, b, level, levels, m, k);
    TimesKeepsCounters(b, m, Found(g, level, levels, k));
  }

  lemma {:induction false} NextSound(g: Config, p: Core, v: seq<Byte>)
    requires g.Valid() && Sound(g, p)
    ensures Next(g, p, v).Take? ==> Sound(g, Next(g, p, v).core)
  {
    hide LeValue, AllZero, Judge, Crc8, Checks, BlockLevels, GridTick, Low, High;
    if |v| >= g.HbLen() {
      var hb := v[..g.HbLen()];
      var grid := Unwrap(if p.haveGrid then p.grid else p.firstGrid, hb[g.w]);
      JudgeSound(g, p.blame, p.level, hb[g.w + 1..|hb| - 1], Span(p.hbTick, GridTick(g, grid)), g.count);
    }
  }

  lemma {:induction false} DrainSound(g: Config, p: Core, v: seq<Byte>)
    requires g.Valid() && Sound(g, p)
    ensures Sound(g, Drain(g, p, v).core)
    decreases |v|, if p.synced then 0 else 1
  {
    hide Next;
    NextSound(g, p, v);
    var m := Next(g, p, v);
    if m.Take? {
      DrainSound(g, m.core, v[m.used..]);
    }
  }

  function Do(g: Config, p: Core, rest: seq<Byte>, d: Deed): (r: Parsed)
    requires g.Valid() && Sound(g, p)
    ensures Sound(g, r.core)
  {
    match d
    case Fed(bytes) =>
      DrainSound(g, p, rest + bytes);
      Drain(g, p, rest + bytes)
    case Broken => Parsed(Break(p, rest), [], [])
    case Told(loss) =>
      UnexplainedShorter(p.blame.mismatches, Live(p.blame.losses, p.hbTick) + [loss]);
      Parsed(p.(blame := AddLoss(p.blame, p.hbTick, loss)), rest, [])
  }

  function DoAll(g: Config, p: Core, rest: seq<Byte>, ds: seq<Deed>): (r: Parsed)
    requires g.Valid() && Sound(g, p)
    decreases |ds|
  {
    if ds == [] then Parsed(p, rest, [])
    else
      var a := Do(g, p, rest, ds[0]);
      var b := DoAll(g, a.core, a.rest, ds[1..]);
      b.(log := a.log + b.log)
  }

  function LossesOf(ds: seq<Deed>): seq<Span> {
    if ds == [] then [] else (if ds[0].Told? then [ds[0].loss] else []) + LossesOf(ds[1..])
  }

  /** The bytes fed between breaks. */
  function Pieces(ds: seq<Deed>): (r: seq<seq<Byte>>)
    ensures r != []
  {
    if ds == [] then [[]]
    else
      var r := Pieces(ds[1..]);
      match ds[0]
      case Fed(bytes) => [bytes + r[0]] + r[1..]
      case Broken => [[]] + r
      case Told(_) => r
  }

  /** Each piece parsed at once, with no loss told. */
  function Plain(g: Config, p: Core, rest: seq<Byte>, pieces: seq<seq<Byte>>): (r: Parsed)
    requires g.Valid() && CoreFits(g, p)
    decreases |pieces|
  {
    if pieces == [] then Parsed(p, rest, [])
    else
      var a := Drain(g, p, rest + pieces[0]);
      if |pieces| == 1 then a
      else
        var b := Plain(g, Break(a.core, a.rest), [], pieces[1..]);
        b.(log := a.log + b.log)
  }

  lemma {:induction false} PlainMore(g: Config, p: Core, rest: seq<Byte>, bytes: seq<Byte>, pieces: seq<seq<Byte>>)
    requires g.Valid() && CoreFits(g, p) && pieces != []
    ensures
      var a := Drain(g, p, rest + bytes);
      var b := Plain(g, a.core, a.rest, pieces);
      Plain(g, p, rest, [bytes + pieces[0]] + pieces[1..]) == b.(log := a.log + b.log)
  {
    hide Drain;
    var joined := [bytes + pieces[0]] + pieces[1..];
    assert joined[1..] == pieces[1..] && rest + (bytes + pieces[0]) == rest + bytes + pieces[0];
    DrainConcat(g, p, rest + bytes, pieces[0]);
    var a := Drain(g, p, rest + bytes);
    var b := Drain(g, a.core, a.rest + pieces[0]);
    if |pieces| > 1 {
      var c := Plain(g, Break(b.core, b.rest), [], pieces[1..]);
      assert a.log + (b.log + c.log) == a.log + b.log + c.log;
    }
  }

  /** What two parsers side by side have come to. */
  ghost predicate Agree(g: Config, x: Parsed, y: Parsed, losses: seq<Span>) {
    x.log == y.log && x.rest == y.rest && Paired(x.core, y.core, losses) && CoreOk(g, x.core)
  }

  lemma {:induction false} FedAgree(g: Config, p: Core, r: Core, rest: seq<Byte>, bytes: seq<Byte>, losses: seq<Span>)
    requires g.Valid() && CoreOk(g, p) && Paired(p, r, losses)
    ensures CoreFits(g, p) && CoreFits(g, r) && Agree(g, Drain(g, p, rest + bytes), Drain(g, r, rest + bytes), losses)
    ensures Stuck(g, Drain(g, p, rest + bytes).core, Drain(g, p, rest + bytes).rest)
  {
    hide Drain, Settled;
    DrainPaired(g, p, r, losses, rest + bytes);
    DrainLeavesLittle(g, p, rest + bytes);
  }

  lemma {:induction false} BrokenAgree(g: Config, p: Core, r: Core, rest: seq<Byte>, losses: seq<Span>)
    requires g.Valid() && CoreOk(g, p) && Paired(p, r, losses)
    ensures Paired(Break(p, rest), Break(r, rest), losses) && CoreOk(g, Break(p, rest)) && Stuck(g, Break(p, rest), [])
    ensures CoreFits(g, Break(r, rest))
  {
    hide Settled;
  }

  lemma {:induction false} ToldAgree(g: Config, p: Core, r: Core, loss: Span, losses: seq<Span>)
    requires g.Valid() && CoreOk(g, p) && Sound(g, p) && Paired(p, r, losses)
    ensures var q := p.(blame := AddLoss(p.blame, p.hbTick, loss)); Paired(q, r, losses + [loss]) && CoreOk(g, q)
  {
    LossSettles(p.blame, p.hbTick, loss, r.blame.mismatches, losses);
    hide Settled, AddLoss;
  }

  /** A loss leaves what can be moved on from as it is. */
  lemma {:induction false} ToldStuck(g: Config, p: Core, rest: seq<Byte>, b: Blame)
    requires g.Valid() && CoreFits(g, p) && Stuck(g, p, rest)
    ensures Stuck(g, p.(blame := b), rest)
  {
    hide LeValue, AllZero, Heartbeat, Record;
  }

  lemma {:induction false} RunAgrees(g: Config, p: Core, r: Core, rest: seq<Byte>, ds: seq<Deed>, losses: seq<Span>)
    requires g.Valid() && Sound(g, p) && CoreFits(g, r) && CoreOk(g, p) && Paired(p, r, losses) && Stuck(g, p, rest)
    ensures Agree(g, DoAll(g, p, rest, ds), Plain(g, r, rest, Pieces(ds)), losses + LossesOf(ds))
    decreases |ds|
  {
    hide Paired, CoreOk, Settled, Drain, Next, Stuck, AddLoss, Break;
    if ds == [] {
      RunEnds(g, p, r, rest, losses);
      return;
    }
    var a := Do(g, p, rest, ds[0]);
    var pieces := Pieces(ds[1..]);
    match ds[0] {
      case Fed(bytes) =>
        FedAgree(g, p, r, rest, bytes, losses);
        PlainMore(g, r, rest, bytes, pieces);
        RunAgrees(g, a.core, Drain(g, r, rest + bytes).core, a.rest, ds[1..], losses);
        assert losses + ([] + LossesOf(ds[1..])) == losses + LossesOf(ds[1..]);
      case Broken =>
        BrokenAgree(g, p, r, rest, losses);
        PlainBroken(g, p, r, rest, losses, pieces);
        RunAgrees(g, a.core, Break(r, rest), [], ds[1..], losses);
        assert losses + ([] + LossesOf(ds[1..])) == losses + LossesOf(ds[1..]);
        DoneNothing(DoAll(g, a.core, a.rest, ds[1..]).log);
      case Told(loss) =>
        ToldAgree(g, p, r, loss, losses);
        ToldStuck(g, p, rest, a.core.blame);
        RunAgrees(g, a.core, r, rest, ds[1..], losses + [loss]);
        assert losses + ([loss] + LossesOf(ds[1..])) == losses + [loss] + LossesOf(ds[1..]);
        DoneNothing(DoAll(g, a.core, a.rest, ds[1..]).log);
    }
  }

  lemma DoneNothing(log: seq<Event>)
    ensures [] + log == log
  {
  }

  lemma {:induction false} RunEnds(g: Config, p: Core, r: Core, rest: seq<Byte>, losses: seq<Span>)
    requires g.Valid() && CoreFits(g, r) && CoreOk(g, p) && Paired(p, r, losses) && Stuck(g, p, rest)
    ensures Agree(g, Parsed(p, rest, []), Plain(g, r, rest, [[]]), losses + [])
  {
    StuckToo(g, p, r, rest, losses);
    DrainStuck(g, r, rest);
    assert rest + [] == rest && losses + [] == losses;
    hide Drain, Next, Settled;
  }

  lemma {:induction false} StuckToo(g: Config, p: Core, r: Core, rest: seq<Byte>, losses: seq<Span>)
    requires g.Valid() && CoreOk(g, p) && CoreFits(g, r) && Paired(p, r, losses) && Stuck(g, p, rest)
    ensures Stuck(g, r, rest)
  {
    hide Next, Settled;
    NextPaired(g, p, r, losses, rest);
  }

  lemma {:induction false} PlainBroken(g: Config, p: Core, r: Core, rest: seq<Byte>, losses: seq<Span>, pieces: seq<seq<Byte>>)
    requires g.Valid() && CoreOk(g, p) && CoreFits(g, r) && Paired(p, r, losses) && Stuck(g, p, rest) && pieces != []
    ensures Plain(g, r, rest, [[]] + pieces) == Plain(g, Break(r, rest), [], pieces)
  {
    StuckToo(g, p, r, rest, losses);
    DrainStuck(g, r, rest);
    hide Drain, Next, Settled, Paired;
    assert rest + [] == rest && ([[]] + pieces)[1..] == pieces && ([[]] + pieces)[0] == [];
    DoneNothing(Plain(g, Break(r, rest), [], pieces).log);
  }

  lemma {:induction false} StartPaired(g: Config, grid: nat, unverified: bool)
    requires g.Valid()
    ensures
      var p := StartAt(g, grid, unverified);
      Sound(g, p) && CoreOk(g, p) && Paired(p, p, []) && Stuck(g, p, [])
  {
    FreshIsOk(g, grid, unverified);
  }

  /** What losses leave of the mismatches that were found. */
  predicate Accounted(b: Blame, found: seq<Span>, losses: seq<Span>) {
    b.mismatches == Unexplained(found, losses) && b.open == |b.mismatches| && b.open + b.excused == |found|
  }

  /**
   * Over every run of feeding, breaks and losses: the events, what is left over and all of the
   * parser but its mismatches are those of a parser told of no loss and given each piece at
   * once. The mismatches open are exactly those it finds that overlap no loss, told before or
   * after them; the excused are the others.
   */
  lemma {:induction false} ExcusedExactly(g: Config, grid: nat, unverified: bool, ds: seq<Deed>)
    requires g.Valid()
    ensures Sound(g, StartAt(g, grid, unverified))
    ensures
      var x := DoAll(g, StartAt(g, grid, unverified), [], ds);
      var y := Plain(g, StartAt(g, grid, unverified), [], Pieces(ds));
      && x.log == y.log && x.rest == y.rest && Alike(x.core, y.core)
      && Accounted(x.core.blame, y.core.blame.mismatches, LossesOf(ds))
  {
    var p := StartAt(g, grid, unverified);
    StartPaired(g, grid, unverified);
    hide StartAt, DoAll, Plain, Stuck, CoreOk;
    RunAgrees(g, p, p, [], ds, []);
    assert [] + LossesOf(ds) == LossesOf(ds);
  }

  predicate SameLosses(a: seq<Span>, b: seq<Span>) {
    (forall x :: x in a ==> x in b) && (forall x :: x in b ==> x in a)
  }

  lemma SameExplained(spans: seq<Span>, la: seq<Span>, lb: seq<Span>)
    requires SameLosses(la, lb)
    ensures Unexplained(spans, la) == Unexplained(spans, lb)
  {
    forall m: Span
      ensures Covered(la, m) <==> Covered(lb, m)
    {
      if Covered(la, m) {
        var i :| 0 <= i < |la| && Overlaps(la[i], m);
        assert la[i] in lb;
      }
      if Covered(lb, m) {
        var i :| 0 <= i < |lb| && Overlaps(lb[i], m);
        assert lb[i] in la;
      }
    }
    UnexplainedSame(spans, la, lb);
  }

  /**
   * So two runs given the same bytes between breaks, cut as they like, and told the same losses,
   * whenever and how often they like, report the same and end in the same state and counts.
   */
  lemma {:induction false} OrderDoesNotMatter(g: Config, grid: nat, unverified: bool, a: seq<Deed>, b: seq<Deed>)
    requires g.Valid() && Sound(g, StartAt(g, grid, unverified))
    requires Pieces(a) == Pieces(b) && SameLosses(LossesOf(a), LossesOf(b))
    ensures
      var x := DoAll(g, StartAt(g, grid, unverified), [], a);
      var y := DoAll(g, StartAt(g, grid, unverified), [], b);
      && x.log == y.log && x.rest == y.rest && x.core == y.core.(blame := x.core.blame)
      && x.core.blame == y.core.blame.(losses := x.core.blame.losses)
  {
    ExcusedExactly(g, grid, unverified, a);
    ExcusedExactly(g, grid, unverified, b);
    var p := StartAt(g, grid, unverified);
    SameExplained(Plain(g, p, [], Pieces(a)).core.blame.mismatches, LossesOf(a), LossesOf(b));
    hide StartAt, DoAll, Plain, Unexplained;
  }
}
