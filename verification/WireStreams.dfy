/**
 * What holds of the parser on every byte stream: it does not matter how the stream is cut
 * into chunks, little is ever left over, and what is reported is trustworthy.
 */
module WireStreams {
  import opened Numbers
  import opened WireFormat

  // ----- chunks

  /** More bytes behind do not change a move once it can be made. */
  lemma NextExtends(g: Config, p: Core, v: seq<Byte>, x: seq<Byte>)
    requires g.Valid() && CoreFits(g, p) && Next(g, p, v).Take?
    ensures Next(g, p, v + x) == Next(g, p, v)
  {
    if |v| >= g.w {
      assert (v + x)[..g.w] == v[..g.w];
    }
    if |v| >= g.HbLen() {
      assert (v + x)[..g.HbLen()] == v[..g.HbLen()];
    }
  }

  /** Draining a and then what is left of it with b behind is draining them together. */
  lemma {:induction false} DrainConcat(g: Config, p: Core, a: seq<Byte>, b: seq<Byte>)
    requires g.Valid() && CoreFits(g, p)
    ensures
      var first := Drain(g, p, a);
      var second := Drain(g, first.core, first.rest + b);
      Drain(g, p, a + b) == second.(log := first.log + second.log)
    decreases |a|, if p.synced then 0 else 1
  {
    hide Next;
    match Next(g, p, a)
    case Wait =>
      assert [] + Drain(g, p, a + b).log == Drain(g, p, a + b).log;
    case Take(q, used, log) =>
      NextExtends(g, p, a, b);
      assert (a + b)[used..] == a[used..] + b;
      DrainConcat(g, q, a[used..], b);
      var first := Drain(g, q, a[used..]);
      var second := Drain(g, first.core, first.rest + b);
      assert log + (first.log + second.log) == log + first.log + second.log;
  }

  /** Feeding chunks one after another, each behind what the one before it left. */
  function FeedAll(g: Config, p: Core, rest: seq<Byte>, chunks: seq<seq<Byte>>): Parsed
    requires g.Valid() && CoreFits(g, p)
    decreases |chunks|
  {
    if chunks == [] then Parsed(p, rest, [])
    else
      var first := Drain(g, p, rest + chunks[0]);
      var more := FeedAll(g, first.core, first.rest, chunks[1..]);
      more.(log := first.log + more.log)
  }

  function Joined(chunks: seq<seq<Byte>>): seq<Byte> {
    if chunks == [] then [] else chunks[0] + Joined(chunks[1..])
  }

  predicate Stuck(g: Config, p: Core, rest: seq<Byte>)
    requires g.Valid() && CoreFits(g, p)
  {
    Next(g, p, rest).Wait?
  }

  /** What is left cannot be moved on from, is a suffix, and is shorter than a heartbeat. */
  lemma {:induction false} DrainLeavesLittle(g: Config, p: Core, v: seq<Byte>)
    requires g.Valid() && CoreFits(g, p)
    ensures
      var r := Drain(g, p, v);
      && Stuck(g, r.core, r.rest)
      && |r.rest| < g.HbLen() <= WIRE_BUF_SIZE
      && |r.rest| <= |v| && r.rest == v[|v| - |r.rest|..]
      && r.core.pos + |r.rest| == p.pos + |v|
    decreases |v|, if p.synced then 0 else 1
  {
    match Next(g, p, v)
    case Wait =>
    case Take(q, used, log) =>
      DrainLeavesLittle(g, q, v[used..]);
  }

  lemma DrainStuck(g: Config, p: Core, rest: seq<Byte>)
    requires g.Valid() && CoreFits(g, p) && Stuck(g, p, rest)
    ensures Drain(g, p, rest) == Parsed(p, rest, [])
  {
  }

  /**
   * Chunk independence, on every byte stream: any cutting gives the state, the leftover and
   * the log of the whole stream at once.
   */
  lemma {:induction false} ChunkIndependence(g: Config, p: Core, rest: seq<Byte>, chunks: seq<seq<Byte>>)
    requires g.Valid() && CoreFits(g, p) && Stuck(g, p, rest)
    ensures FeedAll(g, p, rest, chunks) == Drain(g, p, rest + Joined(chunks))
    decreases |chunks|
  {
    hide Next, Drain;
    if chunks == [] {
      assert rest + [] == rest;
      DrainStuck(g, p, rest);
    } else {
      var first := Drain(g, p, rest + chunks[0]);
      DrainLeavesLittle(g, p, rest + chunks[0]);
      ChunkIndependence(g, first.core, first.rest, chunks[1..]);
      DrainConcat(g, p, rest + chunks[0], Joined(chunks[1..]));
      assert rest + Joined(chunks) == rest + chunks[0] + Joined(chunks[1..]);
    }
  }

  // ----- trust

  /**
   * A monitor of the log: what the events themselves say about the parser's state. opening
   * is an unverified start whose first heartbeat is still to come.
   */
  datatype Monitor = Monitor(trusted: bool, opening: bool, hbTick: nat, last: seq<nat>)

  function MonitorOf(p: Core): Monitor {
    Monitor(p.trusted, p.startUnverified && !p.haveGrid, p.hbTick, p.last)
  }

  /** The channel may report a record at tick: trusted, on the block, at most C on. */
  predicate RecordFits(g: Config, m: Monitor, e: Event)
    requires g.Valid() && |m.last| == g.count && e.Rec?
  {
    var k := BlockIndex(g, e.channel);
    && k < g.count && e.level < 2 && m.trusted
    && var reference := Max(m.last[k], m.hbTick);
       reference <= e.tick <= reference + g.c
  }

  function Observe(g: Config, m: Monitor, e: Event): (r: Option<Monitor>)
    requires g.Valid() && |m.last| == g.count
    ensures r.Some? ==> |r.value.last| == g.count
  {
    match e
    case Rec(tick, channel, level) =>
      if RecordFits(g, m, e) then Some(m.(last := m.last[BlockIndex(g, channel) := tick])) else None
    case Beat(grid, tick, unverified, levels) =>
      if tick >= m.hbTick && tick == GridTick(g, grid)
      then Some(Monitor(!unverified || m.opening, false, tick, m.last))
      else None
    case CheckError => Some(m.(trusted := false))
    case GapError => if m.trusted then Some(m) else None
  }

  function ObserveAll(g: Config, m: Monitor, log: seq<Event>): (r: Option<Monitor>)
    requires g.Valid() && |m.last| == g.count
    ensures r.Some? ==> |r.value.last| == g.count
    decreases |log|
  {
    if log == [] then Some(m)
    else match Observe(g, m, log[0])
      case None => None
      case Some(next) => ObserveAll(g, next, log[1..])
  }

  /** Two enabled channels are different, so a record names one block channel only. */
  lemma {:induction false} BlockIndexOf(g: Config, k: nat, from: nat)
    requires g.Valid() && g.Ascending() && from <= k < g.count
    ensures BlockIndex(g, g.enabled[g.first + k], from) == k
    decreases k - from
  {
    if from < k {
      BlockIndexOf(g, k, from + 1);
    }
  }

  /** The parser's own state keeps to this: an anchor is only looked at before it is trusted. */
  predicate CoreOk(g: Config, p: Core) {
    && CoreFits(g, p)
    && (p.anchor ==> p.haveGrid)
    && (p.haveGrid ==> p.hbTick == GridTick(g, p.grid))
    && (!p.haveGrid ==> p.hbTick == 0 && !p.trusted)
  }

  lemma FreshIsOk(g: Config, grid: nat, unverified: bool)
    ensures CoreOk(g, StartAt(g, grid, unverified))
  {
  }

  lemma BreakIsOk(g: Config, p: Core, rest: seq<Byte>)
    requires CoreOk(g, p)
    ensures CoreOk(g, Break(p, rest)) && !Break(p, rest).trusted
  {
  }

  /** A heartbeat reported without the unverified flag had its check byte match. */
  lemma HeartbeatWatched(g: Config, p: Core, hb: seq<Byte>)
    requires g.Valid() && CoreOk(g, p) && |hb| == g.HbLen()
    ensures
      var (q, log) := Heartbeat(g, p, hb);
      && CoreOk(g, q)
      && ObserveAll(g, MonitorOf(p), log) == Some(MonitorOf(q))
      && |log| == 1
      && (log[0].Beat? && !log[0].unverified ==> Crc8(p.crc, hb[..|hb| - 1]) as int == hb[|hb| - 1])
      && (log[0].Beat? && p.anchor ==> !q.trusted)
  {
    var (q, log) := Heartbeat(g, p, hb);
    if log[0].Beat? {
      if p.haveGrid {
        MulMonotone(p.grid, q.grid, g.c);
      }
      assert log[1..] == [];
      var m := Observe(g, MonitorOf(p), log[0]);
      assert m == Some(MonitorOf(q));
    } else {
      assert log[1..] == [];
    }
  }

  lemma RecordWatched(g: Config, p: Core, raw: seq<Byte>)
    requires g.Valid() && g.Ascending() && CoreOk(g, p) && |raw| == g.w
    ensures
      var (q, log) := Record(g, p, raw);
      && CoreOk(g, q)
      && ObserveAll(g, MonitorOf(p), log) == Some(MonitorOf(q))
  {
    hide LeValue, Crc8, BlockIndex, Low, High;
    var (q, log) := Record(g, p, raw);
    if log != [] {
      assert log[1..] == [];
      if log[0].Rec? {
        BlockIndexOf(g, Low(LeValue(raw), g.t), 0);
      }
    }
  }

  lemma {:induction false} ObserveConcat(g: Config, m: Monitor, a: seq<Event>, b: seq<Event>)
    requires g.Valid() && |m.last| == g.count
    requires ObserveAll(g, m, a).Some?
    ensures ObserveAll(g, m, a + b) == ObserveAll(g, ObserveAll(g, m, a).value, b)
    decreases |a|
  {
    if a == [] {
      assert a + b == b;
    } else {
      assert (a + b)[1..] == a[1..] + b;
      ObserveConcat(g, Observe(g, m, a[0]).value, a[1..], b);
    }
  }

  /** On every byte stream the monitor accepts the log and ends in the parser's state. */
  lemma {:induction false} DrainWatched(g: Config, p: Core, v: seq<Byte>)
    requires g.Valid() && g.Ascending() && CoreOk(g, p)
    ensures
      var r := Drain(g, p, v);
      CoreOk(g, r.core) && ObserveAll(g, MonitorOf(p), r.log) == Some(MonitorOf(r.core))
    decreases |v|, if p.synced then 0 else 1
  {
    match Next(g, p, v)
    case Wait =>
    case Take(q, used, log) =>
      assert CoreOk(g, q) && ObserveAll(g, MonitorOf(p), log) == Some(MonitorOf(q)) by {
        if p.synced {
          if LeValue(v[..g.w]) == 0 {
            HeartbeatWatched(g, p.(hbPos := p.pos), v[..g.HbLen()]);
          } else {
            RecordWatched(g, p, v[..g.w]);
          }
        }
      }
      DrainWatched(g, q, v[used..]);
      ObserveConcat(g, MonitorOf(p), log, Drain(g, q, v[used..]).log);
  }

  /** A heartbeat that makes records trusted: its CRC matched, or it opens an unverified start. */
  predicate Trusting(e: Event, opening: bool) {
    e.Beat? && (!e.unverified || opening)
  }

  /** Where trust at position i of a log comes from. */
  predicate TrustedSince(log: seq<Event>, opening: bool, j: nat, i: nat) {
    && j < i <= |log|
    && Trusting(log[j], opening && NoBeat(log, j))
    && forall k :: j < k < i ==> !log[k].CheckError?
  }

  ghost predicate TrustedAt(log: seq<Event>, opening: bool, i: nat) {
    exists j: nat :: TrustedSince(log, opening, j, i)
  }

  /** No heartbeat among the first n events, and no failed check. */
  predicate NoBeat(log: seq<Event>, n: nat) {
    forall k :: 0 <= k < n && k < |log| ==> !log[k].Beat?
  }

  predicate NoError(log: seq<Event>, n: nat) {
    forall k :: 0 <= k < n && k < |log| ==> !log[k].CheckError?
  }

  lemma ObserveOne(g: Config, m: Monitor, e: Event)
    requires g.Valid() && |m.last| == g.count && Observe(g, m, e).Some?
    ensures
      var n := Observe(g, m, e).value;
      && n.opening == (m.opening && !e.Beat?)
      && n.trusted == if e.Beat? then Trusting(e, m.opening) else m.trusted && !e.CheckError?
  {
  }

  lemma {:induction false} MonitorTrust(g: Config, m: Monitor, log: seq<Event>)
    requires g.Valid() && |m.last| == g.count && ObserveAll(g, m, log).Some?
    ensures
      var e := ObserveAll(g, m, log).value;
      && e.opening == (m.opening && NoBeat(log, |log|))
      && (e.trusted ==> (m.trusted && NoError(log, |log|)) || TrustedAt(log, m.opening, |log|))
    decreases |log|
  {
    hide Observe;
    if log != [] {
      var n := |log| - 1;
      var front := log[..n];
      assert log == front + [log[n]];
      PrefixObserved(g, m, front, [log[n]]);
      MonitorTrust(g, m, front);
      ObserveConcat(g, m, front, [log[n]]);
      var mid := ObserveAll(g, m, front).value;
      assert [log[n]][1..] == [];
      assert ObserveAll(g, m, log) == Observe(g, mid, log[n]);
      ObserveOne(g, mid, log[n]);
      assert NoBeat(log, |log|) <==> NoBeat(front, n) && !log[n].Beat?;
      if ObserveAll(g, m, log).value.trusted {
        TrustKept(front, log[n], m.opening, m.trusted);
      }
    }
  }

  lemma TrustKept(front: seq<Event>, e: Event, opening: bool, start: bool)
    requires
      if e.Beat? then Trusting(e, opening && NoBeat(front, |front|))
      else !e.CheckError? && ((start && NoError(front, |front|)) || TrustedAt(front, opening, |front|))
    ensures (start && NoError(front + [e], |front| + 1)) || TrustedAt(front + [e], opening, |front| + 1)
  {
    var log := front + [e];
    if e.Beat? {
      assert TrustedSince(log, opening, |front|, |front| + 1);
    } else if !(start && NoError(front, |front|)) {
      var j: nat :| TrustedSince(front, opening, j, |front|);
      assert TrustedSince(log, opening, j, |front| + 1);
    }
  }

  lemma {:induction false} PrefixObserved(g: Config, m: Monitor, a: seq<Event>, b: seq<Event>)
    requires g.Valid() && |m.last| == g.count && ObserveAll(g, m, a + b).Some?
    ensures ObserveAll(g, m, a).Some?
    decreases |a|
  {
    if a != [] {
      assert (a + b)[1..] == a[1..] + b;
      PrefixObserved(g, Observe(g, m, a[0]).value, a[1..], b);
    }
  }

  // ----- the check behind trust

  /** A heartbeat's bytes at i of s, whose check byte is the CRC of what s holds from a on. */
  predicate CheckedAt(g: Config, s: seq<Byte>, a: nat, i: nat, e: Event) {
    var end := i + g.HbLen();
    && a <= i && end <= |s| && g.Valid() && e.Beat? && LeValue(s[i..i + g.w]) == 0 && s[i + g.w] == e.grid % 256
    && s[i + g.w + 1..end - 1] == e.levels && Crc8(CRC8_INIT, s[a..end - 1]) as int == s[end - 1]
  }

  lemma {:induction false} Crc8Concat(crc: bv8, a: seq<Byte>, b: seq<Byte>)
    ensures Crc8(crc, a + b) == Crc8(Crc8(crc, a), b)
    decreases |a|
  {
    if a == [] {
      assert a + b == b;
    } else {
      assert (a + b)[0] == a[0] && (a + b)[1..] == a[1..] + b;
      Crc8Concat(Crc8Bits(crc ^ (a[0] as bv8), 8), a[1..], b);
    }
  }

  lemma {:induction false} CheckedLater(g: Config, s: seq<Byte>, k: nat, a: nat, i: nat, e: Event)
    requires k <= |s| && CheckedAt(g, s[k..], a, i, e)
    ensures CheckedAt(g, s, a + k, i + k, e)
  {
    var end := i + g.HbLen();
    assert s[k..][i..i + g.w] == s[i + k..i + k + g.w];
    assert s[k..][i + g.w + 1..end - 1] == s[i + k + g.w + 1..end + k - 1];
    assert s[k..][a..end - 1] == s[a + k..end + k - 1];
    hide Crc8, LeValue;
  }

  /** since are the bytes the running CRC is of. */
  predicate Summed(p: Core, since: seq<Byte>) {
    p.synced ==> p.crc == Crc8(CRC8_INIT, since)
  }

  lemma {:induction false} BeatSays(g: Config, p: Core, hb: seq<Byte>)
    requires g.Valid() && CoreFits(g, p) && |hb| == g.HbLen()
    ensures
      var (q, log) := Heartbeat(g, p, hb);
      && |log| == 1 && Summed(q, [])
      && (log[0].Beat? && !log[0].unverified ==> SaysBytes(g, hb, p.crc, log[0]))
  {
    EmptySum();
    AcceptResets(g, p, Unwrap(if p.haveGrid then p.grid else p.firstGrid, hb[g.w]), hb[g.w + 1..|hb| - 1]);
    hide Crc8, Accept, Unwrap, GridTick;
  }

  lemma Slices(since: seq<Byte>, v: seq<Byte>, w: nat, len: nat)
    requires w + 1 < len <= |v|
    ensures
      var s, n, hb := since + v, |since|, v[..len];
      && s[0..n + len - 1] == since + hb[..len - 1] && s[n..n + w] == v[..w] && s[n + w] == hb[w]
      && s[n + w + 1..n + len - 1] == hb[w + 1..len - 1] && s[n + len - 1] == hb[len - 1]
  {
  }

  /** What a checked heartbeat's event says of its bytes. */
  predicate SaysBytes(g: Config, hb: seq<Byte>, crc: bv8, e: Event) {
    var end := |hb| - 1;
    && g.Valid() && |hb| == g.HbLen() && e.Beat? && Crc8(crc, hb[..end]) as int == hb[end]
    && e.grid % 256 == hb[g.w] && e.levels == hb[g.w + 1..end]
  }

  lemma {:induction false} BeatPlaced(g: Config, since: seq<Byte>, v: seq<Byte>, hb: seq<Byte>, e: Event)
    requires SaysBytes(g, hb, Crc8(CRC8_INIT, since), e) && hb <= v && LeValue(v[..g.w]) == 0
    ensures CheckedAt(g, since + v, 0, |since|, e)
  {
    hide Crc8, LeValue;
    var len := |hb|;
    Slices(since, v, g.w, len);
    assert hb == v[..len];
    var front := hb[..len - 1];
    Crc8Concat(CRC8_INIT, since, front);
  }

  lemma {:induction false} AcceptResets(g: Config, p: Core, grid: nat, levels: seq<Byte>)
    requires g.Valid() && CoreFits(g, p) && |levels| == g.Nb()
    ensures Accept(g, p, grid, levels).crc == CRC8_INIT
  {
  }

  lemma EmptySum()
    ensures Crc8(CRC8_INIT, []) == CRC8_INIT
  {
  }

  lemma {:induction false} RecordSums(g: Config, p: Core, since: seq<Byte>, raw: seq<Byte>)
    requires g.Valid() && CoreFits(g, p) && Summed(p, since) && p.synced && |raw| == g.w
    ensures
      var (q, log) := Record(g, p, raw);
      Summed(q, since + raw) && |log| <= 1 && (log != [] ==> !log[0].Beat?)
  {
    Crc8Concat(CRC8_INIT, since, raw);
    hide Crc8, LeValue, Low, High;
  }

  /** What the running CRC is of after a move. */
  function SinceAfter(g: Config, p: Core, since: seq<Byte>, v: seq<Byte>, used: nat): seq<Byte> {
    if p.synced && g.w <= |v| && used <= |v| && LeValue(v[..g.w]) != 0 then since + v[..used] else []
  }

  lemma {:induction false} NextSums(g: Config, p: Core, since: seq<Byte>, v: seq<Byte>)
    requires g.Valid() && CoreFits(g, p) && Summed(p, since) && Next(g, p, v).Take?
    ensures
      var m := Next(g, p, v);
      && Summed(m.core, SinceAfter(g, p, since, v, m.used)) && |m.log| <= 1
      && (m.log != [] && m.log[0].Beat? && !m.log[0].unverified ==> CheckedAt(g, since + v, 0, |since|, m.log[0]))
  {
    hide LeValue, Crc8, AllZero, Record, Heartbeat, CheckedAt;
    EmptySum();
    if p.synced && LeValue(v[..g.w]) == 0 {
      var q := p.(hbPos := p.pos);
      BeatSays(g, q, v[..g.HbLen()]);
      var e := Heartbeat(g, q, v[..g.HbLen()]).1[0];
      if e.Beat? && !e.unverified {
        BeatPlaced(g, since, v, v[..g.HbLen()], e);
      }
    } else if p.synced {
      RecordSums(g, p, since, v[..g.w]);
    }
  }

  /** Where what SinceAfter is of and what is left of v lie in the stream. */
  lemma SinceLies(g: Config, p: Core, since: seq<Byte>, v: seq<Byte>, used: nat)
    requires used <= |v|
    ensures
      var u := SinceAfter(g, p, since, v, used) + v[used..];
      exists k: nat :: k <= |since + v| && (since + v)[k..] == u
  {
    var u := SinceAfter(g, p, since, v, used) + v[used..];
    if p.synced && g.w <= |v| && LeValue(v[..g.w]) != 0 {
      assert (since + v)[0..] == u;
    } else {
      assert (since + v)[|since| + used..] == u;
    }
  }

  lemma DrainLog(g: Config, p: Core, v: seq<Byte>)
    requires g.Valid() && CoreFits(g, p)
    ensures
      var m := Next(g, p, v);
      Drain(g, p, v).log == if m.Take? then m.log + Drain(g, m.core, v[m.used..]).log else []
  {
    hide Next;
  }

  predicate Verified(log: seq<Event>, j: nat) {
    j < |log| && log[j].Beat? && !log[j].unverified
  }

  /** A heartbeat reported as verified is in the stream, with its check byte matching. */
  lemma {:induction false} BeatChecked(g: Config, p: Core, since: seq<Byte>, v: seq<Byte>, log: seq<Event>, j: nat)
    returns (a: nat, i: nat)
    requires g.Valid() && CoreFits(g, p) && Summed(p, since) && log == Drain(g, p, v).log && Verified(log, j)
    ensures CheckedAt(g, since + v, a, i, log[j])
    decreases |v|, if p.synced then 0 else 1
  {
    hide Drain, Next, CheckedAt, SinceAfter, Summed, Crc8;
    var m, s := Next(g, p, v), since + v;
    DrainLog(g, p, v);
    NextSums(g, p, since, v);
    if j < |m.log| {
      return 0, |since|;
    }
    var left, rest, n := SinceAfter(g, p, since, v, m.used), v[m.used..], |m.log|;
    SinceLies(g, p, since, v, m.used);
    var later := Drain(g, m.core, rest).log;
    assert log[j] == later[j - n];
    a, i := BeatChecked(g, m.core, left, rest, later, j - n);
    var k: nat :| k <= |s| && s[k..] == left + rest;
    CheckedLater(g, s, k, a, i, log[j]);
    a, i := a + k, i + k;
  }

  /** Trust at event i comes from a heartbeat, and if it is not an unverified start's, it checked. */
  ghost predicate TrustChecked(g: Config, s: seq<Byte>, log: seq<Event>, opening: bool, i: nat) {
    exists j: nat :: TrustedSince(log, opening, j, i) && (log[j].unverified || exists a, h :: CheckedAt(g, s, a, h, log[j]))
  }

  /**
   * Trust safety on every byte stream: from a state that is not trusted (a start, a failed
   * check, a break) a record is reported only after a heartbeat with no failed check since.
   * Its bytes are in the stream and its check byte is the CRC-8 of those from some byte up to
   * it, or it opens an unverified start.
   */
  lemma NoRecordUntrusted(g: Config, p: Core, since: seq<Byte>, v: seq<Byte>, i: nat)
    requires g.Valid() && g.Ascending() && CoreOk(g, p) && !p.trusted && Summed(p, since)
    requires i < |Drain(g, p, v).log| && Drain(g, p, v).log[i].Rec?
    ensures TrustChecked(g, since + v, Drain(g, p, v).log, p.startUnverified && !p.haveGrid, i)
  {
    var log, opening := Drain(g, p, v).log, p.startUnverified && !p.haveGrid;
    DrainWatched(g, p, v);
    TrustedBefore(g, MonitorOf(p), log, i);
    hide Drain, Next, CheckedAt, Summed;
    var j: nat :| TrustedSince(log, opening, j, i);
    if !log[j].unverified {
      var a, h := BeatChecked(g, p, since, v, log, j);
    }
  }

  lemma TrustedBefore(g: Config, m: Monitor, log: seq<Event>, i: nat)
    requires g.Valid() && |m.last| == g.count && ObserveAll(g, m, log).Some? && !m.trusted
    requires i < |log| && log[i].Rec?
    ensures TrustedAt(log, m.opening, i)
  {
    assert log == log[..i] + log[i..];
    PrefixObserved(g, m, log[..i], log[i..]);
    ObserveConcat(g, m, log[..i], log[i..]);
    MonitorTrust(g, m, log[..i]);
    var j: nat :| TrustedSince(log[..i], m.opening, j, i);
    assert TrustedSince(log, m.opening, j, i);
  }

  predicate TickBefore(e: Event, f: Event) {
    && (e.Beat? && f.Beat? ==> e.beatTick <= f.beatTick)
    && (e.Rec? && f.Rec? && e.channel == f.channel ==> e.tick <= f.tick)
    && (e.Beat? && f.Rec? ==> e.beatTick <= f.tick)
  }

  /** What an accepted log says of every later event, given the monitor's state before it. */
  lemma {:induction false} MonitorMonotone(g: Config, m: Monitor, log: seq<Event>, i: nat)
    requires g.Valid() && |m.last| == g.count && ObserveAll(g, m, log).Some? && i < |log|
    ensures log[i].Beat? ==> m.hbTick <= log[i].beatTick
    ensures log[i].Rec? ==> m.hbTick <= log[i].tick
    ensures log[i].Rec? ==>
              var k := BlockIndex(g, log[i].channel);
              k < g.count && m.last[k] <= log[i].tick
    decreases i
  {
    if i > 0 {
      MonitorMonotone(g, Observe(g, m, log[0]).value, log[1..], i - 1);
    }
  }

  /**
   * On every byte stream heartbeat ticks never decrease, and no channel's records go back
   * before each other or before a heartbeat reported earlier.
   */
  lemma {:induction false} TicksNeverGoBack(g: Config, m: Monitor, log: seq<Event>, i: nat, j: nat)
    requires g.Valid() && |m.last| == g.count && ObserveAll(g, m, log).Some? && i < j < |log|
    ensures TickBefore(log[i], log[j])
    decreases i
  {
    var next := Observe(g, m, log[0]).value;
    if i > 0 {
      TicksNeverGoBack(g, next, log[1..], i - 1, j - 1);
    } else {
      MonitorMonotone(g, next, log[1..], j - 1);
    }
  }

  lemma StreamTicksNeverGoBack(g: Config, p: Core, v: seq<Byte>, i: nat, j: nat)
    requires g.Valid() && g.Ascending() && CoreOk(g, p) && i < j < |Drain(g, p, v).log|
    ensures TickBefore(Drain(g, p, v).log[i], Drain(g, p, v).log[j])
  {
    DrainWatched(g, p, v);
    TicksNeverGoBack(g, MonitorOf(p), Drain(g, p, v).log, i, j);
  }
}
