/**
 * The parser as it runs: bytes gathered in a fixed buffer, state updated heartbeat by
 * heartbeat and record by record. Its methods are proved against WireFormat.
 */
module WireParser {
  import opened Numbers
  import opened WireFormat
  import opened WireStreams

  /** One byte of the CRC-8, most significant bit first. */
  method CrcByte(x: bv8) returns (r: bv8)
    ensures r == Crc8Bits(x, 8)
  {
    r := x;
    for b := 0 to 8
      invariant Crc8Bits(x, 8) == Crc8Bits(r, 8 - b)
    {
      r := if r & 0x80 != 0 then (r << 1) ^ CRC8_POLY else r << 1;
    }
  }

  method ComputeCrc8(crc: bv8, data: seq<Byte>) returns (r: bv8)
    ensures r == Crc8(crc, data)
  {
    hide Crc8Bits;
    r := crc;
    for i := 0 to |data|
      invariant Crc8(crc, data) == Crc8(r, data[i..])
    {
      assert data[i..][1..] == data[i + 1..];
      r := CrcByte(r ^ (data[i] as bv8));
    }
  }

  // ----- the moves, for the parse loop

  lemma HeartbeatMove(g: Config, p: Core, v: seq<Byte>)
    requires g.Valid() && CoreFits(g, p) && p.synced && |v| >= g.HbLen() && LeValue(v[..g.w]) == 0
    ensures
      var (q, log) := Heartbeat(g, p.(hbPos := p.pos), v[..g.HbLen()]);
      Next(g, p, v) == Take(q.(pos := p.pos + g.HbLen()), g.HbLen(), log)
  {
    hide Heartbeat;
  }

  lemma RecordMove(g: Config, p: Core, v: seq<Byte>)
    requires g.Valid() && CoreFits(g, p) && p.synced && |v| >= g.w && LeValue(v[..g.w]) != 0
    ensures
      var (q, log) := Record(g, p, v[..g.w]);
      Next(g, p, v) == Take(q.(pos := p.pos + g.w), g.w, log)
  {
    hide Record;
  }

  lemma AcceptIs(g: Config, p: Core, grid: nat, levels: seq<Byte>, b: Blame)
    requires g.Valid() && CoreFits(g, p) && |levels| == g.Nb()
    requires b == if p.trusted then Judge(g, p.blame, p.level, levels, Span(p.hbTick, GridTick(g, grid)), g.count) else p.blame
    ensures
      Accept(g, p, grid, levels)
      == p.(crc := CRC8_INIT, haveGrid := true, grid := grid, hbTick := GridTick(g, grid), level := BlockLevels(g, levels), blame := b,
            lastGood := if b.open + b.excused == p.blame.open + p.blame.excused then GridTick(g, grid) else p.lastGood,
            trusted := !p.anchor, anchor := false)
  {
    hide Judge, BlockLevels, GridTick;
  }

  lemma NoMove(g: Config, p: Core, v: seq<Byte>)
    requires g.Valid() && CoreFits(g, p)
    requires |v| < g.HbLen()
    requires !p.synced || |v| < g.w || LeValue(v[..g.w]) == 0
    ensures Next(g, p, v) == Wait && Drain(g, p, v) == Parsed(p, v, [])
  {
  }

  /** The parser that takes the bytes in front of it for a heartbeat. */
  function Found(p: Core): Core {
    p.(synced := true, anchor := p.haveGrid, crc := CRC8_INIT)
  }

  lemma SkipMove(g: Config, p: Core, v: seq<Byte>)
    requires g.Valid() && CoreFits(g, p) && !p.synced && |v| >= g.HbLen()
    ensures
      if AllZero(v[..g.w]) && IndexFollows(p, v[g.w])
      then Drain(g, p, v) == Drain(g, Found(p), v)
      else Drain(g, p, v) == Drain(g, p.(pos := p.pos + 1), v[1..])
  {
    hide Heartbeat, Record, AllZero;
    if AllZero(v[..g.w]) && IndexFollows(p, v[g.w]) {
      assert v[0..] == v;
      SilentMove(g, p, v, Found(p), 0);
    } else {
      SilentMove(g, p, v, p.(pos := p.pos + 1), 1);
    }
  }

  lemma SilentMove(g: Config, p: Core, v: seq<Byte>, q: Core, used: nat)
    requires g.Valid() && CoreFits(g, p) && CoreFits(g, q) && Next(g, p, v) == Take(q, used, [])
    ensures Drain(g, p, v) == Drain(g, q, v[used..])
  {
    hide Next;
    assert [] + Drain(g, q, v[used..]).log == Drain(g, q, v[used..]).log;
  }

  /** A parse of v0 has got to v with state p, having said done. */
  ghost predicate Reached(g: Config, p0: Core, v0: seq<Byte>, p: Core, v: seq<Byte>, done: seq<Event>)
    requires g.Valid() && CoreFits(g, p0) && CoreFits(g, p)
  {
    var r := Drain(g, p, v);
    Drain(g, p0, v0) == r.(log := done + r.log)
  }

  lemma ReachedStart(g: Config, p: Core, v: seq<Byte>)
    requires g.Valid() && CoreFits(g, p)
    ensures Reached(g, p, v, p, v, [])
  {
    assert [] + Drain(g, p, v).log == Drain(g, p, v).log;
  }

  lemma ReachedTrans(g: Config, p0: Core, v0: seq<Byte>, p: Core, v: seq<Byte>, done: seq<Event>,
                     q: Core, w: seq<Byte>, said: seq<Event>)
    requires g.Valid() && CoreFits(g, p0) && CoreFits(g, p) && CoreFits(g, q)
    requires Reached(g, p0, v0, p, v, done) && Reached(g, p, v, q, w, said)
    ensures Reached(g, p0, v0, q, w, done + said)
  {
    hide Drain;
    var r := Drain(g, q, w);
    assert done + (said + r.log) == done + said + r.log;
  }

  lemma ReachedEnd(g: Config, p0: Core, v0: seq<Byte>, p: Core, v: seq<Byte>, done: seq<Event>)
    requires g.Valid() && CoreFits(g, p0) && CoreFits(g, p)
    requires Reached(g, p0, v0, p, v, done) && Stuck(g, p, v)
    ensures Drain(g, p0, v0) == Parsed(p, v, done)
  {
    hide Next;
    assert done + [] == done;
  }

  lemma ReachedNext(g: Config, p0: Core, v0: seq<Byte>, p: Core, v: seq<Byte>, done: seq<Event>,
                    q: Core, used: nat, said: seq<Event>)
    requires g.Valid() && CoreFits(g, p0) && CoreFits(g, p) && CoreFits(g, q)
    requires Reached(g, p0, v0, p, v, done) && Next(g, p, v) == Take(q, used, said)
    ensures Reached(g, p0, v0, q, v[used..], done + said)
  {
    hide Next;
    var r := Drain(g, q, v[used..]);
    assert done + (said + r.log) == done + said + r.log;
  }

  class Wire {
    const g: Config
    const buf: array<Byte>

    var len: nat
    var pos: nat
    var hbPos: nat
    var crc: bv8
    var synced: bool
    var anchor: bool
    var trusted: bool
    var haveGrid: bool
    var startUnverified: bool
    var firstGrid: nat
    var grid: nat
    var hbTick: nat
    var latest: nat
    var lastGood: nat
    var level: seq<int>
    var last: seq<nat>

    var losses: seq<Span>
    var mismatches: seq<Span>
    var open: nat
    var excused: nat

    /** What the handler was given, and where the error counters moved. */
    var log: seq<Event>

    ghost predicate Shaped()
      reads this
    {
      && g.Valid()
      && buf.Length == WIRE_BUF_SIZE
      && |level| == |last| == g.count
      && len <= WIRE_BUF_SIZE
      && open >= |mismatches|
    }

    /** Between calls little is buffered: no move can be made with it. */
    ghost predicate Valid()
      reads this, buf
    {
      Shaped() && Stuck(g, View(), Rest())
    }

    ghost function Blames(): Blame
      reads this
    {
      Blame(losses, mismatches, open, excused)
    }

    /** The state when the next byte is the one at i of the buffer. */
    ghost function CoreAt(i: nat): (p: Core)
      requires Shaped()
      reads this
      ensures CoreFits(g, p)
    {
      Core(pos + i, hbPos, crc, synced, anchor, trusted, haveGrid, startUnverified, firstGrid, grid,
           hbTick, latest, lastGood, level, last, Blames())
    }

    ghost function View(): Core
      requires Shaped()
      reads this
    {
      CoreAt(0)
    }

    ghost function Rest(): seq<Byte>
      requires Shaped()
      reads this, buf
    {
      buf[..len]
    }

    constructor (config: Config)
      requires config.Valid()
      ensures Valid() && g == config && View() == Fresh(config) && Rest() == [] && log == []
      ensures fresh(buf)
    {
      g := config;
      buf := new Byte[WIRE_BUF_SIZE](_ => 0);
      level := seq(config.count, _ => -1);
      last := seq(config.count, _ => 0);
      len, pos, hbPos, crc := 0, 0, 0, CRC8_INIT;
      synced, anchor, trusted, haveGrid, startUnverified := false, false, false, false, false;
      firstGrid, grid, hbTick, latest, lastGood := 0, 0, 0, 0, 0;
      losses, mismatches, open, excused, log := [], [], 0, 0, [];
    }

    /** Replaces the fresh state by StartAt; possible only while nothing was fed. */
    method StartStreamAt(first: nat, unverified: bool)
      requires Valid() && View() == Fresh(g) && Rest() == []
      modifies this
      ensures Valid() && View() == StartAt(g, first, unverified) && Rest() == [] && log == old(log)
    {
      firstGrid := first;
      startUnverified := unverified;
    }

    /** Takes the next bytes of the stream: everything that can be parsed is. */
    method Feed(data: seq<Byte>)
      requires Valid()
      modifies this, buf
      ensures Valid()
      ensures
        var r := Drain(g, old(View()), old(Rest()) + data);
        View() == r.core && Rest() == r.rest && log == old(log) + r.log
    {
      hide Next, Drain;
      var fed := 0;
      ghost var p0, rest0, log0 := View(), Rest(), log;
      DrainStuck(g, p0, rest0);
      assert rest0 + data[..0] == rest0;
      while fed < |data|
        invariant fed <= |data| && Valid()
        invariant
          var r := Drain(g, p0, rest0 + data[..fed]);
          View() == r.core && Rest() == r.rest && log == log0 + r.log
      {
        DrainLeavesLittle(g, p0, rest0 + data[..fed]);
        var n := Min(WIRE_BUF_SIZE - len, |data| - fed);
        FeedChunk(data, fed, n);
        DrainConcat(g, p0, rest0 + data[..fed], data[fed..fed + n]);
        assert rest0 + data[..fed] + data[fed..fed + n] == rest0 + data[..fed + n];
        fed := fed + n;
      }
      assert data[..fed] == data;
    }

    /** The next n bytes of data behind what is buffered, parsed. */
    method FeedChunk(data: seq<Byte>, at: nat, n: nat)
      requires Shaped() && at + n <= |data| && len + n <= WIRE_BUF_SIZE
      modifies this, buf
      ensures Valid()
      ensures
        var r := Drain(g, old(View()), old(Rest()) + data[at..at + n]);
        View() == r.core && Rest() == r.rest && log == old(log) + r.log
    {
      hide Next, Drain;
      ghost var p, before := View(), Rest();
      forall k | 0 <= k < n {
        buf[len + k] := data[at + k];
      }
      len := len + n;
      assert Rest() == before + data[at..at + n];
      assert View() == p;
      Parse();
    }

    /** Parses what is buffered and keeps what is left of it at the buffer's start. */
    method Parse()
      requires Shaped()
      modifies this, buf
      ensures Valid()
      ensures
        var r := Drain(g, old(View()), old(Rest()));
        View() == r.core && Rest() == r.rest && log == old(log) + r.log
    {
      hide Next, Drain;
      ghost var v0 := Rest();
      var i := ParseBuffered();
      ghost var end := CoreAt(i);
      forall k | 0 <= k < len - i {
        buf[k] := buf[i + k];
      }
      len := len - i;
      pos := pos + i;
      assert View() == end;
      assert Rest() == v0[i..];
    }

    /** Takes everything that can be parsed; i is where the rest starts in the buffer. */
    method ParseBuffered() returns (i: nat)
      requires Shaped()
      modifies this`hbPos, this`crc, this`synced, this`anchor, this`trusted, this`haveGrid, this`grid, this`hbTick
      modifies this`latest, this`lastGood, this`level, this`last, this`mismatches, this`open, this`excused, this`log
      ensures Shaped() && i <= len
      ensures
        var r := Drain(g, old(View()), Rest());
        CoreAt(i) == r.core && buf[i..len] == r.rest && log == old(log) + r.log
      ensures Stuck(g, CoreAt(i), buf[i..len])
    {
      hide Next, Drain, Reached;
      i := 0;
      ghost var p0, v0, log0, done := View(), Rest(), log, [];
      assert v0 == buf[0..len];
      ReachedStart(g, p0, v0);
      var more := true;
      while more
        invariant Shaped() && i <= len
        invariant log == log0 + done
        invariant Reached(g, p0, v0, CoreAt(i), buf[i..len], done)
        invariant !more ==> Stuck(g, CoreAt(i), buf[i..len])
        decreases more, len - i, if synced then 0 else 1
      {
        ghost var p, v, said0 := CoreAt(i), buf[i..len], log;
        var said;
        i, said, more := Advance(i);
        ReachedTrans(g, p0, v0, p, v, done, CoreAt(i), buf[i..len], said);
        done := done + said;
      }
      ReachedEnd(g, p0, v0, CoreAt(i), buf[i..len], done);
    }

    /** One turn of the parse loop: finds the next heartbeat if it must, and takes an entry. */
    method Advance(i: nat) returns (next: nat, said: seq<Event>, more: bool)
      requires Shaped() && i <= len
      modifies this`hbPos, this`crc, this`synced, this`anchor, this`trusted, this`haveGrid, this`grid, this`hbTick
      modifies this`latest, this`lastGood, this`level, this`last, this`mismatches, this`open, this`excused, this`log
      ensures Shaped() && i <= next <= len && log == old(log) + said
      ensures Reached(g, old(CoreAt(i)), buf[i..len], CoreAt(next), buf[next..len], said)
      ensures more ==> next > i
      ensures !more ==> Stuck(g, CoreAt(next), buf[next..len])
    {
      hide Next, Drain;
      next, said, more := i, [], false;
      ghost var p0, v0 := CoreAt(i), buf[i..len];
      if !synced {
        next := SyncAt(i);
        if !synced {
          SyncedNot(next);
          assert [] + Drain(g, CoreAt(next), buf[next..len]).log == Drain(g, CoreAt(next), buf[next..len]).log;
          return;
        }
      }
      ghost var p, v := CoreAt(next), buf[next..len];
      assert Reached(g, p0, v0, p, v, []) by {
        assert [] + Drain(g, p, v).log == Drain(g, p, v).log;
      }
      var used;
      used, said := ParseOne(next);
      if used == 0 {
        SyncedNot(next);
        said := [];
      } else {
        ReachedNext(g, p0, v0, p, v, [], CoreAt(next + used), used, said);
        assert v[used..] == buf[next + used..len];
        assert [] + said == said;
        next := next + used;
        more := true;
      }
    }

    lemma SyncedNot(i: nat)
      requires Shaped() && i <= len && len - i < g.HbLen()
      requires !synced || len - i < g.w || LeValue(buf[i..len][..g.w]) == 0
      ensures Stuck(g, CoreAt(i), buf[i..len])
    {
      NoMove(g, CoreAt(i), buf[i..len]);
    }

    /** The record or heartbeat at i of the buffer, if all of it is there; used is its length. */
    method ParseOne(i: nat) returns (used: nat, said: seq<Event>)
      requires Shaped() && synced && i <= len
      modifies this`hbPos, this`crc, this`synced, this`anchor, this`trusted, this`haveGrid, this`grid, this`hbTick
      modifies this`latest, this`lastGood, this`level, this`last, this`mismatches, this`open, this`excused, this`log
      ensures Shaped() && i + used <= len
      ensures used > 0 ==> log == old(log) + said && Next(g, old(CoreAt(i)), buf[i..len]) == Take(CoreAt(i + used), used, said)
      ensures used == 0 ==> log == old(log) && CoreAt(i) == old(CoreAt(i)) && synced
      ensures used == 0 ==> len - i < g.HbLen() && (len - i < g.w || LeValue(buf[i..len][..g.w]) == 0)
    {
      hide Next, LeValue;
      used, said := 0, [];
      if len - i < g.w {
        return;
      }
      var value := ReadValue(i);
      assert buf[i..len][..g.w] == buf[i..i + g.w];
      if value != 0 {
        said := RecordAt(value, i);
        used := g.w;
      } else if len - i >= g.HbLen() {
        said := HeartbeatAt(i);
        used := g.HbLen();
      }
    }

    method RecordAt(value: nat, i: nat) returns (said: seq<Event>)
      requires Shaped() && synced && i + g.w <= len && value == LeValue(buf[i..len][..g.w]) != 0
      modifies this`crc, this`last, this`level, this`latest, this`log
      ensures Shaped() && log == old(log) + said
      ensures Next(g, old(CoreAt(i)), buf[i..len]) == Take(CoreAt(i + g.w), g.w, said)
    {
      hide Next, Record, LeValue;
      RecordMove(g, CoreAt(i), buf[i..len]);
      said := TakeRecord(value, buf[i..len][..g.w], i);
      assert CoreAt(i + g.w) == CoreAt(i).(pos := pos + i + g.w);
    }

    method HeartbeatAt(i: nat) returns (said: seq<Event>)
      requires Shaped() && synced && i + g.HbLen() <= len && LeValue(buf[i..len][..g.w]) == 0
      modifies this`hbPos, this`crc, this`synced, this`anchor, this`trusted, this`haveGrid, this`grid, this`hbTick
      modifies this`lastGood, this`level, this`mismatches, this`open, this`excused, this`log
      ensures Shaped() && log == old(log) + said
      ensures Next(g, old(CoreAt(i)), buf[i..len]) == Take(CoreAt(i + g.HbLen()), g.HbLen(), said)
    {
      hide Next, Heartbeat, LeValue;
      ghost var p := CoreAt(i);
      HeartbeatMove(g, p, buf[i..len]);
      hbPos := pos + i;
      assert CoreAt(i) == p.(hbPos := p.pos);
      said := TakeHeartbeat(buf[i..len][..g.HbLen()], i);
      assert CoreAt(i + g.HbLen()) == CoreAt(i).(pos := pos + i + g.HbLen());
    }

    /** The W bytes at i of the buffer, little endian. */
    method ReadValue(i: nat) returns (value: nat)
      requires Shaped() && i + g.w <= len
      ensures value == LeValue(buf[i..i + g.w])
    {
      var unit: nat := 1;
      value := 0;
      for b := 0 to g.w
        invariant unit == Pow256(b)
        invariant value == LeValue(buf[i..i + b])
      {
        LeValueAppend(buf[i..i + b], buf[i + b]);
        assert buf[i..i + b] + [buf[i + b]] == buf[i..i + b + 1];
        value := value + buf[i + b] * unit;
        unit := 256 * unit;
      }
    }

    /**
     * Moves on to the next place that looks like a heartbeat with a possible index, or to where too
     * few bytes are left to tell. What a drain makes of the bytes does not change.
     */
    method SyncAt(from: nat) returns (i: nat)
      requires Shaped() && !synced && from <= len
      modifies this`synced, this`anchor, this`crc
      ensures Shaped() && from <= i <= len
      ensures Drain(g, old(CoreAt(from)), buf[from..len]) == Drain(g, CoreAt(i), buf[i..len])
      ensures !synced ==> len - i < g.HbLen()
    {
      hide Next, Drain;
      var found;
      i, found := FindSync(from);
      if found {
        ghost var p := CoreAt(i);
        synced := true;
        anchor := haveGrid;
        crc := CRC8_INIT;
        assert CoreAt(i) == Found(p);
      }
    }

    /** Where in the buffer that is, if it is found. */
    method FindSync(from: nat) returns (i: nat, found: bool)
      requires Shaped() && !synced && from <= len
      ensures from <= i <= len
      ensures Drain(g, CoreAt(from), buf[from..len]) == Drain(g, if found then Found(CoreAt(i)) else CoreAt(i), buf[i..len])
      ensures !found ==> len - i < g.HbLen()
    {
      hide Next, Drain, AllZero;
      i := from;
      while len - i >= g.HbLen()
        invariant from <= i <= len
        invariant Drain(g, CoreAt(from), buf[from..len]) == Drain(g, CoreAt(i), buf[i..len])
      {
        ghost var p, v := CoreAt(i), buf[i..len];
        assert v[..g.w] == buf[i..i + g.w];
        assert v[1..] == buf[i + 1..len];
        SkipMove(g, p, v);
        var zero := IsZero(i);
        var step := (buf[i + g.w] - grid % 256) % 256;
        assert IndexFollows(p, v[g.w]) <==> !haveGrid || (0 < step && step < RESYNC_STEP_MAX);
        if zero && (!haveGrid || (0 < step && step < RESYNC_STEP_MAX)) {
          return i, true;
        }
        i := i + 1;
        assert CoreAt(i) == p.(pos := p.pos + 1);
      }
      return i, false;
    }

    /** Whether the W bytes at i of the buffer are all zero. */
    method IsZero(i: nat) returns (zero: bool)
      requires Shaped() && i + g.w <= len
      ensures zero <==> AllZero(buf[i..i + g.w])
    {
      var bytes := buf[i..i + g.w];
      zero := true;
      for b := 0 to g.w
        invariant zero <==> forall j :: 0 <= j < b ==> bytes[j] == 0
      {
        zero := zero && bytes[b] == 0;
      }
    }

    /** A heartbeat's bytes; i is where the buffer is at. */
    method TakeHeartbeat(hb: seq<Byte>, ghost i: nat) returns (said: seq<Event>)
      requires Shaped() && |hb| == g.HbLen()
      modifies this`crc, this`trusted, this`synced, this`anchor, this`haveGrid, this`grid, this`hbTick
      modifies this`lastGood, this`level, this`mismatches, this`open, this`excused, this`log
      ensures Shaped() && log == old(log) + said
      ensures (CoreAt(i), said) == Heartbeat(g, old(CoreAt(i)), hb)
    {
      hide Crc8, Accept, Unwrap, GridTick;
      var check := ComputeCrc8(crc, hb[..|hb| - 1]);
      var firstUnverified := !haveGrid && startUnverified;
      // An anchor is taken unchecked: the CRC of its stretch is not known here. It trusts nothing yet.
      var ok := anchor || firstUnverified || check as int == hb[|hb| - 1];
      assert ok <==> Checks(g, CoreAt(i), hb);

      if !ok {
        RejectHeartbeat(i);
        said := [CheckError];
      } else {
        var flagged := anchor || firstUnverified;
        var levels := hb[g.w + 1..|hb| - 1];
        Adopt(i, Unwrap(if haveGrid then grid else firstGrid, hb[g.w]), levels);
        said := [Beat(grid, hbTick, flagged, levels)];
      }
      log := log + said;
    }

    method RejectHeartbeat(ghost i: nat)
      requires Shaped()
      modifies this`crc, this`trusted, this`synced
      ensures Shaped()
      ensures CoreAt(i) == old(CoreAt(i)).(crc := CRC8_INIT, trusted := false, synced := false)
    {
      crc := CRC8_INIT;
      trusted := false;
      synced := false;
    }

    /** Takes over a heartbeat that checked good. */
    method Adopt(ghost i: nat, newGrid: nat, levels: seq<Byte>)
      requires Shaped() && |levels| == g.Nb()
      modifies this`crc, this`trusted, this`anchor, this`haveGrid, this`grid, this`hbTick
      modifies this`lastGood, this`level, this`mismatches, this`open, this`excused
      ensures Shaped() && grid == newGrid && hbTick == GridTick(g, newGrid)
      ensures CoreAt(i) == Accept(g, old(CoreAt(i)), newGrid, levels)
    {
      hide GridTick, BlockLevels, Judge, Accept;
      var tick := GridTick(g, newGrid);
      ghost var p := CoreAt(i);
      JudgeHeartbeat(levels, tick);
      SetHeartbeat(newGrid, tick);
      AcceptIs(g, p, newGrid, levels, Blames());
    }

    /** A heartbeat at tick that contradicts no record is the latest good one. */
    method JudgeHeartbeat(levels: seq<Byte>, tick: nat)
      requires Shaped() && |levels| == g.Nb()
      modifies this`lastGood, this`level, this`mismatches, this`open, this`excused
      ensures Shaped() && level == BlockLevels(g, levels)
      ensures Blames() == if trusted then Judge(g, old(Blames()), old(level), levels, Span(hbTick, tick), g.count) else old(Blames())
      ensures lastGood == if open + excused == old(open + excused) then tick else old(lastGood)
    {
      hide BlockLevels, Judge;
      var found := open + excused;
      JudgeLevels(levels, Span(hbTick, tick));
      if open + excused == found {
        lastGood := tick;
      }
    }

    // A separate step: the fields a heartbeat sets besides the levels.
    method SetHeartbeat(newGrid: nat, tick: nat)
      modifies this`crc, this`trusted, this`anchor, this`haveGrid, this`grid, this`hbTick
      ensures crc == CRC8_INIT && haveGrid && grid == newGrid && hbTick == tick
      ensures trusted == !old(anchor) && !anchor
    {
      crc := CRC8_INIT;
      haveGrid := true;
      grid := newGrid;
      hbTick := tick;
      trusted := !anchor;
      anchor := false;
    }

    /** The heartbeat's levels against those the records gave, and from now on instead. */
    method JudgeLevels(levels: seq<Byte>, m: Span)
      requires Shaped() && |levels| == g.Nb()
      modifies this`mismatches, this`open, this`excused, this`level
      ensures Shaped()
      ensures Blames() == if trusted then Judge(g, old(Blames()), old(level), levels, m, g.count) else old(Blames())
      ensures level == BlockLevels(g, levels)
    {
      hide Bit, Mismatch;
      ghost var level0 := level;
      for k := 0 to g.count
        invariant Shaped() && losses == old(losses)
        invariant Blames() == if trusted then Judge(g, old(Blames()), level0, levels, m, k) else old(Blames())
        invariant forall j :: 0 <= j < k ==> level[j] == BlockLevels(g, levels)[j]
        invariant forall j :: k <= j < g.count ==> level[j] == level0[j]
      {
        var lvl := Bit(levels, g.first + k);
        if trusted && level[k] >= 0 && level[k] != lvl {
          NoteMismatch(m);
        }
        level := level[k := lvl];
      }
    }

    /** Whether a held loss overlaps the span. */
    method IsCovered(m: Span) returns (yes: bool)
      ensures yes <==> Covered(losses, m)
    {
      for i := 0 to |losses|
        invariant forall j :: 0 <= j < i ==> !Overlaps(losses[j], m)
      {
        if losses[i].start <= m.end && losses[i].end >= m.start {
          return true;
        }
      }
      return false;
    }

    /** Levels disagreed between the heartbeats at m.start and m.end. */
    method NoteMismatch(m: Span)
      requires open >= |mismatches|
      modifies this`mismatches, this`open, this`excused
      ensures Blames() == Mismatch(old(Blames()), m) && open >= |mismatches|
    {
      var yes := IsCovered(m);
      if yes {
        excused := excused + 1;
        return;
      }
      open := open + 1;
      mismatches := mismatches + [m];
    }

    /** A record's bytes and their value; i is where the buffer is at. */
    method TakeRecord(value: nat, raw: seq<Byte>, ghost i: nat) returns (said: seq<Event>)
      requires Shaped() && |raw| == g.w && value == LeValue(raw)
      modifies this`crc, this`last, this`level, this`latest, this`log
      ensures Shaped() && log == old(log) + said
      ensures (CoreAt(i), said) == Record(g, old(CoreAt(i)), raw)
    {
      hide Crc8, LeValue, WireFormat.Trusted;
      ghost var p := CoreAt(i);
      crc := ComputeCrc8(crc, raw);
      assert CoreAt(i) == p.(crc := crc);
      said := [];
      if trusted {
        said := TakeTrusted(value, i);
      }
    }

    method TakeTrusted(value: nat, ghost i: nat) returns (said: seq<Event>)
      requires Shaped()
      modifies this`last, this`level, this`latest, this`log
      ensures Shaped() && log == old(log) + said
      ensures (CoreAt(i), said) == Trusted(g, old(CoreAt(i)), value)
    {
      hide Low, High;
      ghost var p := CoreAt(i);
      var k := Low(value, g.t);
      var z := High(value, g.t);
      if k >= g.count || (z + 1) / 2 > g.c {
        said := [GapError];
        log := log + said;
        assert CoreAt(i) == p;
      } else {
        said := Deliver(k, z);
        assert CoreAt(i) == p.(last := last, level := level, latest := latest);
      }
    }

    /** Hands a record of block channel k over. */
    method Deliver(k: nat, z: nat) returns (said: seq<Event>)
      requires k < g.count == |last| == |level| && g.first + k < |g.enabled|
      modifies this`last, this`level, this`latest, this`log
      ensures
        var tick := (if old(last[k]) > hbTick then old(last[k]) else hbTick) + (z + 1) / 2;
        var lvl := if z % 2 == 1 then 0 else 1;
        && said == [Rec(tick, g.enabled[g.first + k], lvl)]
        && last == old(last)[k := tick] && level == old(level)[k := lvl]
        && latest == Max(old(latest), tick)
      ensures log == old(log) + said
    {
      var tick := (if last[k] > hbTick then last[k] else hbTick) + (z + 1) / 2;
      var lvl := if z % 2 == 1 then 0 else 1;
      last := last[k := tick];
      level := level[k := lvl];
      if tick > latest {
        latest := tick;
      }
      said := [Rec(tick, g.enabled[g.first + k], lvl)];
      log := log + said;
    }

    /** Drops what is buffered; the state becomes Break's. */
    method BreakStream()
      requires Valid()
      modifies this`pos, this`len, this`synced, this`trusted, this`crc
      ensures Valid() && View() == Break(old(View()), old(Rest())) && Rest() == []
    {
      hide Next, Drain;
      ghost var p, r := View(), Rest();
      NoMove(g, Break(p, r), []);
      pos := pos + len;
      len := 0;
      synced := false;
      trusted := false;
      crc := CRC8_INIT;
      assert Rest() == [];
      assert View() == Break(p, r);
    }

    /** The losses and the two counters become AddLoss's; the rest of the state stays. */
    method AddLossSpan(loss: Span)
      requires Valid()
      modifies this`losses, this`mismatches, this`open, this`excused
      ensures Valid() && Rest() == old(Rest())
      ensures View() == old(View()).(blame := AddLoss(old(Blames()), hbTick, loss))
    {
      hide Live, Unexplained, Heartbeat, Record;
      DropEnded();
      losses := losses + [loss];
      Excuse();
    }

    /** Keeps the losses Live keeps. */
    method DropEnded()
      modifies this`losses
      ensures losses == Live(old(losses), hbTick)
    {
      var live := [];
      for i := 0 to |losses|
        invariant losses == old(losses)
        invariant live + Live(losses[i..], hbTick) == Live(losses, hbTick)
      {
        assert losses[i..][1..] == losses[i + 1..];
        if losses[i].end >= hbTick {
          live := live + [losses[i]];
        }
      }
      losses := live;
    }

    /** Moves the mismatches a held loss overlaps to the excused. */
    method Excuse()
      requires open >= |mismatches|
      modifies this`mismatches, this`open, this`excused
      ensures
        var kept := Unexplained(old(mismatches), losses);
        && mismatches == kept && |kept| <= |old(mismatches)|
        && open == old(open) - (|old(mismatches)| - |kept|)
        && excused == old(excused) + (|old(mismatches)| - |kept|)
    {
      hide Unexplained;
      UnexplainedShorter(mismatches, losses);
      var kept := StillOpen();
      excused := excused + (|mismatches| - |kept|);
      open := open - (|mismatches| - |kept|);
      mismatches := kept;
    }

    /** The mismatches no held loss overlaps. */
    method StillOpen() returns (kept: seq<Span>)
      ensures kept == Unexplained(mismatches, losses)
    {
      hide Covered;
      kept := [];
      for i := 0 to |mismatches|
        invariant kept + Unexplained(mismatches[i..], losses) == Unexplained(mismatches, losses)
      {
        var m := mismatches[i];
        assert mismatches[i..][0] == m && mismatches[i..][1..] == mismatches[i + 1..];
        var yes := IsCovered(m);
        ghost var rest := Unexplained(mismatches[i + 1..], losses);
        if !yes {
          assert kept + ([m] + rest) == kept + [m] + rest;
          kept := kept + [m];
        } else {
          assert [] + rest == rest;
        }
      }
    }
  }
}
