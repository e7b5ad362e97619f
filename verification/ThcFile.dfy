/**
 * The chunks of a capture file: how they are written, and how a reader takes them from any
 * prefix of a file and goes on when it has grown.
 */
module ThcFile {
  import opened Numbers

  const CHUNK_HEAD: nat := 16
  const CHUNK_CRC: nat := 4
  const PAYLOAD_MAX: nat := 0x400_0000
  const DATA: Byte := 0x01
  const CONTROL: Byte := 0x02
  const EVENT: Byte := 0x03
  const END: Byte := 0x7F
  const CRC32_POLY: bv32 := 0xEDB88320

  type Bytes = seq<Byte>

  datatype Chunk = Chunk(kind: Byte, flags: Byte, channel: nat, time: nat, payload: Bytes)

  /** What the chunk's fields have room for. */
  predicate Fits(c: Chunk) {
    c.channel < Pow256(2) && c.time < Pow256(8) && |c.payload| <= PAYLOAD_MAX
  }

  // ----- check

  function Crc32Bits(crc: bv32, bits: nat): bv32
    decreases bits
  {
    if bits == 0 then crc
    else Crc32Bits(if crc & 1 != 0 then (crc >> 1) ^ CRC32_POLY else crc >> 1, bits - 1)
  }

  function Crc32Byte(crc: bv32, b: Byte): bv32 {
    Crc32Bits(crc ^ (b as bv32), 8)
  }

  function Crc32Over(crc: bv32, data: Bytes): bv32
    decreases |data|
  {
    if data == [] then crc else Crc32Over(Crc32Byte(crc, data[0]), data[1..])
  }

  /** CRC-32/ISO-HDLC, chained from crc. */
  function Crc32(crc: bv32, data: Bytes): bv32 {
    Crc32Over(crc ^ 0xFFFF_FFFF, data) ^ 0xFFFF_FFFF
  }

  function Check(data: Bytes): (n: nat)
    ensures n < Pow256(4)
  {
    var n := Crc32(0, data) as nat;
    assert n < 0x1_0000_0000;
    Pow256Four();
    n
  }

  lemma Pow256Four()
    ensures Pow256(4) == 0x1_0000_0000
  {
    assert Pow256(2) == 0x1_0000;
    assert Pow256(4) == 256 * (256 * Pow256(2));
  }

  // ----- writing

  function Head(c: Chunk): (s: Bytes)
    ensures |s| == CHUNK_HEAD
  {
    LeBytes(c.kind, 1) + LeBytes(c.flags, 1) + LeBytes(c.channel, 2) + LeBytes(|c.payload|, 4) + LeBytes(c.time, 8)
  }

  function Encode(c: Chunk): (s: Bytes)
    ensures |s| == CHUNK_HEAD + |c.payload| + CHUNK_CRC
  {
    var body := Head(c) + c.payload;
    body + LeBytes(Check(body), 4)
  }

  function EncodeAll(cs: seq<Chunk>): Bytes {
    if cs == [] then [] else Encode(cs[0]) + EncodeAll(cs[1..])
  }

  // ----- reading

  /** At the end of the file, or inside a chunk, reading can go on once the file has grown. */
  datatype State = Reading | Ended | AtEnd | Cut | BadCrc

  datatype Reader = Reader(state: State, offset: nat)

  /** A chunk and where in the file it starts. */
  datatype Found = Found(chunk: Chunk, offset: nat)

  function Rest(file: Bytes, offset: nat): Bytes {
    if offset <= |file| then file[offset..] else []
  }

  /** The payload's length in a chunk's head. */
  function Length(rest: Bytes): nat
    requires |rest| >= CHUNK_HEAD
  {
    LeValue(rest[4..8])
  }

  predicate Checks(rest: Bytes, len: nat)
    requires |rest| >= CHUNK_HEAD + len + CHUNK_CRC
  {
    LeValue(rest[CHUNK_HEAD + len..CHUNK_HEAD + len + CHUNK_CRC]) == Check(rest[..CHUNK_HEAD + len])
  }

  function Decode(rest: Bytes, len: nat): Chunk
    requires |rest| >= CHUNK_HEAD + len
  {
    Chunk(rest[0], rest[1], LeValue(rest[2..4]), LeValue(rest[8..16]), rest[CHUNK_HEAD..CHUNK_HEAD + len])
  }

  /** What the bytes from a chunk's start on are. */
  datatype Look = Whole(chunk: Chunk) | Nothing(state: State)

  function LookAt(rest: Bytes): Look {
    if |rest| < CHUNK_HEAD then Nothing(if rest == [] then AtEnd else Cut)
    else
      var len := Length(rest);
      if len > PAYLOAD_MAX then Nothing(BadCrc)
      else if |rest| < CHUNK_HEAD + len + CHUNK_CRC then Nothing(Cut)
      else if !Checks(rest, len) then Nothing(BadCrc)
      else Whole(Decode(rest, len))
  }

  /** Where a look from its offset leaves a reader; the END chunk is not handed out. */
  function After(look: Look, offset: nat): (Reader, Option<Found>) {
    match look
    case Nothing(state) => (Reader(state, offset), None)
    case Whole(c) =>
      var after := offset + CHUNK_HEAD + |c.payload| + CHUNK_CRC;
      if c.kind == END then (Reader(Ended, after), None) else (Reader(Reading, after), Some(Found(c, offset)))
  }

  /** The next chunk, if there is a whole one that checks. */
  function Next(file: Bytes, r: Reader): (Reader, Option<Found>) {
    if r.state != Reading then (r, None) else After(LookAt(Rest(file, r.offset)), r.offset)
  }

  function Resume(r: Reader): Reader {
    if r.state == AtEnd || r.state == Cut then r.(state := Reading) else r
  }

  lemma NextMoves(file: Bytes, r: Reader)
    requires Next(file, r).1.Some?
    ensures r.offset < Next(file, r).0.offset <= |file|
  {
  }

  /** Reads until there is no next chunk. */
  function ReadAll(file: Bytes, r: Reader): (Reader, seq<Found>)
    decreases |file| - r.offset
  {
    var (t, found) := Next(file, r);
    if found.None? then (t, [])
    else
      NextMoves(file, r);
      var (u, more) := ReadAll(file, t);
      (u, [found.value] + more)
  }

  // ----- following a file that is being written

  /** More of the file does not change what a whole chunk, or a bad one, is. */
  lemma LookLonger(rest: Bytes, more: Bytes)
    ensures (LookAt(rest).Whole? || LookAt(rest).state == BadCrc) ==> LookAt(rest + more) == LookAt(rest)
  {
    if |rest| >= CHUNK_HEAD {
      var len := Length(rest);
      assert (rest + more)[4..8] == rest[4..8];
      if len <= PAYLOAD_MAX && |rest| >= CHUNK_HEAD + len + CHUNK_CRC {
        var all := rest + more;
        assert all[..CHUNK_HEAD + len] == rest[..CHUNK_HEAD + len];
        assert all[CHUNK_HEAD + len..CHUNK_HEAD + len + CHUNK_CRC] == rest[CHUNK_HEAD + len..CHUNK_HEAD + len + CHUNK_CRC];
        assert all[2..4] == rest[2..4] && all[8..16] == rest[8..16];
        assert all[CHUNK_HEAD..CHUNK_HEAD + len] == rest[CHUNK_HEAD..CHUNK_HEAD + len];
      }
    }
  }

  lemma RestGrows(file: Bytes, more: Bytes, offset: nat)
    requires offset <= |file|
    ensures Rest(file + more, offset) == Rest(file, offset) + more
  {
  }

  lemma LookStates(rest: Bytes)
    ensures LookAt(rest).Nothing? ==> LookAt(rest).state in {AtEnd, Cut, BadCrc}
  {
  }

  /** Reading on after the file grew is as reading the grown file at once. */
  lemma {:induction false} ResumeIsOneRead(file: Bytes, more: Bytes, r: Reader)
    requires r.offset <= |file| && Resume(r) == r
    ensures
      var (t, found) := ReadAll(file, r);
      var (u, later) := ReadAll(file + more, Resume(t));
      t.offset <= |file| && ReadAll(file + more, r) == (u, found + later)
    decreases |file| - r.offset
  {
    hide Next;
    var (t, found) := Next(file, r);
    NextLonger(file, more, r);
    ReadStep(file, r);
    ReadStep(file + more, r);
    if found.Some? {
      ResumeIsOneRead(file, more, t);
      hide ReadAll, Resume;
      var (v, found2) := ReadAll(file, t);
      var (u, later) := ReadAll(file + more, Resume(v));
      assert [found.value] + (found2 + later) == [found.value] + found2 + later;
    } else {
      ReadStep(file + more, t);
      NextStopped(file + more, t);
      hide ReadAll;
      var (u, later) := ReadAll(file + more, Resume(t));
      assert [] + later == later;
    }
  }

  lemma NextStopped(file: Bytes, r: Reader)
    requires r.state != Reading
    ensures Next(file, r) == (r, None)
  {
  }

  lemma ReadStep(file: Bytes, r: Reader)
    ensures
      var (t, found) := Next(file, r);
      ReadAll(file, r) == if found.None? then (t, []) else (ReadAll(file, t).0, [found.value] + ReadAll(file, t).1)
  {
    hide Next;
    if Next(file, r).1.Some? {
      NextMoves(file, r);
    }
  }

  /** A next chunk stays the next chunk; where there was none, a resumed reader looks again. */
  lemma NextLonger(file: Bytes, more: Bytes, r: Reader)
    requires r.offset <= |file| && Resume(r) == r
    ensures
      var (t, found) := Next(file, r);
      && t.offset <= |file| && (found.None? ==> t.state != Reading)
      && (found.Some? ==> Next(file + more, r) == (t, found) && Resume(t) == t && r.offset < t.offset)
      && (found.None? ==> Resume(t) == r || (Next(file + more, r) == (t, found) && Resume(t) == t && t.state != Reading))
  {
    var rest := Rest(file, r.offset);
    LookLonger(rest, more);
    LookStates(rest);
    RestGrows(file, more, r.offset);
    LookFits(rest);
    hide LookAt;
  }

  lemma LookFits(rest: Bytes)
    ensures LookAt(rest).Whole? ==> CHUNK_HEAD + |LookAt(rest).chunk.payload| + CHUNK_CRC <= |rest|
  {
  }

  /** The file as it is at each of a series of readings, each longer than the last. */
  predicate Growing(files: seq<Bytes>) {
    forall i :: 0 < i < |files| ==> files[i - 1] <= files[i]
  }

  function Follow(files: seq<Bytes>, r: Reader): (Reader, seq<Found>)
    decreases |files|
  {
    if files == [] then (r, [])
    else
      var (t, found) := ReadAll(files[0], Resume(r));
      var (u, later) := Follow(files[1..], t);
      (u, found + later)
  }

  /**
   * Follow safety: reading with resumes over any series of growing files, whatever their
   * bytes, gives the same chunks at the same offsets as one read of the last of them.
   */
  lemma {:induction false} FollowIsOneRead(files: seq<Bytes>, r: Reader)
    requires Growing(files) && files != [] && r.offset <= |files[0]|
    ensures Follow(files, r) == ReadAll(files[|files| - 1], Resume(r))
    decreases |files|
  {
    var (t, found) := ReadAll(files[0], Resume(r));
    if |files| == 1 {
      assert Follow(files[1..], t) == (t, []);
      assert found + [] == found;
    } else {
      var last := files[|files| - 1];
      GrowingTo(files, |files| - 1);
      var more := last[|files[0]|..];
      assert last == files[0] + more;
      ResumeIsOneRead(files[0], more, Resume(r));
      assert files[0] <= files[1];
      FollowIsOneRead(files[1..], t);
    }
  }

  lemma {:induction false} GrowingTo(files: seq<Bytes>, k: nat)
    requires Growing(files) && k < |files|
    ensures files[0] <= files[k]
  {
    if k > 0 {
      GrowingTo(files, k - 1);
      assert files[k - 1] <= files[k];
    }
  }

  // ----- reading what was written

  /** What the writer puts in a file: only its last chunk may be an END, which a footer follows. */
  predicate Writes(cs: seq<Chunk>, footer: Bytes) {
    && (forall c :: c in cs ==> Fits(c))
    && (forall i :: 0 <= i < |cs| - 1 ==> cs[i].kind != END)
    && (footer != [] ==> cs != [] && cs[|cs| - 1].kind == END)
  }

  /** How many chunks lie wholly in the first n bytes after the header. */
  function Within(cs: seq<Chunk>, n: int): (k: nat)
    ensures k <= |cs|
  {
    if cs == [] || |Encode(cs[0])| > n then 0 else 1 + Within(cs[1..], n - |Encode(cs[0])|)
  }

  /** They are the most that fit. */
  lemma {:induction false} WithinIs(cs: seq<Chunk>, n: nat)
    ensures
      var k := Within(cs, n);
      |EncodeAll(cs[..k])| <= n && (k < |cs| ==> |EncodeAll(cs[..k + 1])| > n)
  {
    hide Encode;
    if cs == [] || |Encode(cs[0])| > n {
      assert cs != [] ==> cs[..1][1..] == [] && cs[..1][0] == cs[0];
    } else {
      var k := Within(cs, n);
      WithinIs(cs[1..], n - |Encode(cs[0])|);
      assert cs[..k][1..] == cs[1..][..k - 1];
      assert k < |cs| ==> cs[..k + 1][1..] == cs[1..][..k];
    }
  }

  /** Chunks and where they start, from an offset on; an END chunk is not handed out. */
  function Placed(cs: seq<Chunk>, offset: nat): seq<Found> {
    if cs == [] || cs[0].kind == END then []
    else [Found(cs[0], offset)] + Placed(cs[1..], offset + |Encode(cs[0])|)
  }

  /** Where a reader stops that has all of cs within reach, and rest bytes after them. */
  function StopsAt(cs: seq<Chunk>, rest: int): State {
    if cs != [] && cs[|cs| - 1].kind == END then Ended else if rest == 0 then AtEnd else Cut
  }

  lemma ByteLe(b: Byte)
    ensures LeBytes(b, 1) == [b]
  {
    assert LeBytes(b / 256, 0) == [];
  }

  lemma HeadParts(c: Chunk)
    requires Fits(c)
    ensures
      var h := Head(c);
      && h[0] == c.kind && h[1] == c.flags && LeValue(h[2..4]) == c.channel
      && LeValue(h[4..8]) == |c.payload| && LeValue(h[8..16]) == c.time
  {
    var h := Head(c);
    ByteLe(c.kind);
    ByteLe(c.flags);
    Pow256Four();
    LeRoundTrip(c.channel, 2);
    LeRoundTrip(|c.payload|, 4);
    LeRoundTrip(c.time, 8);
    hide LeValue, LeBytes, Pow256;
    assert h[2..4] == LeBytes(c.channel, 2) && h[4..8] == LeBytes(|c.payload|, 4) && h[8..16] == LeBytes(c.time, 8);
  }

  lemma EncodeHead(c: Chunk)
    ensures Encode(c)[..CHUNK_HEAD] == Head(c)
  {
    hide LeBytes, Check, Head;
  }

  lemma AllFirst(cs: seq<Chunk>, footer: Bytes)
    requires cs != []
    ensures EncodeAll(cs) + footer == Encode(cs[0]) + (EncodeAll(cs[1..]) + footer)
  {
    hide Encode;
  }

  /** A written chunk reads back, whatever follows it. */
  lemma WholeReads(c: Chunk, more: Bytes)
    requires Fits(c)
    ensures LookAt(Encode(c) + more) == Whole(c)
  {
    HeadParts(c);
    var body := Head(c) + c.payload;
    var rest := Encode(c) + more;
    LeRoundTrip(Check(body), 4);
    hide LeValue, LeBytes, Check, Head, Pow256;
    var len: nat := |c.payload|;
    assert rest[4..8] == Head(c)[4..8] && rest[2..4] == Head(c)[2..4] && rest[8..16] == Head(c)[8..16];
    assert rest[..CHUNK_HEAD + len] == body;
    assert rest[CHUNK_HEAD + len..CHUNK_HEAD + len + CHUNK_CRC] == LeBytes(Check(body), 4);
    assert rest[CHUNK_HEAD..CHUNK_HEAD + len] == c.payload;
  }

  /** Part of a written chunk reads as the end of the file, or as a chunk cut short. */
  lemma PartReads(c: Chunk, n: nat)
    requires Fits(c) && n < |Encode(c)|
    ensures LookAt(Encode(c)[..n]) == Nothing(if n == 0 then AtEnd else Cut)
  {
    var rest := Encode(c)[..n];
    if n >= CHUNK_HEAD {
      HeadParts(c);
      EncodeHead(c);
      hide LeValue, LeBytes, Check, Head, Pow256, Encode;
      assert rest[4..8] == Encode(c)[..CHUNK_HEAD][4..8];
    }
  }

  /** What lies wholly in the file is read, and nothing else. */
  lemma {:induction false} ReadsWithin(before: Bytes, cs: seq<Chunk>, footer: Bytes, n: nat)
    requires Writes(cs, footer) && n <= |EncodeAll(cs) + footer|
    ensures
      var file := before + (EncodeAll(cs) + footer)[..n];
      var k := Within(cs, n);
      var (t, found) := ReadAll(file, Reader(Reading, |before|));
      && found == Placed(cs[..k], |before|)
      && t.state == StopsAt(cs[..k], n - |EncodeAll(cs[..k])|)
    decreases |cs|, 1
  {
    var all := EncodeAll(cs) + footer;
    var file := before + all[..n];
    var r := Reader(Reading, |before|);
    assert Rest(file, |before|) == all[..n];
    var k := Within(cs, n);
    if cs == [] {
      assert all[..n] == [] && cs[..k] == [];
    } else if n < |Encode(cs[0])| {
      assert all[..n] == Encode(cs[0])[..n];
      PartReads(cs[0], n);
      assert cs[..k] == [];
    } else {
      FirstReads(before, cs, footer, n);
    }
  }

  lemma FirstReads(before: Bytes, cs: seq<Chunk>, footer: Bytes, n: nat)
    requires Writes(cs, footer) && n <= |EncodeAll(cs) + footer| && cs != [] && n >= |Encode(cs[0])|
    ensures
      var file := before + (EncodeAll(cs) + footer)[..n];
      var k := Within(cs, n);
      var (t, found) := ReadAll(file, Reader(Reading, |before|));
      && found == Placed(cs[..k], |before|)
      && t.state == StopsAt(cs[..k], n - |EncodeAll(cs[..k])|)
    decreases |cs|, 0
  {
    hide *;
    var c, e := cs[0], Encode(cs[0]);
    var k, m := Within(cs, n), n - |e|;
    var file := before + (EncodeAll(cs) + footer)[..n];
    WritesFirst(cs, footer, n);
    FileFrom(before, cs, footer, n);
    FirstNext(before, cs, footer, n);
    ReadStep(file, Reader(Reading, |before|));
    TakeFirst(cs, k);
    EncodedFirst(cs[..k]);
    PlacedFirst(cs[..k], |before|, n);
    if c.kind == END {
      NextStopped(file, Reader(Ended, |before| + |e|));
    } else {
      ReadsWithin(before + e, cs[1..], footer, m);
    }
  }

  lemma FirstNext(before: Bytes, cs: seq<Chunk>, footer: Bytes, n: nat)
    requires Writes(cs, footer) && n <= |EncodeAll(cs) + footer| && cs != [] && n >= |Encode(cs[0])|
    ensures
      var file := before + (EncodeAll(cs) + footer)[..n];
      var after := |before| + |Encode(cs[0])|;
      Next(file, Reader(Reading, |before|))
      == if cs[0].kind == END then (Reader(Ended, after), None) else (Reader(Reading, after), Some(Found(cs[0], |before|)))
  {
    hide *;
    FirstFits(cs, footer);
    FileFrom(before, cs, footer, n);
    WholeReads(cs[0], (EncodeAll(cs[1..]) + footer)[..n - |Encode(cs[0])|]);
    NextWhole(before + (EncodeAll(cs) + footer)[..n], |before|, cs[0]);
  }

  lemma NextWhole(file: Bytes, offset: nat, c: Chunk)
    requires LookAt(Rest(file, offset)) == Whole(c)
    ensures
      var after := offset + CHUNK_HEAD + |c.payload| + CHUNK_CRC;
      Next(file, Reader(Reading, offset))
      == if c.kind == END then (Reader(Ended, after), None) else (Reader(Reading, after), Some(Found(c, offset)))
  {
    hide LookAt, Rest;
  }

  lemma FirstFits(cs: seq<Chunk>, footer: Bytes)
    requires Writes(cs, footer) && cs != []
    ensures Fits(cs[0])
  {
    assert cs[0] in cs;
  }

  lemma WritesFirst(cs: seq<Chunk>, footer: Bytes, n: nat)
    requires Writes(cs, footer) && cs != [] && n >= |Encode(cs[0])|
    ensures 1 <= Within(cs, n) <= |cs|
    ensures cs[0].kind == END ==> |cs| == 1
    ensures cs[0].kind != END ==> Within(cs, n) - 1 == Within(cs[1..], n - |Encode(cs[0])|) && Writes(cs[1..], footer)
  {
    hide Encode;
    if cs[0].kind != END {
      WritesRest(cs, footer);
    }
  }

  lemma WritesRest(cs: seq<Chunk>, footer: Bytes)
    requires Writes(cs, footer) && cs != [] && cs[0].kind != END
    ensures Writes(cs[1..], footer)
  {
  }

  lemma TakeFirst(cs: seq<Chunk>, k: nat)
    requires 1 <= k <= |cs|
    ensures cs[..k][0] == cs[0] && cs[..k][1..] == cs[1..][..k - 1]
  {
  }

  lemma PlacedFirst(cs: seq<Chunk>, offset: nat, n: int)
    requires cs != []
    ensures cs[0].kind == END ==> Placed(cs, offset) == [] && (|cs| == 1 ==> StopsAt(cs, n - |EncodeAll(cs)|) == Ended)
    ensures cs[0].kind != END ==> Placed(cs, offset) == [Found(cs[0], offset)] + Placed(cs[1..], offset + |Encode(cs[0])|)
    ensures cs[0].kind != END ==>
      StopsAt(cs, n - |EncodeAll(cs)|) == StopsAt(cs[1..], n - |Encode(cs[0])| - |EncodeAll(cs[1..])|)
  {
    hide Encode;
    if |cs| > 1 {
      assert cs[1..][|cs| - 2] == cs[|cs| - 1];
    }
  }

  lemma EncodedFirst(cs: seq<Chunk>)
    requires cs != []
    ensures EncodeAll(cs) == Encode(cs[0]) + EncodeAll(cs[1..])
  {
  }

  lemma CutAfter(before: Bytes, e: Bytes, rest: Bytes, n: nat)
    requires |e| <= n <= |e + rest|
    ensures
      var file := before + (e + rest)[..n];
      file == (before + e) + rest[..n - |e|] && Rest(file, |before|) == e + rest[..n - |e|]
  {
    assert (e + rest)[..n] == e + rest[..n - |e|];
    var tail := e + rest[..n - |e|];
    assert (before + tail)[|before|..] == tail;
  }

  /** A file of chunks from its first chunk on. */
  lemma FileFrom(before: Bytes, cs: seq<Chunk>, footer: Bytes, n: nat)
    requires n <= |EncodeAll(cs) + footer| && cs != [] && n >= |Encode(cs[0])|
    ensures
      var e := Encode(cs[0]);
      var rest := EncodeAll(cs[1..]) + footer;
      var file := before + (EncodeAll(cs) + footer)[..n];
      && n - |e| <= |rest| && file == (before + e) + rest[..n - |e|] && Rest(file, |before|) == e + rest[..n - |e|]
  {
    var e := Encode(cs[0]);
    var rest := EncodeAll(cs[1..]) + footer;
    AllFirst(cs, footer);
    hide EncodeAll, Encode;
    CutAfter(before, e, rest, n);
  }
}
