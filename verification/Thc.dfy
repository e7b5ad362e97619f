/** The capture file as it runs: a buffer chunks are appended to, and a reader of a file. */
module Thc {
  import opened Numbers
  import opened ThcFile

  method CrcByte(start: bv32, data: Byte) returns (crc: bv32)
    ensures crc == Crc32Byte(start, data)
  {
    var x := start ^ (data as bv32);
    crc := x;
    for b := 0 to 8
      invariant Crc32Bits(x, 8) == Crc32Bits(crc, 8 - b)
    {
      crc := if crc & 1 != 0 then (crc >> 1) ^ CRC32_POLY else crc >> 1;
    }
  }

  method Crc32Loop(start: bv32, data: Bytes) returns (crc: bv32)
    ensures crc == Crc32Over(start, data)
  {
    hide Crc32Byte;
    crc := start;
    for i := 0 to |data|
      invariant Crc32Over(start, data) == Crc32Over(crc, data[i..])
    {
      assert data[i..][1..] == data[i + 1..];
      crc := CrcByte(crc, data[i]);
    }
  }

  /** The check of a chunk: its bytes before it. */
  method ComputeCrc32(data: Bytes) returns (n: nat)
    ensures n == Check(data)
  {
    hide Crc32Over, Pow256;
    var crc := Crc32Loop(0 ^ 0xFFFF_FFFF, data);
    n := (crc ^ 0xFFFF_FFFF) as nat;
  }

  lemma HeadIs(c: Chunk)
    ensures Head(c) == LeBytes(c.kind, 1) + LeBytes(c.flags, 1) + LeBytes(c.channel, 2) + LeBytes(|c.payload|, 4) + LeBytes(c.time, 8)
  {
  }

  lemma EncodeIs(c: Chunk)
    ensures Encode(c) == Head(c) + c.payload + LeBytes(Check(Head(c) + c.payload), 4)
  {
  }

  class Buffer {
    var data: Bytes

    constructor ()
      ensures data == []
    {
      data := [];
    }

    /** v as n bytes, little endian. */
    method PutLe(v: nat, n: nat)
      modifies this
      ensures data == old(data) + LeBytes(v, n)
    {
      var left, i := v, 0;
      assert data + LeBytes(v, n) == data + [] + LeBytes(left, n - i);
      while i < n
        invariant 0 <= i <= n
        invariant old(data) + LeBytes(v, n) == data + LeBytes(left, n - i)
      {
        assert data + ([left % 256] + LeBytes(left / 256, n - i - 1)) == data + [left % 256] + LeBytes(left / 256, n - i - 1);
        data := data + [left % 256];
        left, i := left / 256, i + 1;
      }
      assert data + [] == data;
    }

    method PutHead(c: Chunk)
      modifies this
      ensures data == old(data) + Head(c)
    {
      ghost var was := data;
      HeadIs(c);
      hide LeBytes, Head;
      PutLe(c.kind, 1);
      PutLe(c.flags, 1);
      assert data == was + (LeBytes(c.kind, 1) + LeBytes(c.flags, 1));
      PutLe(c.channel, 2);
      assert data == was + (LeBytes(c.kind, 1) + LeBytes(c.flags, 1) + LeBytes(c.channel, 2));
      PutLe(|c.payload|, 4);
      assert data == was + (LeBytes(c.kind, 1) + LeBytes(c.flags, 1) + LeBytes(c.channel, 2) + LeBytes(|c.payload|, 4));
      PutLe(c.time, 8);
    }

    /** Appends a chunk; one whose payload is too long is refused. */
    method ChunkPut(c: Chunk) returns (ok: bool)
      modifies this
      ensures ok == (|c.payload| <= PAYLOAD_MAX)
      ensures data == if ok then old(data) + Encode(c) else old(data)
    {
      ok := |c.payload| <= PAYLOAD_MAX;
      if ok {
        var was := data;
        hide LeBytes, Check, Head, Encode;
        PutHead(c);
        data := data + c.payload;
        var body := data[|was|..];
        assert body == Head(c) + c.payload;
        var crc := ComputeCrc32(body);
        EncodeIs(c);
        PutLe(crc, 4);
      }
    }
  }

  /** Reads a file, which is handed to each call as it is then. */
  class FileReader {
    var state: State
    var offset: nat

    function View(): Reader
      reads this
    {
      Reader(state, offset)
    }

    constructor (headerLength: nat)
      ensures View() == Reader(Reading, headerLength)
    {
      state, offset := Reading, headerLength;
    }

    method Get(file: Bytes, at: nat, n: nat) returns (v: nat)
      requires at + n <= |file|
      ensures v == LeValue(file[at..at + n])
    {
      v := 0;
      var i: nat := n;
      assert file[at + n..at + n] == [];
      while i > 0
        invariant 0 <= i <= n && v == LeValue(file[at + i..at + n])
      {
        i := i - 1;
        assert file[at + i..at + n][1..] == file[at + i + 1..at + n];
        v := file[at + i] + 256 * v;
      }
    }

    /** What lies at the reader's offset. */
    method LookAhead(rest: Bytes) returns (look: Look)
      ensures look == LookAt(rest)
    {
      hide Check, LeValue;
      if |rest| < CHUNK_HEAD {
        return Nothing(if rest == [] then AtEnd else Cut);
      }
      var len := Get(rest, 4, 4);
      if len > PAYLOAD_MAX {
        return Nothing(BadCrc);
      }
      if |rest| < CHUNK_HEAD + len + CHUNK_CRC {
        return Nothing(Cut);
      }
      var stored := Get(rest, CHUNK_HEAD + len, CHUNK_CRC);
      var crc := ComputeCrc32(rest[..CHUNK_HEAD + len]);
      if stored != crc {
        return Nothing(BadCrc);
      }
      var channel := Get(rest, 2, 2);
      var time := Get(rest, 8, 8);
      look := Whole(Chunk(rest[0], rest[1], channel, time, rest[CHUNK_HEAD..CHUNK_HEAD + len]));
    }

    /** The next chunk in file order; None at the end, which the state tells the kind of. */
    method NextChunk(file: Bytes) returns (c: Option<Found>)
      modifies this
      ensures (View(), c) == Next(file, old(View()))
    {
      hide LookAt;
      c := None;
      if state == Reading {
        var look := LookAhead(if offset <= |file| then file[offset..] else []);
        if look.Nothing? {
          state := look.state;
        } else {
          var at := offset;
          offset := offset + CHUNK_HEAD + |look.chunk.payload| + CHUNK_CRC;
          if look.chunk.kind == END {
            state := Ended;
          } else {
            c := Some(Found(look.chunk, at));
          }
        }
      }
    }

    /** Goes on where reading stopped at the end of the file, or inside a chunk. */
    method ResumeReading() returns (ok: bool)
      modifies this`state
      ensures View() == Resume(old(View())) && ok == (old(state) == AtEnd || old(state) == Cut)
    {
      ok := state == AtEnd || state == Cut;
      if ok {
        state := Reading;
      }
    }
  }
}
