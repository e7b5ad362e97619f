/**
 * A capture's mapping: the enabled channels in order, the block of them each data channel
 * carries, and how wide its records are.
 */
module CaptureInfo {
  import opened Numbers
  import opened WireFormat

  /** channel is in the set: bit channel of a channel set. */
  type ChannelSet = seq<bool>

  datatype Info = Info(c: nat, n: nat, dataChannels: nat, enabled: seq<nat>, block: seq<nat>,
                       tag: seq<nat>, width: seq<nat>)

  // ----- tags and widths

  /** The least t with 2^t at least b: a tag of t bits can name every channel of the block. */
  method TagBits(b: nat) returns (t: nat)
    ensures b <= Pow2(t)
    ensures t > 0 ==> Pow2(t - 1) < b
  {
    t := 0;
    var p: nat := 1;
    while p < b
      invariant p == Pow2(t)
      invariant t > 0 ==> Pow2(t - 1) < b
      decreases b - p
    {
      t := t + 1;
      p := 2 * p;
    }
  }

  /**
   * The fewest bytes that hold (2C + 1) * 2^t - 1. The code stops at 8 bytes; for a 32-bit C
   * and the tags of up to 65535 channels that stop is never reached.
   */
  method RecordWidth(c: nat, t: nat) returns (width: nat)
    requires c < 0x1_0000_0000 && t <= 16
    ensures 1 <= width < 8
    ensures (2 * c + 1) * Pow2(t) <= Pow256(width)
    ensures width > 1 ==> Pow256(width - 1) < (2 * c + 1) * Pow2(t)
  {
    var top := (2 * c + 1) * Pow2(t);
    TopFits(c, t);
    SevenBytes();
    width := 1;
    var limit: nat := 256;
    assert Pow256(1) == 256 * Pow256(0) == 256;
    while width < 8 && top > limit
      invariant 1 <= width < 8 && limit == Pow256(width)
      invariant width > 1 ==> Pow256(width - 1) < top
      decreases 8 - width
    {
      width := width + 1;
      limit := 256 * limit;
    }
  }

  lemma SevenBytes()
    ensures Pow256(7) == 0x100_0000_0000_0000
  {
    assert Pow256(1) == 256 * Pow256(0);
    assert Pow256(2) == 256 * Pow256(1);
    assert Pow256(3) == 256 * Pow256(2);
    assert Pow256(4) == 256 * Pow256(3);
    assert Pow256(5) == 256 * Pow256(4);
    assert Pow256(6) == 256 * Pow256(5);
  }

  lemma Pow2Of16()
    ensures Pow2(16) == 65536
  {
    assert Pow2(4) == 16;
    assert Pow2(8) == 16 * Pow2(4);
    assert Pow2(12) == 16 * Pow2(8);
    assert Pow2(16) == 16 * Pow2(12);
  }

  lemma TopFits(c: nat, t: nat)
    requires c < 0x1_0000_0000 && t <= 16
    ensures (2 * c + 1) * Pow2(t) < 0x100_0000_0000_0000
  {
    Pow2Positive(t, 16);
    Pow2Of16();
    MulMonotone(2 * c + 1, 0x2_0000_0000, Pow2(t));
    assert 0x2_0000_0000 * Pow2(t) <= 0x2_0000_0000 * 65536;
  }

  // ----- blocks

  /** The channels of a set below upto, in ascending order. */
  function Members(s: ChannelSet, upto: nat): (m: seq<nat>)
    requires upto <= |s|
    ensures |m| <= upto
    ensures forall i :: 0 <= i < |m| ==> m[i] < upto && s[m[i]]
  {
    if upto == 0 then [] else Members(s, upto - 1) + if s[upto - 1] then [upto - 1] else []
  }

  lemma {:induction false} MembersAscend(s: ChannelSet, upto: nat)
    requires upto <= |s|
    ensures forall i, j :: 0 <= i < j < |Members(s, upto)| ==> Members(s, upto)[i] < Members(s, upto)[j]
  {
    if upto > 0 {
      MembersAscend(s, upto - 1);
    }
  }

  /** The members below a are the first of the members below b. */
  lemma {:induction false} MembersPrefix(s: ChannelSet, a: nat, b: nat)
    requires a <= b <= |s|
    ensures |Members(s, a)| <= |Members(s, b)| && Members(s, a) == Members(s, b)[..|Members(s, a)|]
    ensures forall i :: |Members(s, a)| <= i < |Members(s, b)| ==> a <= Members(s, b)[i]
    decreases b
  {
    if a < b {
      MembersPrefix(s, a, b - 1);
    }
  }

  /** Where data channel d's block starts without splits: sizes differ by at most one. */
  function EvenStart(n: nat, d: nat, parts: nat): nat
    requires parts > 0
  {
    d * (n / parts) + Min(d, n % parts)
  }

  /**
   * Block d holds the enabled channels from split d - 1 up to before split d, where a split
   * that is not there stands for one past all channels; without any the sizes are even.
   */
  ghost predicate BlocksFollow(enabledSet: ChannelSet, splitSet: ChannelSet, parts: nat, block: seq<nat>)
    requires |splitSet| == |enabledSet| && parts > 0
  {
    var n := |Members(enabledSet, |enabledSet|)|;
    var splits := Members(splitSet, |splitSet|);
    && |block| == parts + 1
    && block[parts] == n
    && forall d :: 0 <= d < parts ==>
         block[d] ==
         if splits == [] then EvenStart(n, d, parts)
         else if d == 0 then 0
         else if d <= |splits| then |Members(enabledSet, splits[d - 1])|
         else n
  }

  function ConfigOf(info: Info, d: nat): Config
    requires d + 1 < |info.block| && d < |info.tag| && d < |info.width|
    requires info.block[d] <= info.block[d + 1]
  {
    Config(info.c, info.n, info.block[d], info.block[d + 1] - info.block[d], info.enabled, info.tag[d], info.width[d])
  }

  /** The blocks tile the enabled channels. */
  predicate Tiles(block: seq<nat>, n: nat) {
    && block != [] && block[0] == 0 && block[|block| - 1] == n
    && forall d :: 0 <= d < |block| - 1 ==> block[d] <= block[d + 1]
  }

  predicate Mapped(info: Info) {
    && |info.block| == info.dataChannels + 1
    && |info.tag| == |info.width| == info.dataChannels
    && Tiles(info.block, info.n)
    && forall d :: 0 <= d < info.dataChannels ==> ConfigOf(info, d).Sound()
  }

  lemma EvenTiles(n: nat, parts: nat, d: nat)
    requires parts > 0 && d < parts
    ensures EvenStart(n, d, parts) + n / parts + (if d < n % parts then 1 else 0) == EvenStart(n, d + 1, parts)
    ensures EvenStart(n, 0, parts) == 0
    ensures EvenStart(n, parts, parts) == n
  {
    var q := n / parts;
    assert (d + 1) * q == d * q + q;
    assert n == parts * q + n % parts;
  }

  lemma EvenGrows(n: nat, parts: nat, d: nat)
    requires parts > 0 && d < parts
    ensures EvenStart(n, d, parts) <= EvenStart(n, d + 1, parts)
  {
    MulMonotone(d, d + 1, n / parts);
  }

  /** The blocks that follow the rule tile the enabled channels. */
  lemma FollowingTiles(enabledSet: ChannelSet, splitSet: ChannelSet, parts: nat, block: seq<nat>)
    requires |splitSet| == |enabledSet| && parts > 0
    requires |Members(splitSet, |splitSet|)| <= parts - 1
    requires BlocksFollow(enabledSet, splitSet, parts, block)
    ensures Tiles(block, |Members(enabledSet, |enabledSet|)|)
  {
    hide EvenStart, Members;
    var n := |Members(enabledSet, |enabledSet|)|;
    EvenTiles(n, parts, 0);
    forall d | 0 <= d < parts
      ensures block[d] <= block[d + 1]
    {
      if |Members(splitSet, |splitSet|)| == 0 {
        assert block[d] == EvenStart(n, d, parts) && block[d + 1] == EvenStart(n, d + 1, parts) by {
          EvenTiles(n, parts, d);
        }
        EvenTiles(n, parts, d);
        EvenGrows(n, parts, d);
      } else {
        SplitsAscend(enabledSet, splitSet, parts, block, d);
      }
    }
  }

  lemma SplitsAscend(enabledSet: ChannelSet, splitSet: ChannelSet, parts: nat, block: seq<nat>, d: nat)
    requires |splitSet| == |enabledSet| && d < parts
    requires 0 < |Members(splitSet, |splitSet|)| <= parts - 1
    requires BlocksFollow(enabledSet, splitSet, parts, block)
    ensures block[d] <= block[d + 1]
  {
    hide EvenStart;
    var splits := Members(splitSet, |splitSet|);
    if 0 < d <= |splits| {
      MembersPrefix(enabledSet, splits[d - 1], |enabledSet|);
      if d < |splits| {
        MembersAscend(splitSet, |splitSet|);
        MembersPrefix(enabledSet, splits[d - 1], splits[d]);
      }
    }
  }

  /** The mapping; None for more splits than data channels allow. */
  method Mapping(c: nat, enabledSet: ChannelSet, splitSet: ChannelSet, parts: nat) returns (r: Option<Info>)
    requires |enabledSet| == |splitSet| < 65536 && 0 < parts && c < 0x1_0000_0000
    ensures r.None? <==> |Members(splitSet, |splitSet|)| > parts - 1
    ensures r.Some? ==>
      && r.value.c == c && r.value.dataChannels == parts
      && r.value.enabled == Members(enabledSet, |enabledSet|)
      && BlocksFollow(enabledSet, splitSet, parts, r.value.block)
      && Mapped(r.value)
  {
    var enabled, splits := [], 0;
    for ch := 0 to |enabledSet|
      invariant enabled == Members(enabledSet, ch) && splits == |Members(splitSet, ch)|
    {
      if enabledSet[ch] {
        enabled := enabled + [ch];
      }
      if splitSet[ch] {
        splits := splits + 1;
      }
    }
    if splits > parts - 1 {
      return None;
    }
    var n := |enabled|;
    var block;
    if splits == 0 {
      block := EvenBlocks(n, parts);
      EvenTiles(n, parts, 0);
    } else {
      block := SplitBlocks(enabledSet, splitSet, parts, enabled);
    }
    FollowingTiles(enabledSet, splitSet, parts, block);
    MembersAscend(enabledSet, |enabledSet|);
    var tag, width := TagsAndWidths(c, n, parts, enabled, block);
    var info := Info(c, n, parts, enabled, block, tag, width);
    forall d | 0 <= d < parts
      ensures ConfigOf(info, d).Sound()
    {
      assert SoundAt(c, n, block[d], block[d + 1], enabled, tag[d], width[d]);
    }
    return Some(info);
  }

  method TagsAndWidths(c: nat, n: nat, parts: nat, enabled: seq<nat>, block: seq<nat>) returns (tag: seq<nat>, width: seq<nat>)
    requires c < 0x1_0000_0000 && |block| == parts + 1 && Tiles(block, n) && n == |enabled| < 65536
    requires forall i, j :: 0 <= i < j < n ==> enabled[i] < enabled[j]
    ensures |tag| == |width| == parts
    ensures forall d :: 0 <= d < parts ==> SoundAt(c, n, block[d], block[d + 1], enabled, tag[d], width[d])
  {
    tag, width := [], [];
    for d := 0 to parts
      invariant |tag| == |width| == d
      invariant forall e :: 0 <= e < d ==> SoundAt(c, n, block[e], block[e + 1], enabled, tag[e], width[e])
    {
      BlockInside(block, n, d);
      var t := TagBits(block[d + 1] - block[d]);
      TagSmall(block[d + 1] - block[d], t);
      var w := RecordWidth(c, t);
      tag, width := tag + [t], width + [w];
      assert SoundAt(c, n, block[d], block[d + 1], enabled, t, w);
    }
  }

  predicate SoundAt(c: nat, n: nat, from: nat, to: nat, enabled: seq<nat>, t: nat, w: nat) {
    from <= to && Config(c, n, from, to - from, enabled, t, w).Sound()
  }

  lemma {:induction false} BlockInside(block: seq<nat>, n: nat, d: nat)
    requires Tiles(block, n) && d + 1 < |block|
    ensures block[d] <= block[d + 1] <= n
    decreases |block| - d
  {
    if d + 2 < |block| {
      BlockInside(block, n, d + 1);
    }
  }

  lemma TagSmall(b: nat, t: nat)
    requires b < 65536 && (t > 0 ==> Pow2(t - 1) < b)
    ensures t <= 16
  {
    if t > 16 {
      Pow2Of16();
      Pow2Positive(16, t - 1);
    }
  }

  method EvenBlocks(n: nat, parts: nat) returns (block: seq<nat>)
    requires parts > 0
    ensures |block| == parts + 1 && forall d :: 0 <= d <= parts ==> block[d] == EvenStart(n, d, parts)
  {
    block := [];
    var at := 0;
    EvenTiles(n, parts, 0);
    for d := 0 to parts
      invariant at == EvenStart(n, d, parts)
      invariant |block| == d && forall e :: 0 <= e < d ==> block[e] == EvenStart(n, e, parts)
    {
      EvenTiles(n, parts, d);
      block := block + [at];
      at := at + n / parts + if d < n % parts then 1 else 0;
    }
    block := block + [at];
  }

  /** The start of every block but those past the last split. */
  ghost predicate SplitStarts(enabledSet: ChannelSet, splits: seq<nat>, block: seq<nat>)
    requires forall i :: 0 <= i < |splits| ==> splits[i] <= |enabledSet|
  {
    && |block| == 1 + |splits| && block[0] == 0
    && forall d :: 0 <= d < |splits| ==> block[d + 1] == |Members(enabledSet, splits[d])|
  }

  method SplitBlocks(enabledSet: ChannelSet, splitSet: ChannelSet, parts: nat, enabled: seq<nat>) returns (block: seq<nat>)
    requires |enabledSet| == |splitSet| && 0 < parts
    requires enabled == Members(enabledSet, |enabledSet|)
    requires 0 < |Members(splitSet, |splitSet|)| <= parts - 1
    ensures BlocksFollow(enabledSet, splitSet, parts, block)
  {
    var i: nat := 0;
    block := [0];
    for ch := 0 to |splitSet|
      invariant SplitStarts(enabledSet, Members(splitSet, ch), block)
      invariant i <= |Members(enabledSet, ch)|
    {
      if splitSet[ch] {
        i := FirstFrom(enabledSet, enabled, ch, i);
        block := block + [i];
      }
      MembersPrefix(enabledSet, ch, ch + 1);
    }
    ghost var starts := block;
    while |block| < parts + 1
      invariant |starts| <= |block| <= parts + 1 && block[..|starts|] == starts
      invariant forall d :: |starts| <= d < |block| ==> block[d] == |enabled|
    {
      block := block + [|enabled|];
    }
    assert block[parts] == |enabled|;
    forall d | 0 <= d < |starts|
      ensures block[d] == starts[d]
    {
      assert block[..|starts|][d] == starts[d];
    }
  }

  /** The first enabled channel's index at or after ch, searching from i. */
  method FirstFrom(enabledSet: ChannelSet, enabled: seq<nat>, ch: nat, from: nat) returns (i: nat)
    requires ch <= |enabledSet| && enabled == Members(enabledSet, |enabledSet|)
    requires from <= |Members(enabledSet, ch)|
    ensures i == |Members(enabledSet, ch)|
  {
    MembersPrefix(enabledSet, ch, |enabledSet|);
    ghost var below := Members(enabledSet, ch);
    i := from;
    while i < |enabled| && enabled[i] < ch
      invariant i <= |below|
    {
      i := i + 1;
    }
  }
}
