/** The store as it runs, over channels changed in place. */
module Store {
  import opened Numbers
  import opened StoreChannel
  import opened StoreTruth
  import opened StoreRuns
  import opened StoreLists
  import opened StoreMachine
  import L = StoreLosses
  import StoreLatest

  /** The ring with b in it, less what Pushed lets go of. */
  method RingPush(ring: seq<Beat>, b: Beat, late: nat) returns (r: seq<Beat>)
    requires RingSorted(ring) && forall k :: 0 <= k < |ring| ==> ring[k].tick <= b.tick
    ensures r == Pushed(ring, b, late) && RingSorted(r)
  {
    HeldSuffix(ring, b.tick, late);
    r := ring;
    while r != [] && (if late > 0 then r[0].tick + late < b.tick else |r| >= LATE_BEATS)
      invariant HeldBeats(r, b.tick, late) == HeldBeats(ring, b.tick, late)
      decreases |r|
    {
      r := r[1..];
    }
    r := r + [b];
  }

  predicate AllRings(data: seq<Data>) {
    forall d :: 0 <= d < |data| ==> RingSorted(data[d].ring)
  }

  lemma MarksSorted(ring: seq<Beat>, i: nat)
    requires RingSorted(ring)
    ensures NonDescending(Marks(ring, i))
  {
  }

  /** The newest record of the channel's oldest full block is at t. */
  predicate EndsAt(c: Chan, t: nat) {
    BLOCK <= |c.recs| && t == c.recs[BLOCK - 1].tick
  }

  method NewChannels(n: nat) returns (made: seq<Channel>)
    ensures |made| == n && fresh(made)
    ensures forall i, j :: 0 <= i < j < |made| ==> made[i] != made[j]
    ensures forall i :: 0 <= i < |made| ==> made[i].Valid() && made[i].View() == NewChan()
  {
    hide Channel.Valid, Channel.View;
    made := [];
    while |made| < n
      invariant |made| <= n && fresh(made)
      invariant forall i, j :: 0 <= i < j < |made| ==> made[i] != made[j]
      invariant forall i :: 0 <= i < |made| ==> made[i].Valid() && made[i].View() == NewChan()
    {
      var c := new Channel();
      made := made + [c];
    }
  }

  method FirstLosses(s: seq<L.LossRecord>, from: nat, to: nat, max: nat) returns (out: seq<L.LossRecord>)
    requires L.ByStart(s)
    ensures out == L.First(L.Meeting(s, from, to), max)
  {
    out := [];
    var i := 0;
    while i < |s| && |out| < max && s[i].start <= to
      invariant i <= |s| && out == L.Meeting(s[..i], from, to) && |out| <= max
    {
      assert s[..i + 1][..i] == s[..i];
      if s[i].end >= from {
        out := out + [s[i]];
      }
      i := i + 1;
    }
    L.MeetingPrefix(s, i, from, to);
    if i < |s| && s[i].start > to {
      L.NoneLater(s, i, from, to);
    }
    assert i == |s| ==> s[..i] == s;
  }

  /** The block in use is the same. */
  predicate SameLast(a: seq<seq<nat>>, b: seq<seq<nat>>) {
    (a == [] <==> b == []) && (a != [] ==> a[|a| - 1] == b[|b| - 1])
  }

  predicate AllSame(a: seq<seq<seq<nat>>>, b: seq<seq<seq<nat>>>) {
    |a| == |b| && forall i :: 0 <= i < |a| ==> SameLast(a[i], b[i])
  }

  lemma SameTrans(a: seq<seq<seq<nat>>>, b: seq<seq<seq<nat>>>, c: seq<seq<seq<nat>>>)
    requires AllSame(a, b) && AllSame(b, c)
    ensures AllSame(a, c)
  {
  }

  lemma SameItself(a: seq<seq<seq<nat>>>)
    ensures AllSame(a, a)
  {
  }

  /** The length of a channel's longer side list. */
  function SideSize(c: Chan): nat {
    Max(|c.anchors|, |c.ivals|)
  }

  predicate Longest(views: seq<Chan>, best: nat) {
    best < |views| && SideSize(views[best]) > 1 && forall i :: 0 <= i < |views| ==> SideSize(views[i]) <= SideSize(views[best])
  }

  /** A trim at the middle entry of that list, which keeps the newer half. */
  function MiddleOf(c: Chan): Op {
    if |c.anchors| >= |c.ivals| then TrimAnchor(|c.anchors| / 2) else TrimLoss(|c.ivals| / 2)
  }

  /** The newer half of the anchors stays, all after the middle one. */
  lemma NewerAnchors(c: Chan, k: nat)
    requires Ascending(c.anchors) && k < |c.anchors|
    ensures TrimTo(c, c.anchors[k].tick).anchors == c.anchors[k + 1..]
  {
    CountLtIs(c.anchors, c.anchors[k].tick + 1, k + 1);
  }

  /** The newer half of the losses stays, the middle one with it. */
  lemma {:induction false} NewerIvals(s: seq<Ival>, k: nat)
    requires (forall i, j :: 0 <= i < j < |s| ==> s[i].end < s[j].end) && k < |s|
    ensures IvalsAfter(s, s[k].end) == s[k..]
  {
    if k > 0 {
      NewerIvals(s[1..], k - 1);
    }
  }

  predicate Filled(blocks: seq<seq<nat>>) {
    blocks != [] && blocks[|blocks| - 1] != []
  }

  class Store {
    const dc: seq<nat>
    const late: nat
    const chans: seq<Channel>
    var data: seq<Data>
    var oldest: nat
    var newest: Option<nat>
    var losses: seq<L.LossRecord>
    var lossTotal: nat
    /** The channels as values. */
    ghost var views: seq<Chan>
    /** Every loss reported. */
    ghost var told: seq<L.LossRecord>

    ghost function View(): State
      reads this
    {
      State(views, data, oldest)
    }

    ghost predicate Separate() {
      forall i, j :: 0 <= i < j < |chans| ==> chans[i] != chans[j]
    }

    ghost predicate Coupled()
      reads this`views, chans
    {
      && |views| == |chans|
      && forall i :: 0 <= i < |chans| ==> chans[i].Valid() && chans[i].View() == views[i]
    }

    /** The blocks of all channels. */
    ghost function Blocks(): (b: seq<seq<seq<nat>>>)
      reads chans
      ensures |b| == |chans| && forall i :: 0 <= i < |chans| ==> b[i] == chans[i].blocks
    {
      seq(|chans|, i requires 0 <= i < |chans| reads chans => chans[i].blocks)
    }

    /** Each channel still holds the newest record it took. */
    ghost predicate Holding()
      reads this`views, chans
    {
      |views| == |chans| && forall i :: 0 <= i < |chans| && views[i].haveLast ==> Filled(chans[i].blocks)
    }

    ghost predicate HoldingBut(k: nat)
      reads this`views, chans
    {
      |views| == |chans| && forall i :: 0 <= i < |chans| && i != k && views[i].haveLast ==> Filled(chans[i].blocks)
    }

    predicate Were(blocks: seq<seq<seq<nat>>>, old_: seq<Chan>) {
      |blocks| == |old_| && forall i :: 0 <= i < |old_| && old_[i].haveLast ==> Filled(blocks[i])
    }

    lemma StillBut(was: seq<seq<seq<nat>>>, before: seq<Chan>, k: nat)
      requires |views| == |before| == |chans| == |was|
      requires forall i :: 0 <= i < |chans| && i != k ==> SameLast(was[i], Blocks()[i])
      requires forall i :: 0 <= i < |views| ==> views[i].haveLast == before[i].haveLast
      ensures Were(was, before) ==> HoldingBut(k)
    {
      forall i | 0 <= i < |chans| && i != k && views[i].haveLast && Were(was, before)
        ensures Filled(chans[i].blocks)
      {
        assert SameLast(was[i], Blocks()[i]);
      }
    }

    lemma StillHolding(was: seq<seq<seq<nat>>>, before: seq<Chan>)
      requires |views| == |before| == |chans| && Blocks() == was
      requires forall i :: 0 <= i < |views| ==> views[i].haveLast == before[i].haveLast
      ensures Were(was, before) ==> Holding()
    {
    }

    lemma HoldingHolds(i: nat)
      requires Coupled() && Holding() && i < |chans|
      ensures StoreLatest.HoldsNewest(views[i])
    {
    }

    lemma ShiftedSame(was: seq<seq<seq<nat>>>, best: nat)
      requires |was| == |chans| && best < |chans| && |was[best]| >= 2 && chans[best].blocks == was[best][1..]
      requires forall i :: 0 <= i < |chans| && i != best ==> chans[i].blocks == was[i]
      ensures AllSame(was, Blocks())
    {
    }

    function Y(): Layout {
      Layout(dc, late)
    }

    ghost predicate Valid()
      reads this, chans
    {
      Separate() && Coupled() && Fits(View(), Y()) && AllRings(data) && L.LossesOk(losses, told, oldest)
    }

    constructor (dc: seq<nat>, dcs: nat, late: nat)
      requires LayoutOk(Layout(dc, late), dcs)
      ensures Valid() && this.dc == dc && this.late == late && View() == Empty(|dc|, dcs) && Holding()
      ensures fresh(chans)
    {
      hide Channel.Valid, Channel.View;
      var made := NewChannels(|dc|);
      this.dc, this.late, chans := dc, late, made;
      data, oldest, newest, losses, lossTotal := seq(dcs, _ => Data(None, [])), 0, None, [], 0;
      views, told := seq(|dc|, _ => NewChan()), [];
    }

    /** Trims channel i at t; the oldest tick moves on to t if that is later. */
    method TrimChan(i: nat, t: nat)
      requires Valid() && i < |chans|
      modifies chans[i], this`oldest, this`losses, this`views
      ensures Valid() && views == old(views)[i := TrimTo(old(views)[i], t)]
      ensures chans[i].blocks == old(chans[i].blocks) && oldest == Max(old(oldest), t)
    {
      hide Channel.Valid, Channel.View, TrimTo, L.LossesOk;
      ghost var before := oldest;
      chans[i].TrimTo(t);
      views := views[i := TrimTo(views[i], t)];
      if t > oldest {
        oldest := t;
      }
      ForgetLosses(before);
    }

    /** Lets go of the first losses that end before the oldest tick. */
    method ForgetLosses(ghost before: nat)
      requires L.LossesOk(losses, told, before) && before <= oldest
      modifies this`losses
      ensures L.LossesOk(losses, told, oldest)
    {
      var keep, kept := 0, losses;
      while keep < |kept| && kept[keep].end < oldest
        invariant keep <= |kept| && forall k :: 0 <= k < keep ==> kept[k].end < oldest
      {
        keep := keep + 1;
      }
      L.DropKeeps(kept, told, before, oldest, keep);
      losses := kept[keep..];
    }

    /** Trims channel i where its anchor k is, or where its loss k ends. */
    method TrimAt(i: nat, k: nat, anchor: bool) returns (ghost t: nat, ghost op: Op)
      requires Valid() && i < |chans| && k < if anchor then |views[i].anchors| else |views[i].ivals|
      modifies chans[i], this`oldest, this`losses, this`views
      ensures Valid() && chans[i].blocks == old(chans[i].blocks)
      ensures op == (if anchor then TrimAnchor(k) else TrimLoss(k))
      ensures TrimsAt(old(views)[i], t, op) && View() == AfterTrim(old(View()), i, t, op)
    {
      hide Channel.Valid, TrimTo;
      var at := if anchor then chans[i].anchors[k].tick else chans[i].ivals[k].end;
      t, op := at, if anchor then TrimAnchor(k) else TrimLoss(k);
      TrimChan(i, at);
    }

    /** Drops the oldest block of channel i, whose newest record is at t. */
    method DropFrom(i: nat, t: nat)
      requires Valid() && i < |chans| && |chans[i].blocks| >= 2 && EndsAt(views[i], t)
      modifies chans[i], this`oldest, this`losses, this`views
      ensures Valid() && chans[i].blocks == old(chans[i].blocks)[1..]
      ensures View() == AfterTrim(old(View()), i, t, Drop(BLOCK))
    {
      hide Channel.Valid, TrimTo, L.LossesOk, AllRings;
      TrimToCover(views[i], t);
      TrimChan(i, t);
      chans[i].Shift();
      views := views[i := views[i].(recs := views[i].recs[BLOCK..])];
    }

    /** The channel whose oldest full block ends first, and where. */
    method FindOldest() returns (found: Option<nat>, t: nat)
      requires Valid()
      ensures found.None? ==> forall i :: 0 <= i < |chans| ==> |chans[i].blocks| < 2
      ensures found.Some? ==> found.value < |chans| && |chans[found.value].blocks| >= 2 && EndsAt(views[found.value], t)
      ensures found.Some? ==> forall i :: 0 <= i < |chans| ==> |chans[i].blocks| < 2 || EndsFrom(views[i], t)
    {
      hide Channel.Valid, Fits, AllRings;
      found, t := None, 0;
      for i := 0 to |chans|
        invariant found.None? ==> forall j :: 0 <= j < i ==> |chans[j].blocks| < 2
        invariant found.Some? ==> found.value < i && |chans[found.value].blocks| >= 2 && EndsAt(views[found.value], t)
        invariant found.Some? ==> forall j :: 0 <= j < i ==> |chans[j].blocks| < 2 || EndsFrom(views[j], t)
      {
        if |chans[i].blocks| >= 2 {
          var u := chans[i].OldestBlock();
          assert EndsAt(views[i], u);
          if found.None? || u < t {
            found, t := Some(i), u;
          }
        }
      }
    }

    /**
     * Drops one block: of the oldest full blocks, the one that ends first. Every channel keeps at
     * least the block it is filling, so there is nothing to drop when no channel has two.
     */
    method DropOldest() returns (ok: bool, ghost best: nat, ghost t: nat)
      requires Valid()
      modifies this`oldest, this`losses, this`views, chans
      ensures Valid()
      ensures !ok ==> View() == old(View()) && forall i :: 0 <= i < |chans| ==> unchanged(chans[i]) && |chans[i].blocks| < 2
      ensures ok ==> best < |chans| && EndsAt(old(views)[best], t) && View() == AfterTrim(old(View()), best, t, Drop(BLOCK))
      ensures ok ==> |old(chans[best].blocks)| >= 2 && chans[best].blocks == old(chans[best].blocks)[1..]
      ensures ok ==> forall i :: 0 <= i < |chans| ==> old(|chans[i].blocks|) < 2 || EndsFrom(old(views)[i], t)
      ensures forall i :: 0 <= i < |chans| && (ok ==> i != best) ==> unchanged(chans[i])
    {
      var found, at := FindOldest();
      ok, best, t := found.Some?, if found.Some? then found.value else 0, at;
      hide Coupled, Fits, AllRings, TrimTo, EndsFrom;
      if ok {
        DropFrom(found.value, at);
      }
    }

    /** The channel with the most anchors or loss intervals, if any has more than one. */
    method FindSide() returns (found: Option<nat>)
      requires Coupled()
      ensures found.Some? ==> Longest(views, found.value)
      ensures found.None? ==> forall i :: 0 <= i < |chans| ==> SideSize(views[i]) <= 1
    {
      found := None;
      var most := 1;
      for i := 0 to |chans|
        invariant most >= 1 && (found.None? ==> most == 1)
        invariant found.Some? ==> found.value < i && most == SideSize(views[found.value]) > 1
        invariant forall j :: 0 <= j < i ==> SideSize(views[j]) <= most
      {
        var n := Max(|chans[i].anchors|, |chans[i].ivals|);
        if n > most {
          found, most := Some(i), n;
        }
      }
    }

    /**
     * Trims the channel with the longest side list at its middle entry; no trim when every list
     * has at most one.
     */
    method TrimSide() returns (ok: bool, ghost best: nat, ghost t: nat, ghost op: Op)
      requires Valid()
      modifies this`oldest, this`losses, this`views, chans
      ensures Valid() && (best >= |chans| ==> !ok && View() == old(View()))
      ensures best < |chans| ==> TrimsAt(old(views)[best], t, op) && !op.Drop? && View() == AfterTrim(old(View()), best, t, op)
      ensures best < |chans| ==> Longest(old(views), best) && op == MiddleOf(old(views)[best])
      ensures best >= |chans| ==> forall i :: 0 <= i < |chans| ==> SideSize(old(views)[i]) <= 1
      ensures best < |chans| ==> chans[best].blocks == old(chans[best].blocks)
      ensures forall i :: 0 <= i < |chans| && i != best ==> unchanged(chans[i])
    {
      ok, best, t, op := false, |chans|, 0, Drop(BLOCK);
      var found := FindSide();
      hide Fits, AllRings, TrimTo, Channel.Valid, AfterTrim, L.LossesOk;
      if found.Some? {
        var i := found.value;
        var a, l := |chans[i].anchors|, |chans[i].ivals|;
        t, op := TrimAt(i, if a >= l then a / 2 else l / 2, a >= l);
        best := i;
        ok := |chans[i].anchors| + |chans[i].ivals| < a + l;
      }
    }

    /**
     * A number of trims, each a block if one can go, else half a side list. What they are is
     * returned, and the state is the one those trims lead to.
     */
    method Enforce(rounds: nat) returns (ghost trims: seq<Change>)
      requires Valid()
      modifies this`oldest, this`losses, this`views, chans
      ensures Valid() && AllTrims(trims) && View() == AfterAll(old(View()), Y(), trims)
      ensures AllSame(old(Blocks()), Blocks())
    {
      hide Channel.Valid, Fits, AllRings, After, AfterTrim, AllSame, Blocks;
      SameItself(Blocks());
      trims := [];
      var left := rounds;
      var more := true;
      while left > 0 && more
        invariant Valid() && AllTrims(trims) && View() == AfterAll(old(View()), Y(), trims)
        invariant AllSame(old(Blocks()), Blocks())
      {
        ghost var ch, was := None, Blocks();
        more, ch := TrimOnce();
        SameTrans(old(Blocks()), was, Blocks());
        ghost var s := old(View());
        if ch.Some? {
          AfterAllConcat(s, Y(), trims, [ch.value]);
          AfterOne(AfterAll(s, Y(), trims), Y(), ch.value);
          trims := trims + [ch.value];
        }
        left := left - 1;
      }
    }

    method TrimOnce() returns (more: bool, ghost ch: Option<Change>)
      requires Valid()
      modifies this`oldest, this`losses, this`views, chans
      ensures Valid() && (ch.None? ==> View() == old(View()))
      ensures ch.Some? ==> ch.value.Trim? && View() == After(old(View()), Y(), ch.value)
      ensures AllSame(old(Blocks()), Blocks())
    {
      hide *;
      more, ch := DropOnce();
      if !more {
        ghost var was := Blocks();
        more, ch := SideOnce();
        SameTrans(old(Blocks()), was, Blocks());
      }
    }

    /** The same, with the blocks in use still there. */
    method DropKept() returns (ok: bool, ghost best: nat, ghost t: nat)
      requires Valid()
      modifies this`oldest, this`losses, this`views, chans
      ensures Valid() && AllSame(old(Blocks()), Blocks())
      ensures !ok ==> View() == old(View()) && forall i :: 0 <= i < |chans| ==> unchanged(chans[i])
      ensures ok ==> best < |chans| && EndsAt(old(views)[best], t) && View() == AfterTrim(old(View()), best, t, Drop(BLOCK))
    {
      hide Valid, AfterTrim, EndsAt, EndsFrom, AllSame, TrimsAt;
      ghost var was := Blocks();
      ok, best, t := DropOldest();
      if ok {
        ShiftedSame(was, best);
      } else {
        SameItself(was);
        assert Blocks() == was;
      }
    }

    method DropOnce() returns (more: bool, ghost ch: Option<Change>)
      requires Valid()
      modifies this`oldest, this`losses, this`views, chans
      ensures Valid() && more == ch.Some?
      ensures !more ==> View() == old(View()) && forall i :: 0 <= i < |chans| ==> unchanged(chans[i])
      ensures more ==> ch.value.Trim? && View() == After(old(View()), Y(), ch.value)
      ensures AllSame(old(Blocks()), Blocks())
    {
      ghost var s, best, t := View(), 0, 0;
      assert Fits(s, Y()) && |s.views| == |chans|;
      hide AllSame, Blocks, Valid, Fits, AllRings, After, AfterTrim, TrimsAt;
      more, best, t := DropKept();
      ch := if more then Some(Trim(best, Drop(BLOCK))) else None;
      if more {
        DropsAt(s.views[best], t);
        TrimIsChange(s, Y(), best, t, Drop(BLOCK));
      }
    }

    method SideOnce() returns (more: bool, ghost ch: Option<Change>)
      requires Valid()
      modifies this`oldest, this`losses, this`views, chans
      ensures Valid() && (ch.None? ==> View() == old(View()))
      ensures ch.Some? ==> ch.value.Trim? && View() == After(old(View()), Y(), ch.value)
      ensures AllSame(old(Blocks()), Blocks())
    {
      ghost var s, best, t, op := View(), 0, 0, Drop(BLOCK);
      assert Fits(s, Y()) && |s.views| == |chans|;
      hide Valid, Fits, AllRings, After, AfterTrim, TrimsAt, AllSame;
      ghost var was := Blocks();
      more, best, t, op := TrimSide();
      assert Blocks() == was;
      SameItself(was);
      ch := if best < |chans| then Some(Trim(best, op)) else None;
      if best < |chans| {
        TrimIsChange(s, Y(), best, t, op);
      }
    }

    /**
     * A record, after the trims a new block may ask for. It must be later than the last one of
     * its channel.
     */
    method Put(i: nat, tick: nat, level: nat, rounds: nat) returns (ok: bool, ghost trims: seq<Change>)
      requires Valid()
      modifies this`oldest, this`newest, this`losses, this`views, chans
      ensures Valid() && AllTrims(trims) && ok == (i < |chans| && Accepts(old(views)[i], tick))
      ensures ok ==> View() == After(AfterAll(old(View()), Y(), trims), Y(), Record(i, tick, level))
      ensures !ok ==> View() == old(View())
      ensures old(Holding()) ==> Holding()
    {
      hide Channel.Valid, Fits, AllRings, After, AfterAll;
      trims := [];
      ok := i < |chans| && (!chans[i].haveLast || tick > chans[i].lastTick) && tick <= OPEN / 2;
      if ok {
        trims := MakeRoom(i, rounds);
        PutInto(i, tick, level);
        if newest.None? || tick > newest.value {
          newest := Some(tick);
        }
      }
    }

    /** A block for the next record, where the one in use is full. */
    method MakeRoom(i: nat, rounds: nat) returns (ghost trims: seq<Change>)
      requires Valid() && i < |chans|
      modifies this`oldest, this`losses, this`views, chans
      ensures Valid() && AllTrims(trims) && View() == AfterAll(old(View()), Y(), trims) && Room(chans[i].blocks)
      ensures views[i].haveLast == old(views)[i].haveLast && views[i].lastTick == old(views)[i].lastTick
      ensures old(Holding()) ==> HoldingBut(i)
    {
      hide Channel.Valid, Fits, AllRings, After;
      trims := [];
      if |chans[i].blocks| == 0 || |chans[i].blocks[|chans[i].blocks| - 1]| == BLOCK {
        ghost var was := Blocks();
        trims := NewBlock(i, rounds);
        TrimsKeepLasts(old(View()), Y(), trims);
        SizesMatch();
        StillBut(was, old(views), i);
      } else {
        assert Room(chans[i].blocks) by { FullOrRoom(i); }
      }
    }

    method NewBlock(i: nat, rounds: nat) returns (ghost trims: seq<Change>)
      requires Valid() && i < |chans| && !Room(chans[i].blocks)
      modifies this`oldest, this`losses, this`views, chans
      ensures Valid() && AllTrims(trims) && View() == AfterAll(old(View()), Y(), trims) && Room(chans[i].blocks)
      ensures forall j :: 0 <= j < |chans| && j != i ==> SameLast(old(Blocks())[j], Blocks()[j])
    {
      hide Channel.Valid, Fits, AllRings, After, AfterAll, AllTrims, L.LossesOk;
      chans[i].AddBlock();
      ghost var mid := Blocks();
      assert Room(mid[i]) && forall j :: 0 <= j < |chans| && j != i ==> mid[j] == old(Blocks())[j];
      trims := Enforce(rounds);
    }

    lemma FullOrRoom(i: nat)
      requires Coupled() && i < |chans| && chans[i].blocks != []
      ensures |chans[i].blocks[|chans[i].blocks| - 1]| <= BLOCK
    {
    }

    method PutInto(i: nat, tick: nat, level: nat)
      requires Valid() && i < |chans| && Room(chans[i].blocks) && Accepts(views[i], tick)
      modifies this`views, chans
      ensures Valid() && View() == After(old(View()), Y(), Record(i, tick, level))
      ensures old(HoldingBut(i)) ==> Holding()
    {
      hide Channel.Valid, AllRings, ApplyRecord;
      chans[i].Append(tick, level);
      views := views[i := ApplyRecord(views[i], tick, level)];
    }

    /** The machine's Heartbeat step: its channels' views, the watermark and the ring of d. */
    method Beat(d: nat, b: Beat) returns (ok: bool)
      requires Valid() && b.tick < OPEN
      requires d < |data| ==> forall k :: 0 <= k < |data[d].ring| ==> data[d].ring[k].tick <= b.tick
      modifies this`data, this`views, chans
      ensures Valid() && ok == (d < |data|) && View() == After(old(View()), Y(), Heartbeat(d, b))
      ensures old(Holding()) ==> Holding()
    {
      ok := d < |data|;
      if ok {
        BeatsKeepLast(View(), Y(), d, b);
        ghost var was := Blocks();
        BeatAll(d, b);
        StillHolding(was, old(views));
        BeatData(d, b);
      }
    }

    method BeatAll(d: nat, b: Beat)
      requires Valid() && b.tick < OPEN && d < |data|
      modifies this`views, chans
      ensures Valid() && views == BeatViews(old(View()), Y(), d, b) && Blocks() == old(Blocks())
    {
      hide Coupled, Blocks, AllRings, ApplyBeat, L.LossesOk;
      SizesMatch();
      ghost var s := View();
      for i := 0 to |chans|
        invariant Separate() && Coupled() && |views| == |chans|
        invariant forall j :: 0 <= j < i ==> views[j] == BeatOn(s, Y(), d, b, j)
        invariant forall j :: i <= j < |chans| ==> views[j] == s.views[j]
        invariant Blocks() == old(Blocks())
      {
        if dc[i] == d {
          BeatChan(i, b.tick, LevelFor(b, i));
        }
      }
    }

    method BeatChan(i: nat, tick: nat, level: nat)
      requires Separate() && Coupled() && i < |chans| && tick < OPEN
      modifies this`views, chans[i]
      ensures Coupled() && views == old(views)[i := ApplyBeat(old(views)[i], tick, level)] && Blocks() == old(Blocks())
    {
      hide Channel.Valid, Channel.View, ApplyBeat;
      chans[i].Beat(tick, level);
      views := views[i := ApplyBeat(views[i], tick, level)];
    }

    method BeatData(d: nat, b: Beat)
      requires Valid() && d < |data| && forall k :: 0 <= k < |data[d].ring| ==> data[d].ring[k].tick <= b.tick
      modifies this`data
      ensures Valid() && data == old(data)[d := Data(MaxTick(old(data)[d].wm, b.tick), Pushed(old(data)[d].ring, b, late))]
    {
      hide Coupled, Pushed, RingSorted;
      var ring := RingPush(data[d].ring, b, late);
      data := data[d := Data(MaxTick(data[d].wm, b.tick), ring)];
    }

    /** The machine's Lost step, and one more loss told. */
    method Lose(start: nat, end: nat, lost: seq<nat>) returns (ok: bool)
      requires Valid() && |lost| == |chans| && end < OPEN
      modifies this`losses, this`lossTotal, this`told, this`views, chans
      ensures Valid() && ok == (start <= end) && View() == After(old(View()), Y(), Lost(start, end, lost))
      ensures told == if ok then old(told) + [L.LossRecord(start, end, lost)] else old(told)
      ensures lossTotal == old(lossTotal) + if ok then 1 else 0
      ensures old(Holding()) ==> Holding()
    {
      hide L.LossesOk, LossViews, Separate, Coupled, AllRings;
      ok := start <= end;
      if ok {
        KeepLoss(start, end, lost);
        lossTotal := lossTotal + 1;
        LoseHeld(start, end, lost);
      }
    }

    method LoseHeld(start: nat, end: nat, lost: seq<nat>)
      requires Valid() && |lost| == |chans| && start <= end < OPEN
      modifies this`views, chans
      ensures Valid() && views == LossViews(old(View()), Y(), start, end, lost) && (old(Holding()) ==> Holding())
    {
      hide Channel.Valid, LossOn, L.LossesOk;
      LossesKeepLast(View(), Y(), start, end, lost);
      SizesMatch();
      ghost var was := Blocks();
      LoseAll(start, end, lost);
      StillHolding(was, old(views));
    }

    /** Behind the losses that start no later. */
    method KeepLoss(start: nat, end: nat, lost: seq<nat>)
      requires L.LossesOk(losses, told, oldest)
      modifies this`losses, this`told
      ensures L.LossesOk(losses, told, oldest) && told == old(told) + [L.LossRecord(start, end, lost)]
    {
      var kept, l := losses, L.LossRecord(start, end, lost);
      var at: nat := |kept|;
      while at > 0 && kept[at - 1].start > start
        invariant at <= |kept| && (at < |kept| ==> start < kept[at].start)
      {
        at := at - 1;
      }
      L.PutKeeps(kept, told, oldest, at, l);
      losses := kept[..at] + [l] + kept[at..];
      told := told + [l];
    }

    /** At most max of the losses that meet ticks from to to, the earliest first. */
    method Losses(from: nat, to: nat, max: nat) returns (out: seq<L.LossRecord>)
      requires Valid()
      ensures out == L.First(L.Meeting(losses, from, to), max)
      ensures from >= oldest ==> forall l :: l in L.Meeting(losses, from, to) <==> l in told && L.Meets(l, from, to)
    {
      hide Separate, Coupled, Fits, AllRings, L.Keeps;
      out := FirstLosses(losses, from, to, max);
      forall l | from >= oldest
        ensures l in L.Meeting(losses, from, to) <==> l in told && L.Meets(l, from, to)
      {
        L.ToldIsFound(losses, told, oldest, from, to, l);
      }
    }

    method LoseAll(start: nat, end: nat, lost: seq<nat>)
      requires Valid() && |lost| == |chans| && start <= end < OPEN
      modifies this`views, chans
      ensures Valid() && views == LossViews(old(View()), Y(), start, end, lost) && Blocks() == old(Blocks())
    {
      hide Coupled, Blocks, ApplyLoss, Marks, RingSorted, L.LossesOk;
      SizesMatch();
      ghost var s := View();
      for i := 0 to |chans|
        invariant Separate() && Coupled() && |views| == |chans|
        invariant forall j :: 0 <= j < i ==> views[j] == LossOn(s, Y(), start, end, lost, j)
        invariant forall j :: i <= j < |chans| ==> views[j] == s.views[j]
        invariant Blocks() == old(Blocks())
      {
        if lost[i] > 0 {
          var ring := Marks(data[dc[i]].ring, i);
          MarksSorted(data[dc[i]].ring, i);
          LoseOn(i, ring, start, end);
        }
      }
    }

    method LoseOn(i: nat, ring: seq<Mark>, start: nat, end: nat)
      requires Separate() && Coupled() && i < |chans| && NonDescending(ring) && start <= end < OPEN
      modifies this`views, chans[i]
      ensures Coupled() && views == old(views)[i := ApplyLoss(old(views)[i], ring, start, end)] && Blocks() == old(Blocks())
    {
      hide Channel.Valid, Channel.View, ApplyLoss, NonDescending;
      chans[i].Lose(ring, start, end);
      views := views[i := ApplyLoss(views[i], ring, start, end)];
    }

    lemma SizesMatch()
      requires Coupled()
      ensures |views| == |chans|
    {
    }

    /** ReadLevel of the store's view. */
    method LevelAt(i: nat, tick: nat) returns (r: Option<nat>)
      requires Valid() && i < |chans|
      ensures r == ReadLevel(View(), Y(), i, tick)
    {
      hide Channel.Valid, AllRings, StoreChannel.LevelAt;
      var wm := data[dc[i]].wm;
      if tick < oldest || wm.None? || tick > wm.value {
        r := None;
      } else {
        var level := chans[i].Level(tick);
        r := Some(level);
      }
    }

    /** A column per pair of neighbouring edges; None where an edge is before the one before it. */
    method Columns(i: nat, edges: seq<nat>) returns (out: Option<seq<Column>>)
      requires Valid() && i < |chans| && edges != []
      ensures out.None? <==> exists x :: 0 <= x < |edges| - 1 && edges[x + 1] < edges[x]
      ensures out.Some? ==> |out.value| == |edges| - 1
      ensures out.Some? ==> forall x :: 0 <= x < |edges| - 1 ==>
                edges[x] <= edges[x + 1] && out.value[x] == ColumnOf(View(), Y(), i, edges[x], edges[x + 1])
    {
      hide AllRings, Edge, Drawn, Channel.Valid, CountLt, Channel.Carries;
      for x := 0 to |edges| - 1
        invariant forall k :: 0 <= k < x ==> edges[k] <= edges[k + 1]
      {
        if edges[x + 1] < edges[x] {
          return None;
        }
      }
      var cols: seq<Column> := [];
      var ka, la := chans[i].Begin(oldest, edges[0]);
      for x := 0 to |edges| - 1
        invariant |cols| == x && chans[i].Carries(oldest, edges[x], ka, la)
        invariant forall k :: 0 <= k < x ==> cols[k] == ColumnOf(View(), Y(), i, edges[k], edges[k + 1])
      {
        var col, kb, lb := chans[i].ColumnFrom(oldest, data[dc[i]].wm, edges[x], edges[x + 1], ka, la);
        cols, ka, la := cols + [col], kb, lb;
      }
      out := Some(cols);
    }
  }

  lemma DropsAt(c: Chan, t: nat)
    requires EndsAt(c, t)
    ensures TrimsAt(c, t, Drop(BLOCK))
  {
  }

  predicate EndsFrom(c: Chan, t: nat) {
    BLOCK <= |c.recs| && t <= c.recs[BLOCK - 1].tick
  }
}
