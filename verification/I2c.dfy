/** The I2C decoder as it runs: line levels, a tick's group and the open transaction, in place. */
module I2c {
  import opened Numbers
  import opened I2cLine
  import opened I2cGroups

  class I2cDecoder {
    var scl: Line
    var sda: Line
    var group: bool
    var groupTick: nat
    var groupScl: Line
    var groupSda: Line
    var cur: Option<Transaction>
    var byte: nat
    var nbits: nat
    var byteStart: nat
    var last: nat
    /** What was emitted. */
    var emitted: seq<Item>

    function View(): Decoder
      reads this
    {
      Decoder(scl, sda, if group then Some(Group(groupTick, groupScl, groupSda)) else None, cur, byte, nbits, byteStart, last)
    }

    constructor ()
      ensures View() == IDLE && emitted == []
    {
      scl, sda, group, groupTick, groupScl, groupSda := Unknown, Unknown, false, 0, Unknown, Unknown;
      cur, byte, nbits, byteStart, last, emitted := None, 0, 0, 0, 0, [];
    }

    /** Fills in the transaction's fields and emits it. */
    method CloseTransaction()
      requires cur.Some?
      modifies this`cur, this`emitted
      ensures cur == None && emitted == old(emitted) + [Closed(old(cur).value)]
    {
      var t := cur.value;
      var addr: Option<nat> := None;
      var len, nakAddr, nakData := 0, false, false;
      for k := 0 to |t.segs|
        invariant addr == FirstAddr(t.segs[..k]) && len == TotalLength(t.segs[..k])
        invariant nakAddr == exists j :: 0 <= j < k && t.segs[j].hasAddr && Nak(t.words, t.segs[j].first)
        invariant nakData == exists j :: 0 <= j < k && t.segs[j].hasAddr && AnyBad(t.words, t.segs[j])
        invariant cur == old(cur) && emitted == old(emitted)
      {
        var s := t.segs[k];
        assert t.segs[..k + 1][..k] == t.segs[..k];
        if s.hasAddr {
          if addr.None? {
            addr := Some(s.addr);
          }
          len := len + if s.count > 0 then s.count - 1 else 0;
          nakAddr := nakAddr || Nak(t.words, s.first);
          var bad := HasBad(t.words, s);
          nakData := nakData || bad;
        }
      }
      assert t.segs[..|t.segs|] == t.segs;
      cur := None;
      emitted := emitted + [Item(t, addr, len, nakAddr, nakData)];
    }

    /** A START opens a segment, of the open transaction or of a new one. */
    method Begin(t: nat)
      modifies this`cur, this`byte, this`nbits
      ensures View() == I2cLine.Start(old(View()), t)
    {
      var c := Transaction(t, t, [], [], false, false, false);
      if cur.Some? {
        c := cur.value;
        if nbits > 1 {
          c := c.(cut := true);
        }
        c := c.(segs := Extend(c.segs, t));
      }
      cur := Some(NewSegment(c, t));
      byte, nbits := 0, 0;
    }

    method End(t: nat)
      modifies this`cur, this`emitted
      ensures
        var o := I2cLine.Stop(old(View()), t);
        View() == o.d && emitted == old(emitted) + Items(o)
    {
      if cur.None? {
        assert emitted + [] == emitted;
        return;
      }
      if nbits > 1 {
        cur := Some(cur.value.(cut := true));
      }
      cur := Some(cur.value.(end := t, segs := Extend(cur.value.segs, t)));
      hide Closed, Extend;
      CloseTransaction();
    }

    /** Eight data bits, most significant first, then the acknowledge bit. */
    method Bit(t: nat, b: nat)
      requires cur.Some?
      modifies this`cur, this`byte, this`nbits, this`byteStart
      ensures View() == TakeBit(old(View()), t, b)
    {
      hide AddWord;
      cur := Some(cur.value.(end := t));
      if nbits == 0 {
        byteStart := t;
      }
      if nbits < 8 {
        byte, nbits := 2 * byte + b, nbits + 1;
        return;
      }
      cur := Some(AddWord(cur.value, byteStart, t, byte, b != 0));
      byte, nbits := 0, 0;
    }

    method ChangeSda(t: nat, l: Line)
      modifies this`sda, this`cur, this`byte, this`nbits, this`emitted
      ensures
        var o := SdaChange(old(View()), t, l);
        View() == o.d && emitted == old(emitted) + Items(o)
    {
      hide Start, Stop;
      assert emitted + [] == emitted;
      if l != sda && scl == High {
        if l == Low {
          Begin(t);
        } else {
          End(t);
        }
      }
      sda := l;
    }

    method ChangeScl(t: nat, l: Line)
      modifies this`scl, this`cur, this`byte, this`nbits, this`byteStart
      ensures View() == SclChange(old(View()), t, l)
    {
      hide TakeBit;
      if l != scl {
        scl := l;
        if l == High && cur.Some? && sda != Unknown {
          Bit(t, I2cLine.Bit(sda));
        }
      }
    }

    method TakeGroupNow()
      requires group
      modifies this
      ensures
        var d := old(View());
        var o := TakeGroup(d, d.group.value);
        View() == o.d && emitted == old(emitted) + Items(o)
    {
      ghost var d := View();
      ghost var g := d.group.value;
      hide SclChange, SdaChange;
      var t := groupTick;
      group := false;
      last := t;
      if scl == Unknown && groupScl != Unknown {
        scl := Other(groupScl);
      }
      if sda == Unknown && groupSda != Unknown {
        sda := Other(groupSda);
      }
      assert View() == Learn(d.(group := None, last := t), g);
      assert emitted + [] == emitted;
      if groupScl == Low {
        ChangeScl(t, Low);
      }
      if groupSda != Unknown {
        ChangeSda(t, groupSda);
      }
      if groupScl == High {
        ChangeScl(t, High);
      }
    }

    method Record(tick: nat, onScl: bool, level: Line)
      modifies this
      ensures
        var o := OnRecord(old(View()), tick, onScl, level);
        View() == o.d && emitted == old(emitted) + Items(o)
    {
      hide TakeGroup;
      assert emitted + [] == emitted;
      if group && tick != groupTick {
        TakeGroupNow();
        NoGroup(old(View()), old(View()).group.value);
      }
      if !group {
        group, groupTick := true, tick;
        groupScl, groupSda := Unknown, Unknown;
      }
      if onScl {
        groupScl := level;
      } else {
        groupSda := level;
      }
    }

    method UpTo(tick: nat)
      modifies this
      ensures
        var o := TakeUpTo(old(View()), tick);
        View() == o.d && emitted == old(emitted) + Items(o)
    {
      hide TakeGroup;
      assert emitted + [] == emitted;
      if group && groupTick <= tick {
        TakeGroupNow();
      }
    }

    /** The level specified by OnLevel, which may close the group that is open. */
    method Level(tick: nat, onScl: bool, level: Line)
      modifies this
      ensures
        var o := OnLevel(old(View()), tick, onScl, level);
        View() == o.d && emitted == old(emitted) + Items(o)
    {
      hide TakeUpTo;
      UpTo(tick);
      var l := if onScl then scl else sda;
      if l != Unknown && l != level && cur.Some? {
        cur := Some(cur.value.(loss := true));
      }
      if onScl {
        scl := level;
      } else {
        sda := level;
      }
    }

    /** Takes what is done and declares the horizon. */
    method Advance(tick: nat) returns (horizon: nat)
      modifies this
      ensures
        var o := TakeUpTo(old(View()), tick);
        View() == o.d && emitted == old(emitted) + Items(o) && horizon == Horizon(o.d, tick)
    {
      hide TakeUpTo;
      UpTo(tick);
      horizon := tick;
      if cur.Some? && cur.value.start < horizon {
        horizon := cur.value.start;
      }
    }

    method Loss(start: nat, end: nat)
      modifies this`cur
      ensures View() == OnCall(old(View()), I2cLine.Loss(start, end)).0
    {
      if cur.Some? && cur.value.start <= end {
        cur := Some(cur.value.(loss := true));
      }
    }

    /** Closes the group and whatever transaction is left, as OnFinish says. */
    method Finish()
      modifies this
      ensures View() == OnFinish(old(View())).0 && emitted == old(emitted) + OnFinish(old(View())).1
    {
      hide TakeGroup, Closed, Extend;
      assert emitted + [] == emitted;
      if group {
        TakeGroupNow();
      }
      if cur.Some? {
        cur := Some(cur.value.(incomplete := true, end := last, segs := Extend(cur.value.segs, last)));
        CloseTransaction();
      }
    }
  }

  lemma {:induction false} NoGroup(d: Decoder, g: Group)
    ensures TakeGroup(d, g).d.group == None
  {
    hide Closed, Extend, AddWord;
  }

  /** Whether a byte after the segment's address was not acknowledged that should have been. */
  method HasBad(words: seq<Word>, s: Segment) returns (bad: bool)
    ensures bad == AnyBad(words, s)
  {
    bad := false;
    var i := s.first + 1;
    while i < s.first + s.count
      invariant s.first < i
      invariant bad == exists j :: s.first < j < i && j < s.first + s.count && BadNak(words, s, j)
    {
      if Nak(words, i) && (!s.read || i != s.first + s.count - 1) {
        assert BadNak(words, s, i);
        bad := true;
      }
      i := i + 1;
    }
  }
}
