/**
 * What a bounded queue owes for what it dropped: every byte offered is queued, named by an
 * overflow event of its channel, or still to be named, and each piece queued lies in the
 * stream just where the pieces and events before it say.
 */
module Ledger {
  import opened Numbers

  type Bytes = seq<Byte>

  /**
   * A queued item. Data says where in its channel's stream it starts; a mark is a heartbeat to
   * index, with its grid count and stream offset.
   */
  datatype Item =
    | Header(bytes: Bytes)
    | Data(channel: nat, time: nat, start: nat, bytes: Bytes)
    | Overflow(channel: nat, time: nat, dropped: nat, controls: nat)
    | Control(flags: Byte, time: nat, bytes: Bytes)
    | Event(channel: nat, time: nat, code: nat, bytes: Bytes)
    | Mark(channel: nat, grid: nat, pos: nat)
    | End(time: nat, bytes: Bytes)

  /** What an item says of a channel's stream: bytes in it or bytes dropped from it. */
  function Spanned(x: Item, d: nat): nat {
    match x
    case Data(c, _, _, bytes) => if c == d then |bytes| else 0
    case Overflow(c, _, dropped, _) => if c == d then dropped else 0
    case _ => 0
  }

  /** Where in a channel's stream the items before lead. */
  function Offset(items: seq<Item>, d: nat): nat {
    if items == [] then 0 else Offset(items[..|items| - 1], d) + Spanned(items[|items| - 1], d)
  }

  /** How many control messages the items hold or name as dropped. */
  function Controls(items: seq<Item>): nat {
    if items == [] then 0
    else
      Controls(items[..|items| - 1])
      + match items[|items| - 1] case Control(_, _, _) => 1 case Overflow(_, _, _, n) => n case _ => 0
  }

  /** The i-th item, if a channel's data, is that channel's stream from where it is. */
  predicate InPlace(items: seq<Item>, d: nat, offered: Bytes, i: nat)
    requires i < |items|
  {
    items[i].Data? && items[i].channel == d ==>
      var at := Offset(items[..i], d);
      items[i].start == at && at + |items[i].bytes| <= |offered| && items[i].bytes == offered[at..at + |items[i].bytes|]
  }

  /** Every byte offered on a channel is accounted for. */
  predicate Accounts(items: seq<Item>, d: nat, offered: Bytes, dropped: nat) {
    && Offset(items, d) + dropped == |offered|
    && forall i :: 0 <= i < |items| ==> InPlace(items, d, offered, i)
  }

  lemma OneMore(items: seq<Item>, x: Item, d: nat)
    ensures Offset(items + [x], d) == Offset(items, d) + Spanned(x, d)
    ensures Controls(items + [x])
         == Controls(items) + match x case Control(_, _, _) => 1 case Overflow(_, _, _, n) => n case _ => 0
  {
    assert (items + [x])[..|items|] == items;
  }

  lemma InPlaceMore(items: seq<Item>, x: Item, d: nat, offered: Bytes, more: Bytes, i: nat)
    requires i < |items| && InPlace(items, d, offered, i)
    ensures InPlace(items + [x], d, offered + more, i) && InPlace(items, d, offered + more, i)
  {
    assert (items + [x])[..i] == items[..i];
    hide Offset;
    if items[i].Data? && items[i].channel == d {
      var at, n: nat := Offset(items[..i], d), |items[i].bytes|;
      assert (offered + more)[at..at + n] == offered[at..at + n];
    }
  }

  /** An item that takes nothing from what is to be named. */
  lemma AccountsOther(items: seq<Item>, d: nat, offered: Bytes, dropped: nat, x: Item)
    requires Accounts(items, d, offered, dropped) && Spanned(x, d) == 0 && !(x.Data? && x.channel == d)
    ensures Accounts(items + [x], d, offered, dropped)
  {
    OneMore(items, x, d);
    hide Offset, InPlace;
    assert offered + [] == offered;
    forall i | 0 <= i < |items|
      ensures InPlace(items + [x], d, offered, i)
    {
      InPlaceMore(items, x, d, offered, [], i);
    }
    NotData(items, d, offered, x);
  }

  lemma NotData(items: seq<Item>, d: nat, offered: Bytes, x: Item)
    requires !(x.Data? && x.channel == d)
    ensures InPlace(items + [x], d, offered, |items|)
  {
  }

  /** An overflow event names what was dropped. */
  lemma AccountsOverflow(items: seq<Item>, d: nat, offered: Bytes, dropped: nat, x: Item)
    requires Accounts(items, d, offered, dropped) && x.Overflow? && x.channel == d && x.dropped == dropped
    ensures Accounts(items + [x], d, offered, 0)
  {
    OneMore(items, x, d);
    hide Offset, InPlace;
    assert offered + [] == offered;
    forall i | 0 <= i < |items|
      ensures InPlace(items + [x], d, offered, i)
    {
      InPlaceMore(items, x, d, offered, [], i);
    }
    NotData(items, d, offered, x);
  }

  /** Data queued with nothing left to name. */
  lemma AccountsData(items: seq<Item>, d: nat, offered: Bytes, x: Item)
    requires Accounts(items, d, offered, 0) && x.Data? && x.channel == d && x.start == |offered|
    ensures Accounts(items + [x], d, offered + x.bytes, 0)
  {
    OneMore(items, x, d);
    var all := items + [x];
    assert all[..|items|] == items;
    assert (offered + x.bytes)[|offered|..|offered| + |x.bytes|] == x.bytes;
    assert InPlace(all, d, offered + x.bytes, |items|);
    hide Offset, InPlace;
    forall i | 0 <= i < |items|
      ensures InPlace(all, d, offered + x.bytes, i)
    {
      InPlaceMore(items, x, d, offered, x.bytes, i);
    }
  }

  /** Data dropped is to be named. */
  lemma AccountsDrop(items: seq<Item>, d: nat, offered: Bytes, dropped: nat, bytes: Bytes)
    requires Accounts(items, d, offered, dropped)
    ensures Accounts(items, d, offered + bytes, dropped + |bytes|)
  {
    hide Offset, InPlace;
    forall i | 0 <= i < |items|
      ensures InPlace(items, d, offered + bytes, i)
    {
      InPlaceMore(items, Header([]), d, offered, bytes, i);
    }
  }

  // ----- what that means for the pieces

  /** The bytes a channel's overflow events name, of the items from i on before j. */
  function Named(items: seq<Item>, d: nat, i: nat, j: nat): nat
    requires i <= j <= |items|
  {
    if i == j then 0
    else Named(items, d, i, j - 1) + if items[j - 1].Overflow? && items[j - 1].channel == d then items[j - 1].dropped else 0
  }

  predicate IsData(items: seq<Item>, d: nat, i: nat) {
    i < |items| && items[i].Data? && items[i].channel == d
  }

  lemma {:induction false} OffsetBetween(items: seq<Item>, d: nat, i: nat, j: nat)
    requires i <= j <= |items| && forall k :: i <= k < j ==> !IsData(items, d, k)
    ensures Offset(items[..j], d) == Offset(items[..i], d) + Named(items, d, i, j)
    decreases j
  {
    if i < j {
      OffsetBetween(items, d, i, j - 1);
      assert items[..j][..j - 1] == items[..j - 1];
      assert !IsData(items, d, j - 1);
    }
  }

  /**
   * Of two pieces of a channel queued one after the other, the second begins in the stream
   * where the first ends, or past that by just what the overflow events between them name.
   */
  lemma GapsAreNamed(items: seq<Item>, d: nat, offered: Bytes, dropped: nat, i: nat, j: nat)
    requires Accounts(items, d, offered, dropped) && i < j && IsData(items, d, i) && IsData(items, d, j)
    requires forall k :: i < k < j ==> !IsData(items, d, k)
    ensures
      var a, b := items[i].start, items[j].start;
      && b == a + |items[i].bytes| + Named(items, d, i + 1, j)
      && b + |items[j].bytes| <= |offered|
      && items[i].bytes == offered[a..a + |items[i].bytes|] && items[j].bytes == offered[b..b + |items[j].bytes|]
  {
    assert InPlace(items, d, offered, i) && InPlace(items, d, offered, j);
    OffsetBetween(items, d, i + 1, j);
    assert items[..i + 1][..i] == items[..i];
  }

  function QueuedBytes(items: seq<Item>, d: nat): nat {
    if items == [] then 0
    else
      var x := items[|items| - 1];
      QueuedBytes(items[..|items| - 1], d) + if x.Data? && x.channel == d then |x.bytes| else 0
  }

  /** The bytes offered on a channel are those queued, those named as dropped, and those still to be. */
  lemma BytesBalance(items: seq<Item>, d: nat, offered: Bytes, dropped: nat)
    requires Accounts(items, d, offered, dropped)
    ensures |offered| == QueuedBytes(items, d) + Named(items, d, 0, |items|) + dropped
  {
    OffsetIs(items, d);
  }

  lemma {:induction false} OffsetIs(items: seq<Item>, d: nat)
    ensures Offset(items, d) == QueuedBytes(items, d) + Named(items, d, 0, |items|)
  {
    if items != [] {
      var f := items[..|items| - 1];
      OffsetIs(f, d);
      NamedPrefix(items, d, |items| - 1);
    }
  }

  lemma {:induction false} NamedPrefix(items: seq<Item>, d: nat, j: nat)
    requires j <= |items|
    ensures Named(items[..j], d, 0, j) == Named(items, d, 0, j)
  {
    Same(items, items[..j], d, j);
  }

  lemma {:induction false} Same(a: seq<Item>, b: seq<Item>, d: nat, j: nat)
    requires j <= |a| && j <= |b| && a[..j] == b[..j]
    ensures Named(a, d, 0, j) == Named(b, d, 0, j)
  {
    if j > 0 {
      assert a[..j][..j - 1] == a[..j - 1] && b[..j][..j - 1] == b[..j - 1];
      Same(a, b, d, j - 1);
      assert a[..j][j - 1] == b[..j][j - 1];
    }
  }

  // ----- the books of a queue's caller

  /**
   * Per channel the bytes offered and those dropped and not named yet; control messages
   * likewise; and every item ever queued.
   */
  datatype Books = Books(offered: seq<Bytes>, dropped: seq<nat>, controls: nat, droppedControls: nat, items: seq<Item>)

  predicate Fits(b: Books) {
    |b.offered| == |b.dropped|
  }

  ghost predicate Balanced(b: Books) {
    && Fits(b)
    && (forall d :: 0 <= d < |b.offered| ==> Accounts(b.items, d, b.offered[d], b.dropped[d]))
    && Controls(b.items) + b.droppedControls == b.controls
    && forall x :: x in b.items && x.Data? ==> x.channel < |b.offered|
  }

  function Start(channels: nat): Books {
    Books(seq(channels, _ => []), seq(channels, _ => 0), 0, 0, [])
  }

  lemma StartBalanced(channels: nat)
    ensures Balanced(Start(channels))
  {
  }

  /** Whether a channel's next data carries an overflow event. */
  predicate Owes(b: Books, d: nat)
    requires Fits(b) && d < |b.dropped|
  {
    b.dropped[d] > 0 || b.droppedControls > 0
  }

  /** The channel's debt becomes an item, and is settled. */
  function WithEvent(b: Books, d: nat, time: nat): Books
    requires Fits(b) && d < |b.dropped|
  {
    b.(items := b.items + [Overflow(d, time, b.dropped[d], b.droppedControls)],
       dropped := b.dropped[d := 0], droppedControls := 0)
  }

  lemma NamedBalanced(b: Books, d: nat, time: nat)
    requires Balanced(b) && d < |b.dropped|
    ensures Balanced(WithEvent(b, d, time))
  {
    var x := Overflow(d, time, b.dropped[d], b.droppedControls);
    hide Accounts;
    forall c | 0 <= c < |b.offered|
      ensures Accounts(b.items + [x], c, b.offered[c], b.dropped[d := 0][c])
    {
      assert Accounts(b.items, c, b.offered[c], b.dropped[c]);
      if c == d {
        AccountsOverflow(b.items, d, b.offered[d], b.dropped[d], x);
      } else {
        AccountsOther(b.items, c, b.offered[c], b.dropped[c], x);
      }
    }
    OneMore(b.items, x, 0);
  }

  /** Data offered on a channel, taken or not, with an event before it if named. */
  function Offer(b: Books, d: nat, time: nat, bytes: Bytes, taken: bool, named: bool): Books
    requires Fits(b) && d < |b.dropped|
  {
    if taken then
      var n := if named then WithEvent(b, d, time) else b;
      n.(items := n.items + [Data(d, time, |b.offered[d]|, bytes)], offered := n.offered[d := n.offered[d] + bytes])
    else
      b.(offered := b.offered[d := b.offered[d] + bytes], dropped := b.dropped[d := b.dropped[d] + |bytes|])
  }

  lemma OfferBalanced(b: Books, d: nat, time: nat, bytes: Bytes, taken: bool, named: bool)
    requires Balanced(b) && d < |b.dropped| && (named || !taken || b.dropped[d] == 0)
    ensures Balanced(Offer(b, d, time, bytes, taken, named))
  {
    var u := Offer(b, d, time, bytes, taken, named);
    var n := if taken && named then WithEvent(b, d, time) else b;
    if taken && named {
      NamedBalanced(b, d, time);
    }
    hide Accounts;
    var x := Data(d, time, |b.offered[d]|, bytes);
    forall c | 0 <= c < |b.offered|
      ensures Accounts(u.items, c, u.offered[c], u.dropped[c])
    {
      assert Accounts(n.items, c, n.offered[c], n.dropped[c]);
      if taken && c == d {
        AccountsData(n.items, d, n.offered[d], x);
      } else if taken {
        AccountsOther(n.items, c, n.offered[c], n.dropped[c], x);
      } else if c == d {
        AccountsDrop(b.items, d, b.offered[d], b.dropped[d], bytes);
      }
    }
    OneMore(n.items, x, 0);
  }

  /** Data offered to the recorder: an event before it names whatever was dropped. */
  function AfterData(b: Books, d: nat, time: nat, bytes: Bytes, taken: bool): Books
    requires Fits(b) && d < |b.dropped|
  {
    Offer(b, d, time, bytes, taken, Owes(b, d))
  }

  /** What is queued when data is taken. */
  function DataItems(b: Books, d: nat, time: nat, bytes: Bytes): seq<Item>
    requires Fits(b) && d < |b.dropped|
  {
    var x := Data(d, time, |b.offered[d]|, bytes);
    if Owes(b, d) then [Overflow(d, time, b.dropped[d], b.droppedControls), x] else [x]
  }

  lemma DataItemsAre(b: Books, d: nat, time: nat, bytes: Bytes, taken: bool)
    requires Fits(b) && d < |b.dropped|
    ensures AfterData(b, d, time, bytes, taken).items == b.items + if taken then DataItems(b, d, time, bytes) else []
  {
  }

  lemma DataBalanced(b: Books, d: nat, time: nat, bytes: Bytes, taken: bool)
    requires Balanced(b) && d < |b.dropped|
    ensures Balanced(AfterData(b, d, time, bytes, taken))
  {
    hide Accounts, Offer;
    OfferBalanced(b, d, time, bytes, taken, Owes(b, d));
  }

  /** Any other item queued, which owes and names nothing. */
  lemma ItemBalanced(b: Books, x: Item)
    requires Balanced(b) && !x.Data? && !x.Overflow? && !x.Control?
    ensures Balanced(b.(items := b.items + [x]))
  {
    hide Accounts;
    forall c | 0 <= c < |b.offered|
      ensures Accounts(b.items + [x], c, b.offered[c], b.dropped[c])
    {
      AccountsOther(b.items, c, b.offered[c], b.dropped[c], x);
    }
    OneMore(b.items, x, 0);
  }

  /** A control message offered, taken or not; an event before it names those dropped. */
  function AfterControl(b: Books, x: Item, time: nat, taken: bool): Books
    requires Fits(b) && |b.dropped| > 0 && x.Control?
  {
    if taken then
      var n := if b.droppedControls > 0 then WithEvent(b, 0, time) else b;
      n.(items := n.items + [x], controls := n.controls + 1)
    else b.(controls := b.controls + 1, droppedControls := b.droppedControls + 1)
  }

  /** What is queued when a control message is taken. */
  function ControlItems(b: Books, x: Item, time: nat): seq<Item>
    requires Fits(b) && |b.dropped| > 0
  {
    if b.droppedControls > 0 then [Overflow(0, time, b.dropped[0], b.droppedControls), x] else [x]
  }

  lemma ControlItemsAre(b: Books, x: Item, time: nat, taken: bool)
    requires Fits(b) && |b.dropped| > 0 && x.Control?
    ensures AfterControl(b, x, time, taken).items == b.items + if taken then ControlItems(b, x, time) else []
  {
  }

  lemma ControlBalanced(b: Books, x: Item, time: nat, taken: bool)
    requires Balanced(b) && |b.dropped| > 0 && x.Control?
    ensures Balanced(AfterControl(b, x, time, taken))
  {
    var n := if taken && b.droppedControls > 0 then WithEvent(b, 0, time) else b;
    if taken && b.droppedControls > 0 {
      NamedBalanced(b, 0, time);
    }
    hide Accounts;
    if taken {
      forall c | 0 <= c < |n.offered|
        ensures Accounts(n.items + [x], c, n.offered[c], n.dropped[c])
      {
        AccountsOther(n.items, c, n.offered[c], n.dropped[c], x);
      }
      OneMore(n.items, x, 0);
    }
  }

  /** A message that is not data, offered to a client: an event before it names only such. */
  function AfterOther(b: Books, x: Item, time: nat, taken: bool): Books
    requires x.Control?
  {
    if taken then
      var n := if b.droppedControls > 0
        then b.(items := b.items + [Overflow(0, time, 0, b.droppedControls)], droppedControls := 0) else b;
      n.(items := n.items + [x], controls := n.controls + 1)
    else b.(controls := b.controls + 1, droppedControls := b.droppedControls + 1)
  }

  lemma OtherBalanced(b: Books, x: Item, time: nat, taken: bool)
    requires Balanced(b) && x.Control?
    ensures Balanced(AfterOther(b, x, time, taken))
  {
    var ev := Overflow(0, time, 0, b.droppedControls);
    var items := if b.droppedControls > 0 then b.items + [ev] else b.items;
    hide Accounts;
    if taken {
      forall c | 0 <= c < |b.offered|
        ensures Accounts(items + [x], c, b.offered[c], b.dropped[c])
      {
        if b.droppedControls > 0 {
          AccountsOther(b.items, c, b.offered[c], b.dropped[c], ev);
        }
        AccountsOther(items, c, b.offered[c], b.dropped[c], x);
      }
      OneMore(b.items, ev, 0);
      OneMore(items, x, 0);
    }
  }
}
