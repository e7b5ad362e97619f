/** The losses a store keeps to tell of: in order of their start, none that matters let go of. */
module StoreLosses {
  import opened Numbers

  datatype LossRecord = LossRecord(start: nat, end: nat, lost: seq<nat>)

  predicate ByStart(s: seq<LossRecord>) {
    forall i, j :: 0 <= i < j < |s| ==> s[i].start <= s[j].start
  }

  /** Of the losses told, those kept: each as often as told, if it reaches the oldest tick held. */
  ghost predicate Keeps(kept: seq<LossRecord>, told: seq<LossRecord>, oldest: nat) {
    && multiset(kept) <= multiset(told)
    && forall l :: l in told && l.end >= oldest ==> multiset(kept)[l] == multiset(told)[l]
  }

  ghost predicate LossesOk(kept: seq<LossRecord>, told: seq<LossRecord>, oldest: nat) {
    ByStart(kept) && Keeps(kept, told, oldest)
  }

  /** Where a loss goes: behind those that start no later. */
  predicate Fits(s: seq<LossRecord>, at: nat, l: LossRecord) {
    at <= |s| && (at > 0 ==> s[at - 1].start <= l.start) && (at < |s| ==> l.start <= s[at].start)
  }

  lemma PutSorted(s: seq<LossRecord>, at: nat, l: LossRecord)
    requires ByStart(s) && Fits(s, at, l)
    ensures ByStart(s[..at] + [l] + s[at..])
  {
  }

  lemma PutKeeps(kept: seq<LossRecord>, told: seq<LossRecord>, oldest: nat, at: nat, l: LossRecord)
    requires LossesOk(kept, told, oldest) && Fits(kept, at, l)
    ensures LossesOk(kept[..at] + [l] + kept[at..], told + [l], oldest)
  {
    PutSorted(kept, at, l);
    hide ByStart;
    var now, all := kept[..at] + [l] + kept[at..], told + [l];
    assert kept == kept[..at] + kept[at..];
    assert multiset(now) == multiset(kept) + multiset{l};
    assert multiset(all) == multiset(told) + multiset{l};
    forall x | x in all && x.end >= oldest
      ensures multiset(now)[x] == multiset(all)[x]
    {
      if x !in told {
        assert x !in multiset(told);
        assert multiset(kept)[x] <= multiset(told)[x];
      }
    }
  }

  lemma DropKeeps(kept: seq<LossRecord>, told: seq<LossRecord>, before: nat, oldest: nat, n: nat)
    requires LossesOk(kept, told, before) && before <= oldest && n <= |kept|
    requires forall k :: 0 <= k < n ==> kept[k].end < oldest
    ensures LossesOk(kept[n..], told, oldest)
  {
    assert kept == kept[..n] + kept[n..];
    assert multiset(kept) == multiset(kept[..n]) + multiset(kept[n..]);
    forall x | x in told && x.end >= oldest
      ensures multiset(kept[n..])[x] == multiset(told)[x]
    {
      assert x !in kept[..n];
      assert x !in multiset(kept[..n]);
    }
  }

  predicate Meets(l: LossRecord, from: nat, to: nat) {
    l.start <= to && l.end >= from
  }

  /** The losses that meet ticks from to to, in order. */
  function Meeting(s: seq<LossRecord>, from: nat, to: nat): seq<LossRecord> {
    if s == [] then [] else Meeting(s[..|s| - 1], from, to) + if Meets(s[|s| - 1], from, to) then [s[|s| - 1]] else []
  }

  function First(s: seq<LossRecord>, max: nat): seq<LossRecord> {
    if |s| <= max then s else s[..max]
  }

  /** Past the first loss that starts after to there is none to find. */
  lemma {:induction false} NoneLater(s: seq<LossRecord>, i: nat, from: nat, to: nat)
    requires ByStart(s) && i < |s| && s[i].start > to
    ensures Meeting(s, from, to) == Meeting(s[..i], from, to)
    decreases |s|
  {
    var f := s[..|s| - 1];
    if i < |f| {
      assert f[..i] == s[..i];
      NoneLater(f, i, from, to);
    }
  }

  lemma {:induction false} MeetingPrefix(s: seq<LossRecord>, i: nat, from: nat, to: nat)
    requires i <= |s|
    ensures Meeting(s[..i], from, to) <= Meeting(s, from, to)
    decreases |s|
  {
    if i < |s| {
      assert s[..|s| - 1][..i] == s[..i];
      MeetingPrefix(s[..|s| - 1], i, from, to);
    } else {
      assert s[..i] == s;
    }
  }

  lemma {:induction false} MeetingHas(s: seq<LossRecord>, from: nat, to: nat, l: LossRecord)
    ensures l in Meeting(s, from, to) <==> l in s && Meets(l, from, to)
  {
    if s != [] {
      MeetingHas(s[..|s| - 1], from, to, l);
      assert s == s[..|s| - 1] + [s[|s| - 1]];
    }
  }

  /** Every loss told that meets a range the store still holds is found. */
  lemma ToldIsFound(kept: seq<LossRecord>, told: seq<LossRecord>, oldest: nat, from: nat, to: nat, l: LossRecord)
    requires LossesOk(kept, told, oldest) && from >= oldest
    ensures l in Meeting(kept, from, to) <==> l in told && Meets(l, from, to)
  {
    MeetingHas(kept, from, to, l);
    assert l in kept ==> l in multiset(kept) && l in multiset(told);
    if l in told && Meets(l, from, to) {
      assert l in multiset(told) && multiset(kept)[l] == multiset(told)[l];
      assert l in multiset(kept);
    }
  }
}
