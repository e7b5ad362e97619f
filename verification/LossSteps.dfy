/**
 * The steps of the capture loop that carry loss reports, on the state they share, in place:
 * each does what LossDevice says of it, so LossReports holds of every run of them.
 */
module LossSteps {
  import opened Numbers
  import opened LossDevice

  /** The fields of the capture are grouped by who writes them; story is not stored. */
  class CaptureLoop {
    const u: Setup
    var clean: Clean
    var shared: Shared
    var keep: Keep
    var spi: Spi
    ghost var story: Story

    ghost function View(): World
      reads this
    {
      World(Device(clean, shared, keep, spi), story)
    }

    constructor (u: Setup)
      ensures this.u == u && View() == Begin(u)
    {
      var z, none := Zeros(u.n), Pos(0, 0);
      this.u := u;
      clean := Clean(Scan, 0, false, false, 0, 0, 0, z, z);
      shared := Shared(false, false, false, none, none, z);
      keep := Keep(Other, false, 0, false, none, 0, Report(0, none, none, z));
      spi := Spi(Host, false, false, false);
      story := Story([], z, [], [0], 0, 0, []);
    }

    /** An entry was written while a loss was open: the loss is over. */
    method StLossEnd()
      modifies this`clean, this`story
      ensures View() == AfterEntry(old(View()))
    {
      story := story.(losses := story.losses + [Loss(clean.start, clean.end, story.total)]);
      clean := clean.(open := false);
      clean := clean.(i := 0, snap := true);
      clean := clean.(mode := Flush);
    }

    /** One nibble column of one channel's slices moves, as AfterFlush says. */
    method StFlush()
      requires clean.mode == Flush && clean.i / 2 < |clean.slices| == |clean.lost|
      modifies this`clean
      ensures clean == AfterFlush(old(clean))
    {
      var ch := clean.i / 2;
      var v := if clean.i % 2 == 0 then clean.slices[ch] % 16 else clean.slices[ch] / 16 % 16 * 16;
      clean := clean.(lost := clean.lost[ch := (clean.lost[ch] + v) % WRAP]);
      clean := clean.(i := clean.i + 1);
      if clean.i == 2 * |clean.slices| {
        clean := clean.(mode := FlushEnd);
      }
    }

    method StFlushEnd()
      requires clean.mode == FlushEnd
      modifies this`clean
      ensures clean == AfterFlushEnd(old(clean))
    {
      clean := clean.(slices := Zeros(|clean.slices|), adds := 0);
      clean := clean.(i := 0);
      clean := clean.(mode := if clean.snap then Snap else Scan);
    }

    /** One burst of the copy into the snapshot, or none while the other copy is going on. */
    method StSnap()
      requires Fits(u) && clean.mode == Snap && clean.i <= |clean.lost| == |shared.lost|
      modifies this`clean, this`shared, this`story
      ensures View() == AfterSnap(u, old(View()))
    {
      hide PosOf, Copied;
      if shared.copyBusy {
        return;
      }
      shared := shared.(snapBusy := true);
      var copied, i := CopyThree(clean.lost, shared.lost, clean.i);
      shared, clean := shared.(lost := copied), clean.(i := i);
      if i < |clean.lost| {
        return;
      }
      if !shared.valid {
        shared := shared.(start := PosOf(u.c, clean.start));
      }
      shared := shared.(end := PosOf(u.c, clean.end), valid := true, snapBusy := false);
      clean, story := clean.(mode := Scan), story.(waiting := |story.losses|);
    }

    method HkPoll()
      requires keep.at == Poll
      modifies this`keep, this`spi
      ensures View() == AfterPoll(old(View()))
    {
      if shared.valid && !keep.requested {
        if spi.holder != Busy {
          spi := spi.(holder := Cpu, event := true);
        }
        keep := keep.(requested := true, at := Other);
      } else {
        keep := keep.(at := if spi.event then Acquired else Other);
      }
    }

    method HkAcquired()
      requires keep.at == Acquired
      modifies this`keep, this`spi
      ensures View() == AfterAcquired(old(View()))
    {
      spi := spi.(event := false);
      keep := keep.(at := Semaphore);
    }

    method HkSemaphore()
      requires keep.at == Semaphore
      modifies this`keep
      ensures View() == AfterSemaphore(old(View()))
    {
      if spi.holder != Cpu {
        keep := keep.(at := Other);
        return;
      }
      keep := keep.(requested := false);
      keep := keep.(at := if keep.loaded && spi.rx then Amount else Decide);
    }

    /** Moves the report to the sent ones, or leaves it loaded. */
    method HkAmount()
      requires keep.at == Amount
      modifies this`keep, this`story
      ensures View() == AfterAmount(old(View()))
    {
      if spi.all {
        keep := keep.(num := (keep.num + 1) % WRAP, loaded := false);
        story := story.(sent := story.sent + [keep.buf], cuts := story.cuts + [story.held]);
      }
      keep := keep.(at := Decide);
    }

    /** Claims the snapshot for the copy, or goes on to loading. */
    method HkDecide()
      requires keep.at == Decide
      modifies this`keep, this`shared, this`story
      ensures View() == AfterDecide(old(View()))
    {
      if !shared.valid || shared.snapBusy {
        keep := keep.(at := Load);
        return;
      }
      shared := shared.(copyBusy := true, valid := false);
      if !keep.loaded {
        keep := keep.(start := shared.start);
      }
      keep := keep.(buf := keep.buf.(num := keep.num, start := keep.start));
      keep, story := keep.(i := 0, at := Copy), story.(held := story.waiting);
    }

    method HkCopy()
      requires keep.at == Copy && keep.i <= |shared.lost| == |keep.buf.lost|
      modifies this`keep, this`shared
      ensures View() == AfterCopy(old(View()))
    {
      hide Copied;
      var end := if keep.i == 0 then shared.end else keep.buf.end;
      var copied, i := CopyThree(shared.lost, keep.buf.lost, keep.i);
      keep := keep.(buf := keep.buf.(end := end, lost := copied), i := i);
      if i == |shared.lost| {
        shared := shared.(copyBusy := false);
        keep := keep.(at := Crc);
      }
    }

    /** Some of the check value, and all of it once done. */
    method HkCrc(done: bool)
      requires keep.at == Crc
      modifies this`keep
      ensures View() == AfterCrc(old(View()), done)
    {
      if done {
        keep := keep.(loaded := true, at := Load);
      }
    }

    method HkRelease()
      requires keep.at == Release
      modifies this`keep, this`spi
      ensures View() == AfterRelease(old(View()))
    {
      spi := spi.(holder := Host, rx := false);
      keep := keep.(at := Other);
    }
  }

  /** Copies up to three counters a step. */
  method CopyThree(from: seq<nat>, to: seq<nat>, i: nat) returns (r: seq<nat>, j: nat)
    requires i <= |from| == |to|
    ensures r == Copied(from, to, i) && j == Min(i + 3, |from|)
  {
    r, j := to, i;
    var n := 0;
    assert to == to[..i] + from[i..i] + to[i..];
    while n < 3 && j < |from|
      invariant n <= 3 && j == i + n <= |from| && r == to[..i] + from[i..j] + to[j..]
    {
      assert to[j..] == [to[j]] + to[j + 1..] && from[i..j + 1] == from[i..j] + [from[j]];
      r := r[j := from[j]];
      n, j := n + 1, j + 1;
    }
  }
}
