/**
 * When resuming onto the remote file goes wrong: exactly when some continuation without any
 * further hazard makes it a file that begins no local inode.
 */
module Adoption {
  import opened Prelude
  import opened Names
  import opened Protocol
  import opened Invariant
  import opened Preservation
  import opened History
  import opened Theorems
  import opened Corruption

  lemma HarmlessNeverCorrupts(c: Conf, w: World, k: nat, prefix: nat)
    requires Inv(c, w) && Enabled(c, w, Connect(k, prefix)) && Live in w.fs.dir
    requires !SeesStale(c, w.fs, Live, PrefixRead(c, w, k, prefix))
    requires Harmless(w, w.fs.dir[Live], SourceOf(w, w.segs[k].src))
    ensures !CanCorruptSome(c, NextConnect(c, w, k, prefix))
  {
    var v := KeepsHarmlessConnect(Plain, c, w, k, prefix);
    StepHistory(c, w, Connect(k, prefix));
    assert HistoryOk(v);
    NothingCorrupts(Plain, c, NextConnect(c, w, k, prefix), v);
  }

  /** A late frame with bytes the source does not have there. */
  lemma ForeignLateCorrupts(c: Conf, w: World, k: nat, l: Late)
    requires Live in w.fs.dir && Writing(w, k, w.fs.dir[Live]) && w.segs[k].pos == |FileAt(w, Live)|
    requires FileAt(w, Live) <= w.src[w.segs[k].src]
    requires l in w.late && l.ino == w.fs.dir[Live] && l.offset <= |FileAt(w, Live)|
    requires !SliceAt(w.src[w.segs[k].src], l.offset, l.payload)
    ensures CanCorrupt(c, w, Live)
  {
    var f, i, n := FileAt(w, Live), w.segs[k].src, Longest(w.src) + l.offset + |l.payload|;
    var x := GrowsApart(w.src[i], l.offset, l.payload, n + 1);
    var s := w.src[i] + x;
    NoSteps(c, w);
    var steps, w1 := GrowAndFeed(c, w, [], w, k, l.ino, x);
    assert WriteAt(f, |f|, s[|f|..]) == s;
    steps := LeadsOn(c, w, steps, w1, ApplyLate(l));
    WriteShows(s, l.offset, l.payload);
    TooLong(Next(c, w1, ApplyLate(l)), Live, i, n);
  }

  lemma WriteShows(s: Bytes, at: nat, p: Bytes)
    requires at + |p| <= |s| && !SliceAt(s, at, p)
    ensures |WriteAt(s, at, p)| == |s| && !(WriteAt(s, at, p) <= s)
  {
    var r := WriteAt(s, at, p);
    assert r[at..at + |p|] == p;
  }

  /**
   * A live handshake that resumes onto a file leads to a corrupt file in some continuation without
   * any further hazard exactly when what is there, or still on its way there, does not belong to
   * the local inode; and then the live file itself can be the corrupt one.
   */
  lemma AdoptionCorruptsExactly(c: Conf, w: World, k: nat, prefix: nat)
    requires Inv(c, w) && Enabled(c, w, Connect(k, prefix)) && Live in w.fs.dir
    requires !SeesStale(c, w.fs, Live, PrefixRead(c, w, k, prefix))
    ensures CanCorrupt(c, NextConnect(c, w, k, prefix), Live)
       <==> !Harmless(w, w.fs.dir[Live], SourceOf(w, w.segs[k].src))
    ensures CanCorruptSome(c, NextConnect(c, w, k, prefix))
       <==> !Harmless(w, w.fs.dir[Live], SourceOf(w, w.segs[k].src))
  {
    var w' := NextConnect(c, w, k, prefix);
    assert SegOk(c, w, w.segs[k]);
    if Harmless(w, w.fs.dir[Live], SourceOf(w, w.segs[k].src)) {
      HarmlessNeverCorrupts(c, w, k, prefix);
    } else {
      assert Writing(w', k, w.fs.dir[Live]);
      if FileAt(w, Live) <= w.src[w.segs[k].src] {
        var l :| l in w.late && l.ino == w.fs.dir[Live] && !SliceAt(w.src[w.segs[k].src], l.offset, l.payload);
        assert LateFrameIn(Plain, w, l);
        ForeignLateCorrupts(c, w', k, l);
      } else {
        NoSteps(c, w');
        WriterCorrupts(c, w', [], w', k, Live);
      }
    }
  }
}
