/**
 * A segment that was sealed as the fixed orphan before it had shipped anything goes on with a
 * connection that has no descriptor and tracks the live name. What its first frame can lead to.
 */
module Detached {
  import opened Prelude
  import opened Names
  import opened Files
  import opened Protocol
  import opened Invariant
  import opened History
  import opened Preservation
  import opened Lifecycle
  import opened Theorems
  import opened Corruption

  // ----- the frame

  /** The inode the frame goes to: the one under the live name, or a new one. */
  function LiveInode(w: World): nat {
    if Live in w.fs.dir then w.fs.dir[Live] else |w.fs.data|
  }

  /** `s'` is `s` with `x` at `i`, which may be one behind its end. */
  ghost predicate PutAt<T>(s: seq<T>, s': seq<T>, i: nat, x: T) {
    && i <= |s| && |s'| == (if i < |s| then |s| else |s| + 1)
    && s'[i] == x && forall j | 0 <= j < |s| && j != i :: s'[j] == s[j]
  }

  /** `v` is `w` with `chunk` and nothing else under the live name, attributed to `i`. */
  ghost predicate Replaced(w: World, v: World, chunk: Bytes, i: nat) {
    var ino := LiveInode(w);
    && v.src == w.src && v.marks == w.marks && v.late == w.late && v.coord == w.coord && v.taken == w.taken
    && v.fs.dir == w.fs.dir[Live := ino] && v.dirs == w.dirs + [v.fs.dir]
    && PutAt(w.fs.data, v.fs.data, ino, chunk) && PutAt(w.origin, v.origin, ino, i)
  }

  /** The segment after it: it goes on writing, or has ended because it never learnt of the success. */
  function AfterDetached(w: World, g: Seg, n: nat, acked: bool): Seg {
    if acked then g.(conn := Some(Conn(Handler(Live, Some(Fd(LiveInode(w), n))), true)), pos := n) else Dead(g)
  }

  lemma DetachedSender(c: Conf, w: World, k: nat, n: nat, out: Outcome)
    requires Inv(c, w) && Enabled(c, w, Send(k, n, out)) && DetachedCreate(w, k, n, out)
    ensures w.segs[k].target == FixedOrphan && w.segs[k].noResume && w.segs[k].src < |w.src|
    ensures w.segs[k].pos == 0 && w.segs[k].conn.value.h == Handler(Live, None)
    ensures FilesOk(w)
  {
    assert SegOk(c, w, w.segs[k]);
  }

  lemma DetachedFiles(w: World, g: Seg, n: nat, out: Outcome)
    requires FilesOk(w) && g.conn.Some? && g.conn.value.h == Handler(Live, None) && g.pos == 0 && g.src < |w.src|
    requires 0 < n <= |w.src[g.src]| && Delivered(g, out)
    ensures var chunk := Chunk(SourceOf(w, g.src), 0, n);
            && |chunk| == n && chunk <= w.src[g.src]
            && Replaced(w, AfterSend(w, g, n, out), chunk, g.src) && AfterSend(w, g, n, out).segs == w.segs
            && SendFrame(w, g, n).Some?
            && SendFrame(w, g, n).value.h == Handler(Live, Some(Fd(LiveInode(w), n)))
  {
    var chunk, w' := Chunk(SourceOf(w, g.src), 0, n), AfterSend(w, g, n, out);
    assert WriteAt([], 0, chunk) == chunk;
    if Live in w.fs.dir {
      assert w'.fs.data == w.fs.data[LiveInode(w) := chunk] && w'.origin == w.origin[LiveInode(w) := g.src];
    } else {
      assert w'.fs.data == w.fs.data + [chunk] && w'.origin == w.origin + [g.src];
    }
  }

  lemma DetachedEffect(c: Conf, w: World, k: nat, n: nat, out: Outcome)
    requires Inv(c, w) && Enabled(c, w, Send(k, n, out)) && DetachedCreate(w, k, n, out)
    ensures w.segs[k].target == FixedOrphan && w.segs[k].noResume && w.segs[k].src < |w.src|
    ensures var chunk, w' := Chunk(SourceOf(w, w.segs[k].src), 0, n), NextSend(c, w, k, n, out);
            && |chunk| == n && chunk <= w.src[w.segs[k].src]
            && Replaced(w, w', chunk, w.segs[k].src)
            && w'.segs == w.segs[k := AfterDetached(w, w.segs[k], n, out == Acked)]
  {
    DetachedSender(c, w, k, n, out);
    DetachedFiles(w, w.segs[k], n, out);
  }

  // ----- who is in its way

  /** Where the segment's next frame goes, if it goes to `ino` at all. */
  function Reach(g: Seg, ino: nat): nat {
    if g.conn.Some? && g.conn.value.up && g.conn.value.h.fd == Some(Fd(ino, g.pos)) then g.pos else 0
  }

  /** The segment's next frame creates its file, whatever is there. */
  predicate Creates(g: Seg) {
    g.conn.Some? && g.conn.value.up && g.conn.value.h.fd.None? && g.pos == 0
  }

  /** Segment `j` takes the live file for its own. */
  predicate OwnsLive(w: World, j: nat) {
    j < |w.segs| && OpensBlindly(w.segs[j]) && w.segs[j].target == Live
  }

  /**
   * What is under the live name now, filled with zeros up to where `j` writes next, does not begin
   * `j`'s inode; or segment `k` goes on writing there, and reads another inode or is going to lose
   * its bytes to `j`.
   */
  ghost predicate Bad(w: World, k: nat, j: nat, goesOn: bool)
    requires k < |w.segs| && j < |w.segs| && Live in w.fs.dir
  {
    || !(Padded(FileAt(w, Live), Reach(w.segs[j], w.fs.dir[Live])) <= SourceOf(w, w.segs[j].src))
    || (goesOn && (w.segs[j].src != w.segs[k].src || Creates(w.segs[j])))
  }

  ghost predicate Clash(w: World, k: nat, goesOn: bool) {
    && k < |w.segs| && Live in w.fs.dir
    && exists j: nat :: j != k && OwnsLive(w, j) && Bad(w, k, j, goesOn)
  }

  // ----- without a clash nothing can be corrupted

  lemma Loosen(m: Mode, c: Conf, w: World)
    requires Core(Plain, c, w) && Loose(m)
    ensures Core(m, c, w)
  {
    forall l | l in w.late ensures LateFrameIn(m, w, l) {
      assert LateFrameIn(Plain, w, l);
    }
    forall k | 0 <= k < |w.segs| ensures SegIn(m, c, w, w.segs[k]) {
      assert SegIn(Plain, c, w, w.segs[k]);
    }
  }

  lemma ReplacedLists(w: World, v: World, chunk: Bytes, i: nat, n: Name)
    requires HistoryOk(w) && Replaced(w, v, chunk, i) && Listed(v, n)
    ensures Listed(w, n) || n == Live
  {
    if n !in v.fs.dir {
      var x :| 0 <= x < |v.dirs| && n in v.dirs[x];
      assert v.dirs[x] == v.fs.dir || v.dirs[x] == w.dirs[x];
    }
  }

  lemma ReplacedFiles(w: World, v: World, chunk: Bytes, i: nat)
    requires FilesOk(w) && Replaced(w, v, chunk, i) && i < |w.src| && chunk <= w.src[i]
    ensures FilesOk(v)
  {
  }

  /** No delayed frame is on its way to the live file. */
  ghost predicate NothingLate(w: World) {
    forall l | l in w.late :: l.ino != LiveInode(w)
  }

  lemma ReplacedLate(m: Mode, w: World, v: World, chunk: Bytes, i: nat)
    requires FilesOk(w) && FilesOk(v) && LateIn(Plain, w) && Replaced(w, v, chunk, i) && Loose(m) && NothingLate(w)
    ensures LateIn(m, v)
  {
    forall l | l in v.late ensures LateFrameIn(m, v, l) {
      assert LateFrameIn(Plain, w, l);
      assert v.fs.data[l.ino] == w.fs.data[l.ino] && v.origin[l.ino] == w.origin[l.ino];
    }
  }

  lemma FdAwayFromLive(m: Mode, w: World, v: World, g: Seg, path: Name, fd: Fd, chunk: Bytes, i: nat)
    requires FilesOk(w) && FilesOk(v) && DescriptorIn(Plain, w, g, path, fd) && Replaced(w, v, chunk, i)
    requires Loose(m) && g.target != Live
    ensures DescriptorIn(m, v, g, path, fd)
  {
    assert fd.ino != LiveInode(w);
    assert v.fs.data[fd.ino] == w.fs.data[fd.ino] && v.origin[fd.ino] == w.origin[fd.ino];
    assert forall n | n in v.fs.dir && v.fs.dir[n] == fd.ino :: n in w.fs.dir && w.fs.dir[n] == fd.ino;
  }

  lemma ConnAwayFromLive(m: Mode, w: World, v: World, g: Seg, chunk: Bytes, i: nat)
    requires FilesOk(w) && FilesOk(v) && ConnIn(Plain, w, g) && Replaced(w, v, chunk, i) && Loose(m) && g.target != Live
    ensures ConnIn(m, v, g)
  {
    if g.conn.Some? && g.conn.value.up {
      match g.conn.value.h.fd
      case Some(fd) => FdAwayFromLive(m, w, v, g, g.conn.value.h.path, fd, chunk, i);
      case None =>
    }
  }

  /** A segment that has nothing to do with the live name. */
  lemma AwayFromLive(m: Mode, c: Conf, w: World, v: World, g: Seg, chunk: Bytes, i: nat)
    requires FilesOk(w) && FilesOk(v) && SegIn(Plain, c, w, g) && Replaced(w, v, chunk, i) && Loose(m)
    requires forall n | Listed(v, n) :: Listed(w, n) || n == Live
    requires g.target != Live || g.phase == Done
    ensures SegIn(m, c, v, g)
  {
    if g.target != Live {
      ConnAwayFromLive(m, w, v, g, chunk, i);
    }
    assert ControlOk(c, v, g) && NamesFree(v, g);
    assert TargetIn(m, v, g);
  }

  /** A live segment that has not taken the live file for its own. */
  lemma BeforeLive(m: Mode, c: Conf, w: World, v: World, g: Seg, chunk: Bytes, i: nat)
    requires FilesOk(w) && FilesOk(v) && SegIn(Plain, c, w, g) && Replaced(w, v, chunk, i) && Loose(m)
    requires forall n | Listed(v, n) :: Listed(w, n) || n == Live
    requires g.target == Live && g.phase in {Starting, Stale}
    ensures SegIn(m, c, v, g)
  {
    if g.conn.Some? && g.conn.value.up {
      assert g.conn.value.h.fd.value.ino == LiveInode(w);
      assert forall n | n in v.fs.dir && v.fs.dir[n] == LiveInode(w) :: n == Live;
    }
    assert ConnIn(m, v, g);
  }

  lemma ConnOfOwner(m: Mode, w: World, v: World, g: Seg, chunk: Bytes)
    requires FilesOk(w) && FilesOk(v) && ConnIn(Plain, w, g) && Replaced(w, v, chunk, g.src) && Loose(m)
    requires g.target == Live && OpensBlindly(g) && NothingLate(w) && g.src < |w.src|
    requires Padded(chunk, Reach(g, LiveInode(w))) <= w.src[g.src]
    requires m == Shared ==> !Creates(g)
    ensures ConnIn(m, v, g)
  {
    if g.conn.Some? && g.conn.value.up && g.conn.value.h.fd.Some? {
      assert g.conn.value.h.fd.value.ino == LiveInode(w);
      assert forall n | n in v.fs.dir && v.fs.dir[n] == LiveInode(w) :: n == Live;
    }
  }

  /** The segment that has. */
  lemma OwnerOfLive(m: Mode, c: Conf, w: World, v: World, g: Seg, chunk: Bytes)
    requires FilesOk(w) && FilesOk(v) && SegIn(Plain, c, w, g) && Replaced(w, v, chunk, g.src) && Loose(m)
    requires forall n | Listed(v, n) :: Listed(w, n) || n == Live
    requires g.target == Live && OpensBlindly(g) && NothingLate(w)
    requires Padded(chunk, Reach(g, LiveInode(w))) <= w.src[g.src]
    requires m == Shared ==> !Creates(g)
    ensures SegIn(m, c, v, g)
  {
    ConnOfOwner(m, w, v, g, chunk);
    assert TargetIn(m, v, g) && NamesFree(v, g) && ControlOk(c, v, g);
  }

  lemma ConnOfSender(w: World, v: World, g: Seg, n: nat, chunk: Bytes)
    requires FilesOk(w) && FilesOk(v) && Replaced(w, v, chunk, g.src) && g.src < |w.src|
    requires g.phase == Running && g.target == FixedOrphan && |chunk| == n > 0
    ensures ConnIn(Shared, v, AfterDetached(w, g, n, true))
  {
    ReachesInside(Shared, v, LiveInode(w), n);
  }

  lemma SenderGoesOn(c: Conf, w: World, v: World, g: Seg, n: nat, chunk: Bytes)
    requires FilesOk(w) && FilesOk(v) && SegIn(Plain, c, w, g) && Replaced(w, v, chunk, g.src)
    requires forall x | Listed(v, x) :: Listed(w, x) || x == Live
    requires g.phase == Running && g.target == FixedOrphan && |chunk| == n > 0
    ensures SegIn(Shared, c, v, AfterDetached(w, g, n, true))
  {
    ConnOfSender(w, v, g, n, chunk);
    assert ControlOk(c, v, AfterDetached(w, g, n, true));
  }

  lemma SenderEnds(m: Mode, c: Conf, w: World, v: World, g: Seg, n: nat)
    requires SegIn(Plain, c, w, g) && v.src == w.src && v.marks == w.marks
    ensures SegIn(m, c, v, AfterDetached(w, g, n, false))
  {
  }

  /** The segment the frame came from. */
  lemma SenderAfter(m: Mode, c: Conf, w: World, v: World, g: Seg, n: nat, acked: bool, chunk: Bytes, i: nat)
    requires FilesOk(w) && FilesOk(v) && SegIn(Plain, c, w, g) && Replaced(w, v, chunk, i)
    requires forall x | Listed(v, x) :: Listed(w, x) || x == Live
    requires g.phase == Running && g.target == FixedOrphan && |chunk| == n > 0
    requires if acked then m == Shared && i == g.src else Loose(m)
    ensures SegIn(m, c, v, AfterDetached(w, g, n, acked))
  {
    if acked {
      SenderGoesOn(c, w, v, g, n, chunk);
    } else {
      SenderEnds(m, c, w, v, g, n);
    }
  }

  lemma ReplacedTwin(w: World, w': World, chunk: Bytes, i: nat, i': nat) returns (v: World)
    requires FilesOk(w) && HistoryOk(w') && Replaced(w, w', chunk, i)
    ensures Twins(w', v) && v.segs == w'.segs && HistoryOk(v) && Replaced(w, v, chunk, i')
  {
    v := w'.(origin := w'.origin[LiveInode(w) := i']);
    forall x | 0 <= x < |v.dirs| ensures Fits(v.dirs[x], |v.fs.data|) {
      assert Fits(w'.dirs[x], |w'.fs.data|);
    }
  }

  /** Another attribution of the live file, after the frame. */
  lemma Attributed(c: Conf, w: World, k: nat, n: nat, out: Outcome, i: nat) returns (v: World)
    requires Inv(c, w) && Enabled(c, w, Send(k, n, out)) && DetachedCreate(w, k, n, out)
    ensures Twins(NextSend(c, w, k, n, out), v) && v.segs == NextSend(c, w, k, n, out).segs
    ensures Replaced(w, v, Chunk(SourceOf(w, w.segs[k].src), 0, n), i)
    ensures HistoryOk(v) && forall x | Listed(v, x) :: Listed(w, x) || x == Live
  {
    var chunk := Chunk(SourceOf(w, w.segs[k].src), 0, n);
    DetachedEffect(c, w, k, n, out);
    SendHistory(c, w, k, n, out);
    v := ReplacedTwin(w, NextSend(c, w, k, n, out), chunk, w.segs[k].src, i);
    forall x | Listed(v, x) ensures Listed(w, x) || x == Live {
      ReplacedLists(w, v, chunk, i, x);
    }
  }

  /** The other segments, if the owner of the live file, when there is one, fits the new attribution. */
  lemma OthersAfter(m: Mode, c: Conf, w: World, v: World, k: nat, chunk: Bytes, i: nat)
    requires Inv(c, w) && FilesOk(v) && Replaced(w, v, chunk, i) && Loose(m) && NothingLate(w)
    requires forall n | Listed(v, n) :: Listed(w, n) || n == Live
    requires forall j: nat | j != k && OwnsLive(w, j) ::
               && w.segs[j].src == i && i < |w.src| && Padded(chunk, Reach(w.segs[j], LiveInode(w))) <= w.src[i]
               && (m == Shared ==> !Creates(w.segs[j]))
    ensures OthersOk(m, c, w, v, k)
  {
    forall j: nat | j < |w.segs| && j != k ensures SegIn(m, c, v, w.segs[j]) {
      var g := w.segs[j];
      assert SegIn(Plain, c, w, g);
      if g.target != Live || g.phase == Done {
        AwayFromLive(m, c, w, v, g, chunk, i);
      } else if OpensBlindly(g) {
        assert OwnsLive(w, j);
        OwnerOfLive(m, c, w, v, g, chunk);
      } else {
        BeforeLive(m, c, w, v, g, chunk, i);
      }
    }
  }

  lemma AssembleAfter(m: Mode, c: Conf, w: World, v: World, k: nat, n: nat, acked: bool, chunk: Bytes, i: nat)
    requires Inv(c, w) && Replaced(w, v, chunk, i) && Loose(m) && NothingLate(w) && HistoryOk(v)
    requires forall x | Listed(v, x) :: Listed(w, x) || x == Live
    requires InPhase(w, k, Running) && w.segs[k].target == FixedOrphan && |chunk| == n > 0
    requires i < |w.src| && chunk <= w.src[i] && (if acked then m == Shared && i == w.segs[k].src else true)
    requires v.segs == w.segs[k := AfterDetached(w, w.segs[k], n, acked)]
    requires OthersOk(m, c, w, v, k)
    ensures InvIn(m, c, v)
  {
    ReplacedFiles(w, v, chunk, i);
    ReplacedLate(m, w, v, chunk, i);
    assert SegIn(Plain, c, w, w.segs[k]);
    SenderAfter(m, c, w, v, w.segs[k], n, acked, chunk, i);
    Loosen(m, c, w);
    Assemble(m, c, w, v, k, AfterDetached(w, w.segs[k], n, acked));
  }

  lemma FileAfter(w: World, v: World, chunk: Bytes, i: nat)
    requires FilesOk(w) && Replaced(w, v, chunk, i)
    ensures Live in v.fs.dir && v.fs.dir[Live] == LiveInode(w) < |v.fs.data| && FileAt(v, Live) == chunk
  {
  }

  lemma PaddedStarts(f: Bytes, n: nat, s: Bytes)
    requires Padded(f, n) <= s
    ensures f <= s
  {
    assert f <= Padded(f, n);
  }

  /** Whoever owns the live file reads the same inode and does not overwrite it. */
  ghost predicate OwnersShare(w: World, k: nat, chunk: Bytes, i: nat)
    requires i < |w.src|
  {
    forall j: nat | j != k && OwnsLive(w, j) ::
      w.segs[j].src == i && Padded(chunk, Reach(w.segs[j], LiveInode(w))) <= w.src[i] && !Creates(w.segs[j])
  }

  lemma NoClashShares(w: World, w': World, k: nat, chunk: Bytes, i: nat)
    requires FilesOk(w) && k < |w.segs| && i == w.segs[k].src < |w.src| && Replaced(w, w', chunk, i)
    requires |w'.segs| == |w.segs| && w'.segs == w.segs[k := w'.segs[k]] && w'.segs[k].src == i && !Clash(w', k, true)
    ensures OwnersShare(w, k, chunk, i)
  {
    FileAfter(w, w', chunk, i);
    forall j: nat | j != k && OwnsLive(w, j)
      ensures w.segs[j].src == i && Padded(chunk, Reach(w.segs[j], LiveInode(w))) <= w.src[i] && !Creates(w.segs[j])
    {
      assert OwnsLive(w', j) && !Bad(w', k, j, true);
    }
  }

  /** The segment goes on. */
  lemma SharedIsSafe(c: Conf, w: World, k: nat, n: nat)
    requires Inv(c, w) && Enabled(c, w, Send(k, n, Acked)) && DetachedCreate(w, k, n, Acked) && NothingLate(w)
    requires !Clash(NextSend(c, w, k, n, Acked), k, true)
    ensures !CanCorruptSome(c, NextSend(c, w, k, n, Acked))
  {
    var i, chunk, w' := w.segs[k].src, Chunk(SourceOf(w, w.segs[k].src), 0, n), NextSend(c, w, k, n, Acked);
    DetachedEffect(c, w, k, n, Acked);
    NoClashShares(w, w', k, chunk, i);
    var v := Attributed(c, w, k, n, Acked, i);
    ReplacedFiles(w, v, chunk, i);
    OthersAfter(Shared, c, w, v, k, chunk, i);
    AssembleAfter(Shared, c, w, v, k, n, true, chunk, i);
    NothingCorrupts(Shared, c, w', v);
  }

  lemma OneOwner(c: Conf, w: World, j: nat, j': nat)
    requires Inv(c, w) && OwnsLive(w, j) && OwnsLive(w, j')
    ensures j == j'
  {
    assert j < j' ==> Apart(w.segs[j], w.segs[j']);
    assert j' < j ==> Apart(w.segs[j'], w.segs[j]);
  }

  /** What is left begins the inode of whoever owns the live file, as far as it is going to write. */
  ghost predicate OwnersFit(w: World, k: nat, chunk: Bytes) {
    forall j: nat | j != k && OwnsLive(w, j) ::
      Padded(chunk, Reach(w.segs[j], LiveInode(w))) <= SourceOf(w, w.segs[j].src)
  }

  /** The inode the live file may be attributed to when the sender has ended. */
  lemma NewOwner(c: Conf, w: World, k: nat, chunk: Bytes) returns (i: nat)
    requires Inv(c, w) && k < |w.segs| && w.segs[k].src < |w.src| && chunk <= w.src[w.segs[k].src]
    requires OwnersFit(w, k, chunk)
    ensures i < |w.src| && chunk <= w.src[i]
    ensures forall j: nat | j != k && OwnsLive(w, j) ::
              w.segs[j].src == i && Padded(chunk, Reach(w.segs[j], LiveInode(w))) <= w.src[i]
  {
    if j: nat :| j != k && OwnsLive(w, j) {
      i := w.segs[j].src;
      assert SegOk(c, w, w.segs[j]);
      PaddedStarts(chunk, Reach(w.segs[j], LiveInode(w)), w.src[i]);
      forall j': nat | j' != k && OwnsLive(w, j') ensures j' == j {
        OneOwner(c, w, j, j');
      }
    } else {
      i := w.segs[k].src;
    }
  }

  lemma NoClashFits(w: World, w': World, k: nat, chunk: Bytes, i: nat)
    requires FilesOk(w) && k < |w.segs| && Replaced(w, w', chunk, i)
    requires |w'.segs| == |w.segs| && w'.segs == w.segs[k := w'.segs[k]] && !Clash(w', k, false)
    ensures OwnersFit(w, k, chunk)
  {
    FileAfter(w, w', chunk, i);
    forall j: nat | j != k && OwnsLive(w, j)
      ensures Padded(chunk, Reach(w.segs[j], LiveInode(w))) <= SourceOf(w, w.segs[j].src)
    {
      assert OwnsLive(w', j) && !Bad(w', k, j, false);
    }
  }

  /** The segment has ended. */
  lemma LeftoverIsSafe(c: Conf, w: World, k: nat, n: nat)
    requires Inv(c, w) && Enabled(c, w, Send(k, n, AppliedAckLost)) && DetachedCreate(w, k, n, AppliedAckLost)
    requires NothingLate(w) && !Clash(NextSend(c, w, k, n, AppliedAckLost), k, false)
    ensures !CanCorruptSome(c, NextSend(c, w, k, n, AppliedAckLost))
  {
    var chunk, w' := Chunk(SourceOf(w, w.segs[k].src), 0, n), NextSend(c, w, k, n, AppliedAckLost);
    DetachedEffect(c, w, k, n, AppliedAckLost);
    NoClashFits(w, w', k, chunk, w.segs[k].src);
    var i := NewOwner(c, w, k, chunk);
    var v := Attributed(c, w, k, n, AppliedAckLost, i);
    ReplacedFiles(w, v, chunk, i);
    OthersAfter(Leftover, c, w, v, k, chunk, i);
    AssembleAfter(Leftover, c, w, v, k, n, false, chunk, i);
    NothingCorrupts(Leftover, c, w', v);
  }

  // ----- with a clash something can

  /** Both sources grow, and `j` opens the live file at its end. */
  lemma BothGrow(c: Conf, w: World, k: nat, j: nat, xa: Bytes, xb: Bytes) returns (steps: seq<Step>, w': World)
    requires Live in w.fs.dir && Writing(w, k, w.fs.dir[Live]) && Blind(w, j) && w.segs[j].target == Live && j != k
    requires w.segs[j].src != w.segs[k].src && w.segs[j].pos < |w.src[w.segs[j].src] + xa|
    ensures LeadsTo(c, w, steps, w') && w'.fs == w.fs && |w'.segs| == |w.segs| && w'.segs == w.segs[j := w'.segs[j]]
    ensures w'.segs[j].src == w.segs[j].src && Writing(w', j, w.fs.dir[Live]) && Writing(w', k, w.fs.dir[Live])
    ensures w'.segs[j].pos == |FileAt(w, Live)|
    ensures w'.src == w.src[w.segs[j].src := w.src[w.segs[j].src] + xa][w.segs[k].src := w.src[w.segs[k].src] + xb]
  {
    NoSteps(c, w);
    var w1, w2;
    steps, w1 := GrowOn(c, w, [], w, w.segs[j].src, xa);
    steps, w2 := GrowOn(c, w, steps, w1, w.segs[k].src, xb);
    steps, w' := ComesBack(c, w, steps, w2, j);
  }

  /** `j` writes all of its source behind the file. */
  lemma OwnerFeeds(c: Conf, w0: World, steps0: seq<Step>, w: World, j: nat) returns (steps: seq<Step>, w': World)
    requires LeadsTo(c, w0, steps0, w) && Live in w.fs.dir && Writing(w, j, w.fs.dir[Live])
    requires w.segs[j].pos == |FileAt(w, Live)| < |w.src[w.segs[j].src]| && FileAt(w, Live) <= w.src[w.segs[j].src]
    ensures LeadsTo(c, w0, steps, w') && OnlyWrote(w, w', j, w.fs.dir[Live])
    ensures FileAt(w', Live) == w.src[w.segs[j].src]
  {
    var f, s := FileAt(w, Live), w.src[w.segs[j].src];
    steps, w' := FeedTo(c, w0, steps0, w, j, w.fs.dir[Live], |s|);
    assert s[|f|..|s|] == s[|f|..] && WriteAt(f, |f|, s[|f|..]) == s;
  }

  /** `j` writes all of its source behind the file, then `k` writes its own over it up to `upto`. */
  lemma BothFeed(c: Conf, w0: World, steps0: seq<Step>, w: World, k: nat, j: nat, upto: nat) returns (w': World)
    requires LeadsTo(c, w0, steps0, w) && Live in w.fs.dir && j != k
    requires Writing(w, k, w.fs.dir[Live]) && Writing(w, j, w.fs.dir[Live])
    requires w.segs[j].pos == |FileAt(w, Live)| < |w.src[w.segs[j].src]| && FileAt(w, Live) <= w.src[w.segs[j].src]
    requires w.segs[k].pos < upto <= |w.src[w.segs[k].src]|
    ensures exists steps :: LeadsTo(c, w0, steps, w')
    ensures w'.src == w.src && w'.fs.dir == w.fs.dir && w.fs.dir[Live] < |w'.fs.data|
    ensures FileAt(w', Live) == WriteAt(w.src[w.segs[j].src], w.segs[k].pos, w.src[w.segs[k].src][w.segs[k].pos..upto])
  {
    var steps, w1 := OwnerFeeds(c, w0, steps0, w, j);
    steps, w' := FeedTo(c, w0, steps, w1, k, w.fs.dir[Live], upto);
  }

  /** Two segments that both go on writing the live file from different inodes. */
  lemma TwoSourcesCorrupt(c: Conf, w: World, k: nat, j: nat)
    requires Live in w.fs.dir && Writing(w, k, w.fs.dir[Live]) && Blind(w, j) && w.segs[j].target == Live && j != k
    requires w.segs[j].src != w.segs[k].src && w.segs[k].pos == |FileAt(w, Live)| <= |w.src[w.segs[k].src]|
    requires FileAt(w, Live) <= w.src[w.segs[j].src]
    ensures CanCorrupt(c, w, Live)
  {
    var a, b, m := w.segs[j].src, w.segs[k].src, |w.src[w.segs[j].src]| + |w.src[w.segs[k].src]|;
    var long := Longest(w.src) + m + w.segs[j].pos + 2;
    var xa, xb := seq(long - |w.src[a]|, _ => 0 as byte), seq(m + 1 - |w.src[b]|, _ => 1 as byte);
    var sa, sb := w.src[a] + xa, w.src[b] + xb;
    var steps, w1 := BothGrow(c, w, k, j, xa, xb);
    assert w1.src[a] == sa && w1.src[b] == sb && FileAt(w, Live) <= sa;
    var w2 := BothFeed(c, w, steps, w1, k, j, m + 1);
    assert sa[m] == 0 && sb[m] == 1;
    MixShows(sa, sb, |FileAt(w, Live)|, m);
    TooLong(w2, Live, a, Longest(w.src) + m + 1);
  }

  lemma MixShows(sa: Bytes, sb: Bytes, at: nat, m: nat)
    requires at <= m < |sb| && m + 1 < |sa| && sa[m] != sb[m]
    ensures |WriteAt(sa, at, sb[at..m + 1])| == |sa| && !(WriteAt(sa, at, sb[at..m + 1]) <= sa)
  {
    assert WriteAt(sa, at, sb[at..m + 1])[m] == sb[at..m + 1][m - at] == sb[m];
  }

  /** A segment without descriptor creates the live file although it is there. */
  lemma CreateOver(c: Conf, w0: World, steps0: seq<Step>, w: World, j: nat) returns (steps: seq<Step>, w': World)
    requires LeadsTo(c, w0, steps0, w) && InPhase(w, j, Running) && Creates(w.segs[j]) && w.segs[j].src < |w.src|
    requires w.segs[j].conn.value.h.path == Live == w.segs[j].target && w.src[w.segs[j].src] != []
    requires Live in w.fs.dir && w.fs.dir[Live] < |w.fs.data|
    ensures LeadsTo(c, w0, steps, w') && w'.src == w.src && w'.fs.dir == w.fs.dir && |w'.fs.data| == |w.fs.data|
    ensures |w'.segs| == |w.segs| && w'.segs == w.segs[j := w'.segs[j]]
    ensures FileAt(w', Live) == [w.src[w.segs[j].src][0]]
  {
    var s := w.src[w.segs[j].src];
    assert Chunk(s, 0, 1) == [s[0]] && WriteAt([], 0, [s[0]]) == [s[0]];
    assert SendFrame(w, w.segs[j], 1).Some?;
    steps := LeadsOn(c, w0, steps0, w, Send(j, 1, Acked));
    w' := NextSend(c, w, j, 1, Acked);
  }

  lemma GapShows(s: Bytes, n: nat)
    requires 0 < n < |s| && s[n] == 1
    ensures |WriteAt([s[0]], n + 1, s[n + 1..])| == |s| && !(WriteAt([s[0]], n + 1, s[n + 1..]) <= s)
  {
    if n + 1 > 1 {
      assert WriteAt([s[0]], n + 1, s[n + 1..])[n] == Zeros(n)[n - 1] == 0;
    }
  }

  /** `k` goes on behind a file that `j` cuts back to one byte. */
  lemma OverwriterCorrupts(c: Conf, w: World, k: nat, j: nat)
    requires Live in w.fs.dir && Writing(w, k, w.fs.dir[Live]) && j != k && InPhase(w, j, Running)
    requires w.segs[j].src == w.segs[k].src && Creates(w.segs[j])
    requires w.segs[j].conn.value.h.path == Live == w.segs[j].target
    requires w.segs[k].pos == |FileAt(w, Live)| <= |w.src[w.segs[k].src]| && FileAt(w, Live) != []
    ensures CanCorrupt(c, w, Live)
  {
    var i, ino := w.segs[k].src, w.fs.dir[Live];
    var n := |w.src[i]|;
    var s := w.src[i] + seq(Longest(w.src) + 2, _ => 1 as byte);
    NoSteps(c, w);
    var steps, w1 := GrowOn(c, w, [], w, i, seq(Longest(w.src) + 2, _ => 1 as byte));
    var w2, w3, w4;
    steps, w2 := FeedTo(c, w, steps, w1, k, ino, n + 1);
    steps, w3 := CreateOver(c, w, steps, w2, j);
    steps, w4 := FeedTo(c, w, steps, w3, k, ino, |s|);
    assert s[n + 1..|s|] == s[n + 1..];
    GapShows(s, n);
    TooLong(w4, Live, i, Longest(w.src));
  }

  lemma ClashCorrupts(c: Conf, w: World, k: nat, n: nat, out: Outcome)
    requires Inv(c, w) && Enabled(c, w, Send(k, n, out)) && DetachedCreate(w, k, n, out)
    requires Clash(NextSend(c, w, k, n, out), k, out == Acked)
    ensures CanCorrupt(c, NextSend(c, w, k, n, out), Live)
  {
    var w', chunk := NextSend(c, w, k, n, out), Chunk(SourceOf(w, w.segs[k].src), 0, n);
    DetachedEffect(c, w, k, n, out);
    FileAfter(w, w', chunk, w.segs[k].src);
    var j: nat :| j != k && OwnsLive(w', j) && Bad(w', k, j, out == Acked);
    CoreIsControl(Plain, c, w);
    StepKeepsControl(c, w, Send(k, n, out));
    OpenersAreBlind(c, w', j);
    assert SegOk(c, w, w.segs[j]);
    OwnerCorrupts(c, w', k, j, out == Acked);
  }

  lemma OwnerCorrupts(c: Conf, w: World, k: nat, j: nat, goesOn: bool)
    requires k < |w.segs| && j != k && OwnsLive(w, j) && Blind(w, j) && Live in w.fs.dir && w.fs.dir[Live] < |w.fs.data|
    requires Bad(w, k, j, goesOn) && FileAt(w, Live) != []
    requires w.segs[j].conn.Some? && w.segs[j].conn.value.up && w.segs[j].conn.value.h.fd.None? ==>
               w.segs[j].conn.value.h.path == Live
    requires w.segs[j].phase == Reopening ==> w.segs[j].conn.None?
    requires goesOn ==>
               && Writing(w, k, w.fs.dir[Live]) && w.segs[k].pos == |FileAt(w, Live)|
               && FileAt(w, Live) <= w.src[w.segs[k].src]
    ensures CanCorrupt(c, w, Live)
  {
    var f, s, q := FileAt(w, Live), w.src[w.segs[j].src], Reach(w.segs[j], w.fs.dir[Live]);
    if !(f <= s) {
      BlindCorrupts(c, w, j);
    } else if !(Padded(f, q) <= s) {
      NoSteps(c, w);
      WriterCorrupts(c, w, [], w, j, Live);
    } else if w.segs[j].src != w.segs[k].src {
      TwoSourcesCorrupt(c, w, k, j);
    } else {
      OverwriterCorrupts(c, w, k, j);
    }
  }

  /**
   * A frame without descriptor that reaches the server, acknowledged or not, lets some continuation
   * without a further hazard corrupt a file exactly when a segment that takes the live file for its
   * own clashes with it (`Clash`); and then the live file itself can be the corrupt one.
   */
  lemma DetachedFrameCorruptsExactly(c: Conf, w: World, k: nat, n: nat, out: Outcome)
    requires Inv(c, w) && Enabled(c, w, Send(k, n, out)) && DetachedCreate(w, k, n, out) && NothingLate(w)
    ensures CanCorruptSome(c, NextSend(c, w, k, n, out)) <==> Clash(NextSend(c, w, k, n, out), k, out == Acked)
    ensures CanCorrupt(c, NextSend(c, w, k, n, out), Live) <==> Clash(NextSend(c, w, k, n, out), k, out == Acked)
  {
    if Clash(NextSend(c, w, k, n, out), k, out == Acked) {
      ClashCorrupts(c, w, k, n, out);
    } else if out == Acked {
      SharedIsSafe(c, w, k, n);
    } else {
      LeftoverIsSafe(c, w, k, n);
    }
  }
}
