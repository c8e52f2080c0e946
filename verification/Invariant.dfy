/** What every sound step of the protocol keeps. */
module Invariant {
  import opened Prelude
  import opened Names
  import opened Markers
  import opened Files
  import opened Protocol

  // ----- the server's files

  /** Every inode holds a prefix of the local inode it was made for. */
  ghost predicate FilesOk(w: World) {
    && DirOk(w.fs)
    && |w.origin| == |w.fs.data|
    && (forall i | 0 <= i < |w.origin| :: w.origin[i] < |w.src| && w.fs.data[i] <= w.src[w.origin[i]])
  }

  /** Every entry names an inode, and no inode has two names. */
  ghost predicate Fits(dir: map<Name, nat>, inodes: nat) {
    && (forall n | n in dir :: dir[n] < inodes)
    && (forall n, m | n in dir && m in dir && dir[n] == dir[m] :: n == m)
  }

  /** The directory's history ends with the present, and every state in it is a proper directory. */
  ghost predicate HistoryOk(w: World) {
    && w.dirs != [] && w.dirs[|w.dirs| - 1] == w.fs.dir
    && forall i | 0 <= i < |w.dirs| :: Fits(w.dirs[i], |w.fs.data|)
  }

  /**
   * How strict the invariant is. `Plain` is what every step that is not a hazard keeps. `Unrolled`
   * holds in addition until a crash brings an entry back. The other two are weaker: they are kept
   * just as well, and describe what is left after a file was created under the wrong name, by a
   * segment that goes on writing to it (`Shared`) or has ended (`Leftover`).
   */
  datatype Mode = Unrolled | Plain | Shared | Leftover

  predicate Loose(m: Mode) {
    m == Shared || m == Leftover
  }

  /** Writing at `at` leaves no gap; or, when loose, none but over zeros of the source. */
  ghost predicate Reaches(m: Mode, w: World, ino: nat, at: nat)
    requires ino < |w.fs.data| && ino < |w.origin| && w.origin[ino] < |w.src|
  {
    if Loose(m) then Padded(w.fs.data[ino], at) <= w.src[w.origin[ino]] else at <= |w.fs.data[ino]|
  }

  /** Late frames carry bytes of the right source and cannot leave a gap. */
  ghost predicate LateIn(m: Mode, w: World) {
    forall l | l in w.late :: LateFrameIn(m, w, l)
  }

  ghost predicate LateFrameIn(m: Mode, w: World, l: Late) {
    && l.ino < |w.origin| && l.ino < |w.fs.data| && w.origin[l.ino] < |w.src|
    && Reaches(m, w, l.ino, l.offset) && l.payload != []
    && SliceAt(w.src[w.origin[l.ino]], l.offset, l.payload)
  }

  // ----- one segment

  /** The target history is an initial part of live -> sealed -> final, as the request says. */
  ghost predicate Chain(w: World, g: Seg) {
    && |g.past| <= 2
    && (|g.past| == 0 ==> g.target == Live)
    && (|g.past| == 1 ==> g.past == [Live] && g.pending.Some? && g.target == g.pending.value.name)
    && (|g.past| == 2 ==>
          && g.pending.Some? && !g.pending.value.isOrphan && g.past == [Live, g.pending.value.name]
          && g.pending.value.iso in w.marks.shas
          && g.target == Final(g.pending.value.iso, w.marks.shas[g.pending.value.iso]))
  }

  ghost predicate RequestOk(c: Conf, w: World, r: Request) {
    && IsIso(r.iso)
    && if r.isOrphan then r.name == StaleName(c, r.iso)
       else r.name == Sealed(r.iso) && r.iso in w.marks.waiting
  }

  ghost predicate Roles(c: Conf, g: Seg) {
    && (g.sealed ==> g.past != [] && !g.roleLive)
    && (g.phase in {Starting, Stale, Reopening} ==> g.past == [] && !g.sealed && g.roleLive)
    && (g.phase in {Starting, Reopening, Done} ==> g.conn.None?)
    && (g.phase == Stale ==> g.conn.Some? && g.conn.value.h.fd.Some?)
    && (g.noResume <==> g.sealed && FailClosed(c, g))
    && (g.phase != Done && g.target == FixedOrphan ==> g.noResume && g.conn.Some?)
  }

  /**
   * A working connection writes a file of the segment's own source, and nobody else's; when loose,
   * a descriptor may also be where the next frame will be rejected.
   */
  ghost predicate ConnIn(m: Mode, w: World, g: Seg) {
    g.conn.Some? && g.conn.value.up ==>
      match g.conn.value.h.fd
      case Some(fd) => DescriptorIn(m, w, g, g.conn.value.h.path, fd)
      case None => NoDescriptorIn(m, w, g, g.conn.value.h.path)
  }

  ghost predicate DescriptorIn(m: Mode, w: World, g: Seg, path: Name, fd: Fd) {
    && fd.ino < |w.fs.data| && fd.ino < |w.origin|
    && (g.phase != Stale ==>
          && w.origin[fd.ino] == g.src < |w.src|
          && ((Loose(m) && g.pos != fd.pos) || Reaches(m, w, fd.ino, fd.pos)))
    && if m == Shared && g.target == FixedOrphan then
         forall n | n in w.fs.dir && w.fs.dir[n] == fd.ino && n != FixedOrphan :: w.fs.data[fd.ino] != []
       else
         && path == g.target
         && (forall n | n in w.fs.dir && w.fs.dir[n] == fd.ino :: n == path)
         && (path != FixedOrphan ==> path in w.fs.dir && w.fs.dir[path] == fd.ino)
  }

  ghost predicate NoDescriptorIn(m: Mode, w: World, g: Seg, path: Name) {
    if path == g.target then
      && path != FixedOrphan
      && (path in w.fs.dir ==>
            match m
            case Shared => g.pos != 0
            case Leftover => forall l | l in w.late :: l.ino != w.fs.dir[path]
            case _ => false)
    else path == Live && (Loose(m) || g.target == FixedOrphan)
  }

  /** Whatever is already under the segment's target came from its own source. */
  ghost predicate TargetIn(m: Mode, w: World, g: Seg) {
    && (OpensBlindly(g) && g.target in w.fs.dir ==>
          w.fs.dir[g.target] < |w.origin| && w.origin[w.fs.dir[g.target]] == g.src)
    && (m == Unrolled && g.phase == Reopening ==> Live !in w.fs.dir)
  }

  /** The names a segment will still move to are not on the server yet, nor can a crash bring them back. */
  ghost predicate NamesFree(w: World, g: Seg) {
    g.phase != Done && g.pending.Some? ==>
      && (g.past == [] && g.pending.value.name != FixedOrphan ==> !Listed(w, g.pending.value.name))
      && (!g.pending.value.isOrphan && |g.past| < 2 ==> forall sha :: !Listed(w, Final(g.pending.value.iso, sha)))
  }

  /** What a segment does, whatever the server holds. */
  ghost predicate ControlOk(c: Conf, w: World, g: Seg) {
    && g.src < |w.src| && g.prefix <= w.src[g.src]
    && Chain(w, g)
    && (g.pending.Some? ==> RequestOk(c, w, g.pending.value))
    && Roles(c, g)
  }

  ghost predicate SegIn(m: Mode, c: Conf, w: World, g: Seg) {
    && ControlOk(c, w, g)
    && ConnIn(m, w, g)
    && TargetIn(m, w, g)
    && NamesFree(w, g)
  }

  ghost predicate SegOk(c: Conf, w: World, g: Seg) {
    SegIn(Plain, c, w, g)
  }

  ghost predicate SegsIn(m: Mode, c: Conf, w: World) {
    forall k | 0 <= k < |w.segs| :: SegIn(m, c, w, w.segs[k])
  }

  // ----- segments against each other

  /** Two running segments share a name only if it is the fixed orphan name. */
  ghost predicate Apart(g: Seg, g': Seg) {
    g.phase != Done && g'.phase != Done ==>
      && (g.target == g'.target ==> g.target == FixedOrphan)
      && (g.pending.Some? && g'.pending.Some? && g.pending.value.name == g'.pending.value.name ==>
            g.pending.value.name == FixedOrphan)
  }

  ghost predicate SegsApart(w: World) {
    forall j, k | 0 <= j < k < |w.segs| :: Apart(w.segs[j], w.segs[k])
  }

  // ----- the coordinator

  /** Marker timestamps that are used up: by completed seals or by the one in progress. */
  ghost predicate Used(w: World, iso: string) {
    || iso in w.coord.consumed
    || (LiveSeg(w).Some? && LiveSeg(w).value.pending.Some? && LiveSeg(w).value.pending.value.iso == iso)
  }

  ghost predicate IsosUsed(w: World) {
    && (forall k | 0 <= k < |w.segs| && w.segs[k].pending.Some? :: Used(w, w.segs[k].pending.value.iso))
    && (forall j, k | 0 <= j < k < |w.segs| :: IsosApart(w.segs[j], w.segs[k]))
  }

  ghost predicate IsosOk(w: World) {
    && IsosUsed(w)
    && (forall n | Listed(w, n) && (n.Sealed? || n.Final?) :: n.iso in w.taken || Used(w, n.iso))
  }

  ghost predicate IsosApart(g: Seg, g': Seg) {
    g.pending.Some? && !g.pending.value.isOrphan && g'.pending.Some? && !g'.pending.value.isOrphan ==>
      g.pending.value.iso != g'.pending.value.iso
  }

  /** Every running segment is the live one or is on its way out. */
  ghost predicate CoordOk(w: World) {
    && (w.coord.live.Some? ==> w.coord.live.value < |w.segs| && w.coord.live.value !in w.coord.closing)
    && (w.coord.last.Some? ==> w.coord.live.Some?)
    && (forall k | k in w.coord.closing :: k < |w.segs| && (w.segs[k].phase == Done || w.segs[k].sealed))
    && (forall k | 0 <= k < |w.segs| && w.segs[k].phase != Done ::
          w.coord.live == Some(k) || k in w.coord.closing)
  }

  /** The part of the invariant that is about segments and coordinator alone; every step keeps it. */
  ghost predicate Control(c: Conf, w: World) {
    && MarksOk(w.marks) && IsosUsed(w) && CoordOk(w)
    && (forall k | 0 <= k < |w.segs| :: ControlOk(c, w, w.segs[k]))
  }

  /** All but the directory's history. */
  ghost predicate Core(m: Mode, c: Conf, w: World) {
    && FilesOk(w) && LateIn(m, w) && MarksOk(w.marks)
    && SegsIn(m, c, w) && SegsApart(w) && IsosOk(w) && CoordOk(w)
  }

  ghost predicate InvIn(m: Mode, c: Conf, w: World) {
    HistoryOk(w) && Core(m, c, w)
  }

  /** What every step that is not a hazard keeps. */
  ghost predicate Inv(c: Conf, w: World) {
    InvIn(Plain, c, w)
  }

  /** A coordinator that has just started, over any server directory made by this protocol, however well synced. */
  ghost predicate Init(c: Conf, w: World) {
    && FilesOk(w) && HistoryOk(w) && w.late == {} && w.segs == [] && w.marks == Marks([], map[])
    && w.coord == Coord(None, {}, {}, None)
    && (forall n | Listed(w, n) && (n.Sealed? || n.Final?) :: n.iso in w.taken)
  }
}
