/** Every enabled step that is not a hazard keeps the invariant. */
module Preservation {
  import opened Prelude
  import opened Names
  import opened Markers
  import opened Files
  import opened Protocol
  import opened Invariant

  // ----- what a change of the server does to a segment that did not cause it

  /** Sources, marker knowledge and file contents grow; names and origins stay; nothing new is on its way. */
  ghost predicate Grows(w: World, w': World) {
    && |w.src| <= |w'.src| && (forall i | 0 <= i < |w.src| :: w.src[i] <= w'.src[i])
    && w'.fs.dir == w.fs.dir && w'.origin == w.origin
    && |w'.fs.data| == |w.fs.data| && (forall i | 0 <= i < |w.fs.data| :: w.fs.data[i] <= w'.fs.data[i])
    && Extends(w.marks, w'.marks) && w'.late <= w.late && (forall n | Listed(w', n) :: Listed(w, n))
  }

  /** An entry moved from `a` to `b`. */
  ghost predicate Moves(w: World, w': World, a: Name, b: Name) {
    && a in w.fs.dir && a != b
    && w'.fs == w.fs.(dir := (w.fs.dir - {a})[b := w.fs.dir[a]])
    && w'.src == w.src && w'.origin == w.origin && w'.marks == w.marks
    && (forall n | Listed(w', n) :: Listed(w, n) || n == b)
  }

  /** A new inode for source `i` appeared under the free name `n`. */
  ghost predicate Adds(w: World, w': World, n: Name, i: nat) {
    && n !in w.fs.dir
    && w'.fs.dir == w.fs.dir[n := |w.fs.data|]
    && |w'.fs.data| == |w.fs.data| + 1 && w'.fs.data[..|w.fs.data|] == w.fs.data
    && w'.origin == w.origin + [i]
    && w'.src == w.src && w'.marks == w.marks
    && (forall n' | Listed(w', n') :: Listed(w, n') || n' == n)
  }

  /** `n` is neither a name of `g` now nor one it is going to take, except that all may share the fixed orphan name. */
  ghost predicate Foreign(g: Seg, n: Name) {
    g.phase != Done ==>
      && (n != FixedOrphan ==> g.target != n)
      && (g.pending.Some? ==>
            && (g.past == [] && g.pending.value.name != FixedOrphan ==> g.pending.value.name != n)
            && (!g.pending.value.isOrphan && n.Final? ==> n.iso != g.pending.value.iso))
  }

  lemma ReachesGrows(m: Mode, w: World, w': World, ino: nat, at: nat)
    requires FilesOk(w) && FilesOk(w') && Grows(w, w') && ino < |w.fs.data| && Reaches(m, w, ino, at)
    ensures Reaches(m, w', ino, at)
  {
    var s := w'.src[w'.origin[ino]];
    if Loose(m) {
      assert Padded(w.fs.data[ino], at) <= w.src[w.origin[ino]] <= s;
      PaddedGrows(s, w.fs.data[ino], w'.fs.data[ino], at);
    }
  }

  lemma SegGrows(m: Mode, c: Conf, w: World, w': World, g: Seg)
    requires FilesOk(w) && FilesOk(w') && SegIn(m, c, w, g) && Grows(w, w')
    ensures SegIn(m, c, w', g)
  {
    if g.conn.Some? && g.conn.value.up && g.conn.value.h.fd.Some? && g.phase != Stale {
      var fd := g.conn.value.h.fd.value;
      if Reaches(m, w, fd.ino, fd.pos) {
        ReachesGrows(m, w, w', fd.ino, fd.pos);
      }
    }
    assert ConnIn(m, w', g);
  }

  lemma ReachesStays(m: Mode, w: World, w': World, ino: nat, at: nat)
    requires ino < |w.fs.data| && ino < |w.origin| && w.origin[ino] < |w.src| && Reaches(m, w, ino, at)
    requires ino < |w'.fs.data| && ino < |w'.origin| && w'.fs.data[ino] == w.fs.data[ino]
    requires w'.origin[ino] == w.origin[ino] && w'.src == w.src
    ensures Reaches(m, w', ino, at)
  {
  }

  lemma ConnMoves(m: Mode, w: World, w': World, g: Seg, a: Name, b: Name)
    requires FilesOk(w) && ConnIn(m, w, g) && Moves(w, w', a, b) && w'.late == w.late
    requires Foreign(g, a) && Foreign(g, b) && a != FixedOrphan && b != Live && g.phase != Done
    ensures ConnIn(m, w', g)
  {
    assert forall n :: n in w'.fs.dir <==> n == b || (n in w.fs.dir && n != a);
    assert forall n | n in w'.fs.dir && n != b :: w'.fs.dir[n] == w.fs.dir[n];
  }

  lemma SegMoves(m: Mode, c: Conf, w: World, w': World, g: Seg, a: Name, b: Name)
    requires FilesOk(w) && SegIn(m, c, w, g) && Moves(w, w', a, b) && w'.late == w.late
    requires Foreign(g, a) && Foreign(g, b) && a != FixedOrphan && b != Live
    ensures SegIn(m, c, w', g)
  {
    if g.phase != Done {
      ConnMoves(m, w, w', g, a, b);
    }
    assert forall n :: n in w'.fs.dir <==> n == b || (n in w.fs.dir && n != a);
    assert TargetIn(m, w', g);
    assert NamesFree(w', g);
  }

  lemma SegAdds(m: Mode, c: Conf, w: World, w': World, g: Seg, n: Name, i: nat)
    requires FilesOk(w) && SegIn(m, c, w, g) && Adds(w, w', n, i) && w'.late == w.late
    requires Foreign(g, n) && n != FixedOrphan
    ensures SegIn(m, c, w', g)
  {
    assert forall j | 0 <= j < |w.fs.data| :: w'.fs.data[j] == w'.fs.data[..|w.fs.data|][j];
    assert ConnIn(m, w', g);
    assert TargetIn(m, w', g);
    assert NamesFree(w', g);
  }

  // ----- no segment's names are another's

  lemma TargetForeign(m: Mode, c: Conf, w: World, j: nat, k: nat)
    requires Core(m, c, w) && j < |w.segs| && IsActive(w, k) && j != k
    ensures Foreign(w.segs[j], w.segs[k].target)
    ensures w.segs[k].pending.Some? ==> Foreign(w.segs[j], w.segs[k].pending.value.name)
    ensures w.segs[k].pending.Some? && !w.segs[k].pending.value.isOrphan ==>
              forall sha :: Foreign(w.segs[j], Final(w.segs[k].pending.value.iso, sha))
  {
    var g, g' := w.segs[j], w.segs[k];
    assert SegIn(m, c, w, g) && SegIn(m, c, w, g');
    assert j < k ==> Apart(g, g') && IsosApart(g, g');
    assert k < j ==> Apart(g', g) && IsosApart(g', g);
  }

  ghost predicate OthersOk(m: Mode, c: Conf, w: World, w': World, k: nat) {
    forall j | 0 <= j < |w.segs| && j != k :: SegIn(m, c, w', w.segs[j])
  }

  ghost predicate OthersForeign(w: World, k: nat, n: Name) {
    forall j | 0 <= j < |w.segs| && j != k :: Foreign(w.segs[j], n)
  }

  /** Only segment `k` and the server changed, and new marker names belong to `k`. */
  ghost predicate StepOf(w: World, w': World, k: nat, g: Seg) {
    && k < |w.segs| && w'.segs == w.segs[k := g]
    && w'.src == w.src && w'.marks == w.marks && w'.coord == w.coord && w'.taken == w.taken
    && g.pending == w.segs[k].pending && (w.segs[k].sealed ==> g.sealed)
    && (w.segs[k].phase == Done ==> g.phase == Done)
    && (forall n | Listed(w', n) && !Listed(w, n) && (n.Sealed? || n.Final?) ::
          w.segs[k].pending.Some? && n.iso == w.segs[k].pending.value.iso)
  }

  lemma ApartAfter(c: Conf, w: World, w': World, k: nat, g: Seg)
    requires SegsApart(w) && StepOf(w, w', k, g)
    requires g.phase == Done || g.target == w.segs[k].target || OthersForeign(w, k, g.target)
    ensures SegsApart(w')
  {
    forall i, j | 0 <= i < j < |w'.segs| ensures Apart(w'.segs[i], w'.segs[j]) {
      assert Apart(w.segs[i], w.segs[j]);
    }
  }

  lemma IsosAfter(w: World, w': World, k: nat, g: Seg)
    requires IsosOk(w) && StepOf(w, w', k, g)
    ensures IsosOk(w')
  {
    assert LiveSeg(w').Some? <==> LiveSeg(w).Some?;
    forall iso ensures Used(w, iso) <==> Used(w', iso) {
    }
    assert w.segs[k].pending.Some? ==> Used(w, w.segs[k].pending.value.iso);
    forall i, j | 0 <= i < j < |w'.segs| ensures IsosApart(w'.segs[i], w'.segs[j]) {
      assert IsosApart(w.segs[i], w.segs[j]);
    }
  }

  /** What is left to show for a step of segment `k` once its own state and the files are settled. */
  lemma Assemble(m: Mode, c: Conf, w: World, w': World, k: nat, g: Seg)
    requires Core(m, c, w) && StepOf(w, w', k, g)
    requires FilesOk(w') && LateIn(m, w')
    requires SegIn(m, c, w', g) && OthersOk(m, c, w, w', k)
    requires g.phase == Done || g.target == w.segs[k].target || OthersForeign(w, k, g.target)
    ensures Core(m, c, w')
  {
    ApartAfter(c, w, w', k, g);
    IsosAfter(w, w', k, g);
  }

  /** The same when the server did not change. */
  lemma AssembleQuiet(m: Mode, c: Conf, w: World, k: nat, g: Seg)
    requires Core(m, c, w) && StepOf(w, WithSeg(w, k, g), k, g)
    requires SegIn(m, c, w, g)
    requires g.phase == Done || g.target == w.segs[k].target || OthersForeign(w, k, g.target)
    ensures Core(m, c, WithSeg(w, k, g))
  {
    var w' := WithSeg(w, k, g);
    OthersGrow(m, c, w, w', k);
    SegGrows(m, c, w, w', g);
    Assemble(m, c, w, w', k, g);
  }

  /** A segment that keeps its names may change its phase, connection and position. */
  lemma Replace(m: Mode, c: Conf, w: World, k: nat, g: Seg)
    requires Core(m, c, w) && k < |w.segs| && SegIn(m, c, w, g)
    requires g.target == w.segs[k].target && g.pending == w.segs[k].pending && (w.segs[k].sealed ==> g.sealed)
    requires w.segs[k].phase == Done ==> g.phase == Done
    ensures Core(m, c, WithSeg(w, k, g))
  {
    AssembleQuiet(m, c, w, k, g);
  }

  lemma OthersGrow(m: Mode, c: Conf, w: World, w': World, k: nat)
    requires FilesOk(w) && FilesOk(w') && SegsIn(m, c, w) && Grows(w, w')
    ensures OthersOk(m, c, w, w', k)
  {
    forall j | 0 <= j < |w.segs| && j != k ensures SegIn(m, c, w', w.segs[j]) {
      SegGrows(m, c, w, w', w.segs[j]);
    }
  }

  /** Growth alone keeps the invariant. */
  lemma GrowsKeepsInv(m: Mode, c: Conf, w: World, w': World)
    requires Core(m, c, w) && Grows(w, w')
    requires FilesOk(w') && LateIn(m, w') && MarksOk(w'.marks)
    requires w'.segs == w.segs && w'.coord == w.coord && w'.taken == w.taken
    ensures Core(m, c, w')
  {
    OthersGrow(m, c, w, w', |w.segs|);
    forall iso ensures Used(w, iso) <==> Used(w', iso) {
    }
    assert IsosOk(w');
  }

  lemma OwnNamesForeign(m: Mode, c: Conf, w: World, k: nat)
    requires Core(m, c, w) && IsActive(w, k)
    ensures OthersForeign(w, k, w.segs[k].target)
    ensures w.segs[k].pending.Some? ==> OthersForeign(w, k, w.segs[k].pending.value.name)
    ensures w.segs[k].pending.Some? && !w.segs[k].pending.value.isOrphan ==>
              forall sha :: OthersForeign(w, k, Final(w.segs[k].pending.value.iso, sha))
  {
    forall j | 0 <= j < |w.segs| && j != k
      ensures Foreign(w.segs[j], w.segs[k].target)
      ensures w.segs[k].pending.Some? ==> Foreign(w.segs[j], w.segs[k].pending.value.name)
      ensures w.segs[k].pending.Some? && !w.segs[k].pending.value.isOrphan ==>
                forall sha :: Foreign(w.segs[j], Final(w.segs[k].pending.value.iso, sha))
    {
      TargetForeign(m, c, w, j, k);
    }
  }

  // ----- handshakes

  lemma SegAdopts(m: Mode, c: Conf, w: World, w': World, g: Seg, n: Name, i: nat)
    requires FilesOk(w) && FilesOk(w') && SegIn(m, c, w, g)
    requires n in w.fs.dir && w' == w.(origin := w.origin[w.fs.dir[n] := i])
    requires Foreign(g, n) && n != FixedOrphan
    requires Loose(m) ==> w.fs.data[w.fs.dir[n]] == []
    ensures SegIn(m, c, w', g)
  {
    assert ConnIn(m, w', g);
    assert TargetIn(m, w', g);
  }

  /** What the inode holds, and what is on its way to it, belongs to `s`. */
  ghost predicate Harmless(w: World, ino: nat, s: Bytes) {
    && Content(w.fs.data, ino) <= s
    && forall l | l in w.late && l.ino == ino :: SliceAt(s, l.offset, l.payload)
  }

  ghost function Reattributed(w: World, g: Seg): World
    requires g.target in w.fs.dir && w.fs.dir[g.target] < |w.origin|
  {
    w.(origin := w.origin[w.fs.dir[g.target] := g.src])
  }

  /** A file that might as well be the starting segment's own may be attributed to it. */
  lemma ReattributionKeepsInv(m: Mode, c: Conf, w: World, k: nat)
    requires Core(m, c, w) && InPhase(w, k, Starting) && w.segs[k].target in w.fs.dir
    requires Harmless(w, w.fs.dir[w.segs[k].target], SourceOf(w, w.segs[k].src))
    requires Loose(m) ==> Unclaimed(w, w.fs.dir[w.segs[k].target])
    ensures Core(m, c, Reattributed(w, w.segs[k]))
  {
    var g, w' := w.segs[k], Reattributed(w, w.segs[k]);
    assert SegIn(m, c, w, g);
    forall j | 0 <= j < |w.segs| ensures SegIn(m, c, w', w.segs[j]) {
      assert SegIn(m, c, w, w.segs[j]);
      if j != k {
        TargetForeign(m, c, w, j, k);
        SegAdopts(m, c, w, w', w.segs[j], Live, g.src);
      }
    }
    forall l | l in w'.late ensures LateFrameIn(m, w', l) {
      assert LateFrameIn(m, w, l);
    }
    forall iso ensures Used(w, iso) <==> Used(w', iso) {
    }
    assert IsosOk(w');
  }

  lemma AdoptKeepsInv(m: Mode, c: Conf, w: World, k: nat)
    requires Core(m, c, w) && InPhase(w, k, Starting)
    ensures Core(m, c, Adopt(w, w.segs[k]))
  {
    if Adopt(w, w.segs[k]) != w {
      ReattributionKeepsInv(m, c, w, k);
    }
  }

  lemma SelfConnect(m: Mode, c: Conf, w: World, g: Seg, g': Seg)
    requires FilesOk(w) && SegIn(m, c, w, g) && g.conn.None? && g.phase != Done
    requires g' == g.(conn := Opened(w, g), phase := g'.phase, pos := g'.pos, prefix := g'.prefix,
                      reconnects := g'.reconnects)
    requires g'.phase == Running || (g'.phase == Stale && g.phase == Starting && g.target in w.fs.dir)
    requires g'.prefix <= w.src[g.src]
    requires g'.phase == Running && g.target in w.fs.dir ==> w.origin[w.fs.dir[g.target]] == g.src
    ensures SegIn(m, c, w, g')
  {
    assert ConnIn(m, w, g');
    assert Roles(c, g');
  }

  /** A live handshake that resumes onto a file made for another local inode. */
  ghost predicate AdoptsForeign(c: Conf, w: World, k: nat, prefix: nat) {
    && k < |w.segs| && w.segs[k].target in w.fs.dir
    && NextConnect(c, w, k, prefix).segs[k].phase == Running
    && var ino := w.fs.dir[w.segs[k].target];
       ino < |w.origin| && w.origin[ino] != w.segs[k].src && !Unclaimed(w, ino)
  }

  /**
   * A live handshake sees a stale file exactly when the remote file is not empty, the local prefix
   * is not empty, and the remote file does not start with it.
   */
  lemma StaleSeenExactly(c: Conf, w: World, k: nat, prefix: nat)
    requires k < |w.segs| && w.segs[k].roleLive
    requires w.segs[k].target in w.fs.dir ==>
               NoCollision(c, Content(w.fs.data, w.fs.dir[w.segs[k].target]), PrefixRead(c, w, k, prefix))
    ensures NextConnect(c, w, k, prefix).segs[k].phase == Stale
       <==> && w.segs[k].target in w.fs.dir
            && var f, p := Content(w.fs.data, w.fs.dir[w.segs[k].target]), PrefixRead(c, w, k, prefix);
               f != [] && p != [] && !(p <= f)
  {
    if w.segs[k].target in w.fs.dir {
      var f, p := Content(w.fs.data, w.fs.dir[w.segs[k].target]), PrefixRead(c, w, k, prefix);
      assert f[..Min(|p|, |f|)] == p <==> p <= f;
    }
  }

  lemma NoShorterPrefix(p: Bytes, f: Bytes, s: Bytes)
    requires f <= s && !(p <= s)
    ensures !(p <= f)
  {
  }

  /** A handshake that can tell never resumes onto another inode's bytes. */
  lemma WhoCanTellNeverAdopts(m: Mode, c: Conf, w: World, k: nat, prefix: nat)
    requires Core(m, c, w) && Enabled(c, w, Connect(k, prefix)) && CanTell(c, w, k, prefix)
    ensures !AdoptsForeign(c, w, k, prefix)
  {
    var g, p := w.segs[k], PrefixRead(c, w, k, prefix);
    assert SegIn(m, c, w, g);
    if g.target in w.fs.dir {
      var ino := w.fs.dir[g.target];
      var f := Content(w.fs.data, ino);
      if f != [] && w.origin[ino] != g.src {
        StaleSeenExactly(c, w, k, prefix);
        NoShorterPrefix(p, f, w.src[w.origin[ino]]);
      }
    }
  }

  /** Segment `k` opens a connection to its target and becomes `g`. */
  lemma KeepsOpened(m: Mode, c: Conf, w: World, k: nat, g: Seg)
    requires Core(m, c, w) && IsActive(w, k) && w.segs[k].conn.None?
    requires g == w.segs[k].(conn := Opened(w, w.segs[k]), phase := g.phase, pos := g.pos, prefix := g.prefix,
                             reconnects := g.reconnects)
    requires g.phase == Running || (g.phase == Stale && w.segs[k].phase == Starting && g.target in w.fs.dir)
    requires g.prefix <= SourceOf(w, g.src)
    requires g.phase == Running && g.target in w.fs.dir ==>
               w.fs.dir[g.target] < |w.origin| && w.origin[w.fs.dir[g.target]] == g.src
    ensures Core(m, c, WithSeg(w, k, g))
  {
    assert SegIn(m, c, w, w.segs[k]);
    SelfConnect(m, c, w, w.segs[k], g);
    AssembleQuiet(m, c, w, k, g);
  }

  /** The two ways a handshake can end. */
  lemma ConnectShape(c: Conf, w: World, k: nat, prefix: nat)
    requires k < |w.segs|
    ensures var g, w' := w.segs[k], NextConnect(c, w, k, prefix);
            var g' := w'.segs[k];
            && g' == g.(conn := Opened(w, g), phase := g'.phase, pos := g'.pos, prefix := PrefixRead(c, w, k, prefix))
            && PrefixRead(c, w, k, prefix) <= SourceOf(w, g.src)
            && if g'.phase == Stale then g.target in w.fs.dir && w' == WithSeg(w, k, g')
               else g'.phase == Running && w' == WithSeg(Adopt(w, g), k, g')
  {
  }

  /** Resuming onto its own file or an unclaimed one. */
  lemma KeepsAdopted(m: Mode, c: Conf, w: World, k: nat, g: Seg)
    requires Core(m, c, w) && InPhase(w, k, Starting)
    requires g == w.segs[k].(conn := Opened(w, w.segs[k]), phase := Running, pos := g.pos, prefix := g.prefix)
    requires g.prefix <= SourceOf(w, g.src)
    requires g.target in w.fs.dir && w.fs.dir[g.target] < |w.origin| && w.origin[w.fs.dir[g.target]] != g.src ==>
               Unclaimed(w, w.fs.dir[g.target])
    ensures Core(m, c, WithSeg(Adopt(w, w.segs[k]), k, g))
  {
    assert SegIn(m, c, w, w.segs[k]);
    AdoptKeepsInv(m, c, w, k);
    KeepsOpened(m, c, Adopt(w, w.segs[k]), k, g);
  }

  lemma KeepsConnect(m: Mode, c: Conf, w: World, k: nat, prefix: nat)
    requires Core(m, c, w) && Enabled(c, w, Connect(k, prefix)) && !AdoptsForeign(c, w, k, prefix)
    ensures Core(m, c, NextConnect(c, w, k, prefix))
  {
    var g' := NextConnect(c, w, k, prefix).segs[k];
    ConnectShape(c, w, k, prefix);
    assert SegIn(m, c, w, w.segs[k]);
    if g'.phase == Stale {
      KeepsOpened(m, c, w, k, g');
    } else {
      KeepsAdopted(m, c, w, k, g');
    }
  }

  /** Resuming onto a harmless file keeps the invariant once the file is attributed to the segment. */
  lemma KeepsHarmlessConnect(m: Mode, c: Conf, w: World, k: nat, prefix: nat) returns (v: World)
    requires Core(m, c, w) && Enabled(c, w, Connect(k, prefix)) && Live in w.fs.dir
    requires !SeesStale(c, w.fs, Live, PrefixRead(c, w, k, prefix))
    requires !Loose(m) && Harmless(w, w.fs.dir[Live], SourceOf(w, w.segs[k].src))
    ensures Core(m, c, v) && v == NextConnect(c, w, k, prefix).(origin := v.origin)
  {
    var g, g' := w.segs[k], NextConnect(c, w, k, prefix).segs[k];
    assert SegIn(m, c, w, g);
    var w1 := Reattributed(w, g);
    ReattributionKeepsInv(m, c, w, k);
    KeepsOpened(m, c, w1, k, g');
    v := WithSeg(w1, k, g');
  }

  lemma KeepsOpen(m: Mode, c: Conf, w: World, k: nat, s: Step)
    requires s == Reopen(k) || s == Reconnect(k, true) || s == Reconnect(k, false)
    requires Core(m, c, w) && Enabled(c, w, s)
    ensures Core(m, c, Next(c, w, s))
  {
    assert SegIn(m, c, w, w.segs[k]);
    KeepsOpened(m, c, w, k, Next(c, w, s).segs[k]);
  }

  lemma SelfQuiet(m: Mode, c: Conf, w: World, g: Seg, g': Seg)
    requires SegIn(m, c, w, g)
    requires || g' == Dead(g) || g' == g.(cancelled := true)
             || (g.phase == Running && g.past != [] && g.conn.Some? && g.pending.Some? && !g.sealed
                 && g' == NowSealed(c, g))
    ensures SegIn(m, c, w, g')
  {
    assert ConnIn(m, w, g');
    assert TargetIn(m, w, g');
  }

  lemma KeepsQuiet(m: Mode, c: Conf, w: World, k: nat, s: Step)
    requires s == MarkSealed(k) || s == End(k) || s == Cancel(k)
    requires Core(m, c, w) && Enabled(c, w, s)
    ensures Core(m, c, Next(c, w, s))
  {
    assert SegIn(m, c, w, w.segs[k]);
    SelfQuiet(m, c, w, w.segs[k], Next(c, w, s).segs[k]);
    AssembleQuiet(m, c, w, k, Next(c, w, s).segs[k]);
  }

  // ----- data frames

  /** Positions stay good, so a failed send leaves the segment in order. */
  lemma SelfFailedSend(m: Mode, c: Conf, w: World, g: Seg)
    requires SegIn(m, c, w, g) && g.phase == Running
    ensures SegIn(m, c, w, AfterFailedSend(c, w, g))
  {
  }

  lemma ChunkIsSlice(s: Bytes, pos: nat, n: nat)
    requires 0 < n && pos + n <= |s|
    ensures Chunk(s, pos, n) != [] && SliceAt(s, pos, Chunk(s, pos, n))
  {
  }

  /** Where a write may go, the file padded up to there is still a prefix of its source. */
  lemma ReachesPadded(m: Mode, w: World, ino: nat, at: nat)
    requires FilesOk(w) && ino < |w.fs.data| && Reaches(m, w, ino, at)
    ensures Padded(w.fs.data[ino], at) <= w.src[w.origin[ino]]
  {
  }

  lemma ReachesInside(m: Mode, w: World, ino: nat, at: nat)
    requires FilesOk(w) && ino < |w.fs.data| && at <= |w.fs.data[ino]|
    ensures Reaches(m, w, ino, at)
  {
  }

  /** Writing the right slice at a position without a gap keeps every file a prefix. */
  lemma WriteKeepsInv(m: Mode, c: Conf, w: World, w': World, ino: nat, at: nat, p: Bytes)
    requires Core(m, c, w) && ino < |w.origin| && ino < |w.fs.data| && w.origin[ino] < |w.src| && Reaches(m, w, ino, at)
    requires SliceAt(w.src[w.origin[ino]], at, p)
    requires w'.fs == w.fs.(data := SetContent(w.fs.data, ino, WriteAt(Content(w.fs.data, ino), at, p)))
    requires w'.late <= w.late
    requires w' == w.(fs := w'.fs, late := w'.late)
    ensures Core(m, c, w') && Grows(w, w')
    ensures |w'.fs.data[ino]| >= at + |p|
  {
    ReachesPadded(m, w, ino, at);
    WriteKeepsPrefix(w.src[w.origin[ino]], w.fs.data[ino], at, p);
    assert FilesOk(w');
    forall l | l in w'.late ensures LateFrameIn(m, w', l) {
      assert LateFrameIn(m, w, l);
      ReachesGrows(m, w, w', l.ino, l.offset);
    }
    GrowsKeepsInv(m, c, w, w');
  }

  /** The segment would create its target anew although the file is there. */
  ghost predicate Overwrites(w: World, g: Seg, ino: nat) {
    && g.conn.Some? && g.conn.value.up && g.conn.value.h.fd.None? && g.conn.value.h.path == g.target
    && g.target in w.fs.dir && w.fs.dir[g.target] == ino
  }

  lemma SegAddsLate(m: Mode, c: Conf, w: World, g: Seg, l: Late)
    requires SegIn(m, c, w, g) && (m == Leftover ==> !Overwrites(w, g, l.ino))
    ensures SegIn(m, c, w.(late := w.late + {l}), g)
  {
    assert ConnIn(m, w.(late := w.late + {l}), g);
  }

  /** A file that a segment writes is not one that another would create anew. */
  lemma WriterIsAlone(m: Mode, c: Conf, w: World, j: nat, k: nat, ino: nat)
    requires Core(m, c, w) && m == Leftover && j < |w.segs| && IsActive(w, k) && j != k
    requires w.segs[k].conn.Some? && w.segs[k].conn.value.up && w.segs[k].conn.value.h.fd.Some?
    requires w.segs[k].conn.value.h.fd.value.ino == ino
    ensures !Overwrites(w, w.segs[j], ino)
  {
    assert SegIn(m, c, w, w.segs[k]) && SegIn(m, c, w, w.segs[j]);
    TargetForeign(m, c, w, j, k);
  }

  lemma OthersAddLate(m: Mode, c: Conf, w: World, k: nat, l: Late)
    requires Core(m, c, w) && InPhase(w, k, Running)
    requires w.segs[k].conn.Some? && w.segs[k].conn.value.up && w.segs[k].conn.value.h.fd.Some?
    requires w.segs[k].conn.value.h.fd.value.ino == l.ino
    ensures SegsIn(m, c, w.(late := w.late + {l}))
  {
    forall j | 0 <= j < |w.segs| ensures SegIn(m, c, w.(late := w.late + {l}), w.segs[j]) {
      assert SegIn(m, c, w, w.segs[j]);
      if m == Leftover && j != k {
        WriterIsAlone(m, c, w, j, k, l.ino);
      }
      SegAddsLate(m, c, w, w.segs[j], l);
    }
  }

  /** A frame is on its way to the file of the segment that sent it. */
  lemma AddLateKeepsInv(m: Mode, c: Conf, w: World, k: nat, l: Late)
    requires Core(m, c, w) && LateFrameIn(m, w, l) && InPhase(w, k, Running)
    requires w.segs[k].conn.Some? && w.segs[k].conn.value.up && w.segs[k].conn.value.h.fd.Some?
    requires w.segs[k].conn.value.h.fd.value.ino == l.ino
    ensures Core(m, c, w.(late := w.late + {l}))
  {
    var w' := w.(late := w.late + {l});
    OthersAddLate(m, c, w, k, l);
    forall iso ensures Used(w, iso) <==> Used(w', iso) {
    }
    forall n ensures Listed(w, n) <==> Listed(w', n) {
    }
    assert LateIn(m, w') && IsosOk(w');
  }

  lemma OthersAdd(m: Mode, c: Conf, w: World, w': World, k: nat, n: Name, i: nat)
    requires FilesOk(w) && SegsIn(m, c, w) && Adds(w, w', n, i) && w'.late == w.late
    requires OthersForeign(w, k, n) && n != FixedOrphan
    ensures OthersOk(m, c, w, w', k)
  {
    forall j | 0 <= j < |w.segs| && j != k ensures SegIn(m, c, w', w.segs[j]) {
      SegAdds(m, c, w, w', w.segs[j], n, i);
    }
  }

  lemma SelfAdds(m: Mode, c: Conf, w: World, w': World, g: Seg)
    requires FilesOk(w) && SegIn(m, c, w, g) && g.phase == Running && g.conn.None?
    requires Adds(w, w', g.target, g.src) && g.target != FixedOrphan
    ensures SegIn(m, c, w', g)
  {
  }

  lemma AddFiles(m: Mode, w: World, w': World, n: Name, i: nat)
    requires FilesOk(w) && LateIn(m, w) && Adds(w, w', n, i) && w'.late == w.late
    requires i < |w.src| && w'.fs.data[|w.fs.data|] <= w.src[i]
    ensures FilesOk(w') && LateIn(m, w')
  {
    assert forall j | 0 <= j < |w.fs.data| :: w'.fs.data[j] == w'.fs.data[..|w.fs.data|][j];
  }

  /** A first append creates the segment's file: the state with the file but no connection yet. */
  lemma CreateKeepsInv(m: Mode, c: Conf, w: World, w': World, k: nat)
    requires Core(m, c, w) && InPhase(w, k, Running) && w.segs[k].conn.None? && w.segs[k].target != FixedOrphan
    requires Adds(w, w', w.segs[k].target, w.segs[k].src)
    requires w'.fs.data[|w.fs.data|] <= SourceOf(w, w.segs[k].src)
    requires w' == w.(fs := w'.fs, dirs := w'.dirs, origin := w'.origin)
    ensures Core(m, c, w')
  {
    var g := w.segs[k];
    assert SegIn(m, c, w, g);
    OwnNamesForeign(m, c, w, k);
    OthersAdd(m, c, w, w', k, g.target, g.src);
    AddFiles(m, w, w', g.target, g.src);
    SelfAdds(m, c, w, w', g);
    Assemble(m, c, w, w', k, g);
  }

  /** The connection after an accepted frame still points at the segment's own file. */
  lemma SelfWritten(m: Mode, c: Conf, w: World, g: Seg, h: Handler<Name>, pos: nat)
    requires FilesOk(w) && SegIn(m, c, w, g) && g.phase == Running && g.target != FixedOrphan
    requires h.fd.Some? && h.path == g.target && h.path in w.fs.dir
    requires w.fs.dir[h.path] == h.fd.value.ino && h.fd.value.pos <= |w.fs.data[h.fd.value.ino]|
    ensures SegIn(m, c, w, g.(conn := Some(Conn(h, true)), pos := pos))
  {
    assert ConnIn(m, w, g.(conn := Some(Conn(h, true)), pos := pos));
  }

  lemma SelfAdvanced(m: Mode, c: Conf, w: World, g: Seg, at: nat)
    requires FilesOk(w) && SegIn(m, c, w, g) && g.phase == Running && g.conn.Some? && g.conn.value.up
    requires g.conn.value.h.fd.Some? && at <= |Content(w.fs.data, g.conn.value.h.fd.value.ino)|
    ensures var h := g.conn.value.h;
            SegIn(m, c, w, g.(conn := Some(Conn(h.(fd := Some(h.fd.value.(pos := at))), true)), pos := at))
  {
    ReachesInside(m, w, g.conn.value.h.fd.value.ino, at);
  }

  /** A frame through an open descriptor, server side. */
  lemma OpenSendKeepsInv(m: Mode, c: Conf, w: World, k: nat, n: nat, out: Outcome)
    requires Core(m, c, w) && Enabled(c, w, Send(k, n, out)) && w.segs[k].conn.value.h.fd.Some?
    ensures Core(m, c, AfterSend(w, w.segs[k], n, out))
    ensures SendAcked(w, w.segs[k], n, out) ==>
              |Content(AfterSend(w, w.segs[k], n, out).fs.data, w.segs[k].conn.value.h.fd.value.ino)|
                >= w.segs[k].pos + |Chunk(SourceOf(w, w.segs[k].src), w.segs[k].pos, n)|
  {
    var g := w.segs[k];
    assert SegIn(m, c, w, g);
    var h, chunk := g.conn.value.h, Chunk(SourceOf(w, g.src), g.pos, n);
    ChunkIsSlice(SourceOf(w, g.src), g.pos, n);
    if SendFrame(w, g, n).Some? && g.conn.value.up {
      if Delivered(g, out) {
        WriteKeepsInv(m, c, w, AfterSend(w, g, n, out), h.fd.value.ino, g.pos, chunk);
      } else if out == Delayed {
        AddLateKeepsInv(m, c, w, k, Late(h.fd.value.ino, g.pos, chunk));
      }
    }
  }

  lemma SelfSentOpen(m: Mode, c: Conf, w: World, w1: World, g: Seg, n: nat, out: Outcome)
    requires FilesOk(w1) && SegIn(m, c, w1, g) && g.phase == Running && w1.src == w.src
    requires g.conn.Some? && g.conn.value.h.fd.Some?
    requires SendAcked(w, g, n, out) ==>
               |Content(w1.fs.data, g.conn.value.h.fd.value.ino)| >= g.pos + |Chunk(SourceOf(w, g.src), g.pos, n)|
    ensures SegIn(m, c, w1, SegAfterSend(c, w, g, n, out))
  {
    if SendAcked(w, g, n, out) {
      var at := g.pos + |Chunk(SourceOf(w, g.src), g.pos, n)|;
      SelfAdvanced(m, c, w1, g, at);
    } else {
      SelfFailedSend(m, c, w1, g);
    }
  }

  lemma FinishSendOpen(m: Mode, c: Conf, w: World, w1: World, k: nat, g: Seg, n: nat, out: Outcome)
    requires Core(m, c, w1) && k < |w1.segs| && w1.segs[k] == g && w1.src == w.src
    requires g.phase == Running && g.conn.Some? && g.conn.value.h.fd.Some?
    requires SendAcked(w, g, n, out) ==>
               |Content(w1.fs.data, g.conn.value.h.fd.value.ino)| >= g.pos + |Chunk(SourceOf(w, g.src), g.pos, n)|
    ensures Core(m, c, WithSeg(w1, k, SegAfterSend(c, w, g, n, out)))
  {
    assert SegIn(m, c, w1, w1.segs[k]);
    SelfSentOpen(m, c, w, w1, g, n, out);
    Replace(m, c, w1, k, SegAfterSend(c, w, g, n, out));
  }

  lemma KeepsSendOpen(m: Mode, c: Conf, w: World, k: nat, n: nat, out: Outcome)
    requires Core(m, c, w) && Enabled(c, w, Send(k, n, out)) && w.segs[k].conn.value.h.fd.Some?
    ensures Core(m, c, NextSend(c, w, k, n, out))
  {
    OpenSendKeepsInv(m, c, w, k, n, out);
    FinishSendOpen(m, c, w, AfterSend(w, w.segs[k], n, out), k, w.segs[k], n, out);
  }

  /** A first append, which creates the file, server side. */
  lemma NewSendAdds(w: World, g: Seg, n: nat, out: Outcome)
    requires g.conn.Some? && g.conn.value.h.fd.None? && g.conn.value.h.path !in w.fs.dir
    requires Delivered(g, out) && SendFrame(w, g, n).Some? && 0 < n && g.pos + n <= |SourceOf(w, g.src)|
    ensures var h, w' := SendFrame(w, g, n).value.h, AfterSend(w, g, n, out);
            && Adds(w, w', g.conn.value.h.path, g.src)
            && w'.fs.data[|w.fs.data|] == Chunk(SourceOf(w, g.src), 0, n) <= SourceOf(w, g.src)
            && w'.fs.data[|w.fs.data|] != []
            && h == Handler(g.conn.value.h.path, Some(Fd(|w.fs.data|, |w'.fs.data[|w.fs.data|]|)))
            && w' == w.(fs := w'.fs, dirs := w'.dirs, origin := w'.origin)
  {
    var chunk := Chunk(SourceOf(w, g.src), g.pos, n);
    ChunkIsSlice(SourceOf(w, g.src), g.pos, n);
    assert WriteAt([], 0, chunk) == chunk;
    var w' := AfterSend(w, g, n, out);
    assert w'.fs.data == w.fs.data + [chunk];
    forall m | Listed(w', m) ensures Listed(w, m) || m == g.conn.value.h.path {
      if m !in w'.fs.dir {
        var i :| 0 <= i < |w'.dirs| && m in w'.dirs[i];
        assert i < |w.dirs| ==> w'.dirs[i] == w.dirs[i];
      }
    }
  }

  lemma NewSendKeepsInv(m: Mode, c: Conf, w: World, k: nat, n: nat, out: Outcome)
    requires Core(m, c, w) && InPhase(w, k, Running) && w.segs[k].conn.Some? && w.segs[k].target != FixedOrphan
    requires w.segs[k].conn.value.h.path == w.segs[k].target && w.segs[k].target !in w.fs.dir
    requires Adds(w, AfterSend(w, w.segs[k], n, out), w.segs[k].target, w.segs[k].src)
    requires AfterSend(w, w.segs[k], n, out).fs.data[|w.fs.data|] <= SourceOf(w, w.segs[k].src)
    requires AfterSend(w, w.segs[k], n, out) == w.(fs := AfterSend(w, w.segs[k], n, out).fs,
                                                dirs := AfterSend(w, w.segs[k], n, out).dirs,
                                                origin := AfterSend(w, w.segs[k], n, out).origin)
    ensures Core(m, c, WithSeg(AfterSend(w, w.segs[k], n, out), k, w.segs[k].(conn := None)))
  {
    var g0 := w.segs[k].(conn := None);
    assert SegIn(m, c, w, w.segs[k]);
    assert SegIn(m, c, w, g0);
    Replace(m, c, w, k, g0);
    CreateKeepsInv(m, c, WithSeg(w, k, g0), WithSeg(AfterSend(w, w.segs[k], n, out), k, g0), k);
  }

  lemma SelfSentNew(m: Mode, c: Conf, w: World, w1: World, g: Seg, n: nat, out: Outcome)
    requires FilesOk(w1) && SegIn(m, c, w1, g.(conn := None)) && g.phase == Running && w1.src == w.src
    requires SendFrame(w, g, n).Some? && g.target != FixedOrphan
    requires var h := SendFrame(w, g, n).value.h;
             && h.fd.Some? && h.path == g.target && h.path in w1.fs.dir
             && w1.fs.dir[h.path] == h.fd.value.ino && h.fd.value.pos <= |Content(w1.fs.data, h.fd.value.ino)|
    ensures SegIn(m, c, w1, SegAfterSend(c, w, g, n, out))
  {
    var g0 := g.(conn := None);
    if SendAcked(w, g, n, out) {
      SelfWritten(m, c, w1, g0, SendFrame(w, g, n).value.h, SegAfterSend(c, w, g, n, out).pos);
    } else {
      SelfFailedSend(m, c, w1, g0);
    }
  }

  lemma FinishSendNew(m: Mode, c: Conf, w: World, w1: World, k: nat, g: Seg, n: nat, out: Outcome)
    requires k < |w1.segs| && Core(m, c, WithSeg(w1, k, g.(conn := None))) && g.phase == Running && w1.src == w.src
    requires SendFrame(w, g, n).Some? && g.target != FixedOrphan
    requires var h := SendFrame(w, g, n).value.h;
             && h.fd.Some? && h.path == g.target && h.path in w1.fs.dir
             && w1.fs.dir[h.path] == h.fd.value.ino && h.fd.value.pos <= |Content(w1.fs.data, h.fd.value.ino)|
    ensures Core(m, c, WithSeg(w1, k, SegAfterSend(c, w, g, n, out)))
  {
    var w2 := WithSeg(w1, k, g.(conn := None));
    assert SegIn(m, c, w2, w2.segs[k]);
    SelfSentNew(m, c, w, w2, g, n, out);
    Replace(m, c, w2, k, SegAfterSend(c, w, g, n, out));
    assert WithSeg(w2, k, SegAfterSend(c, w, g, n, out)) == WithSeg(w1, k, SegAfterSend(c, w, g, n, out));
  }

  // A segment creates its file although there is one, left over from a segment that has ended.

  lemma SegOverwritten(m: Mode, c: Conf, w: World, w': World, g: Seg, ino: nat)
    requires FilesOk(w) && FilesOk(w') && SegIn(m, c, w, g) && m == Leftover
    requires w' == w.(fs := w'.fs, dirs := w'.dirs) && w'.fs.dir == w.fs.dir && |w'.fs.data| == |w.fs.data|
    requires forall i | 0 <= i < |w.fs.data| && i != ino :: w'.fs.data[i] == w.fs.data[i]
    requires forall n | Listed(w', n) :: Listed(w, n)
    requires g.conn.Some? && g.conn.value.up && g.conn.value.h.fd.Some? ==> g.conn.value.h.fd.value.ino != ino
    ensures SegIn(m, c, w', g)
  {
    assert ConnIn(m, w', g);
    assert TargetIn(m, w', g);
  }

  lemma OverwriteCore(m: Mode, c: Conf, w: World, w': World, k: nat)
    requires Core(m, c, w) && m == Leftover && InPhase(w, k, Running) && w.segs[k].conn.None?
    requires w.segs[k].target in w.fs.dir && w.segs[k].target != FixedOrphan && FilesOk(w')
    requires w' == w.(fs := w'.fs, dirs := w'.dirs) && w'.fs.dir == w.fs.dir && |w'.fs.data| == |w.fs.data|
    requires forall i | 0 <= i < |w.fs.data| && i != w.fs.dir[w.segs[k].target] :: w'.fs.data[i] == w.fs.data[i]
    requires forall n | Listed(w', n) :: Listed(w, n)
    requires forall l | l in w.late :: l.ino != w.fs.dir[w.segs[k].target]
    ensures Core(m, c, w')
  {
    var ino := w.fs.dir[w.segs[k].target];
    forall j | 0 <= j < |w.segs| ensures SegIn(m, c, w', w.segs[j]) {
      assert SegIn(m, c, w, w.segs[j]);
      if j != k {
        TargetForeign(m, c, w, j, k);
      }
      SegOverwritten(m, c, w, w', w.segs[j], ino);
    }
    forall l | l in w'.late ensures LateFrameIn(m, w', l) {
      assert LateFrameIn(m, w, l);
    }
    forall iso ensures Used(w, iso) <==> Used(w', iso) {
    }
    assert IsosOk(w');
  }

  lemma OverwriteEffect(w: World, g: Seg, n: nat, out: Outcome)
    requires FilesOk(w) && g.conn.Some? && g.conn.value.h.fd.None? && g.conn.value.h.path in w.fs.dir
    requires Delivered(g, out) && SendFrame(w, g, n).Some? && 0 < n && g.pos + n <= |SourceOf(w, g.src)|
    requires w.origin[w.fs.dir[g.conn.value.h.path]] == g.src
    ensures var h, w', ino := SendFrame(w, g, n).value.h, AfterSend(w, g, n, out), w.fs.dir[g.conn.value.h.path];
            && w' == w.(fs := w'.fs, dirs := w.dirs + [w.fs.dir]) && w'.fs.dir == w.fs.dir
            && w'.fs.data == w.fs.data[ino := Chunk(SourceOf(w, g.src), 0, n)]
            && h == Handler(g.conn.value.h.path, Some(Fd(ino, |w'.fs.data[ino]|)))
            && Chunk(SourceOf(w, g.src), 0, n) <= SourceOf(w, g.src)
  {
    ChunkIsSlice(SourceOf(w, g.src), g.pos, n);
    assert WriteAt([], 0, Chunk(SourceOf(w, g.src), 0, n)) == Chunk(SourceOf(w, g.src), 0, n);
    assert AfterSend(w, g, n, out).origin == w.origin;
  }

  lemma KeepsOverwrite(m: Mode, c: Conf, w: World, k: nat, n: nat, out: Outcome)
    requires Core(m, c, w) && Enabled(c, w, Send(k, n, out)) && !Hazard(c, w, Send(k, n, out))
    requires w.segs[k].conn.value.h.fd.None? && Delivered(w.segs[k], out) && SendFrame(w, w.segs[k], n).Some?
    requires w.segs[k].target in w.fs.dir
    ensures Core(m, c, NextSend(c, w, k, n, out))
  {
    var g, g0 := w.segs[k], w.segs[k].(conn := None);
    assert SegIn(m, c, w, g) && SegIn(m, c, w, g0);
    OverwriteEffect(w, g, n, out);
    var w1 := AfterSend(w, g, n, out);
    Replace(m, c, w, k, g0);
    assert FilesOk(w1);
    forall i | Listed(WithSeg(w1, k, g0), i) ensures Listed(WithSeg(w, k, g0), i) {
    }
    OverwriteCore(m, c, WithSeg(w, k, g0), WithSeg(w1, k, g0), k);
    FinishSendNew(m, c, w, w1, k, g, n, out);
  }

  lemma KeepsSendNew(m: Mode, c: Conf, w: World, k: nat, n: nat, out: Outcome)
    requires Core(m, c, w) && Enabled(c, w, Send(k, n, out)) && !Hazard(c, w, Send(k, n, out))
    requires w.segs[k].conn.value.h.fd.None? && Delivered(w.segs[k], out) && SendFrame(w, w.segs[k], n).Some?
    ensures Core(m, c, NextSend(c, w, k, n, out))
  {
    assert SegIn(m, c, w, w.segs[k]);
    if w.segs[k].target in w.fs.dir {
      KeepsOverwrite(m, c, w, k, n, out);
    } else {
      NewSendAdds(w, w.segs[k], n, out);
      NewSendKeepsInv(m, c, w, k, n, out);
      FinishSendNew(m, c, w, AfterSend(w, w.segs[k], n, out), k, w.segs[k], n, out);
    }
  }

  lemma KeepsSend(m: Mode, c: Conf, w: World, k: nat, n: nat, out: Outcome)
    requires Core(m, c, w) && Enabled(c, w, Send(k, n, out)) && !Hazard(c, w, Send(k, n, out))
    ensures Core(m, c, Next(c, w, Send(k, n, out)))
  {
    var g := w.segs[k];
    if g.conn.value.h.fd.Some? {
      KeepsSendOpen(m, c, w, k, n, out);
    } else if Delivered(g, out) && SendFrame(w, g, n).Some? {
      KeepsSendNew(m, c, w, k, n, out);
    } else {
      assert SegIn(m, c, w, g);
      SelfFailedSend(m, c, w, g);
      Replace(m, c, w, k, AfterFailedSend(c, w, g));
    }
  }

  // ----- renames

  lemma MoveFiles(m: Mode, w: World, w': World, a: Name, b: Name)
    requires FilesOk(w) && LateIn(m, w) && Moves(w, w', a, b) && w'.late == w.late
    ensures FilesOk(w') && LateIn(m, w')
  {
    assert forall n :: n in w'.fs.dir <==> n == b || (n in w.fs.dir && n != a);
  }

  lemma OthersMove(m: Mode, c: Conf, w: World, w': World, k: nat, a: Name, b: Name)
    requires FilesOk(w) && SegsIn(m, c, w) && Moves(w, w', a, b) && w'.late == w.late
    requires OthersForeign(w, k, a) && OthersForeign(w, k, b) && a != FixedOrphan && b != Live
    ensures OthersOk(m, c, w, w', k)
  {
    forall j | 0 <= j < |w.segs| && j != k ensures SegIn(m, c, w', w.segs[j]) {
      SegMoves(m, c, w, w', w.segs[j], a, b);
    }
  }

  /**
   * A rename of the segment's own target: it moves the file if there is one, and a descriptor
   * follows; otherwise it can only be a no-op onto the fixed orphan name.
   */
  lemma RenameEffect(m: Mode, c: Conf, w: World, g: Seg, dst: Name)
    requires FilesOk(w) && SegIn(m, c, w, g) && g.phase in {Running, Stale} && g.conn.Some? && g.conn.value.up
    requires g.target != FixedOrphan && g.target != dst && (dst == FixedOrphan || dst !in w.fs.dir)
    requires RenameCall(w, g, dst).Some?
    ensures var h, s := g.conn.value.h, RenameCall(w, g, dst).value;
            && (h.fd.Some? ==> g.target in w.fs.dir && w.fs.dir[g.target] == h.fd.value.ino)
            && (h.fd.None? ==> s.h == h && (h.path == g.target || h.path == Live))
            && (!Loose(m) ==> (h.fd.Some? <==> g.target in w.fs.dir) && h.path == g.target)
            && if g.target in w.fs.dir then
                 && s.fs == w.fs.(dir := (w.fs.dir - {g.target})[dst := w.fs.dir[g.target]])
                 && (h.fd.Some? ==> s.h == h.(path := dst))
               else dst == FixedOrphan && s == Served(w.fs, h)
  {
  }

  /** The segment itself after its file has moved to `dst`. */
  lemma SelfMoved(m: Mode, c: Conf, w: World, w': World, g: Seg, g': Seg, dst: Name)
    requires FilesOk(w) && SegIn(m, c, w, g) && Moves(w, w', g.target, dst) && w'.late == w.late
    requires w.origin[w.fs.dir[g.target]] == g.src && g.phase == Running && dst != Live
    requires forall n | n in w.fs.dir && w.fs.dir[n] == w.fs.dir[g.target] :: n == g.target
    requires g'.src == g.src && g'.prefix == g.prefix && g'.target == dst && g'.pending == g.pending
    requires g'.phase in {Running, Done}
    requires Chain(w, g') && Roles(c, g')
    requires g'.conn.Some? ==>
               && g.conn.Some? && g.conn.value.up && g'.pos == g.pos
               && match g.conn.value.h.fd
                  case Some(fd) => fd.ino == w.fs.dir[g.target] && g'.conn.value.h == g.conn.value.h.(path := dst)
                  case None => Loose(m) && g'.conn.value.h == g.conn.value.h && g.conn.value.h.path == Live
    requires !g.pending.value.isOrphan && |g'.past| < 2 ==> g.past == [] && !dst.Final?
    requires g'.past != [] && g.pending.Some?
    ensures SegIn(m, c, w', g')
  {
    assert forall n :: n in w'.fs.dir <==> n == dst || (n in w.fs.dir && n != g.target);
    assert ConnIn(m, w', g');
    assert TargetIn(m, w', g');
    assert NamesFree(w', g');
  }

  /** The rename took place: the file moved to `dst`, a name of segment `k` alone. */
  lemma MoveKeepsInv(m: Mode, c: Conf, w: World, w': World, k: nat, dst: Name, g: Seg)
    requires Core(m, c, w) && IsActive(w, k) && StepOf(w, w', k, g) && w'.late == w.late
    requires Moves(w, w', w.segs[k].target, dst) && w.segs[k].target != FixedOrphan && dst != Live
    requires OthersForeign(w, k, w.segs[k].target) && OthersForeign(w, k, dst)
    requires g.phase == Done || g.target == w.segs[k].target || g.target == dst
    requires SegIn(m, c, w', g)
    ensures Core(m, c, w')
  {
    MoveFiles(m, w, w', w.segs[k].target, dst);
    OthersMove(m, c, w, w', k, w.segs[k].target, dst);
    Assemble(m, c, w, w', k, g);
  }

  lemma SelfSealMoved(m: Mode, c: Conf, w: World, w': World, g: Seg, out: Outcome)
    requires FilesOk(w) && SegIn(m, c, w, g) && g.phase == Running && g.past == []
    requires g.pending.Some? && !g.sealed && Delivered(g, out)
    requires RenameCall(w, g, g.pending.value.name).Some?
    requires Moves(w, w', g.target, g.pending.value.name) && w'.late == w.late
    ensures SegIn(m, c, w', SegAfterSealRename(c, w, g, out))
  {
    var g', dst := SegAfterSealRename(c, w, g, out), g.pending.value.name;
    RenameEffect(m, c, w, g, dst);
    if g'.past == [] {
      assert g' == Dead(g);
      assert SegIn(m, c, w', g');
    } else {
      SelfMoved(m, c, w, w', g, g', dst);
    }
  }

  lemma SelfSealStill(m: Mode, c: Conf, w: World, g: Seg, out: Outcome)
    requires FilesOk(w) && SegIn(m, c, w, g) && g.phase == Running && g.past == [] && g.conn.Some?
    requires g.pending.Some? && !g.sealed
    requires Delivered(g, out) && RenameCall(w, g, g.pending.value.name).Some? ==> g.target !in w.fs.dir
    ensures SegIn(m, c, w, SegAfterSealRename(c, w, g, out))
  {
    if Delivered(g, out) && RenameCall(w, g, g.pending.value.name).Some? {
      RenameEffect(m, c, w, g, g.pending.value.name);
    }
  }

  /** The call reached the server and moved the segment's file. */
  ghost predicate Moved(w: World, g: Seg, dst: Name, out: Outcome) {
    Delivered(g, out) && RenameCall(w, g, dst).Some? && g.target in w.fs.dir
  }

  /** A rename adds at most its destination to what is listed. */
  lemma RenameLists(w: World, k: nat, dst: Name, out: Outcome, synced: bool, g: Seg, n: Name)
    requires k < |w.segs| && Listed(NextRename(w, k, dst, out, synced, g), n)
    ensures Listed(w, n) || (n == dst && w.segs[k].target in w.fs.dir)
  {
    var w' := NextRename(w, k, dst, out, synced, g);
    assert n in w'.fs.dir ==> n in w.fs.dir || (n == dst && w.segs[k].target in w.fs.dir);
    if n !in w'.fs.dir {
      var i :| 0 <= i < |w'.dirs| && n in w'.dirs[i];
      assert w'.dirs[i] == w'.fs.dir || w'.dirs[i] in w.dirs;
    }
  }

  /** A rename moves the segment's file, or changes nothing. */
  lemma RenameMovesOrNot(m: Mode, c: Conf, w: World, g: Seg, dst: Name, out: Outcome)
    requires FilesOk(w) && SegIn(m, c, w, g) && g.phase in {Running, Stale}
    requires g.target != FixedOrphan && g.target != dst && (dst == FixedOrphan || dst !in w.fs.dir)
    ensures if Moved(w, g, dst, out) then
              && g.target in w.fs.dir
              && FilesAfterRename(w, g, dst, out) == w.fs.(dir := (w.fs.dir - {g.target})[dst := w.fs.dir[g.target]])
            else FilesAfterRename(w, g, dst, out) == w.fs
  {
    if Delivered(g, out) && RenameCall(w, g, dst).Some? {
      RenameEffect(m, c, w, g, dst);
    }
  }

  /** `k` may rename its target to `dst`, a name of its own, and become `g`. */
  ghost predicate MayRename(w: World, k: nat, dst: Name, g: Seg) {
    && k < |w.segs| && w.segs[k].phase in {Running, Stale} && w.segs[k].target != FixedOrphan
    && dst != Live && dst != w.segs[k].target && (dst == FixedOrphan || dst !in w.fs.dir)
    && OthersForeign(w, k, w.segs[k].target) && OthersForeign(w, k, dst)
    && g.pending == w.segs[k].pending && (w.segs[k].sealed ==> g.sealed)
    && (g.phase == Done || g.target == w.segs[k].target || g.target == dst)
    && (dst.Sealed? || dst.Final? ==> g.pending.Some? && dst.iso == g.pending.value.iso)
  }

  lemma AllRenameLists(w: World, k: nat, dst: Name, out: Outcome, synced: bool, g: Seg)
    requires k < |w.segs|
    ensures forall n | Listed(NextRename(w, k, dst, out, synced, g), n) :: Listed(w, n) || n == dst
  {
    forall n | Listed(NextRename(w, k, dst, out, synced, g), n) ensures Listed(w, n) || n == dst {
      RenameLists(w, k, dst, out, synced, g, n);
    }
  }

  lemma KeepsMovingRename(m: Mode, c: Conf, w: World, k: nat, dst: Name, out: Outcome, synced: bool, g: Seg)
    requires Core(m, c, w) && MayRename(w, k, dst, g) && Moved(w, w.segs[k], dst, out)
    requires SegIn(m, c, NextRename(w, k, dst, out, synced, g), g)
    ensures Core(m, c, NextRename(w, k, dst, out, synced, g))
  {
    assert SegIn(m, c, w, w.segs[k]);
    RenameMoves(m, c, w, k, dst, out, synced, g);
    MoveKeepsInv(m, c, w, NextRename(w, k, dst, out, synced, g), k, dst, g);
  }

  lemma KeepsIdleRename(m: Mode, c: Conf, w: World, k: nat, dst: Name, out: Outcome, synced: bool, g: Seg)
    requires Core(m, c, w) && MayRename(w, k, dst, g) && !Moved(w, w.segs[k], dst, out)
    requires SegIn(m, c, w, g)
    ensures Core(m, c, NextRename(w, k, dst, out, synced, g))
  {
    assert SegIn(m, c, w, w.segs[k]);
    RenameMovesOrNot(m, c, w, w.segs[k], dst, out);
    AssembleQuiet(m, c, w, k, g);
    var w' := NextRename(w, k, dst, out, synced, g);
    forall n | Listed(w', n) ensures Listed(WithSeg(w, k, g), n) {
      IdleRenameLists(w, k, dst, out, synced, g, n);
    }
    DirsDoNotMatter(m, c, WithSeg(w, k, g), w');
  }

  lemma IdleRenameLists(w: World, k: nat, dst: Name, out: Outcome, synced: bool, g: Seg, n: Name)
    requires k < |w.segs| && Listed(NextRename(w, k, dst, out, synced, g), n)
    requires FilesAfterRename(w, w.segs[k], dst, out) == w.fs
    ensures Listed(WithSeg(w, k, g), n)
  {
    var w' := NextRename(w, k, dst, out, synced, g);
    if n !in w'.fs.dir {
      var i :| 0 <= i < |w'.dirs| && n in w'.dirs[i];
      assert w'.dirs[i] == w'.fs.dir || w'.dirs[i] == w.dirs[i];
    }
  }

  lemma RenameMoves(m: Mode, c: Conf, w: World, k: nat, dst: Name, out: Outcome, synced: bool, g: Seg)
    requires FilesOk(w) && MayRename(w, k, dst, g) && SegIn(m, c, w, w.segs[k]) && Moved(w, w.segs[k], dst, out)
    ensures Moves(w, NextRename(w, k, dst, out, synced, g), w.segs[k].target, dst)
  {
    RenameMovesOrNot(m, c, w, w.segs[k], dst, out);
    AllRenameLists(w, k, dst, out, synced, g);
  }

  /** What a crash could bring back does not matter until it does. */
  lemma DirsDoNotMatter(m: Mode, c: Conf, w: World, w': World)
    requires Core(m, c, w) && w' == w.(dirs := w'.dirs) && forall n | Listed(w', n) :: Listed(w, n)
    ensures Core(m, c, w')
  {
    forall l | l in w'.late ensures LateFrameIn(m, w', l) {
      assert LateFrameIn(m, w, l);
    }
    GrowsKeepsInv(m, c, w, w');
  }

  lemma KeepsMovingSeal(m: Mode, c: Conf, w: World, k: nat, out: Outcome, synced: bool, g: Seg, dst: Name)
    requires Core(m, c, w) && Enabled(c, w, SealRename(k, out, synced)) && dst == w.segs[k].pending.value.name
    requires MayRename(w, k, dst, g) && Moved(w, w.segs[k], dst, out) && g == SegAfterSealRename(c, w, w.segs[k], out)
    ensures Core(m, c, NextRename(w, k, dst, out, synced, g))
  {
    assert SegIn(m, c, w, w.segs[k]);
    RenameMoves(m, c, w, k, dst, out, synced, g);
    SelfSealMoved(m, c, w, NextRename(w, k, dst, out, synced, g), w.segs[k], out);
    KeepsMovingRename(m, c, w, k, dst, out, synced, g);
  }

  lemma MaySeal(m: Mode, c: Conf, w: World, k: nat, out: Outcome, synced: bool)
    requires Core(m, c, w) && Enabled(c, w, SealRename(k, out, synced))
    ensures MayRename(w, k, w.segs[k].pending.value.name, SegAfterSealRename(c, w, w.segs[k], out))
  {
    assert SegIn(m, c, w, w.segs[k]);
    OwnNamesForeign(m, c, w, k);
  }

  lemma KeepsSealRename(m: Mode, c: Conf, w: World, k: nat, out: Outcome, synced: bool)
    requires Core(m, c, w) && Enabled(c, w, SealRename(k, out, synced))
    ensures Core(m, c, Next(c, w, SealRename(k, out, synced)))
  {
    var g, g' := w.segs[k], SegAfterSealRename(c, w, w.segs[k], out);
    var dst := g.pending.value.name;
    MaySeal(m, c, w, k, out, synced);
    if Moved(w, g, dst, out) {
      KeepsMovingSeal(m, c, w, k, out, synced, g', dst);
    } else {
      assert SegIn(m, c, w, g);
      SelfSealStill(m, c, w, g, out);
      KeepsIdleRename(m, c, w, k, dst, out, synced, g');
    }
  }

  lemma SelfFinalMoved(m: Mode, c: Conf, w: World, w': World, g: Seg, out: Outcome)
    requires FilesOk(w) && SegIn(m, c, w, g) && g.phase == Running && |g.past| == 1 && g.sealed
    requires g.pending.Some? && !g.pending.value.isOrphan && g.pending.value.iso in w.marks.shas
    requires Moved(w, g, FinalName(w, g), out) && Moves(w, w', g.target, FinalName(w, g)) && w'.late == w.late
    ensures SegIn(m, c, w', SegAfterFinalRename(c, w, g, out))
  {
    RenameEffect(m, c, w, g, FinalName(w, g));
    SelfMoved(m, c, w, w', g, SegAfterFinalRename(c, w, g, out), FinalName(w, g));
  }

  lemma SelfFinalStill(m: Mode, c: Conf, w: World, g: Seg, out: Outcome)
    requires FilesOk(w) && SegIn(m, c, w, g) && g.phase == Running && |g.past| == 1 && g.sealed && g.conn.Some?
    requires g.pending.Some? && !g.pending.value.isOrphan && g.pending.value.iso in w.marks.shas
    requires !Moved(w, g, FinalName(w, g), out)
    ensures SegIn(m, c, w, SegAfterFinalRename(c, w, g, out))
  {
    assert !Listed(w, FinalName(w, g));
    assert !RenameAcked(w, g, FinalName(w, g), out);
  }

  lemma KeepsFinalRename(m: Mode, c: Conf, w: World, k: nat, out: Outcome, synced: bool)
    requires Core(m, c, w) && Enabled(c, w, FinalRename(k, out, synced))
    ensures Core(m, c, Next(c, w, FinalRename(k, out, synced)))
  {
    var g, dst, g' := w.segs[k], FinalName(w, w.segs[k]), SegAfterFinalRename(c, w, w.segs[k], out);
    assert SegIn(m, c, w, g);
    OwnNamesForeign(m, c, w, k);
    assert MayRename(w, k, dst, g');
    if Moved(w, g, dst, out) {
      RenameMoves(m, c, w, k, dst, out, synced, g');
      SelfFinalMoved(m, c, w, NextRename(w, k, dst, out, synced, g'), g, out);
      KeepsMovingRename(m, c, w, k, dst, out, synced, g');
    } else {
      SelfFinalStill(m, c, w, g, out);
      KeepsIdleRename(m, c, w, k, dst, out, synced, g');
    }
  }

  /** A fresh clock name is nobody's. */
  lemma StaleNameForeign(m: Mode, c: Conf, w: World, k: nat, clock: string)
    requires Core(m, c, w) && (c.ephemeral || !NameTaken(w, DatedOrphan(clock)))
    ensures OthersForeign(w, k, StaleName(c, clock))
  {
    forall j | 0 <= j < |w.segs| && j != k ensures Foreign(w.segs[j], StaleName(c, clock)) {
      assert SegIn(m, c, w, w.segs[j]);
    }
  }

  lemma KeepsStaleRename(m: Mode, c: Conf, w: World, k: nat, clock: string, out: Outcome, synced: bool)
    requires Core(m, c, w) && Enabled(c, w, StaleRename(k, clock, out, synced))
    requires !Hazard(c, w, StaleRename(k, clock, out, synced))
    ensures Core(m, c, Next(c, w, StaleRename(k, clock, out, synced)))
  {
    var g, g' := w.segs[k], SegAfterStaleRename(c, w, w.segs[k], clock, out);
    var dst := StaleName(c, clock);
    assert SegIn(m, c, w, g);
    OwnNamesForeign(m, c, w, k);
    StaleNameForeign(m, c, w, k, clock);
    assert MayRename(w, k, dst, g');
    if Moved(w, g, dst, out) {
      RenameMoves(m, c, w, k, dst, out, synced, g');
      SelfStaleMoved(m, c, w, NextRename(w, k, dst, out, synced, g'), g, g', dst);
      KeepsMovingRename(m, c, w, k, dst, out, synced, g');
    } else {
      SelfStaleStill(m, c, w, g, dst, out);
      assert SegIn(m, c, w, Dead(g));
      KeepsIdleRename(m, c, w, k, dst, out, synced, g');
    }
  }

  lemma SelfStaleMoved(m: Mode, c: Conf, w: World, w': World, g: Seg, g': Seg, dst: Name)
    requires FilesOk(w) && SegIn(m, c, w, g) && g.phase == Stale && Moves(w, w', Live, dst) && w'.late == w.late
    requires dst == FixedOrphan || dst.DatedOrphan?
    requires g' == g.(phase := Reopening, conn := None) || g' == Dead(g)
    requires g.pending.Some? && dst != FixedOrphan ==> g.pending.value.name != dst
    ensures SegIn(m, c, w', g')
  {
    assert forall n :: n in w'.fs.dir <==> n == dst || (n in w.fs.dir && n != Live);
  }

  /** The file a stale handshake saw is still there as long as the connection works. */
  lemma SelfStaleStill(m: Mode, c: Conf, w: World, g: Seg, dst: Name, out: Outcome)
    requires FilesOk(w) && SegIn(m, c, w, g) && g.phase == Stale && !Moved(w, g, dst, out)
    ensures !RenameAcked(w, g, dst, out)
  {
  }
}
