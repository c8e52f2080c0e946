/** What one sound step can do to the server's directory: the abstract mirror and its moves. */
module Effects {
  import opened Names
  import opened Protocol
  import opened Invariant
  import opened Preservation
  import opened Safety

  /** The mirror, seen abstractly: how much of which local inode each name holds. */
  datatype Entry = Entry(src: nat, length: nat)
  type Mirror = map<Name, Entry>

  datatype Move =
    | Stutter
    | Append(n: Name, length: nat)       // more of the same source under the same name
    | Begin(n: Name, e: Entry)           // a first piece under a free name
    | Claim(n: Name, src: nat)           // an empty file gets a source
    | Relabel(a: Name, b: Name)          // to a free name
    | Clobber(a: Name)                   // onto the fixed orphan name
    | CutBack                            // a server crash
    | RollBack(earlier: Mirror)             // a server crash that brings entries back

  predicate OfCrash(v: Move) {
    v.CutBack? || v.RollBack?
  }

  ghost function Abs(w: World): Mirror
    requires FilesOk(w)
  {
    map n | n in w.fs.dir :: Entry(w.origin[w.fs.dir[n]], |w.fs.data[w.fs.dir[n]]|)
  }

  /** Nothing but entries of `m`, none of them longer. */
  ghost predicate Shrinks(m: Mirror, m': Mirror) {
    forall n | n in m' :: n in m && m'[n].src == m[n].src && m'[n].length <= m[n].length
  }

  ghost predicate MirrorNext(m: Mirror, v: Move, m': Mirror) {
    match v
    case Stutter => m' == m
    case Append(n, length) => n in m && m[n].length < length && m' == m[n := Entry(m[n].src, length)]
    case Begin(n, e) => n !in m && e.length > 0 && m' == m[n := e]
    case Claim(n, i) => n in m && m[n].length == 0 && m' == m[n := Entry(i, 0)]
    case Relabel(a, b) => a in m && b !in m && m' == (m - {a})[b := m[a]]
    case Clobber(a) => a in m && a != FixedOrphan && FixedOrphan in m && m' == (m - {a})[FixedOrphan := m[a]]
    case CutBack => Shrinks(m, m')
    case RollBack(earlier) => Shrinks(earlier, m')
  }

  /** What a move is on the concrete directory; nothing but a crash ever takes a byte away. */
  ghost predicate Concretely(c: Conf, w: World, v: Move, w': World)
    requires FilesOk(w)
  {
    match v
    case Stutter => w'.fs.dir == w.fs.dir && w'.origin == w.origin && DataGrows(w, w')
    case Append(n, _) => w'.fs.dir == w.fs.dir && w'.origin == w.origin && DataGrows(w, w')
    case Begin(n, e) => Adds(w, w', n, e.src) && w'.fs.data[|w.fs.data|] != []
    case Claim(n, i) =>
      w'.fs == w.fs && n in w.fs.dir && w.fs.data[w.fs.dir[n]] == [] && w'.origin == w.origin[w.fs.dir[n] := i]
    case Relabel(a, b) => Moves(w, w', a, b) && b !in w.fs.dir
    case Clobber(a) => Moves(w, w', a, FixedOrphan) && c.ephemeral && FixedOrphan in w.fs.dir
    case CutBack => w'.origin == w.origin && DataShrinks(w, w')
    case RollBack(_) => |w'.origin| == |w.origin| && DataShrinks(w, w')
  }

  ghost predicate DataShrinks(w: World, w': World) {
    |w'.fs.data| == |w.fs.data| && forall i | 0 <= i < |w.fs.data| :: w'.fs.data[i] <= w.fs.data[i]
  }

  /** The crash goes back to a state of the directory that had all these names. */
  ghost predicate RollsFrom(w: World, s: Step, earlier: Mirror) {
    UndoesRename(w, s) && forall n | n in earlier :: n in DirBack(w, s.back)
  }

  ghost predicate DataGrows(w: World, w': World) {
    |w'.fs.data| == |w.fs.data| && forall i | 0 <= i < |w.fs.data| :: w.fs.data[i] <= w'.fs.data[i]
  }

  /** A write to one inode is an append to the name that inode has, if it has one and got longer. */
  lemma WriteMove(c: Conf, w: World, w': World, ino: nat) returns (v: Move)
    requires FilesOk(w) && FilesOk(w') && ino < |w.fs.data|
    requires w'.fs.dir == w.fs.dir && w'.origin == w.origin && DataGrows(w, w')
    requires forall i | 0 <= i < |w.fs.data| && i != ino :: w'.fs.data[i] == w.fs.data[i]
    ensures MirrorNext(Abs(w), v, Abs(w')) && Concretely(c, w, v, w') && !OfCrash(v)
  {
    if n :| n in w.fs.dir && w.fs.dir[n] == ino && |w.fs.data[ino]| < |w'.fs.data[ino]| {
      v := Append(n, |w'.fs.data[ino]|);
      assert Abs(w') == Abs(w)[n := Entry(Abs(w)[n].src, v.length)];
    } else {
      v := Stutter;
      assert Abs(w') == Abs(w);
    }
  }

  lemma OpenSendMove(c: Conf, w: World, k: nat, n: nat, out: Outcome) returns (v: Move)
    requires Inv(c, w) && Enabled(c, w, Send(k, n, out)) && w.segs[k].conn.value.h.fd.Some?
    requires Delivered(w.segs[k], out) && SendFrame(w, w.segs[k], n).Some?
    requires FilesOk(NextSend(c, w, k, n, out))
    ensures !OfCrash(v)
    ensures MirrorNext(Abs(w), v, Abs(NextSend(c, w, k, n, out))) && Concretely(c, w, v, NextSend(c, w, k, n, out))
  {
    OpenSendGrows(c, w, k, n, out);
    v := WriteMove(c, w, NextSend(c, w, k, n, out), w.segs[k].conn.value.h.fd.value.ino);
  }

  lemma NewSendMove(c: Conf, w: World, k: nat, n: nat, out: Outcome) returns (v: Move)
    requires Inv(c, w) && Enabled(c, w, Send(k, n, out)) && !Hazard(c, w, Send(k, n, out))
    requires w.segs[k].conn.value.h.fd.None? && Delivered(w.segs[k], out) && SendFrame(w, w.segs[k], n).Some?
    requires FilesOk(NextSend(c, w, k, n, out))
    ensures !OfCrash(v)
    ensures MirrorNext(Abs(w), v, Abs(NextSend(c, w, k, n, out))) && Concretely(c, w, v, NextSend(c, w, k, n, out))
  {
    assert SegOk(c, w, w.segs[k]);
    NewSendAdds(w, w.segs[k], n, out);
    v := BeginMove(c, w, NextSend(c, w, k, n, out), w.segs[k].target, w.segs[k].src);
  }

  lemma SendMove(c: Conf, w: World, k: nat, n: nat, out: Outcome) returns (v: Move)
    requires Inv(c, w) && Enabled(c, w, Send(k, n, out)) && !Hazard(c, w, Send(k, n, out))
    requires FilesOk(NextSend(c, w, k, n, out))
    ensures !OfCrash(v)
    ensures MirrorNext(Abs(w), v, Abs(NextSend(c, w, k, n, out))) && Concretely(c, w, v, NextSend(c, w, k, n, out))
  {
    if Delivered(w.segs[k], out) && SendFrame(w, w.segs[k], n).Some? {
      if w.segs[k].conn.value.h.fd.Some? {
        v := OpenSendMove(c, w, k, n, out);
      } else {
        v := NewSendMove(c, w, k, n, out);
      }
    } else {
      v := Stutter;
      StillMove(c, w, NextSend(c, w, k, n, out));
    }
  }

  lemma OpenSendGrows(c: Conf, w: World, k: nat, n: nat, out: Outcome)
    requires Inv(c, w) && Enabled(c, w, Send(k, n, out)) && w.segs[k].conn.value.h.fd.Some?
    requires Delivered(w.segs[k], out) && SendFrame(w, w.segs[k], n).Some?
    ensures var ino := w.segs[k].conn.value.h.fd.value.ino;
            var w' := NextSend(c, w, k, n, out);
            && ino < |w.fs.data| && w'.fs.dir == w.fs.dir && w'.origin == w.origin && DataGrows(w, w')
            && forall i | 0 <= i < |w.fs.data| && i != ino :: w'.fs.data[i] == w.fs.data[i]
  {
    var g := w.segs[k];
    assert SegOk(c, w, g);
    ChunkIsSlice(SourceOf(w, g.src), g.pos, n);
    WriteKeepsInv(Plain, c, w, AfterSend(w, g, n, out), g.conn.value.h.fd.value.ino, g.pos,
                  Chunk(SourceOf(w, g.src), g.pos, n));
  }

  lemma BeginMove(c: Conf, w: World, w': World, n: Name, i: nat) returns (v: Move)
    requires FilesOk(w) && FilesOk(w') && Adds(w, w', n, i) && w'.fs.data[|w.fs.data|] != []
    ensures !OfCrash(v) && MirrorNext(Abs(w), v, Abs(w')) && Concretely(c, w, v, w')
  {
    v := Begin(n, Entry(i, |w'.fs.data[|w.fs.data|]|));
    assert forall j | 0 <= j < |w.fs.data| :: w'.fs.data[j] == w'.fs.data[..|w.fs.data|][j];
    assert Abs(w') == Abs(w)[n := v.e];
  }

  lemma MovingMove(c: Conf, w: World, w': World, a: Name, b: Name) returns (v: Move)
    requires FilesOk(w) && FilesOk(w') && Moves(w, w', a, b) && a != FixedOrphan
    requires b !in w.fs.dir || (b == FixedOrphan && c.ephemeral)
    ensures !OfCrash(v) && MirrorNext(Abs(w), v, Abs(w')) && Concretely(c, w, v, w')
  {
    assert Abs(w') == (Abs(w) - {a})[b := Abs(w)[a]];
    v := if b in w.fs.dir then Clobber(a) else Relabel(a, b);
  }

  lemma RenameMove(c: Conf, w: World, w': World, g: Seg, dst: Name, out: Outcome) returns (v: Move)
    requires FilesOk(w) && FilesOk(w') && SegOk(c, w, g) && g.phase in {Running, Stale} && g.conn.Some?
    requires g.target != FixedOrphan && g.target != dst && (dst !in w.fs.dir || (dst == FixedOrphan && c.ephemeral))
    requires w'.fs == FilesAfterRename(w, g, dst, out)
    requires w'.origin == w.origin && w'.src == w.src && w'.marks == w.marks
    requires forall n | Listed(w', n) :: Listed(w, n) || n == dst
    ensures !OfCrash(v) && MirrorNext(Abs(w), v, Abs(w')) && Concretely(c, w, v, w')
  {
    RenameMovesOrNot(Plain, c, w, g, dst, out);
    if Moved(w, g, dst, out) {
      v := MovingMove(c, w, w', g.target, dst);
    } else {
      v := Stutter;
      StillMove(c, w, w');
    }
  }

  lemma StillMove(c: Conf, w: World, w': World)
    requires FilesOk(w) && w'.fs == w.fs && w'.origin == w.origin && FilesOk(w')
    ensures MirrorNext(Abs(w), Stutter, Abs(w')) && Concretely(c, w, Stutter, w')
  {
  }

  lemma ClaimMove(c: Conf, w: World, w': World, n: Name, i: nat)
    requires FilesOk(w) && FilesOk(w') && n in w.fs.dir && w.fs.data[w.fs.dir[n]] == []
    requires w'.fs == w.fs && w'.origin == w.origin[w.fs.dir[n] := i]
    ensures MirrorNext(Abs(w), Claim(n, i), Abs(w')) && Concretely(c, w, Claim(n, i), w')
  {
    assert Abs(w') == Abs(w)[n := Entry(i, 0)];
  }

  lemma ConnectMove(c: Conf, w: World, k: nat, prefix: nat) returns (v: Move)
    requires FilesOk(w) && k < |w.segs| && FilesOk(NextConnect(c, w, k, prefix))
    ensures !OfCrash(v)
    ensures MirrorNext(Abs(w), v, Abs(NextConnect(c, w, k, prefix)))
    ensures Concretely(c, w, v, NextConnect(c, w, k, prefix))
  {
    var w', g := NextConnect(c, w, k, prefix), w.segs[k];
    if w'.origin != w.origin {
      v := Claim(g.target, g.src);
      ClaimMove(c, w, w', g.target, g.src);
    } else {
      v := Stutter;
      StillMove(c, w, w');
    }
  }

  lemma LateMove(c: Conf, w: World, l: Late) returns (v: Move)
    requires Inv(c, w) && l in w.late && FilesOk(Next(c, w, ApplyLate(l)))
    ensures !OfCrash(v)
    ensures MirrorNext(Abs(w), v, Abs(Next(c, w, ApplyLate(l)))) && Concretely(c, w, v, Next(c, w, ApplyLate(l)))
  {
    assert LateFrameIn(Plain, w, l);
    WriteKeepsInv(Plain, c, w, Next(c, w, ApplyLate(l)), l.ino, l.offset, l.payload);
    v := WriteMove(c, w, Next(c, w, ApplyLate(l)), l.ino);
  }

  lemma SealMove(c: Conf, w: World, k: nat, out: Outcome, synced: bool) returns (v: Move)
    requires Inv(c, w) && Enabled(c, w, SealRename(k, out, synced)) && FilesOk(Next(c, w, SealRename(k, out, synced)))
    ensures !OfCrash(v)
    ensures MirrorNext(Abs(w), v, Abs(Next(c, w, SealRename(k, out, synced))))
    ensures Concretely(c, w, v, Next(c, w, SealRename(k, out, synced)))
  {
    assert SegOk(c, w, w.segs[k]);
    AllRenameLists(w, k, w.segs[k].pending.value.name, out, synced, SegAfterSealRename(c, w, w.segs[k], out));
    v := RenameMove(c, w, Next(c, w, SealRename(k, out, synced)), w.segs[k], w.segs[k].pending.value.name, out);
  }

  lemma FinalMove(c: Conf, w: World, k: nat, out: Outcome, synced: bool) returns (v: Move)
    requires Inv(c, w) && Enabled(c, w, FinalRename(k, out, synced)) && FilesOk(Next(c, w, FinalRename(k, out, synced)))
    ensures !OfCrash(v)
    ensures MirrorNext(Abs(w), v, Abs(Next(c, w, FinalRename(k, out, synced))))
    ensures Concretely(c, w, v, Next(c, w, FinalRename(k, out, synced)))
  {
    assert SegOk(c, w, w.segs[k]);
    AllRenameLists(w, k, FinalName(w, w.segs[k]), out, synced, SegAfterFinalRename(c, w, w.segs[k], out));
    v := RenameMove(c, w, Next(c, w, FinalRename(k, out, synced)), w.segs[k], FinalName(w, w.segs[k]), out);
  }

  lemma StaleMove(c: Conf, w: World, k: nat, clock: string, out: Outcome, synced: bool) returns (v: Move)
    requires Inv(c, w) && InPhase(w, k, Stale) && (c.ephemeral || !NameTaken(w, DatedOrphan(clock)))
    requires FilesOk(NextRename(w, k, StaleName(c, clock), out, synced,
                                SegAfterStaleRename(c, w, w.segs[k], clock, out)))
    ensures var w' := NextRename(w, k, StaleName(c, clock), out, synced,
                                 SegAfterStaleRename(c, w, w.segs[k], clock, out));
            !OfCrash(v) && MirrorNext(Abs(w), v, Abs(w')) && Concretely(c, w, v, w')
  {
    var w' := NextRename(w, k, StaleName(c, clock), out, synced, SegAfterStaleRename(c, w, w.segs[k], clock, out));
    assert SegOk(c, w, w.segs[k]);
    AllRenameLists(w, k, StaleName(c, clock), out, synced, SegAfterStaleRename(c, w, w.segs[k], clock, out));
    v := RenameMove(c, w, w', w.segs[k], StaleName(c, clock), out);
  }

  lemma QuietStep(c: Conf, w: World, s: Step)
    requires Enabled(c, w, s) && FilesOk(w) && FilesOk(Next(c, w, s))
    requires !(s.Send? || s.Connect? || s.SealRename? || s.FinalRename? || s.StaleRename? || s.ApplyLate? || s.Crash?)
    ensures MirrorNext(Abs(w), Stutter, Abs(Next(c, w, s))) && Concretely(c, w, Stutter, Next(c, w, s))
  {
    StillMove(c, w, Next(c, w, s));
  }

  lemma {:induction false} ReclaimedSame(segs: seq<Seg>, dir: map<Name, nat>, origin: seq<nat>)
    requires forall k | 0 <= k < |segs| && OpensBlindly(segs[k]) && segs[k].target in dir ::
               dir[segs[k].target] < |origin| && origin[dir[segs[k].target]] == segs[k].src
    ensures Reclaimed(segs, dir, origin) == origin
  {
    if segs != [] {
      ReclaimedSame(segs[..|segs| - 1], dir, origin);
    }
  }

  lemma CutKeepsOrigin(c: Conf, w: World, back: nat, kept: set<Name>, cut: seq<nat>)
    requires Inv(c, w) && !RollsBack(w, back, kept)
    ensures NextCrash(w, back, kept, cut).origin == w.origin
  {
    var dir := Restored(w, back, kept);
    forall k | 0 <= k < |w.segs| && OpensBlindly(w.segs[k]) && w.segs[k].target in dir
      ensures dir[w.segs[k].target] < |w.origin| && w.origin[dir[w.segs[k].target]] == w.segs[k].src
    {
      assert SegOk(c, w, w.segs[k]);
    }
    ReclaimedSame(w.segs, dir, w.origin);
  }

  lemma CutMove(c: Conf, w: World, w': World)
    requires FilesOk(w) && FilesOk(w') && w'.origin == w.origin && DataShrinks(w, w')
    requires forall n | n in w'.fs.dir :: n in w.fs.dir && w'.fs.dir[n] == w.fs.dir[n]
    ensures MirrorNext(Abs(w), CutBack, Abs(w')) && Concretely(c, w, CutBack, w')
  {
  }

  /** The restored entries, as they would be without the cut. */
  ghost function Uncut(w: World, w': World): Mirror
    requires FilesOk(w') && |w'.fs.data| == |w.fs.data|
  {
    map n | n in w'.fs.dir :: Entry(w'.origin[w'.fs.dir[n]], |w.fs.data[w'.fs.dir[n]]|)
  }

  lemma RollMove(c: Conf, w: World, back: nat, kept: set<Name>, cut: seq<nat>) returns (v: Move)
    requires FilesOk(w) && RollsBack(w, back, kept) && FilesOk(NextCrash(w, back, kept, cut))
    ensures v.RollBack? && RollsFrom(w, Crash(back, kept, cut), v.earlier)
    ensures MirrorNext(Abs(w), v, Abs(NextCrash(w, back, kept, cut)))
    ensures Concretely(c, w, v, NextCrash(w, back, kept, cut))
  {
    var w' := NextCrash(w, back, kept, cut);
    assert forall i | 0 <= i < |w.fs.data| :: w'.fs.data[i] <= w.fs.data[i];
    v := RollBack(Uncut(w, w'));
  }

  lemma CrashMove(c: Conf, w: World, back: nat, kept: set<Name>, cut: seq<nat>) returns (v: Move)
    requires Inv(c, w) && FilesOk(NextCrash(w, back, kept, cut))
    ensures OfCrash(v) && (v.RollBack? ==> RollsFrom(w, Crash(back, kept, cut), v.earlier))
    ensures MirrorNext(Abs(w), v, Abs(NextCrash(w, back, kept, cut)))
    ensures Concretely(c, w, v, NextCrash(w, back, kept, cut))
  {
    if RollsBack(w, back, kept) {
      v := RollMove(c, w, back, kept, cut);
    } else {
      v := CutBack;
      CutKeepsOrigin(c, w, back, kept, cut);
      CutMove(c, w, NextCrash(w, back, kept, cut));
    }
  }

  lemma ServerStep(c: Conf, w: World, s: Step) returns (v: Move)
    requires Inv(c, w) && Enabled(c, w, s) && !Hazard(c, w, s) && FilesOk(Next(c, w, s))
    requires s.Send? || s.Connect? || s.ApplyLate? || s.Crash?
    ensures (OfCrash(v) <==> s.Crash?) && (v.RollBack? ==> RollsFrom(w, s, v.earlier))
    ensures MirrorNext(Abs(w), v, Abs(Next(c, w, s))) && Concretely(c, w, v, Next(c, w, s))
  {
    match s
    case Send(k, n, out) => v := SendMove(c, w, k, n, out);
    case Connect(k, prefix) => v := ConnectMove(c, w, k, prefix);
    case ApplyLate(l) => v := LateMove(c, w, l);
    case Crash(back, kept, cut) => v := CrashMove(c, w, back, kept, cut);
  }

  lemma RenameStep(c: Conf, w: World, s: Step) returns (v: Move)
    requires Inv(c, w) && Enabled(c, w, s) && !Hazard(c, w, s) && FilesOk(Next(c, w, s))
    requires s.SealRename? || s.FinalRename? || s.StaleRename?
    ensures !OfCrash(v) && MirrorNext(Abs(w), v, Abs(Next(c, w, s))) && Concretely(c, w, v, Next(c, w, s))
  {
    match s
    case SealRename(k, out, synced) => v := SealMove(c, w, k, out, synced);
    case FinalRename(k, out, synced) => v := FinalMove(c, w, k, out, synced);
    case StaleRename(k, clock, out, synced) => v := StaleMove(c, w, k, clock, out, synced);
  }

  /** Every sound step of the protocol is one move of the abstract mirror. */
  lemma StepSimulates(c: Conf, w: World, s: Step) returns (v: Move)
    requires Inv(c, w) && Enabled(c, w, s) && !Hazard(c, w, s) && FilesOk(Next(c, w, s))
    ensures (OfCrash(v) <==> s.Crash?) && (v.RollBack? ==> RollsFrom(w, s, v.earlier))
    ensures MirrorNext(Abs(w), v, Abs(Next(c, w, s))) && Concretely(c, w, v, Next(c, w, s))
  {
    if s.Send? || s.Connect? || s.ApplyLate? || s.Crash? {
      v := ServerStep(c, w, s);
    } else if s.SealRename? || s.FinalRename? || s.StaleRename? {
      v := RenameStep(c, w, s);
    } else {
      v := Stutter;
      QuietStep(c, w, s);
    }
  }
}
