/**
 * Where the code falls short: concrete runs that end in a mixed or lost file, and the exact
 * conditions under which it does not.
 */
module Hazards {
  import opened Prelude
  import opened Names
  import opened Markers
  import opened Files
  import opened Protocol
  import opened Invariant
  import opened Preservation
  import opened Effects
  import opened Theorems
  import opened Corruption

  // ----- resuming onto another file's content

  /** The file after resuming at its end, once the local inode holds `n + x`, is a prefix of neither source. */
  ghost predicate Mixes(r: Bytes, o: Bytes, n: Bytes, x: Bytes) {
    && |r| <= |n + x|
    && !(r + (n + x)[|r|..] <= o)
    && !(r + (n + x)[|r|..] <= n + x)
  }

  /**
   * A segment for an inode holding `n` resumes onto remote content `r` made from `o`: whatever is
   * appended to its inode later, the file stays good exactly when `r` is a prefix of `n` already.
   */
  lemma ResumeIsSafeExactly(r: Bytes, o: Bytes, n: Bytes)
    requires r <= o
    ensures (forall x: Bytes :: !Mixes(r, o, n, x)) <==> r <= n
  {
    if r <= n {
      forall x: Bytes ensures !Mixes(r, o, n, x) {
        if |r| <= |n + x| {
          assert (n + x)[..|r|] == r;
          assert r + (n + x)[|r|..] == n + x;
        }
      }
    } else {
      var b: byte := if |n| < |r| && r[|n|] == 0 then 1 else 0;
      var x: Bytes := seq(|o| + 1, _ => b);
      assert |n| < |r| ==> (n + x)[|n|] == b;
      assert !(r <= n + x);
      assert Mixes(r, o, n, x);
    }
  }

  // ----- frames and renames without a descriptor

  /** The first frame through a connection without descriptor replaces what its name holds. */
  lemma CreateReplaces(w: World, g: Seg, n: nat, out: Outcome)
    requires g.conn.Some? && g.conn.value.h.fd.None? && Delivered(g, out) && SendFrame(w, g, n).Some? && DirOk(w.fs)
    ensures g.pos == 0
    ensures var data', path := AfterSend(w, g, n, out).fs.data, g.conn.value.h.path;
            && |data'| >= |w.fs.data|
            && forall i | 0 <= i < |w.fs.data| ::
                 data'[i] == if path in w.fs.dir && w.fs.dir[path] == i then Chunk(SourceOf(w, g.src), 0, n)
                             else w.fs.data[i]
  {
    assert WriteAt([], 0, Chunk(SourceOf(w, g.src), 0, n)) == Chunk(SourceOf(w, g.src), 0, n);
  }

  /** Server inode `i` loses bytes, or gets some that are not those of the local inode it was made for. */
  ghost predicate Harmed(w: World, w': World, i: nat)
    requires FilesOk(w)
  {
    i < |w.fs.data| && !(w.fs.data[i] <= Content(w'.fs.data, i) <= w.src[w.origin[i]])
  }

  lemma OpenFrameIsHarmless(c: Conf, w: World, k: nat, n: nat, out: Outcome)
    requires Inv(c, w) && Enabled(c, w, Send(k, n, out))
    requires Delivered(w.segs[k], out) && SendFrame(w, w.segs[k], n).Some?
    requires w.segs[k].conn.value.h.fd.Some?
    ensures forall i :: !Harmed(w, NextSend(c, w, k, n, out), i)
  {
    OpenSendGrows(c, w, k, n, out);
    KeepsSendOpen(Plain, c, w, k, n, out);
    assert FilesOk(NextSend(c, w, k, n, out));
  }

  /**
   * In a state no hazard has led to, a frame that is accepted, whether or not the agent learns of
   * it, itself harms a file exactly when the segment was sealed as the fixed orphan before it had
   * shipped anything, there is a live file by now, and the frame is not a longer beginning of that
   * file's own source.
   */
  lemma FrameHarmsExactly(c: Conf, w: World, k: nat, n: nat, out: Outcome)
    requires Inv(c, w) && Enabled(c, w, Send(k, n, out))
    requires Delivered(w.segs[k], out) && SendFrame(w, w.segs[k], n).Some?
    ensures (exists i :: Harmed(w, NextSend(c, w, k, n, out), i))
       <==> && w.segs[k].target == FixedOrphan && w.segs[k].conn.value.h.fd.None? && Live in w.fs.dir
            && !(FileAt(w, Live) <= Chunk(SourceOf(w, w.segs[k].src), 0, n) <= w.src[w.origin[w.fs.dir[Live]]])
  {
    var g, w' := w.segs[k], NextSend(c, w, k, n, out);
    assert SegOk(c, w, g);
    if g.conn.value.h.fd.None? {
      CreateReplaces(w, g, n, out);
      if g.target == FixedOrphan && Live in w.fs.dir {
        assert Content(w'.fs.data, w.fs.dir[Live]) == Chunk(SourceOf(w, g.src), 0, n);
        assert Harmed(w, w', w.fs.dir[Live])
          <==> !(FileAt(w, Live) <= Chunk(SourceOf(w, g.src), 0, n) <= w.src[w.origin[w.fs.dir[Live]]]);
      }
    } else {
      OpenFrameIsHarmless(c, w, k, n, out);
    }
  }

  /**
   * An acknowledged seal keeps the server's idea of the target in line with the agent's exactly
   * when the connection had a descriptor, that is, when the segment had shipped anything.
   */
  lemma SealKeepsTrackExactly(c: Conf, w: World, k: nat, synced: bool)
    requires Inv(c, w) && Enabled(c, w, SealRename(k, Acked, synced))
    requires RenameAcked(w, w.segs[k], w.segs[k].pending.value.name, Acked)
    ensures var g := Next(c, w, SealRename(k, Acked, synced)).segs[k];
            g.conn.Some? && (g.conn.value.h.path == g.target <==> w.segs[k].conn.value.h.fd.Some?)
  {
    var g := w.segs[k];
    assert SegOk(c, w, g);
    RenameEffect(Plain, c, w, g, g.pending.value.name);
  }

  /**
   * After a seal rename, the seal name is on the server exactly when the call got through and the
   * segment had shipped anything; `_rename` returns in either case.
   */
  lemma SealNameExistsExactly(c: Conf, w: World, k: nat, out: Outcome, synced: bool)
    requires Inv(c, w) && Enabled(c, w, SealRename(k, out, synced)) && w.segs[k].pending.value.name != FixedOrphan
    ensures var dst := w.segs[k].pending.value.name;
            dst in Next(c, w, SealRename(k, out, synced)).fs.dir <==> Moved(w, w.segs[k], dst, out)
  {
    var g := w.segs[k];
    assert SegOk(c, w, g);
    if Delivered(g, out) && RenameCall(w, g, g.pending.value.name).Some? {
      RenameEffect(Plain, c, w, g, g.pending.value.name);
    }
  }

  /** A rename leaves every inode linked exactly when it does not land on an existing name. */
  lemma RenameKeepsLinksExactly(c: Conf, w: World, w': World, a: Name, b: Name)
    requires FilesOk(w) && AllLinked(w) && Moves(w, w', a, b)
    ensures AllLinked(w') <==> b !in w.fs.dir
  {
    assert forall n :: n in w'.fs.dir <==> n == b || (n in w.fs.dir && n != a);
    if b in w.fs.dir {
      assert !HasName(w'.fs, w.fs.dir[b]);
    } else {
      forall i | 0 <= i < |w'.fs.data| ensures HasName(w'.fs, i) {
        assert HasName(w.fs, i);
        var n :| n in w.fs.dir && w.fs.dir[n] == i;
        assert w'.fs.dir[if n == a then b else n] == i;
      }
    }
  }

  // ----- concrete runs

  lemma Then(c: Conf, w0: World, steps: seq<Step>, w: World, s: Step, w': World)
    requires Run(c, w0, steps) == Some(w) && Enabled(c, w, s) && Next(c, w, s) == w'
    ensures Run(c, w0, steps + [s]) == Some(w')
  {
    assert (steps + [s])[..|steps|] == steps;
  }

  const START := Coord(None, {}, {}, None)
  const NOTHING := Marks([], map[])
  const TIME := "20260101T120000Z"

  /** A segment whose connection works. */
  function Connected(i: nat, path: Name, fd: Option<Fd>, pos: nat): Seg {
    NewSeg(i).(phase := Running, conn := Some(Conn(Handler(path, fd), true)), pos := pos)
  }

  // An empty prefix matches anything. Inode 0 is mirrored; the agent starts when the path has
  // become the still empty inode 1.

  const A0 := World([[1, 2], []], FileSystem(map[Live := 0], [[1, 2]]), [map[Live := 0]], [0], {}, NOTHING, {}, [],
                    START)
  const A1 := A0.(segs := [NewSeg(1)], coord := Coord(Some(0), {}, {}, Some(1)))
  const A2 := A1.(segs := [Connected(1, Live, Some(Fd(0, 2)), 2)])
  const A3 := A2.(src := [[1, 2], [7, 8, 9]])
  const A4 := A3.(fs := FileSystem(map[Live := 0], [[1, 2, 9]]), segs := [Connected(1, Live, Some(Fd(0, 3)), 3)])

  lemma AdoptionStep1(c: Conf) returns (steps: seq<Step>)
    ensures Run(c, A0, steps) == Some(A1)
  {
    Then(c, A0, [], A0, Spawn(1, 1), A1);
    steps := [] + [Spawn(1, 1)];
  }

  lemma AdoptionStep2(c: Conf) returns (steps: seq<Step>)
    ensures Run(c, A0, steps) == Some(A2) && !CanTell(c, A1, 0, 0)
  {
    steps := AdoptionStep1(c);
    assert LocalPrefix(c, []) == [];
    Then(c, A0, steps, A1, Connect(0, 0), A2);
    steps := steps + [Connect(0, 0)];
  }

  lemma AdoptionStep3(c: Conf) returns (steps: seq<Step>)
    ensures Run(c, A0, steps) == Some(A3)
  {
    steps := AdoptionStep2(c);
    assert A2.src[1] + [7, 8, 9] == [7, 8, 9];
    Then(c, A0, steps, A2, Grow(1, [7, 8, 9]), A3);
    steps := steps + [Grow(1, [7, 8, 9])];
  }

  lemma AdoptionStep4(c: Conf) returns (steps: seq<Step>)
    ensures Run(c, A0, steps) == Some(A4)
  {
    steps := AdoptionStep3(c);
    assert Chunk([7, 8, 9], 2, 1) == [9];
    assert WriteAt([1, 2], 2, [9]) == [1, 2, 9];
    Then(c, A0, steps, A3, Send(0, 1, Acked), A4);
    steps := steps + [Send(0, 1, Acked)];
  }

  lemma AdoptionCorrupts()
    ensures Corrupt(A4, Live)
  {
    assert FileAt(A4, Live)[2] == 9;
    assert A4.src[1][0] == 7;
  }

  /** The bytes of inode 1 end up behind those of inode 0. */
  lemma EmptyPrefixMixesFiles(c: Conf) returns (steps: seq<Step>, w: World)
    ensures Init(c, A0) && Run(c, A0, steps) == Some(w) && Corrupt(w, Live)
  {
    steps := AdoptionStep4(c);
    w := A4;
    AdoptionCorrupts();
  }

  // An ephemeral source rotates away an inode that never had a byte, while an orphan is on the
  // server: the server answers the seal rename as a no-op and keeps tracking the live name. A late
  // byte in the old inode then recreates the file the new live segment is writing.

  const SEAL := Request(FixedOrphan, true, TIME)
  const CLOSING := Connected(0, Live, None, 0).(target := FixedOrphan, past := [Live], roleLive := false,
                                                pending := Some(SEAL), sealed := true, noResume := true)

  const B0 := World([[], [5, 6], [1]], FileSystem(map[FixedOrphan := 0], [[1]]), [map[FixedOrphan := 0]], [2], {},
                    NOTHING, {}, [], START)
  const B1 := B0.(segs := [NewSeg(0)], coord := Coord(Some(0), {}, {}, Some(0)))
  const B2 := B1.(segs := [Connected(0, Live, None, 0)])
  const B3 := B2.(segs := [Connected(0, Live, None, 0).(pending := Some(SEAL))])
  const B4 := B3.(segs := [CLOSING])
  const B5 := B4.(segs := [CLOSING, NewSeg(1)], coord := Coord(Some(1), {0}, {TIME}, Some(1)))
  const B6 := B5.(segs := [CLOSING, Connected(1, Live, None, 0)])
  const B7 := B6.(fs := FileSystem(map[FixedOrphan := 0, Live := 1], [[1], [5, 6]]), origin := [2, 1],
                  dirs := [map[FixedOrphan := 0], map[FixedOrphan := 0, Live := 1]],
                  segs := [CLOSING, Connected(1, Live, Some(Fd(1, 2)), 2)])
  const B8 := B7.(src := [[9], [5, 6], [1]])
  const B9 := B8.(fs := FileSystem(map[FixedOrphan := 0, Live := 1], [[1], [9]]), origin := [2, 0],
                  dirs := B8.dirs + [map[FixedOrphan := 0, Live := 1]],
                  segs := [CLOSING.(conn := Some(Conn(Handler(Live, Some(Fd(1, 1))), true)), pos := 1),
                           Connected(1, Live, Some(Fd(1, 2)), 2)])
  const B10 := B9.(src := [[9], [5, 6, 7], [1]])
  const B11 := B10.(fs := FileSystem(map[FixedOrphan := 0, Live := 1], [[1], [9, 0, 7]]),
                    segs := [B9.segs[0], Connected(1, Live, Some(Fd(1, 3)), 3)])

  lemma DetachedStep1(c: Conf) returns (steps: seq<Step>)
    requires c.ephemeral
    ensures Run(c, B0, steps) == Some(B1)
  {
    Then(c, B0, [], B0, Spawn(0, 0), B1);
    steps := [] + [Spawn(0, 0)];
  }

  lemma DetachedStep2(c: Conf) returns (steps: seq<Step>)
    requires c.ephemeral
    ensures Run(c, B0, steps) == Some(B2)
  {
    steps := DetachedStep1(c);
    Then(c, B0, steps, B1, Connect(0, 0), B2);
    steps := steps + [Connect(0, 0)];
  }

  lemma DetachedStep3(c: Conf) returns (steps: seq<Step>)
    requires c.ephemeral
    ensures Run(c, B0, steps) == Some(B3)
  {
    steps := DetachedStep2(c);
    Then(c, B0, steps, B2, RequestSeal(SEAL), B3);
    steps := steps + [RequestSeal(SEAL)];
  }

  lemma DetachedStep4(c: Conf) returns (steps: seq<Step>)
    requires c.ephemeral
    ensures Run(c, B0, steps) == Some(B4)
  {
    steps := DetachedStep3(c);
    assert [] + [Live] == [Live];
    Then(c, B0, steps, B3, SealRename(0, Acked, true), B4);
    steps := steps + [SealRename(0, Acked, true)];
  }

  lemma DetachedStep5(c: Conf) returns (steps: seq<Step>)
    requires c.ephemeral
    ensures Run(c, B0, steps) == Some(B5)
  {
    steps := DetachedStep4(c);
    assert [CLOSING] + [NewSeg(1)] == [CLOSING, NewSeg(1)];
    Then(c, B0, steps, B4, Rotate(1, 1), B5);
    steps := steps + [Rotate(1, 1)];
  }

  lemma DetachedStep6(c: Conf) returns (steps: seq<Step>)
    requires c.ephemeral
    ensures Run(c, B0, steps) == Some(B6)
  {
    steps := DetachedStep5(c);
    Then(c, B0, steps, B5, Connect(1, 0), B6);
    steps := steps + [Connect(1, 0)];
  }

  lemma DetachedSend7(c: Conf)
    ensures Enabled(c, B6, Send(1, 2, Acked)) && NextSend(c, B6, 1, 2, Acked) == B7
  {
    assert Chunk([5, 6], 0, 2) == [5, 6];
    assert WriteAt([], 0, [5, 6]) == [5, 6];
    assert AfterSend(B6, B6.segs[1], 2, Acked).fs.data == [[1], [5, 6]];
  }

  lemma DetachedStep7(c: Conf) returns (steps: seq<Step>)
    requires c.ephemeral
    ensures Run(c, B0, steps) == Some(B7)
  {
    steps := DetachedStep6(c);
    DetachedSend7(c);
    Then(c, B0, steps, B6, Send(1, 2, Acked), B7);
    steps := steps + [Send(1, 2, Acked)];
  }

  lemma DetachedStep8(c: Conf) returns (steps: seq<Step>)
    requires c.ephemeral
    ensures Run(c, B0, steps) == Some(B8)
  {
    steps := DetachedStep7(c);
    assert B7.src[0] + [9] == [9];
    Then(c, B0, steps, B7, Grow(0, [9]), B8);
    steps := steps + [Grow(0, [9])];
  }

  lemma DetachedSend9(c: Conf)
    ensures Enabled(c, B8, Send(0, 1, Acked)) && NextSend(c, B8, 0, 1, Acked) == B9 && DetachedCreate(B8, 0, 1, Acked)
  {
    assert Chunk([9], 0, 1) == [9];
    assert WriteAt([], 0, [9]) == [9];
    assert AfterSend(B8, B8.segs[0], 1, Acked).fs.data == [[1], [9]];
  }

  lemma DetachedStep9(c: Conf) returns (steps: seq<Step>)
    requires c.ephemeral
    ensures Run(c, B0, steps) == Some(B9)
  {
    steps := DetachedStep8(c);
    DetachedSend9(c);
    Then(c, B0, steps, B8, Send(0, 1, Acked), B9);
    steps := steps + [Send(0, 1, Acked)];
  }

  lemma DetachedStep10(c: Conf) returns (steps: seq<Step>)
    requires c.ephemeral
    ensures Run(c, B0, steps) == Some(B10)
  {
    steps := DetachedStep9(c);
    assert B9.src[1] + [7] == [5, 6, 7];
    Then(c, B0, steps, B9, Grow(1, [7]), B10);
    steps := steps + [Grow(1, [7])];
  }

  lemma DetachedSend11(c: Conf)
    ensures Enabled(c, B10, Send(1, 1, Acked)) && NextSend(c, B10, 1, 1, Acked) == B11
  {
    assert Chunk([5, 6, 7], 2, 1) == [7];
    assert WriteAt([9], 2, [7]) == [9, 0, 7];
    assert AfterSend(B10, B10.segs[1], 1, Acked).fs.data == [[1], [9, 0, 7]];
  }

  lemma DetachedStep11(c: Conf) returns (steps: seq<Step>)
    requires c.ephemeral
    ensures Run(c, B0, steps) == Some(B11)
  {
    steps := DetachedStep10(c);
    DetachedSend11(c);
    Then(c, B0, steps, B10, Send(1, 1, Acked), B11);
    steps := steps + [Send(1, 1, Acked)];
  }

  lemma DetachedCorrupts()
    ensures Corrupt(B11, Live)
  {
    assert FileAt(B11, Live)[0] == 9 && FileAt(B11, Live)[1] == 0 && |B11.src[0]| == 1;
  }

  /** The live file becomes a mixture of two inodes with a hole between them. */
  lemma EmptySealMixesFiles(c: Conf) returns (steps: seq<Step>, w: World)
    requires c.ephemeral
    ensures Init(c, B0) && Run(c, B0, steps) == Some(w) && Corrupt(w, Live)
  {
    steps := DetachedStep11(c);
    w := B11;
    DetachedCorrupts();
  }

  // An orphan seal is acknowledged although the directory sync failed. The next inode is being
  // mirrored when the server crashes and comes back with the old file under the live name; the
  // agent reconnects, compares nothing, and goes on at the end of the old file.

  const REQUEST := Request(DatedOrphan(TIME), true, TIME)
  const SEALED0 := Connected(0, DatedOrphan(TIME), Some(Fd(0, 2)), 2).(target := DatedOrphan(TIME), past := [Live],
                     roleLive := false, pending := Some(REQUEST), sealed := true)
  const DOWN0 := Disconnected(SEALED0)
  const BOTH: map<Name, nat> := map[DatedOrphan(TIME) := 0, Live := 1]

  const C0 := World([[1, 2], [7, 8, 9]], FileSystem(map[], []), [map[]], [], {}, NOTHING, {}, [], START)
  const C1 := C0.(segs := [NewSeg(0)], coord := Coord(Some(0), {}, {}, Some(0)))
  const C2 := C1.(segs := [Connected(0, Live, None, 0)])
  const C3 := C2.(fs := FileSystem(map[Live := 0], [[1, 2]]), dirs := [map[], map[Live := 0]], origin := [0],
                  segs := [Connected(0, Live, Some(Fd(0, 2)), 2)])
  const C4 := C3.(segs := [C3.segs[0].(pending := Some(REQUEST))])
  const C5 := C4.(fs := FileSystem(map[DatedOrphan(TIME) := 0], [[1, 2]]),
                  dirs := [map[], map[Live := 0], map[DatedOrphan(TIME) := 0]], segs := [SEALED0])
  const C6 := C5.(segs := [SEALED0, NewSeg(1)], coord := Coord(Some(1), {0}, {TIME}, Some(1)))
  const C7 := C6.(segs := [SEALED0, Connected(1, Live, None, 0)])
  const C8 := C7.(fs := FileSystem(BOTH, [[1, 2], [7]]), dirs := C7.dirs + [BOTH], origin := [0, 1],
                  segs := [SEALED0, Connected(1, Live, Some(Fd(1, 1)), 1)])
  const C9 := C8.(fs := FileSystem(map[Live := 0], [[1, 2], [7]]), dirs := [map[Live := 0]], origin := [1, 1],
                  segs := [DOWN0, Disconnected(C8.segs[1])])
  const C10 := C9.(segs := [DOWN0, C8.segs[1].(conn := None, pos := 3)])
  const C11 := C10.(segs := [DOWN0, Connected(1, Live, Some(Fd(0, 2)), 2).(reconnects := 1)])
  const C12 := C11.(fs := FileSystem(map[Live := 0], [[1, 2, 9], [7]]),
                    segs := [DOWN0, Connected(1, Live, Some(Fd(0, 3)), 3).(reconnects := 1)])

  lemma RollbackStep1(c: Conf) returns (steps: seq<Step>)
    requires !c.ephemeral && c.prefixLength >= 3
    ensures Run(c, C0, steps) == Some(C1)
  {
    Then(c, C0, [], C0, Spawn(0, 0), C1);
    steps := [] + [Spawn(0, 0)];
  }

  lemma RollbackStep2(c: Conf) returns (steps: seq<Step>)
    requires !c.ephemeral && c.prefixLength >= 3
    ensures Run(c, C0, steps) == Some(C2)
  {
    steps := RollbackStep1(c);
    Then(c, C0, steps, C1, Connect(0, 0), C2);
    steps := steps + [Connect(0, 0)];
  }

  lemma RollbackSend3(c: Conf)
    ensures Enabled(c, C2, Send(0, 2, Acked)) && NextSend(c, C2, 0, 2, Acked) == C3
  {
    assert Chunk([1, 2], 0, 2) == [1, 2];
    assert WriteAt([], 0, [1, 2]) == [1, 2];
    assert AfterSend(C2, C2.segs[0], 2, Acked).fs.data == [[1, 2]];
  }

  lemma RollbackStep3(c: Conf) returns (steps: seq<Step>)
    requires !c.ephemeral && c.prefixLength >= 3
    ensures Run(c, C0, steps) == Some(C3)
  {
    steps := RollbackStep2(c);
    RollbackSend3(c);
    Then(c, C0, steps, C2, Send(0, 2, Acked), C3);
    steps := steps + [Send(0, 2, Acked)];
  }

  lemma RollbackStep4(c: Conf) returns (steps: seq<Step>)
    requires !c.ephemeral && c.prefixLength >= 3
    ensures Run(c, C0, steps) == Some(C4)
  {
    steps := RollbackStep3(c);
    Then(c, C0, steps, C3, RequestSeal(REQUEST), C4);
    steps := steps + [RequestSeal(REQUEST)];
  }

  lemma RollbackStep5(c: Conf) returns (steps: seq<Step>)
    requires !c.ephemeral && c.prefixLength >= 3
    ensures Run(c, C0, steps) == Some(C5)
  {
    steps := RollbackStep4(c);
    assert [] + [Live] == [Live];
    assert (map[Live := 0] - {Live})[DatedOrphan(TIME) := 0] == C5.fs.dir;
    Then(c, C0, steps, C4, SealRename(0, Acked, false), C5);
    steps := steps + [SealRename(0, Acked, false)];
  }

  lemma RollbackStep6(c: Conf) returns (steps: seq<Step>)
    requires !c.ephemeral && c.prefixLength >= 3
    ensures Run(c, C0, steps) == Some(C6)
  {
    steps := RollbackStep5(c);
    assert [SEALED0] + [NewSeg(1)] == C6.segs;
    Then(c, C0, steps, C5, Rotate(1, 1), C6);
    steps := steps + [Rotate(1, 1)];
  }

  lemma RollbackStep7(c: Conf) returns (steps: seq<Step>)
    requires !c.ephemeral && c.prefixLength >= 3
    ensures Run(c, C0, steps) == Some(C7)
  {
    steps := RollbackStep6(c);
    Then(c, C0, steps, C6, Connect(1, 0), C7);
    steps := steps + [Connect(1, 0)];
  }

  lemma RollbackSend8(c: Conf)
    ensures Enabled(c, C7, Send(1, 1, Acked)) && NextSend(c, C7, 1, 1, Acked) == C8
  {
    assert Chunk([7, 8, 9], 0, 1) == [7];
    assert WriteAt([], 0, [7]) == [7];
    assert AfterSend(C7, C7.segs[1], 1, Acked).fs.data == [[1, 2], [7]];
  }

  lemma RollbackStep8(c: Conf) returns (steps: seq<Step>)
    requires !c.ephemeral && c.prefixLength >= 3
    ensures Run(c, C0, steps) == Some(C8)
  {
    steps := RollbackStep7(c);
    RollbackSend8(c);
    Then(c, C0, steps, C7, Send(1, 1, Acked), C8);
    steps := steps + [Send(1, 1, Acked)];
  }

  lemma RollbackReclaims()
    ensures Reclaimed(C8.segs, map[Live := 0], [0, 1]) == [1, 1]
  {
    var front := C8.segs[..|C8.segs| - 1];
    assert front == [SEALED0];
    assert front[..|front| - 1] == [] && Reclaimed([], map[Live := 0], [0, 1]) == [0, 1];
    assert front[|front| - 1] == SEALED0;
    assert Reclaimed(front, map[Live := 0], [0, 1]) == [0, 1];
    assert OpensBlindly(C8.segs[1]) && C8.segs[1].target == Live && C8.segs[1].src == 1;
  }

  lemma RollbackCrash(c: Conf)
    ensures NextCrash(C8, 1, {Live}, []) == C9
  {
    assert C8.dirs[1] == map[Live := 0];
    assert Restored(C8, 1, {Live}) == map[Live := 0];
    RollbackReclaims();
    assert NextCrash(C8, 1, {Live}, []).fs.data == C9.fs.data;
    assert NextCrash(C8, 1, {Live}, []).segs == C9.segs;
  }

  /** This is the one hazard of the run. */
  lemma RollbackMixes()
    ensures CrashMixes(C8, 1, {Live}, [])
  {
    assert C8.dirs[1] == map[Live := 0];
    assert Restored(C8, 1, {Live}) == map[Live := 0];
    var g, f := C8.segs[1], Content(CutFiles(C8, []), 0);
    assert OpensBlindly(g) && f == [1, 2] && SourceOf(C8, 1) == [7, 8, 9];
    assert f[0] != SourceOf(C8, 1)[0];
  }

  lemma RollbackStep9(c: Conf) returns (steps: seq<Step>)
    requires !c.ephemeral && c.prefixLength >= 3
    ensures Run(c, C0, steps) == Some(C9)
  {
    steps := RollbackStep8(c);
    RollbackCrash(c);
    Then(c, C0, steps, C8, Crash(1, {Live}, []), C9);
    steps := steps + [Crash(1, {Live}, [])];
  }

  lemma RollbackStep10(c: Conf) returns (steps: seq<Step>)
    requires !c.ephemeral && c.prefixLength >= 3
    ensures Run(c, C0, steps) == Some(C10)
  {
    steps := RollbackStep9(c);
    assert |LocalPrefix(c, [7, 8, 9])| == 3;
    Then(c, C0, steps, C9, Send(1, 1, NotApplied), C10);
    steps := steps + [Send(1, 1, NotApplied)];
  }

  lemma RollbackStep11(c: Conf) returns (steps: seq<Step>)
    requires !c.ephemeral && c.prefixLength >= 3
    ensures Run(c, C0, steps) == Some(C11)
  {
    steps := RollbackStep10(c);
    Then(c, C0, steps, C10, Reconnect(1, true), C11);
    steps := steps + [Reconnect(1, true)];
  }

  lemma RollbackSend12(c: Conf)
    ensures Enabled(c, C11, Send(1, 1, Acked)) && NextSend(c, C11, 1, 1, Acked) == C12
  {
    assert Chunk([7, 8, 9], 2, 1) == [9];
    assert WriteAt([1, 2], 2, [9]) == [1, 2, 9];
    assert AfterSend(C11, C11.segs[1], 1, Acked).fs.data == [[1, 2, 9], [7]];
  }

  lemma RollbackStep12(c: Conf) returns (steps: seq<Step>)
    requires !c.ephemeral && c.prefixLength >= 3
    ensures Run(c, C0, steps) == Some(C12)
  {
    steps := RollbackStep11(c);
    RollbackSend12(c);
    Then(c, C0, steps, C11, Send(1, 1, Acked), C12);
    steps := steps + [Send(1, 1, Acked)];
  }

  /** A seal that is acknowledged but not durable ends in two inodes' bytes in one file. */
  lemma UnsyncedSealMixesFiles(c: Conf) returns (steps: seq<Step>, w: World)
    requires !c.ephemeral && c.prefixLength >= 3
    ensures Init(c, C0) && Run(c, C0, steps) == Some(w) && Corrupt(w, Live)
  {
    steps := RollbackStep12(c);
    w := C12;
    assert FileAt(C12, Live)[0] == 1 && FileAt(C12, Live)[2] == 9;
  }
}
