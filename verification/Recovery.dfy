/** Ephemeral sources, stale remote files, draining to the end, and healing after a server crash. */
module Recovery {
  import opened Prelude
  import opened Names
  import opened Files
  import opened Protocol
  import opened Invariant
  import opened Preservation
  import opened Lifecycle
  import opened Safety
  import opened Theorems

  // ----- ephemeral sources without markers

  /** In no run is a connection ever opened with the fixed orphan name as its target. */
  lemma NeverOpensFixedOrphan(c: Conf, w: World, s: Step)
    requires Reachable(c, w) && Enabled(c, w, s) && (s.Connect? || s.Reopen? || s.Reconnect?)
    ensures w.segs[s.k].target != FixedOrphan
    ensures var g := Next(c, w, s).segs[s.k]; g.conn.Some? && g.conn.value.h.path != FixedOrphan
  {
    ReachableIsControlled(c, w);
    assert ControlOk(c, w, w.segs[s.k]);
  }

  ghost predicate OneOfTwo(n: Name) {
    n == Live || n == FixedOrphan
  }

  ghost predicate TwoNames(dir: map<Name, nat>) {
    forall n | n in dir :: OneOfTwo(n)
  }

  /** No name but the two is on the server, can come back in a crash, or is tracked by a connection. */
  ghost predicate Markerless(w: World) {
    && TwoNames(w.fs.dir) && (forall i | 0 <= i < |w.dirs| :: TwoNames(w.dirs[i]))
    && (forall k | 0 <= k < |w.segs| && w.segs[k].conn.Some? :: OneOfTwo(w.segs[k].conn.value.h.path))
  }

  lemma MarkerlessTargets(c: Conf, w: World, k: nat)
    requires Control(c, w) && c.ephemeral && w.marks.waiting == [] && k < |w.segs|
    ensures OneOfTwo(w.segs[k].target)
    ensures w.segs[k].pending.Some? ==> w.segs[k].pending.value.isOrphan && w.segs[k].pending.value.name == FixedOrphan
  {
    assert ControlOk(c, w, w.segs[k]);
  }

  lemma MarkerlessSend(c: Conf, w: World, k: nat, n: nat, out: Outcome)
    requires Markerless(w) && Enabled(c, w, Send(k, n, out))
    ensures Markerless(NextSend(c, w, k, n, out))
  {
  }

  lemma MarkerlessRename(w: World, k: nat, dst: Name, out: Outcome, synced: bool, g: Seg)
    requires Markerless(w) && k < |w.segs| && OneOfTwo(dst)
    requires g.conn.Some? ==> OneOfTwo(g.conn.value.h.path)
    ensures Markerless(NextRename(w, k, dst, out, synced, g))
  {
    var w' := NextRename(w, k, dst, out, synced, g);
    assert TwoNames(w'.fs.dir);
    forall i | 0 <= i < |w'.dirs| ensures TwoNames(w'.dirs[i]) {
      assert i < |w.dirs| ==> TwoNames(w.dirs[i]);
    }
  }

  lemma MarkerlessOpen(c: Conf, w: World, k: nat, s: Step)
    requires Control(c, w) && c.ephemeral && w.marks.waiting == [] && Markerless(w) && Enabled(c, w, s)
    requires (s.Connect? || s.Reopen? || s.Reconnect?) && s.k == k
    ensures Markerless(Next(c, w, s))
  {
    MarkerlessTargets(c, w, k);
  }

  lemma MarkerlessRest(c: Conf, w: World, s: Step)
    requires Markerless(w) && Enabled(c, w, s)
    requires !(s.Send? || s.SealRename? || s.FinalRename? || s.StaleRename? || s.Connect? || s.Reopen? || s.Reconnect?)
    ensures Markerless(Next(c, w, s))
  {
    if s.Crash? {
      assert TwoNames(w.dirs[s.back]);
    }
  }

  lemma MarkerlessStep(c: Conf, w: World, s: Step)
    requires Control(c, w) && c.ephemeral && w.marks.waiting == [] && Markerless(w) && Enabled(c, w, s)
    ensures Markerless(Next(c, w, s))
  {
    if s.SealRename? || s.FinalRename? || s.StaleRename? {
      MarkerlessMove(c, w, s);
    } else if s.Connect? || s.Reopen? || s.Reconnect? {
      MarkerlessOpen(c, w, s.k, s);
    } else if s.Send? {
      MarkerlessSend(c, w, s.k, s.n, s.out);
    } else {
      MarkerlessRest(c, w, s);
    }
  }

  lemma MarkerlessMove(c: Conf, w: World, s: Step)
    requires Control(c, w) && c.ephemeral && w.marks.waiting == [] && Markerless(w) && Enabled(c, w, s)
    requires s.SealRename? || s.FinalRename? || s.StaleRename?
    ensures Markerless(Next(c, w, s))
  {
    MarkerlessTargets(c, w, s.k);
    match s
    case SealRename(k, out, synced) =>
      MarkerlessRename(w, k, FixedOrphan, out, synced, SegAfterSealRename(c, w, w.segs[k], out));
    case StaleRename(k, clock, out, synced) =>
      MarkerlessRename(w, k, FixedOrphan, out, synced, SegAfterStaleRename(c, w, w.segs[k], clock, out));
    case FinalRename(_, _, _) =>
  }

  /** In every run without a marker, an ephemeral source has at most the live file and one orphan. */
  lemma {:induction false} AtMostTwoFiles(c: Conf, w: World, steps: seq<Step>)
    requires Init(c, w) && Run(c, w, steps).Some? && c.ephemeral && Markerless(w)
    requires Run(c, w, steps).value.marks.waiting == []
    ensures TwoNames(Run(c, w, steps).value.fs.dir) && Markerless(Run(c, w, steps).value)
  {
    if steps != [] {
      var front := steps[..|steps| - 1];
      RunKeepsControl(c, w, front);
      var m := Run(c, w, front).value;
      StepExtendsMarks(c, m, steps[|steps| - 1]);
      AtMostTwoFiles(c, w, front);
      MarkerlessStep(c, m, steps[|steps| - 1]);
    }
  }

  // ----- a stale file under the live name

  /** As far as both go, the two begin alike. */
  ghost predicate BeginAlike(f: Bytes, p: Bytes) {
    f <= p || p <= f
  }

  lemma OwnFileBeginsAlike(c: Conf, w: World, k: nat)
    requires Inv(c, w) && InPhase(w, k, Running) && w.segs[k].conn.Some? && w.segs[k].conn.value.up
    ensures match w.segs[k].conn.value.h.fd
            case Some(fd) => BeginAlike(Content(w.fs.data, fd.ino), w.segs[k].prefix)
            case None => w.segs[k].conn.value.h.path == w.segs[k].target ==> w.segs[k].target !in w.fs.dir
  {
    assert SegOk(c, w, w.segs[k]);
  }

  lemma FileBeginsAlike(w: World, ino: nat, g: Seg)
    requires FilesOk(w) && ino < |w.fs.data| && w.origin[ino] == g.src && g.prefix <= w.src[g.src]
    ensures BeginAlike(Content(w.fs.data, ino), g.prefix)
  {
  }

  lemma AppendBeginsAlike(c: Conf, w: World, k: nat, n: nat, out: Outcome)
    requires Inv(c, w) && Enabled(c, w, Send(k, n, out)) && w.segs[k].conn.value.up
    ensures match w.segs[k].conn.value.h.fd
            case Some(fd) => BeginAlike(Content(NextSend(c, w, k, n, out).fs.data, fd.ino), w.segs[k].prefix)
            case None => true
  {
    assert SegOk(c, w, w.segs[k]);
    if w.segs[k].conn.value.h.fd.Some? {
      OpenSendKeepsInv(Plain, c, w, k, n, out);
      FileBeginsAlike(AfterSend(w, w.segs[k], n, out), w.segs[k].conn.value.h.fd.value.ino, w.segs[k]);
    }
  }

  /**
   * Whatever a frame is appended to, at once or late, begins like the prefix with which the segment
   * introduced itself; a file it creates did not exist. In particular nothing is ever appended to a
   * stale remote file, in whichever way putting it aside ends.
   */
  lemma NeverAppendsToStale(c: Conf, start: World, steps: seq<Step>, w: World, k: nat, n: nat, out: Outcome)
    requires Init(c, start) && Sound(c, start, steps) && Run(c, start, steps) == Some(w)
    requires Enabled(c, w, Send(k, n, out)) && !Hazard(c, w, Send(k, n, out))
    requires w.segs[k].conn.value.up && SendFrame(w, w.segs[k], n).Some?
    ensures match w.segs[k].conn.value.h.fd
            case Some(fd) =>
              && BeginAlike(Content(w.fs.data, fd.ino), w.segs[k].prefix)
              && BeginAlike(Content(NextSend(c, w, k, n, out).fs.data, fd.ino), w.segs[k].prefix)
            case None => Delivered(w.segs[k], out) ==> w.segs[k].conn.value.h.path !in w.fs.dir
  {
    RunKeepsInv(c, start, steps);
    OwnFileBeginsAlike(c, w, k);
    AppendBeginsAlike(c, w, k, n, out);
  }

  /**
   * The same when a delayed frame arrives: as far as it goes, the file still begins like the prefix
   * of any segment of its inode.
   */
  lemma LateFramesBeginAlike(c: Conf, start: World, steps: seq<Step>, w: World, l: Late, k: nat)
    requires Init(c, start) && Sound(c, start, steps) && Run(c, start, steps) == Some(w) && l in w.late
    requires k < |w.segs| && l.ino < |w.origin| && w.origin[l.ino] == w.segs[k].src
    ensures BeginAlike(Content(w.fs.data, l.ino), w.segs[k].prefix)
    ensures BeginAlike(Content(Next(c, w, ApplyLate(l)).fs.data, l.ino), w.segs[k].prefix)
  {
    RunKeepsInv(c, start, steps);
    StepKeepsInv(c, w, ApplyLate(l));
    assert SegOk(c, w, w.segs[k]) && LateFrameIn(Plain, w, l);
    assert FilesOk(Next(c, w, ApplyLate(l)));
  }

  /**
   * Putting it aside changes no byte; if acknowledged, the old file is intact under the seal name
   * and the live name free.
   */
  lemma StaleFileSurvives(c: Conf, w: World, k: nat, clock: string, out: Outcome, synced: bool)
    requires Inv(c, w) && Enabled(c, w, StaleRename(k, clock, out, synced))
    requires !Hazard(c, w, StaleRename(k, clock, out, synced))
    ensures var w', seal := Next(c, w, StaleRename(k, clock, out, synced)), StaleName(c, clock);
            && w'.fs.data == w.fs.data && w'.origin == w.origin
            && w'.segs[k].phase in {Reopening, Done}
            && (w'.segs[k].phase == Reopening ==>
                  && Live in w.fs.dir && Live !in w'.fs.dir
                  && seal in w'.fs.dir && FileAt(w', seal) == FileAt(w, Live))
  {
    var g, dst := w.segs[k], StaleName(c, clock);
    assert SegOk(c, w, g);
    if Delivered(g, out) && RenameCall(w, g, dst).Some? {
      RenameEffect(Plain, c, w, g, dst);
    }
  }

  /** The fresh connection starts in step, on no file or on one that is the segment's own. */
  lemma ReopenSyncs(c: Conf, w: World, k: nat)
    requires Inv(c, w) && Enabled(c, w, Reopen(k))
    ensures var w' := Next(c, w, Reopen(k));
            && w'.fs == w.fs && Synced(w', k) && w'.segs[k].pos == ReportedLength(w.fs, Live)
            && (Live in w.fs.dir ==> FileAt(w, Live) <= SourceOf(w, w.segs[k].src))
  {
    assert SegOk(c, w, w.segs[k]);
  }

  lemma FreshReopen(c: Conf, w: World, k: nat)
    requires InvIn(Unrolled, c, w) && Enabled(c, w, Reopen(k))
    ensures var w' := Next(c, w, Reopen(k));
            && Live !in w'.fs.dir && w'.fs == w.fs && Synced(w', k)
            && w'.segs[k].pos == 0 && w'.segs[k].conn == Some(Conn(Handler(Live, None), true))
  {
    assert SegIn(Unrolled, c, w, w.segs[k]);
  }

  /** Unless a crash has brought entries back, it starts at offset 0 on a name that does not exist. */
  lemma ReopenStartsAtZero(c: Conf, start: World, steps: seq<Step>, w: World, k: nat)
    requires Init(c, start) && Sound(c, start, steps) && NeverUndoes(c, start, steps) && Run(c, start, steps) == Some(w)
    requires Enabled(c, w, Reopen(k))
    ensures var w' := Next(c, w, Reopen(k));
            && Live !in w'.fs.dir && w'.fs == w.fs && Synced(w', k)
            && w'.segs[k].pos == 0 && w'.segs[k].conn == Some(Conn(Handler(Live, None), true))
  {
    assert InvIn(Unrolled, c, start);
    RunStaysUnrolled(c, start, steps);
    FreshReopen(c, w, k);
  }

  // ----- draining

  /** The stream and the server's descriptor are at the same position. */
  ghost predicate Aligned(g: Seg) {
    && g.conn.Some?
    && match g.conn.value.h.fd
       case Some(fd) => fd.pos == g.pos
       case None => g.pos == 0 && g.conn.value.h.path == g.target
  }

  /** They are, and the connection works. */
  ghost predicate Synced(w: World, k: nat) {
    InPhase(w, k, Running) && Aligned(w.segs[k]) && w.segs[k].conn.value.up
  }

  /** All the bytes of the source that the connection can see are on the server. */
  ghost predicate Complete(w: World, k: nat)
    requires k < |w.segs| && w.segs[k].conn.Some?
  {
    var g := w.segs[k];
    match g.conn.value.h.fd
    case Some(fd) => Content(w.fs.data, fd.ino) == SourceOf(w, g.src)
    case None => SourceOf(w, g.src) == []
  }

  /** At the end of the source a synchronised connection has a complete file. */
  lemma SyncedAtEndIsComplete(c: Conf, w: World, k: nat)
    requires Inv(c, w) && Synced(w, k) && w.segs[k].pos >= |SourceOf(w, w.segs[k].src)|
    ensures Complete(w, k)
    ensures var g := w.segs[k];
            g.target != FixedOrphan && g.conn.value.h.fd.Some? ==>
              g.target in w.fs.dir && FileAt(w, g.target) == SourceOf(w, g.src)
  {
    assert SegOk(c, w, w.segs[k]);
  }

  /** From a synchronised start a delivered frame is accepted, and the two stay synchronised. */
  lemma SyncedSend(c: Conf, w: World, k: nat, n: nat)
    requires Inv(c, w) && Synced(w, k) && 0 < n <= CHUNK_SIZE && w.segs[k].pos + n <= |SourceOf(w, w.segs[k].src)|
    ensures Enabled(c, w, Send(k, n, Acked)) && !Hazard(c, w, Send(k, n, Acked)) && SendAcked(w, w.segs[k], n, Acked)
    ensures var w' := NextSend(c, w, k, n, Acked);
            && Synced(w', k) && w'.segs[k].conn.value.h.fd.Some? && w'.src == w.src
            && w'.segs[k].src == w.segs[k].src && w'.segs[k].target == w.segs[k].target
            && w'.segs[k].pos == w.segs[k].pos + n
  {
    assert SegOk(c, w, w.segs[k]);
    ChunkIsSlice(SourceOf(w, w.segs[k].src), w.segs[k].pos, n);
  }

  lemma SyncedSendKeepsInv(c: Conf, w: World, k: nat, n: nat)
    requires Inv(c, w) && Synced(w, k) && 0 < n <= CHUNK_SIZE && w.segs[k].pos + n <= |SourceOf(w, w.segs[k].src)|
    ensures Enabled(c, w, Send(k, n, Acked)) && !Hazard(c, w, Send(k, n, Acked))
    ensures var w' := NextSend(c, w, k, n, Acked);
            && Inv(c, w') && Synced(w', k) && w'.src == w.src && |w'.segs| == |w.segs|
            && w'.segs[k].src == w.segs[k].src && w'.segs[k].target == w.segs[k].target
            && w'.segs[k].pos == w.segs[k].pos + n
  {
    SyncedSend(c, w, k, n);
    SendKeepsInv(c, w, k, n, Acked);
  }

  ghost predicate SentBy(c: Conf, w: World, k: nat, steps: seq<Step>, m: World) {
    && (forall i | 0 <= i < |steps| :: steps[i].Send? && steps[i].k == k && steps[i].out == Acked)
    && Sound(c, w, steps) && Run(c, w, steps) == Some(m)
  }

  lemma SentOneMore(c: Conf, w: World, k: nat, steps: seq<Step>, m: World, n: nat)
    requires SentBy(c, w, k, steps, m) && Enabled(c, m, Send(k, n, Acked)) && !Hazard(c, m, Send(k, n, Acked))
    ensures SentBy(c, w, k, steps + [Send(k, n, Acked)], NextSend(c, m, k, n, Acked))
  {
    RunOne(c, w, steps, Send(k, n, Acked));
  }

  /** After `steps`, all of them acknowledged sends by segment `k`, the world is `m` and in step. */
  ghost predicate DrainedBy(c: Conf, w: World, k: nat, steps: seq<Step>, m: World) {
    && SentBy(c, w, k, steps, m) && Inv(c, m) && Synced(m, k) && m.src == w.src && k < |w.segs|
    && m.segs[k].src == w.segs[k].src && m.segs[k].target == w.segs[k].target
    && |steps| <= m.segs[k].pos - w.segs[k].pos
    && (m.segs[k].pos == w.segs[k].pos || m.segs[k].pos <= |SourceOf(w, w.segs[k].src)|)
  }

  /** What `read(CHUNK_SIZE)` returns when there is something to read. */
  function ReadSize(w: World, k: nat): nat
    requires k < |w.segs| && w.segs[k].pos < |SourceOf(w, w.segs[k].src)|
  {
    Min(CHUNK_SIZE, |SourceOf(w, w.segs[k].src)| - w.segs[k].pos)
  }

  lemma DrainOne(c: Conf, w: World, k: nat, steps: seq<Step>, m: World, n: nat)
    requires DrainedBy(c, w, k, steps, m) && m.segs[k].pos < |SourceOf(m, m.segs[k].src)| && n == ReadSize(m, k)
    ensures Enabled(c, m, Send(k, n, Acked)) && m.segs[k].pos < NextSend(c, m, k, n, Acked).segs[k].pos
    ensures DrainedBy(c, w, k, steps + [Send(k, n, Acked)], NextSend(c, m, k, n, Acked))
  {
    SyncedSendKeepsInv(c, m, k, n);
    SentOneMore(c, w, k, steps, m, n);
  }

  /**
   * The drain loop without failures: it ends after at most as many sends as there are bytes left,
   * and then the server's file is the source.
   */
  lemma DrainCompletes(c: Conf, w: World, k: nat) returns (steps: seq<Step>, w': World)
    requires Inv(c, w) && Synced(w, k)
    ensures DrainedBy(c, w, k, steps, w') && Complete(w', k)
    ensures w'.segs[k].pos >= |SourceOf(w', w'.segs[k].src)|
  {
    steps, w' := [], w;
    while w'.segs[k].pos < |SourceOf(w', w'.segs[k].src)|
      invariant DrainedBy(c, w, k, steps, w')
      decreases |SourceOf(w, w.segs[k].src)| - w'.segs[k].pos
    {
      var n := ReadSize(w', k);
      DrainOne(c, w, k, steps, w', n);
      steps, w' := steps + [Send(k, n, Acked)], NextSend(c, w', k, n, Acked);
    }
    SyncedAtEndIsComplete(c, w', k);
  }

  /** Opening the target at the reported length synchronises. */
  lemma ReconnectSyncs(c: Conf, w: World, k: nat)
    requires Inv(c, w) && Enabled(c, w, Reconnect(k, true))
    ensures !Hazard(c, w, Reconnect(k, true))
    ensures var w' := Next(c, w, Reconnect(k, true));
            && Inv(c, w') && Synced(w', k) && w'.fs == w.fs && w'.src == w.src
            && w'.segs[k].pos == ReportedLength(w.fs, w.segs[k].target)
            && w'.segs[k].src == w.segs[k].src && w'.segs[k].target == w.segs[k].target
  {
    StepKeepsInv(c, w, Reconnect(k, true));
  }

  lemma RunningIsSound(c: Conf, w: World, k: nat, n: nat, out: Outcome)
    requires Inv(c, w) && Enabled(c, w, Send(k, n, out)) && !w.segs[k].noResume
    ensures !Hazard(c, w, Send(k, n, out))
  {
    assert SegOk(c, w, w.segs[k]);
  }

  lemma RunningSendSyncs(c: Conf, w: World, k: nat, n: nat, out: Outcome)
    requires Inv(c, w) && Enabled(c, w, Send(k, n, out)) && !w.segs[k].noResume
    ensures SendAcked(w, w.segs[k], n, out) ==> Synced(NextSend(c, w, k, n, out), k)
    ensures !SendAcked(w, w.segs[k], n, out) ==> Enabled(c, NextSend(c, w, k, n, out), Reconnect(k, true))
  {
    assert SegOk(c, w, w.segs[k]);
  }

  lemma RunningSend(c: Conf, w: World, k: nat, n: nat, out: Outcome)
    requires Inv(c, w) && Enabled(c, w, Send(k, n, out)) && !w.segs[k].noResume
    ensures !Hazard(c, w, Send(k, n, out)) && Inv(c, NextSend(c, w, k, n, out))
    ensures SendAcked(w, w.segs[k], n, out) ==> Synced(NextSend(c, w, k, n, out), k)
    ensures !SendAcked(w, w.segs[k], n, out) ==> Enabled(c, NextSend(c, w, k, n, out), Reconnect(k, true))
  {
    RunningIsSound(c, w, k, n, out);
    RunningSendSyncs(c, w, k, n, out);
    SendKeepsInv(c, w, k, n, out);
  }

  /**
   * From any position, one send outside fail-closed mode leads back into step: either it is
   * acknowledged, or the segment reconnects and seeks to the length the server reports.
   */
  lemma OneSendResyncs(c: Conf, w: World, k: nat, n: nat, out: Outcome)
    requires Inv(c, w) && Enabled(c, w, Send(k, n, out)) && !w.segs[k].noResume
    ensures !Hazard(c, w, Send(k, n, out))
    ensures var w' := NextSend(c, w, k, n, out);
            if SendAcked(w, w.segs[k], n, out) then Synced(w', k)
            else && Enabled(c, w', Reconnect(k, true))
                 && var w'' := Next(c, w', Reconnect(k, true));
                    Synced(w'', k) && w''.segs[k].pos == ReportedLength(w''.fs, w''.segs[k].target)
  {
    RunningSend(c, w, k, n, out);
    if !SendAcked(w, w.segs[k], n, out) {
      ReconnectSyncs(c, NextSend(c, w, k, n, out), k);
    }
  }

  /**
   * An acknowledged final rename of a segment that has shipped everything leaves the whole source,
   * once it has any byte, under the final name, and nothing under the seal name.
   */
  lemma FinalizedIsComplete(c: Conf, w: World, k: nat, synced: bool)
    requires Inv(c, w) && Enabled(c, w, FinalRename(k, Acked, synced)) && Synced(w, k)
    requires w.segs[k].pos >= |SourceOf(w, w.segs[k].src)| && SourceOf(w, w.segs[k].src) != []
    ensures var g, w', dst := w.segs[k], Next(c, w, FinalRename(k, Acked, synced)), FinalName(w, w.segs[k]);
            && w'.segs[k].phase == Done && w'.segs[k].target == dst
            && dst in w'.fs.dir && FileAt(w', dst) == SourceOf(w, g.src) && g.target !in w'.fs.dir
  {
    var g := w.segs[k];
    assert SegOk(c, w, g);
    SyncedAtEndIsComplete(c, w, k);
    HasDescriptor(c, w, k);
    RenameEffect(Plain, c, w, g, FinalName(w, g));
  }

  // ----- a server crash

  /** The failed call and the reconnect with which a segment meets a crashed server. */
  ghost function AfterOutage(k: nat, n: nat, out: Outcome, back: nat, kept: set<Name>, cut: seq<nat>): seq<Step> {
    [Crash(back, kept, cut)] + [Send(k, n, out)] + [Reconnect(k, true)]
  }

  /** A call over a connection that the crash has cut changes nothing on the server. */
  lemma CutOffSend(c: Conf, w: World, k: nat, n: nat, out: Outcome, back: nat, kept: set<Name>, cut: seq<nat>)
    requires Enabled(c, w, Send(k, n, out)) && !w.segs[k].noResume
    ensures var m := NextCrash(w, back, kept, cut);
            && Enabled(c, m, Send(k, n, out)) && !Hazard(c, m, Send(k, n, out))
            && var m' := NextSend(c, m, k, n, out);
               && Enabled(c, m', Reconnect(k, true)) && m'.fs == m.fs && m'.src == w.src
               && m'.segs[k].src == w.segs[k].src && m'.segs[k].target == w.segs[k].target
  {
    assert NextCrash(w, back, kept, cut).segs[k] == Disconnected(w.segs[k]);
  }

  lemma CrashedSend(c: Conf, w: World, k: nat, n: nat, out: Outcome, back: nat, kept: set<Name>, cut: seq<nat>)
    requires Inv(c, w) && Enabled(c, w, Send(k, n, out)) && !w.segs[k].noResume
    requires back < |w.dirs| && !CrashMixes(w, back, kept, cut)
    ensures var m := NextCrash(w, back, kept, cut);
            && Enabled(c, m, Send(k, n, out)) && !Hazard(c, m, Send(k, n, out))
            && var m' := NextSend(c, m, k, n, out);
               && Enabled(c, m', Reconnect(k, true)) && m'.fs == m.fs && m'.src == w.src
               && m'.segs[k].src == w.segs[k].src && m'.segs[k].target == w.segs[k].target
               && Inv(c, m) && Inv(c, m')
  {
    CutOffSend(c, w, k, n, out, back, kept, cut);
    CrashKeepsInv(c, w, back, kept, cut);
    SendKeepsInv(c, NextCrash(w, back, kept, cut), k, n, out);
  }

  lemma RunThree(c: Conf, w: World, a: Step, b: Step, d: Step)
    requires Enabled(c, w, a) && !Hazard(c, w, a)
    requires Enabled(c, Next(c, w, a), b) && !Hazard(c, Next(c, w, a), b)
    requires Enabled(c, Next(c, Next(c, w, a), b), d) && !Hazard(c, Next(c, Next(c, w, a), b), d)
    ensures Sound(c, w, [a] + [b] + [d]) && Run(c, w, [a] + [b] + [d]) == Some(Next(c, Next(c, Next(c, w, a), b), d))
  {
    RunOne(c, w, [], a);
    assert [] + [a] == [a];
    RunOne(c, w, [a], b);
    RunOne(c, w, [a] + [b], d);
  }

  /** After the crash, the failed call and the reconnect the stream is at what the server has left. */
  lemma OutageResyncs(c: Conf, w: World, k: nat, n: nat, out: Outcome, back: nat, kept: set<Name>, cut: seq<nat>)
    returns (m: World)
    requires Inv(c, w) && Enabled(c, w, Send(k, n, out)) && !w.segs[k].noResume
    requires back < |w.dirs| && !CrashMixes(w, back, kept, cut)
    ensures Sound(c, w, AfterOutage(k, n, out, back, kept, cut))
    ensures Run(c, w, AfterOutage(k, n, out, back, kept, cut)) == Some(m)
    ensures Inv(c, m) && Synced(m, k) && m.src == w.src
    ensures m.segs[k].src == w.segs[k].src && m.segs[k].target == w.segs[k].target
    ensures m.segs[k].pos == ReportedLength(m.fs, w.segs[k].target)
  {
    CrashedSend(c, w, k, n, out, back, kept, cut);
    var m1 := NextCrash(w, back, kept, cut);
    ReconnectSyncs(c, NextSend(c, m1, k, n, out), k);
    m := Next(c, NextSend(c, m1, k, n, out), Reconnect(k, true));
    RunThree(c, w, Crash(back, kept, cut), Send(k, n, out), Reconnect(k, true));
  }

  /**
   * However short a crash leaves the file, and even if it loses it or brings back an older one that
   * begins the inode, the segment seeks back to what is left and the next drain without failures
   * makes the file the source again.
   */
  lemma CrashHeals(c: Conf, w: World, k: nat, n: nat, out: Outcome, back: nat, kept: set<Name>, cut: seq<nat>)
    returns (m: World, steps: seq<Step>, w': World)
    requires Inv(c, w) && Enabled(c, w, Send(k, n, out)) && !w.segs[k].noResume
    requires back < |w.dirs| && !CrashMixes(w, back, kept, cut)
    ensures Run(c, w, AfterOutage(k, n, out, back, kept, cut)) == Some(m)
    ensures k < |m.segs| && m.segs[k].pos == ReportedLength(m.fs, w.segs[k].target)
    ensures DrainedBy(c, m, k, steps, w')
    ensures w.segs[k].target in w'.fs.dir && FileAt(w', w.segs[k].target) == SourceOf(w, w.segs[k].src) != []
  {
    m := OutageResyncs(c, w, k, n, out, back, kept, cut);
    steps, w' := DrainCompletes(c, m, k);
    SyncedAtEndIsComplete(c, w', k);
    RunningTarget(c, w, k);
    HasDescriptor(c, w', k);
  }

  lemma RunningTarget(c: Conf, w: World, k: nat)
    requires Inv(c, w) && InPhase(w, k, Running) && !w.segs[k].noResume
    ensures w.segs[k].target != FixedOrphan
  {
    assert SegOk(c, w, w.segs[k]);
  }

  /** A complete file of a source that is not empty is there. */
  lemma HasDescriptor(c: Conf, w: World, k: nat)
    requires Inv(c, w) && Synced(w, k) && Complete(w, k) && SourceOf(w, w.segs[k].src) != []
    ensures w.segs[k].conn.value.h.fd.Some?
  {
  }
}
