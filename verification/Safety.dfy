/** The remaining steps, and the invariant over whole runs. */
module Safety {
  import opened Prelude
  import opened Names
  import opened Markers
  import opened Lifecycle
  import opened Protocol
  import opened Invariant
  import opened History
  import opened Preservation

  // ----- the environment

  lemma KeepsGrowth(m: Mode, c: Conf, w: World, s: Step)
    requires Core(m, c, w) && Enabled(c, w, s) && (s.Grow? || s.NewSource? || s.Scan?)
    ensures Core(m, c, Next(c, w, s))
  {
    var w' := Next(c, w, s);
    if s.Scan? {
      LearnAllExtends(c.base, w.marks, s.names);
    }
    assert Grows(w, w');
    assert FilesOk(w');
    forall l | l in w'.late ensures LateFrameIn(m, w', l) {
      assert LateFrameIn(m, w, l);
      SliceGrows(w.src[w.origin[l.ino]], w'.src[w.origin[l.ino]], l.offset, l.payload);
      ReachesGrows(m, w, w', l.ino, l.offset);
    }
    GrowsKeepsInv(m, c, w, w');
  }

  lemma KeepsApplyLate(m: Mode, c: Conf, w: World, l: Late)
    requires Core(m, c, w) && l in w.late
    ensures Core(m, c, Next(c, w, ApplyLate(l)))
  {
    assert LateFrameIn(m, w, l);
    WriteKeepsInv(m, c, w, Next(c, w, ApplyLate(l)), l.ino, l.offset, l.payload);
  }

  // A server crash: what may come back under a name that a segment opens blindly is its own.

  lemma {:induction false} ReclaimedFrom(segs: seq<Seg>, dir: map<Name, nat>, origin: seq<nat>, i: nat)
    requires i < |origin|
    ensures |Reclaimed(segs, dir, origin)| == |origin|
    ensures || Reclaimed(segs, dir, origin)[i] == origin[i]
            || exists k | 0 <= k < |segs| :: OpensBlindly(segs[k]) && segs[k].target in dir && dir[segs[k].target] == i
                                             && Reclaimed(segs, dir, origin)[i] == segs[k].src
  {
    if segs != [] {
      ReclaimedFrom(segs[..|segs| - 1], dir, origin, i);
    }
  }

  /** Segments that open blindly have different targets. */
  ghost predicate BlindApart(segs: seq<Seg>) {
    forall j, k | 0 <= j < k < |segs| && OpensBlindly(segs[j]) && OpensBlindly(segs[k]) ::
      segs[j].target != segs[k].target
  }

  lemma {:induction false} ReclaimedOwn(segs: seq<Seg>, dir: map<Name, nat>, origin: seq<nat>, k: nat)
    requires BlindApart(segs) && Fits(dir, |origin|)
    requires k < |segs| && OpensBlindly(segs[k]) && segs[k].target in dir
    ensures |Reclaimed(segs, dir, origin)| == |origin|
    ensures Reclaimed(segs, dir, origin)[dir[segs[k].target]] == segs[k].src
  {
    var front, g := segs[..|segs| - 1], segs[|segs| - 1];
    ReclaimedFrom(front, dir, origin, dir[segs[k].target]);
    if k < |front| {
      assert BlindApart(front);
      ReclaimedOwn(front, dir, origin, k);
      assert OpensBlindly(g) ==> g.target != segs[k].target;
    }
  }

  lemma SegsAreBlindApart(w: World)
    requires SegsApart(w)
    ensures BlindApart(w.segs)
  {
    forall j, k | 0 <= j < k < |w.segs| && OpensBlindly(w.segs[j]) && OpensBlindly(w.segs[k])
      ensures w.segs[j].target != w.segs[k].target
    {
      assert Apart(w.segs[j], w.segs[k]);
    }
  }

  lemma RestoredFits(w: World, back: nat, kept: set<Name>)
    requires HistoryOk(w) && back < |w.dirs|
    ensures Fits(Restored(w, back, kept), |w.fs.data|)
    ensures forall n | n in Restored(w, back, kept) :: Listed(w, n)
  {
    assert Fits(w.dirs[back], |w.fs.data|);
  }

  lemma CrashFiles(w: World, back: nat, kept: set<Name>, cut: seq<nat>)
    requires HistoryOk(w) && FilesOk(w) && back < |w.dirs| && !CrashMixes(w, back, kept, cut)
    requires forall k | 0 <= k < |w.segs| :: w.segs[k].src < |w.src|
    ensures FilesOk(NextCrash(w, back, kept, cut))
  {
    var w' := NextCrash(w, back, kept, cut);
    RestoredFits(w, back, kept);
    if |w.origin| == 0 {
      forall k: nat | k <= |w.segs| ensures |Reclaimed(w.segs[..k], w'.fs.dir, w.origin)| == 0 {
        ReclaimedNothing(w.segs[..k], w'.fs.dir, w.origin);
      }
      assert w.segs[..|w.segs|] == w.segs;
    } else {
      ReclaimedFrom(w.segs, w'.fs.dir, w.origin, 0);
    }
    forall i | 0 <= i < |w'.origin| ensures w'.origin[i] < |w'.src| && w'.fs.data[i] <= w'.src[w'.origin[i]] {
      ReclaimedFrom(w.segs, w'.fs.dir, w.origin, i);
      assert w'.fs.data[i] <= w.fs.data[i];
    }
  }

  lemma {:induction false} ReclaimedNothing(segs: seq<Seg>, dir: map<Name, nat>, origin: seq<nat>)
    requires origin == []
    ensures Reclaimed(segs, dir, origin) == []
  {
    if segs != [] {
      ReclaimedNothing(segs[..|segs| - 1], dir, origin);
    }
  }

  lemma SegCrash(m: Mode, c: Conf, w: World, w': World, g: Seg)
    requires SegIn(m, c, w, g) && FilesOk(w')
    requires forall n | Listed(w', n) :: Listed(w, n)
    requires OpensBlindly(g) && g.target in w'.fs.dir ==> w'.origin[w'.fs.dir[g.target]] == g.src
    requires m == Unrolled && g.phase == Reopening ==> Live !in w'.fs.dir
    requires w'.src == w.src && w'.marks == w.marks
    ensures SegIn(m, c, w', Disconnected(g))
  {
    assert ControlOk(c, w', Disconnected(g));
    assert NamesFree(w', Disconnected(g));
    assert TargetIn(m, w', Disconnected(g));
  }

  lemma CrashSegs(m: Mode, c: Conf, w: World, back: nat, kept: set<Name>, cut: seq<nat>)
    requires HistoryOk(w) && FilesOk(w) && SegsIn(m, c, w) && SegsApart(w) && back < |w.dirs|
    requires FilesOk(NextCrash(w, back, kept, cut)) && (m == Unrolled ==> !RollsBack(w, back, kept))
    ensures SegsIn(m, c, NextCrash(w, back, kept, cut))
  {
    var w' := NextCrash(w, back, kept, cut);
    RestoredFits(w, back, kept);
    SegsAreBlindApart(w);
    forall k | 0 <= k < |w'.segs| ensures SegIn(m, c, w', w'.segs[k]) {
      if OpensBlindly(w.segs[k]) && w.segs[k].target in w'.fs.dir {
        ReclaimedOwn(w.segs, w'.fs.dir, w.origin, k);
      }
      assert SegIn(m, c, w, w.segs[k]);
      SegCrash(m, c, w, w', w.segs[k]);
    }
  }

  lemma CrashApart(w: World, back: nat, kept: set<Name>, cut: seq<nat>)
    requires SegsApart(w)
    ensures SegsApart(NextCrash(w, back, kept, cut))
  {
    var w' := NextCrash(w, back, kept, cut);
    forall j, k | 0 <= j < k < |w'.segs| ensures Apart(w'.segs[j], w'.segs[k]) {
      assert Apart(w.segs[j], w.segs[k]);
    }
  }

  lemma CrashNames(w: World, back: nat, kept: set<Name>, cut: seq<nat>)
    requires HistoryOk(w) && IsosOk(w) && back < |w.dirs| && IsosUsed(NextCrash(w, back, kept, cut))
    ensures IsosOk(NextCrash(w, back, kept, cut))
  {
    RestoredFits(w, back, kept);
    forall iso ensures Used(w, iso) <==> Used(NextCrash(w, back, kept, cut), iso) {
    }
  }

  lemma KeepsCrash(m: Mode, c: Conf, w: World, back: nat, kept: set<Name>, cut: seq<nat>)
    requires HistoryOk(w) && Core(m, c, w) && back < |w.dirs| && !CrashMixes(w, back, kept, cut)
    requires m == Unrolled ==> !RollsBack(w, back, kept)
    ensures Core(m, c, NextCrash(w, back, kept, cut))
  {
    CoreIsControl(m, c, w);
    CrashFiles(w, back, kept, cut);
    CrashSegs(m, c, w, back, kept, cut);
    CrashControl(c, w, back, kept, cut);
    CrashApart(w, back, kept, cut);
    CrashNames(w, back, kept, cut);
  }

  // ----- the coordinator

  lemma StartSegs(m: Mode, c: Conf, w: World, w': World, i: nat)
    requires FilesOk(w) && FilesOk(w') && SegsIn(m, c, w) && i < |w.src|
    requires w'.segs == w.segs + [NewSeg(i)] && Grows(w, w')
    ensures SegsIn(m, c, w')
  {
    forall k | 0 <= k < |w'.segs| ensures SegIn(m, c, w', w'.segs[k]) {
      if k < |w.segs| {
        SegGrows(m, c, w, w', w.segs[k]);
      }
    }
  }

  lemma StartApart(w: World, w': World, i: nat)
    requires SegsApart(w) && IsosOk(w) && LiveNameFree(w) && w'.segs == w.segs + [NewSeg(i)]
    requires w'.fs == w.fs && w'.dirs == w.dirs && w'.taken == w.taken
    requires forall iso | Used(w, iso) :: Used(w', iso)
    ensures SegsApart(w') && IsosOk(w')
  {
    forall n | Listed(w', n) ensures Listed(w, n) {
    }
    forall j, k | 0 <= j < k < |w'.segs| ensures Apart(w'.segs[j], w'.segs[k]) && IsosApart(w'.segs[j], w'.segs[k]) {
      if k < |w.segs| {
        assert Apart(w.segs[j], w.segs[k]) && IsosApart(w.segs[j], w.segs[k]);
      }
    }
  }

  lemma StartFiles(m: Mode, c: Conf, w: World, s: Step)
    requires Core(m, c, w) && Enabled(c, w, s) && (s.Spawn? || s.Rotate?)
    ensures FilesOk(Next(c, w, s)) && LateIn(m, Next(c, w, s)) && Grows(w, Next(c, w, s))
  {
    forall l | l in w.late ensures LateFrameIn(m, Next(c, w, s), l) {
      assert LateFrameIn(m, w, l);
    }
  }

  /** A new live segment joins segments that have all left the live name. */
  lemma KeepsStart(m: Mode, c: Conf, w: World, s: Step)
    requires Core(m, c, w) && Enabled(c, w, s) && (s.Spawn? || s.Rotate?)
    ensures Core(m, c, Next(c, w, s))
  {
    CoreIsControl(m, c, w);
    LiveNameFreed(c, w);
    StartCoord(c, w, s);
    StartFiles(m, c, w, s);
    StartSegs(m, c, w, Next(c, w, s), s.i);
    StartApart(w, Next(c, w, s), s.i);
  }

  /** The name the coordinator has chosen is free, and no other segment is heading for it. */
  lemma RequestIsFresh(m: Mode, c: Conf, w: World, req: Request)
    requires Core(m, c, w) && Enabled(c, w, RequestSeal(req)) && !Hazard(c, w, RequestSeal(req))
    ensures req.name != FixedOrphan ==> !Listed(w, req.name)
    ensures !req.isOrphan ==> !Used(w, req.iso) && req.iso in w.marks.waiting
    ensures !req.isOrphan ==> forall sha :: !Listed(w, Final(req.iso, sha))
    ensures forall j | 0 <= j < |w.segs| && w.segs[j].pending.Some? ::
              && (!req.isOrphan && !w.segs[j].pending.value.isOrphan ==> w.segs[j].pending.value.iso != req.iso)
              && (w.segs[j].phase != Done && w.segs[j].pending.value.name == req.name ==> req.name == FixedOrphan)
  {
    NewestIsLast(w.marks.waiting, w.coord.consumed);
    forall j | 0 <= j < |w.segs| && w.segs[j].pending.Some?
      ensures !req.isOrphan && !w.segs[j].pending.value.isOrphan ==> w.segs[j].pending.value.iso != req.iso
      ensures w.segs[j].phase != Done && w.segs[j].pending.value.name == req.name ==> req.name == FixedOrphan
    {
      assert SegIn(m, c, w, w.segs[j]);
      assert Used(w, w.segs[j].pending.value.iso);
    }
  }

  lemma RequestSegs(m: Mode, c: Conf, w: World, w': World, k: nat, req: Request)
    requires FilesOk(w) && SegsIn(m, c, w) && RequestOk(c, w, req)
    requires k < |w.segs| && w.segs[k].pending.None? && w' == WithSeg(w, k, w.segs[k].(pending := Some(req)))
    requires req.name != FixedOrphan ==> !Listed(w, req.name)
    requires !req.isOrphan ==> forall sha :: !Listed(w, Final(req.iso, sha))
    ensures SegsIn(m, c, w')
  {
    forall j | 0 <= j < |w'.segs| ensures SegIn(m, c, w', w'.segs[j]) {
      assert SegIn(m, c, w, w.segs[j]);
      SegGrows(m, c, w, w', w.segs[j]);
    }
  }

  lemma RequestApart(w: World, w': World, k: nat, req: Request)
    requires SegsApart(w) && IsosOk(w) && w.coord.live == Some(k)
    requires k < |w.segs| && w.segs[k].pending.None? && w' == WithSeg(w, k, w.segs[k].(pending := Some(req)))
    requires forall j | 0 <= j < |w.segs| && w.segs[j].pending.Some? ::
               && (!req.isOrphan && !w.segs[j].pending.value.isOrphan ==> w.segs[j].pending.value.iso != req.iso)
               && (w.segs[j].phase != Done && w.segs[j].pending.value.name == req.name ==> req.name == FixedOrphan)
    ensures SegsApart(w') && IsosOk(w')
  {
    forall i, j | 0 <= i < j < |w'.segs| ensures Apart(w'.segs[i], w'.segs[j]) && IsosApart(w'.segs[i], w'.segs[j]) {
      assert Apart(w.segs[i], w.segs[j]) && IsosApart(w.segs[i], w.segs[j]);
    }
    forall iso | Used(w, iso) ensures Used(w', iso) {
    }
  }

  lemma KeepsRequestSeal(m: Mode, c: Conf, w: World, req: Request)
    requires Core(m, c, w) && Enabled(c, w, RequestSeal(req)) && !Hazard(c, w, RequestSeal(req))
    ensures Core(m, c, Next(c, w, RequestSeal(req)))
  {
    var w', k := Next(c, w, RequestSeal(req)), w.coord.live.value;
    RequestIsFresh(m, c, w, req);
    RequestSegs(m, c, w, w', k, req);
    RequestApart(w, w', k, req);
  }

  lemma BookkeepingNames(c: Conf, w: World, s: Step)
    requires IsosOk(w) && Enabled(c, w, s) && (s.Skip? || s.DropDead? || s.Reap?) && IsosUsed(Next(c, w, s))
    ensures IsosOk(Next(c, w, s))
  {
    forall iso | Used(w, iso) ensures Used(Next(c, w, s), iso) {
    }
  }

  lemma CoordOnly(m: Mode, c: Conf, w: World, w': World)
    requires Core(m, c, w) && w' == w.(coord := w'.coord) && CoordOk(w') && IsosOk(w')
    ensures Core(m, c, w')
  {
    OthersGrow(m, c, w, w', |w.segs|);
    forall l | l in w'.late ensures LateFrameIn(m, w', l) {
      assert LateFrameIn(m, w, l);
    }
  }

  lemma KeepsBookkeeping(m: Mode, c: Conf, w: World, s: Step)
    requires Core(m, c, w) && Enabled(c, w, s) && (s.Skip? || s.DropDead? || s.Reap?)
    ensures Core(m, c, Next(c, w, s))
  {
    CoreIsControl(m, c, w);
    BookkeepingControl(c, w, s);
    BookkeepingNames(c, w, s);
    CoordOnly(m, c, w, Next(c, w, s));
  }

  // ----- every step, every run

  lemma SegmentKeepsCore(m: Mode, c: Conf, w: World, s: Step)
    requires Core(m, c, w) && Enabled(c, w, s) && !Hazard(c, w, s) && ActorOf(s).Segment?
    ensures Core(m, c, Next(c, w, s))
  {
    match s
    case Connect(k, prefix) =>
      WhoCanTellNeverAdopts(m, c, w, k, prefix);
      KeepsConnect(m, c, w, k, prefix);
    case StaleRename(k, clock, out, synced) => KeepsStaleRename(m, c, w, k, clock, out, synced);
    case Reopen(k) => KeepsOpen(m, c, w, k, s);
    case Send(k, n, out) => KeepsSend(m, c, w, k, n, out);
    case Reconnect(k, seek) => KeepsOpen(m, c, w, k, s);
    case SealRename(k, out, synced) => KeepsSealRename(m, c, w, k, out, synced);
    case MarkSealed(k) => KeepsQuiet(m, c, w, k, s);
    case FinalRename(k, out, synced) => KeepsFinalRename(m, c, w, k, out, synced);
    case End(k) => KeepsQuiet(m, c, w, k, s);
  }

  lemma CoordinatorKeepsCore(m: Mode, c: Conf, w: World, s: Step)
    requires Core(m, c, w) && Enabled(c, w, s) && !Hazard(c, w, s) && ActorOf(s).Coordinator?
    ensures Core(m, c, Next(c, w, s))
  {
    match s
    case Spawn(_, _) => KeepsStart(m, c, w, s);
    case Rotate(_, _) => KeepsStart(m, c, w, s);
    case RequestSeal(req) => KeepsRequestSeal(m, c, w, req);
    case Cancel(k) => KeepsQuiet(m, c, w, k, s);
    case _ => KeepsBookkeeping(m, c, w, s);
  }

  /** The crash brings an entry back. */
  ghost predicate UndoesRename(w: World, s: Step) {
    s.Crash? && RollsBack(w, s.back, s.kept)
  }

  lemma StepKeepsCore(m: Mode, c: Conf, w: World, s: Step)
    requires InvIn(m, c, w) && Enabled(c, w, s) && !Hazard(c, w, s) && (m == Unrolled ==> !UndoesRename(w, s))
    ensures Core(m, c, Next(c, w, s))
  {
    match ActorOf(s)
    case Segment(_) => SegmentKeepsCore(m, c, w, s);
    case Coordinator => CoordinatorKeepsCore(m, c, w, s);
    case Environment =>
      match s
      case Crash(back, kept, cut) => KeepsCrash(m, c, w, back, kept, cut);
      case ApplyLate(l) => KeepsApplyLate(m, c, w, l);
      case _ => KeepsGrowth(m, c, w, s);
  }

  lemma StepKeeps(m: Mode, c: Conf, w: World, s: Step)
    requires InvIn(m, c, w) && Enabled(c, w, s) && !Hazard(c, w, s) && (m == Unrolled ==> !UndoesRename(w, s))
    ensures InvIn(m, c, Next(c, w, s))
  {
    StepHistory(c, w, s);
    StepKeepsCore(m, c, w, s);
  }

  lemma StepKeepsInv(c: Conf, w: World, s: Step)
    requires Inv(c, w) && Enabled(c, w, s) && !Hazard(c, w, s)
    ensures Inv(c, Next(c, w, s))
  {
    StepKeeps(Plain, c, w, s);
  }

  lemma SendKeepsInv(c: Conf, w: World, k: nat, n: nat, out: Outcome)
    requires Inv(c, w) && Enabled(c, w, Send(k, n, out)) && !Hazard(c, w, Send(k, n, out))
    ensures Inv(c, NextSend(c, w, k, n, out))
  {
    StepKeeps(Plain, c, w, Send(k, n, out));
  }

  lemma CrashKeepsInv(c: Conf, w: World, back: nat, kept: set<Name>, cut: seq<nat>)
    requires Inv(c, w) && back < |w.dirs| && !CrashMixes(w, back, kept, cut)
    ensures Inv(c, NextCrash(w, back, kept, cut))
  {
    StepKeeps(Plain, c, w, Crash(back, kept, cut));
  }

  lemma {:induction false} RunKeeps(m: Mode, c: Conf, w: World, steps: seq<Step>)
    requires InvIn(m, c, w) && Sound(c, w, steps) && m != Unrolled
    ensures Run(c, w, steps).Some? && InvIn(m, c, Run(c, w, steps).value)
  {
    if steps != [] {
      var front := steps[..|steps| - 1];
      RunKeeps(m, c, w, front);
      StepKeeps(m, c, Run(c, w, front).value, steps[|steps| - 1]);
    }
  }

  lemma RunKeepsInv(c: Conf, w: World, steps: seq<Step>)
    requires Inv(c, w) && Sound(c, w, steps)
    ensures Run(c, w, steps).Some? && Inv(c, Run(c, w, steps).value)
  {
    RunKeeps(Plain, c, w, steps);
  }

  /** No crash of the run brings an entry back. */
  ghost predicate NeverUndoes(c: Conf, w: World, steps: seq<Step>) {
    steps == [] ||
    var front := steps[..|steps| - 1];
    NeverUndoes(c, w, front) && (Run(c, w, front).Some? ==> !UndoesRename(Run(c, w, front).value, steps[|steps| - 1]))
  }

  /** Then the stricter invariant holds as well. */
  lemma {:induction false} RunStaysUnrolled(c: Conf, w: World, steps: seq<Step>)
    requires InvIn(Unrolled, c, w) && Sound(c, w, steps) && NeverUndoes(c, w, steps)
    ensures Run(c, w, steps).Some? && InvIn(Unrolled, c, Run(c, w, steps).value)
  {
    if steps != [] {
      var front := steps[..|steps| - 1];
      RunStaysUnrolled(c, w, front);
      StepKeeps(Unrolled, c, Run(c, w, front).value, steps[|steps| - 1]);
    }
  }
}
