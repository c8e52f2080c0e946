/** What holds over every sound run of the protocol. */
module Theorems {
  import opened Prelude
  import opened Names
  import opened Markers
  import opened Files
  import opened Protocol
  import opened Invariant
  import opened Lifecycle
  import opened Safety
  import opened Effects

  ghost predicate CrashFree(steps: seq<Step>) {
    forall i | 0 <= i < |steps| :: !steps[i].Crash?
  }

  // ----- global safety

  /** The file under `n`. */
  ghost function FileAt(w: World, n: Name): Bytes
    requires n in w.fs.dir
  {
    Content(w.fs.data, w.fs.dir[n])
  }

  lemma InitIsInv(c: Conf, w: World)
    requires Init(c, w)
    ensures Inv(c, w)
  {
  }

  /** In every reachable state every server file is a prefix of one local inode. */
  lemma EveryFileIsAPrefix(c: Conf, w: World, steps: seq<Step>)
    requires Init(c, w) && Sound(c, w, steps)
    ensures Run(c, w, steps).Some?
    ensures var w' := Run(c, w, steps).value;
            forall n | n in w'.fs.dir :: exists i | 0 <= i < |w'.src| :: FileAt(w', n) <= w'.src[i]
  {
    InitIsInv(c, w);
    RunKeepsInv(c, w, steps);
    var w' := Run(c, w, steps).value;
    forall n | n in w'.fs.dir ensures exists i | 0 <= i < |w'.src| :: FileAt(w', n) <= w'.src[i] {
      assert FileAt(w', n) <= w'.src[w'.origin[w'.fs.dir[n]]];
    }
  }

  /** A state some run leads to, whatever happens in it. */
  ghost predicate Reachable(c: Conf, w: World) {
    exists start: World, steps: seq<Step> :: Init(c, start) && Run(c, start, steps) == Some(w)
  }

  lemma ReachableIsControlled(c: Conf, w: World)
    requires Reachable(c, w)
    ensures Control(c, w)
  {
    var start: World, steps: seq<Step> :| Init(c, start) && Run(c, start, steps) == Some(w);
    RunKeepsControl(c, start, steps);
  }

  // ----- refinement

  /** The abstract mirror goes through `states` by `moves`. */
  ghost predicate MirrorRun(states: seq<Mirror>, moves: seq<Move>) {
    |states| == |moves| + 1 && forall i | 0 <= i < |moves| :: MirrorNext(states[i], moves[i], states[i + 1])
  }

  /** Only an ephemeral source clobbers, and only a crash cuts. */
  ghost predicate MovesAllowed(c: Conf, steps: seq<Step>, moves: seq<Move>) {
    |moves| == |steps| && forall i | 0 <= i < |moves| ::
      (moves[i].Clobber? ==> c.ephemeral) && (OfCrash(moves[i]) <==> steps[i].Crash?)
  }

  lemma ExtendMirrorRun(c: Conf, front: seq<Step>, last: Step, states: seq<Mirror>, moves: seq<Move>, v: Move,
                        m: Mirror)
    requires MirrorRun(states, moves) && MirrorNext(states[|moves|], v, m)
    requires MovesAllowed(c, front, moves) && (v.Clobber? ==> c.ephemeral) && (OfCrash(v) <==> last.Crash?)
    ensures MirrorRun(states + [m], moves + [v]) && MovesAllowed(c, front + [last], moves + [v])
  {
    var states', moves' := states + [m], moves + [v];
    forall i | 0 <= i < |moves'| ensures MirrorNext(states'[i], moves'[i], states'[i + 1]) {
      if i < |moves| {
        assert MirrorNext(states[i], moves[i], states[i + 1]);
      }
    }
  }

  /** After the first `i` steps the mirror is in state `m`. */
  ghost predicate MirrorsAt(c: Conf, w: World, steps: seq<Step>, i: nat, m: Mirror) {
    i <= |steps| && Run(c, w, steps[..i]).Some?
    && FilesOk(Run(c, w, steps[..i]).value) && m == Abs(Run(c, w, steps[..i]).value)
  }

  /** The mirror's run by `moves` through `states` is, step by step, what `steps` do to the directory. */
  ghost predicate Refines(c: Conf, w: World, steps: seq<Step>, states: seq<Mirror>, moves: seq<Move>) {
    && MirrorRun(states, moves) && MovesAllowed(c, steps, moves)
    && (forall i | 0 <= i < |states| :: MirrorsAt(c, w, steps, i, states[i]))
    && (forall i | 0 <= i < |moves| :: RollsAt(c, w, steps, i, moves[i]))
  }

  /** If the `i`-th move rolls back, the step is a crash that brings back entries the directory once had. */
  ghost predicate RollsAt(c: Conf, w: World, steps: seq<Step>, i: nat, v: Move) {
    v.RollBack? ==>
      i < |steps| && Run(c, w, steps[..i]).Some? && RollsFrom(Run(c, w, steps[..i]).value, steps[i], v.earlier)
  }

  lemma RollsAtMore(c: Conf, w: World, front: seq<Step>, last: Step, m: World, moves: seq<Move>, v: Move)
    requires |moves| == |front| && Run(c, w, front) == Some(m) && (v.RollBack? ==> RollsFrom(m, last, v.earlier))
    requires forall i | 0 <= i < |moves| :: RollsAt(c, w, front, i, moves[i])
    ensures forall i | 0 <= i <= |moves| :: RollsAt(c, w, front + [last], i, (moves + [v])[i])
  {
    var steps := front + [last];
    forall i | 0 <= i <= |moves| ensures RollsAt(c, w, steps, i, (moves + [v])[i]) {
      if i < |moves| {
        assert RollsAt(c, w, front, i, moves[i]) && steps[..i] == front[..i];
      } else {
        assert steps[..i] == front;
      }
    }
  }

  lemma MirrorsAtMore(c: Conf, w: World, front: seq<Step>, last: Step, states: seq<Mirror>, m: World)
    requires |states| == |front| + 1 && Run(c, w, front + [last]) == Some(m) && FilesOk(m)
    requires forall i | 0 <= i < |states| :: MirrorsAt(c, w, front, i, states[i])
    ensures forall i | 0 <= i <= |states| :: MirrorsAt(c, w, front + [last], i, (states + [Abs(m)])[i])
  {
    var steps := front + [last];
    forall i | 0 <= i <= |states| ensures MirrorsAt(c, w, steps, i, (states + [Abs(m)])[i]) {
      if i < |states| {
        assert MirrorsAt(c, w, front, i, states[i]) && steps[..i] == front[..i];
      } else {
        assert steps[..i] == steps;
      }
    }
  }

  /** One more step of the protocol, one more move of the mirror. */
  lemma RefineStep(c: Conf, w: World, front: seq<Step>, m: World, last: Step, states: seq<Mirror>, moves: seq<Move>)
    returns (states': seq<Mirror>, moves': seq<Move>)
    requires Inv(c, m) && Enabled(c, m, last) && !Hazard(c, m, last)
    requires Run(c, w, front) == Some(m) && Run(c, w, front + [last]) == Some(Next(c, m, last))
    requires Refines(c, w, front, states, moves)
    ensures Inv(c, Next(c, m, last)) && Refines(c, w, front + [last], states', moves')
  {
    StepKeepsInv(c, m, last);
    var v := StepSimulates(c, m, last);
    assert MirrorsAt(c, w, front, |front|, states[|front|]) && front[..|front|] == front;
    ExtendMirrorRun(c, front, last, states, moves, v, Abs(Next(c, m, last)));
    MirrorsAtMore(c, w, front, last, states, Next(c, m, last));
    RollsAtMore(c, w, front, last, m, moves, v);
    states', moves' := states + [Abs(Next(c, m, last))], moves + [v];
  }

  lemma RefineNothing(c: Conf, w: World) returns (states: seq<Mirror>, moves: seq<Move>)
    requires FilesOk(w)
    ensures Refines(c, w, [], states, moves)
  {
    states, moves := [Abs(w)], [];
  }

  /** What a run that ends with `last` consists of. */
  lemma LastOfRun(c: Conf, w: World, front: seq<Step>, last: Step) returns (m: World)
    requires Sound(c, w, front + [last])
    ensures Sound(c, w, front) && Run(c, w, front) == Some(m)
    ensures Enabled(c, m, last) && !Hazard(c, m, last) && Run(c, w, front + [last]) == Some(Next(c, m, last))
  {
    var steps := front + [last];
    assert steps[..|steps| - 1] == front && steps[|steps| - 1] == last;
    m := Run(c, w, front).value;
  }

  /** Every run of the protocol is, step for step, a run of the abstract mirror. */
  lemma {:induction false} RunRefinesMirror(c: Conf, w: World, steps: seq<Step>)
    returns (states: seq<Mirror>, moves: seq<Move>)
    requires Inv(c, w) && Sound(c, w, steps)
    ensures Run(c, w, steps).Some? && Inv(c, Run(c, w, steps).value)
    ensures Refines(c, w, steps, states, moves)
    decreases |steps|
  {
    if steps == [] {
      states, moves := RefineNothing(c, w);
    } else {
      var front, last := steps[..|steps| - 1], steps[|steps| - 1];
      assert steps == front + [last];
      var m := LastOfRun(c, w, front, last);
      states, moves := RunRefinesMirror(c, w, front);
      states, moves := RefineStep(c, w, front, m, last, states, moves);
    }
  }

  /** The abstract mirror says everything there is to know about the directory. */
  lemma MirrorDeterminesFiles(c: Conf, w: World, n: Name)
    requires Inv(c, w) && n in w.fs.dir
    ensures n in Abs(w) && Abs(w)[n].src < |w.src| && Abs(w)[n].length <= |w.src[Abs(w)[n].src]|
    ensures FileAt(w, n) == w.src[Abs(w)[n].src][..Abs(w)[n].length]
  {
  }

  // ----- conservation

  /** Every inode has a name; that it has only one is part of the invariant. */
  ghost predicate AllLinked(w: World) {
    forall i | 0 <= i < |w.fs.data| :: HasName(w.fs, i)
  }

  ghost predicate HasName(fs: FileSystem<Name>, i: nat) {
    exists n | n in fs.dir :: fs.dir[n] == i
  }

  /** No byte and no attribution of a byte is lost. */
  ghost predicate Conserves(w: World, w': World) {
    && |w.fs.data| <= |w'.fs.data| && |w.origin| == |w.fs.data| && |w'.origin| == |w'.fs.data|
    && forall i | 0 <= i < |w.fs.data| ::
         && w.fs.data[i] <= w'.fs.data[i]
         && (w.fs.data[i] != [] ==> w'.origin[i] == w.origin[i])
  }

  lemma MoveConserves(c: Conf, w: World, v: Move, w': World)
    requires FilesOk(w) && FilesOk(w') && Concretely(c, w, v, w') && !OfCrash(v)
    ensures Conserves(w, w')
  {
    if v.Begin? {
      assert forall i | 0 <= i < |w.fs.data| :: w'.fs.data[i] == w'.fs.data[..|w.fs.data|][i];
    }
  }

  lemma MoveKeepsLinks(c: Conf, w: World, v: Move, w': World)
    requires FilesOk(w) && FilesOk(w') && Concretely(c, w, v, w') && !OfCrash(v) && !c.ephemeral && AllLinked(w)
    ensures AllLinked(w')
  {
    forall i | 0 <= i < |w'.fs.data| ensures HasName(w'.fs, i) {
      if i < |w.fs.data| {
        assert HasName(w.fs, i);
        var n :| n in w.fs.dir && w.fs.dir[n] == i;
        if v.Relabel? && n == v.a {
          assert w'.fs.dir[v.b] == i;
        } else {
          assert n in w'.fs.dir && w'.fs.dir[n] == i;
        }
      } else {
        assert w'.fs.dir[v.n] == i;
      }
    }
  }

  /**
   * Over a run without a crash file contents only grow and keep their source; for a source that is
   * not ephemeral every inode ever created also stays linked, under exactly one name.
   */
  lemma {:induction false} RunConserves(c: Conf, w: World, steps: seq<Step>)
    requires Inv(c, w) && Sound(c, w, steps) && CrashFree(steps)
    ensures Run(c, w, steps).Some?
    ensures var w' := Run(c, w, steps).value;
            Inv(c, w') && Conserves(w, w') && (!c.ephemeral && AllLinked(w) ==> AllLinked(w'))
  {
    RunKeepsInv(c, w, steps);
    if steps != [] {
      var front, last := steps[..|steps| - 1], steps[|steps| - 1];
      RunConserves(c, w, front);
      var m, w' := Run(c, w, front).value, Run(c, w, steps).value;
      var v := StepSimulates(c, m, last);
      MoveConserves(c, m, v, w');
      if !c.ephemeral && AllLinked(w) {
        MoveKeepsLinks(c, m, v, w');
      }
    }
  }

  // ----- seal before open

  lemma LiveTargetIsLive(c: Conf, w: World, k: nat)
    requires Control(c, w) && IsActive(w, k) && w.segs[k].target == Live
    ensures w.coord.live == Some(k)
  {
    if k in w.coord.closing {
      SealedLeftLiveName(c, w, k);
    }
  }

  /** In every run at most one running segment targets the live name, and it is the coordinator's live one. */
  lemma OneLiveSegment(c: Conf, w: World, k: nat)
    requires Reachable(c, w) && IsActive(w, k) && w.segs[k].target == Live
    ensures w.coord.live == Some(k)
    ensures forall j: nat | IsActive(w, j) && w.segs[j].target == Live :: j == k
  {
    ReachableIsControlled(c, w);
    forall j: nat | IsActive(w, j) && w.segs[j].target == Live ensures w.coord.live == Some(j) {
      LiveTargetIsLive(c, w, j);
    }
    LiveTargetIsLive(c, w, k);
  }

  /** The clock's timestamp for a seal is not the one another running segment is being sealed under. */
  ghost predicate FreshRequest(c: Conf, w: World, s: Step) {
    s.RequestSeal? && s.req.isOrphan ==>
      forall j: nat | IsActive(w, j) && w.segs[j].pending.Some? :: w.segs[j].pending.value.name != s.req.name
  }

  ghost predicate FreshRun(c: Conf, w: World, steps: seq<Step>) {
    steps == [] ||
    var front := steps[..|steps| - 1];
    FreshRun(c, w, front) && (Run(c, w, front).Some? ==> FreshRequest(c, Run(c, w, front).value, steps[|steps| - 1]))
  }

  ghost predicate IsOrphaned(w: World, j: nat) {
    IsActive(w, j) && w.segs[j].pending.Some? && w.segs[j].pending.value.isOrphan
  }

  ghost predicate OrphansApart(w: World) {
    forall j: nat, k: nat | j < k && IsOrphaned(w, j) && IsOrphaned(w, k) ::
      w.segs[j].pending.value.name != w.segs[k].pending.value.name
  }

  lemma OtherStepOrphans(c: Conf, w: World, s: Step)
    requires Enabled(c, w, s) && !s.RequestSeal?
    ensures |w.segs| <= |Next(c, w, s).segs|
    ensures forall j: nat | IsActive(Next(c, w, s), j) && Next(c, w, s).segs[j].pending.Some? ::
              IsActive(w, j) && Next(c, w, s).segs[j].pending == w.segs[j].pending
  {
    if ActorOf(s).Segment? {
      SegmentIsLocal(c, w, s, ActorOf(s).id);
    }
  }

  lemma StepOrphans(c: Conf, w: World, s: Step)
    requires Enabled(c, w, s) && OrphansApart(w) && FreshRequest(c, w, s)
    ensures OrphansApart(Next(c, w, s))
  {
    if !s.RequestSeal? {
      OtherStepOrphans(c, w, s);
    }
  }

  lemma {:induction false} RunOrphans(c: Conf, w: World, steps: seq<Step>)
    requires OrphansApart(w) && Run(c, w, steps).Some? && FreshRun(c, w, steps)
    ensures OrphansApart(Run(c, w, steps).value)
  {
    if steps != [] {
      RunOrphans(c, w, steps[..|steps| - 1]);
      StepOrphans(c, Run(c, w, steps[..|steps| - 1]).value, steps[|steps| - 1]);
    }
  }

  lemma DistinctWhereOrphansAre(c: Conf, w: World, j: nat, k: nat)
    requires Control(c, w) && OrphansApart(w) && !c.ephemeral && IsActive(w, j) && IsActive(w, k) && j < k
    ensures w.segs[j].target != w.segs[k].target
  {
    var g, g' := w.segs[j], w.segs[k];
    assert ControlOk(c, w, g) && ControlOk(c, w, g') && IsosApart(g, g');
    if g.target == Live && g'.target == Live {
      LiveTargetIsLive(c, w, j);
      LiveTargetIsLive(c, w, k);
    } else if IsOrphaned(w, j) && IsOrphaned(w, k) {
      assert g.pending.value.name != g'.pending.value.name;
    }
  }

  /**
   * For a source that is not ephemeral all running segments have different targets, in every run
   * in which the clock's timestamps are fresh.
   */
  lemma TargetsDistinct(c: Conf, start: World, steps: seq<Step>, w: World, j: nat, k: nat)
    requires Init(c, start) && Run(c, start, steps) == Some(w) && FreshRun(c, start, steps)
    requires !c.ephemeral && IsActive(w, j) && IsActive(w, k) && j != k
    ensures w.segs[j].target != w.segs[k].target
  {
    RunKeepsControl(c, start, steps);
    RunOrphans(c, start, steps);
    DistinctWhereOrphansAre(c, w, if j < k then j else k, if j < k then k else j);
  }

  /** A new live segment starts only when no running segment targets the live name any more. */
  lemma StartsAfterSeal(c: Conf, w: World, s: Step)
    requires Reachable(c, w) && Enabled(c, w, s) && (s.Spawn? || s.Rotate?)
    ensures LiveNameFree(w)
    ensures var w' := Next(c, w, s);
            |w'.segs| == |w.segs| + 1 && w'.segs[|w.segs|] == NewSeg(s.i) && w'.coord.live == Some(|w.segs|)
  {
    ReachableIsControlled(c, w);
    LiveNameFreed(c, w);
  }

  // ----- no lost segment

  /** Every running segment is accounted for, and a remembered inode implies a live segment. */
  lemma NoLostSegment(c: Conf, w: World)
    requires Reachable(c, w)
    ensures forall k: nat | IsActive(w, k) :: w.coord.live == Some(k) || k in w.coord.closing
    ensures w.coord.last.Some? ==> w.coord.live.Some? && w.coord.live.value < |w.segs|
  {
    ReachableIsControlled(c, w);
  }

  /** A sound run with one more sound step. */
  lemma RunOne(c: Conf, w: World, front: seq<Step>, last: Step)
    requires Sound(c, w, front) && Run(c, w, front).Some?
    requires Enabled(c, Run(c, w, front).value, last) && !Hazard(c, Run(c, w, front).value, last)
    ensures Sound(c, w, front + [last])
    ensures Run(c, w, front + [last]) == Some(Next(c, Run(c, w, front).value, last))
  {
    var steps := front + [last];
    assert steps[..|steps| - 1] == front && steps[|steps| - 1] == last;
  }

  // ----- seal names and the life of a segment

  /** The names a segment has had, oldest first. */
  ghost function History(g: Seg): seq<Name> {
    g.past + [g.target]
  }

  /** Every target history is an initial part of one of the four chains, with names taken from markers. */
  lemma LifeOfASegment(c: Conf, w: World, k: nat)
    requires Reachable(c, w) && k < |w.segs|
    ensures var h, p := History(w.segs[k]), w.segs[k].pending;
            || h == [Live]
            || (p.Some? && !p.value.isOrphan && p.value.iso in w.marks.waiting && h == [Live, Sealed(p.value.iso)])
            || (p.Some? && !p.value.isOrphan && p.value.iso in w.marks.waiting && p.value.iso in w.marks.shas
                && h == [Live, Sealed(p.value.iso), Final(p.value.iso, w.marks.shas[p.value.iso])])
            || (p.Some? && p.value.isOrphan && !c.ephemeral && h == [Live, DatedOrphan(p.value.iso)])
            || (p.Some? && p.value.isOrphan && c.ephemeral && h == [Live, FixedOrphan])
    ensures forall n | n in History(w.segs[k]) :: WellFormed(n)
  {
    ReachableIsControlled(c, w);
    var g := w.segs[k];
    assert ControlOk(c, w, g);
  }

  /** No marker timestamp is ever used for two seals. */
  lemma SealTimestampsDistinct(c: Conf, w: World, j: nat, k: nat)
    requires Reachable(c, w) && j < |w.segs| && k < |w.segs| && j != k
    requires w.segs[j].pending.Some? && !w.segs[j].pending.value.isOrphan
    requires w.segs[k].pending.Some? && !w.segs[k].pending.value.isOrphan
    ensures w.segs[j].pending.value.iso != w.segs[k].pending.value.iso
  {
    ReachableIsControlled(c, w);
    if j < k {
      assert IsosApart(w.segs[j], w.segs[k]);
    } else {
      assert IsosApart(w.segs[k], w.segs[j]);
    }
  }

  /** A marker with this name was on disk at some scan of the run. */
  ghost predicate Scanned(steps: seq<Step>, name: string) {
    exists i | 0 <= i < |steps| :: steps[i].Scan? && name in steps[i].names
  }

  ghost predicate ScannedWaiting(base: string, steps: seq<Step>, iso: string) {
    exists n :: Scanned(steps, n) && WaitingIso(base, n) == Some(iso)
  }

  ghost predicate ScannedDone(base: string, steps: seq<Step>, iso: string, sha: string) {
    exists n :: Scanned(steps, n) && DoneMark(base, n) == Some((iso, sha))
  }

  ghost predicate Grounded(base: string, steps: seq<Step>, m: Marks) {
    && (forall iso | iso in m.waiting :: ScannedWaiting(base, steps, iso))
    && (forall iso | iso in m.shas :: ScannedDone(base, steps, iso, m.shas[iso]))
  }

  lemma ScannedMore(steps: seq<Step>, last: Step, n: string)
    requires Scanned(steps, n) || (last.Scan? && n in last.names)
    ensures Scanned(steps + [last], n)
  {
    if Scanned(steps, n) {
      var i :| 0 <= i < |steps| && steps[i].Scan? && n in steps[i].names;
      assert (steps + [last])[i] == steps[i];
    } else {
      assert (steps + [last])[|steps|] == last;
    }
  }

  lemma GroundedMore(base: string, steps: seq<Step>, m: Marks, last: Step, m': Marks)
    requires Grounded(base, steps, m)
    requires if last.Scan? then m' == LearnAll(base, m, last.names) else m' == m
    ensures Grounded(base, steps + [last], m')
  {
    if last.Scan? {
      LearnAllExtends(base, m, last.names);
    }
    forall iso | iso in m'.waiting ensures ScannedWaiting(base, steps + [last], iso) {
      var n :| (Scanned(steps, n) || (last.Scan? && n in last.names)) && WaitingIso(base, n) == Some(iso);
      ScannedMore(steps, last, n);
    }
    forall iso | iso in m'.shas ensures ScannedDone(base, steps + [last], iso, m'.shas[iso]) {
      var n :| (Scanned(steps, n) || (last.Scan? && n in last.names)) && DoneMark(base, n) == Some((iso, m'.shas[iso]));
      ScannedMore(steps, last, n);
    }
  }

  lemma StepMarks(c: Conf, w: World, s: Step)
    requires Enabled(c, w, s)
    ensures Next(c, w, s).marks == if s.Scan? then LearnAll(c.base, w.marks, s.names) else w.marks
  {
  }

  /** What the coordinator knows about seals it read off markers. */
  lemma {:induction false} KnowledgeIsFromMarkers(c: Conf, w: World, steps: seq<Step>)
    requires Run(c, w, steps).Some? && w.marks == Marks([], map[])
    ensures Grounded(c.base, steps, Run(c, w, steps).value.marks)
  {
    if steps != [] {
      var front, last := steps[..|steps| - 1], steps[|steps| - 1];
      assert steps == front + [last];
      KnowledgeIsFromMarkers(c, w, front);
      var m := Run(c, w, front).value;
      StepMarks(c, m, last);
      GroundedMore(c.base, front, m.marks, last, Next(c, m, last).marks);
    }
  }

  lemma StepExtendsMarks(c: Conf, w: World, s: Step)
    requires Enabled(c, w, s)
    ensures Extends(w.marks, Next(c, w, s).marks)
  {
    StepMarks(c, w, s);
    if s.Scan? {
      LearnAllExtends(c.base, w.marks, s.names);
    }
  }

  lemma {:induction false} KnowledgeNeverChanges(c: Conf, w: World, steps: seq<Step>)
    requires Run(c, w, steps).Some?
    ensures Extends(w.marks, Run(c, w, steps).value.marks)
  {
    if steps != [] {
      KnowledgeNeverChanges(c, w, steps[..|steps| - 1]);
      StepExtendsMarks(c, Run(c, w, steps[..|steps| - 1]).value, steps[|steps| - 1]);
    }
  }

  /** What is known always has the form of a timestamp or a hash, and no timestamp is listed twice. */
  lemma {:induction false} KnowledgeIsWellFormed(c: Conf, w: World, steps: seq<Step>)
    requires Run(c, w, steps).Some? && MarksOk(w.marks)
    ensures MarksOk(Run(c, w, steps).value.marks)
  {
    if steps != [] {
      var front, s := steps[..|steps| - 1], steps[|steps| - 1];
      KnowledgeIsWellFormed(c, w, front);
      var m := Run(c, w, front).value;
      StepMarks(c, m, s);
      if s.Scan? {
        LearnAllExtends(c.base, m.marks, s.names);
      }
    }
  }
}
