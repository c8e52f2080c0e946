/** What segments and coordinator keep in every run, hazards or not: it does not depend on the server's files. */
module Lifecycle {
  import opened Prelude
  import opened Names
  import opened Markers
  import opened Protocol
  import opened Invariant

  // ----- steps of one segment

  /** Only segment `k` changed, and it kept its source, its seal request and what cannot be undone. */
  ghost predicate Local(w: World, w': World, k: nat) {
    && k < |w.segs| == |w'.segs| && w'.segs == w.segs[k := w'.segs[k]]
    && w'.coord == w.coord && w'.marks == w.marks && w'.src == w.src
    && w'.segs[k].src == w.segs[k].src && w'.segs[k].pending == w.segs[k].pending
    && (w.segs[k].sealed ==> w'.segs[k].sealed)
    && (w.segs[k].phase == Done ==> w'.segs[k].phase == Done)
  }

  lemma SendIsLocal(c: Conf, w: World, k: nat, n: nat, out: Outcome)
    requires Enabled(c, w, Send(k, n, out))
    ensures Local(w, NextSend(c, w, k, n, out), k)
  {
  }

  lemma RenameIsLocal(c: Conf, w: World, s: Step)
    requires Enabled(c, w, s) && (s.StaleRename? || s.SealRename? || s.FinalRename?)
    ensures Local(w, Next(c, w, s), s.k)
  {
  }

  lemma HandshakeIsLocal(c: Conf, w: World, s: Step)
    requires Enabled(c, w, s) && (s.Connect? || s.Reopen? || s.Reconnect?)
    ensures Local(w, Next(c, w, s), s.k)
  {
  }

  lemma QuietIsLocal(c: Conf, w: World, s: Step)
    requires Enabled(c, w, s) && (s.MarkSealed? || s.End?)
    ensures Local(w, Next(c, w, s), s.k)
  {
  }

  lemma SegmentIsLocal(c: Conf, w: World, s: Step, k: nat)
    requires Enabled(c, w, s) && ActorOf(s) == Segment(k)
    ensures Local(w, Next(c, w, s), k)
  {
    match s
    case Send(_, n, out) => SendIsLocal(c, w, k, n, out);
    case StaleRename(_, _, _, _) => RenameIsLocal(c, w, s);
    case SealRename(_, _, _) => RenameIsLocal(c, w, s);
    case FinalRename(_, _, _) => RenameIsLocal(c, w, s);
    case MarkSealed(_) => QuietIsLocal(c, w, s);
    case End(_) => QuietIsLocal(c, w, s);
    case _ => HandshakeIsLocal(c, w, s);
  }

  lemma LocalKeepsControl(c: Conf, w: World, w': World, k: nat)
    requires Control(c, w) && Local(w, w', k) && ControlOk(c, w, w'.segs[k])
    ensures Control(c, w')
  {
    forall iso ensures Used(w, iso) <==> Used(w', iso) {
    }
    forall i, j | 0 <= i < j < |w'.segs| ensures IsosApart(w'.segs[i], w'.segs[j]) {
      assert IsosApart(w.segs[i], w.segs[j]);
    }
    forall j | 0 <= j < |w'.segs| ensures ControlOk(c, w', w'.segs[j]) {
      assert j != k ==> ControlOk(c, w, w.segs[j]);
    }
  }

  lemma ConnectControl(c: Conf, w: World, k: nat, prefix: nat)
    requires Control(c, w) && Enabled(c, w, Connect(k, prefix))
    ensures Control(c, NextConnect(c, w, k, prefix))
  {
    assert ControlOk(c, w, w.segs[k]);
    HandshakeIsLocal(c, w, Connect(k, prefix));
    LocalKeepsControl(c, w, NextConnect(c, w, k, prefix), k);
  }

  lemma OpenControl(c: Conf, w: World, s: Step)
    requires Control(c, w) && Enabled(c, w, s) && (s.Reopen? || s.Reconnect?)
    ensures Control(c, Next(c, w, s))
  {
    assert ControlOk(c, w, w.segs[s.k]);
    LocalKeepsControl(c, w, Next(c, w, s), s.k);
  }

  lemma SentControl(c: Conf, w: World, g: Seg, n: nat, out: Outcome)
    requires ControlOk(c, w, g) && g.phase == Running && g.conn.Some?
    ensures ControlOk(c, w, SegAfterSend(c, w, g, n, out))
  {
  }

  lemma SendControl(c: Conf, w: World, k: nat, n: nat, out: Outcome)
    requires Control(c, w) && Enabled(c, w, Send(k, n, out))
    ensures Control(c, NextSend(c, w, k, n, out))
  {
    assert ControlOk(c, w, w.segs[k]);
    SentControl(c, w, w.segs[k], n, out);
    SendIsLocal(c, w, k, n, out);
    LocalKeepsControl(c, w, NextSend(c, w, k, n, out), k);
  }

  lemma SealControl(c: Conf, w: World, k: nat, out: Outcome, synced: bool)
    requires Control(c, w) && Enabled(c, w, SealRename(k, out, synced))
    ensures Control(c, Next(c, w, SealRename(k, out, synced)))
  {
    assert ControlOk(c, w, w.segs[k]);
    RenameIsLocal(c, w, SealRename(k, out, synced));
    LocalKeepsControl(c, w, Next(c, w, SealRename(k, out, synced)), k);
  }

  lemma FinalControl(c: Conf, w: World, k: nat, out: Outcome, synced: bool)
    requires Control(c, w) && Enabled(c, w, FinalRename(k, out, synced))
    ensures Control(c, Next(c, w, FinalRename(k, out, synced)))
  {
    assert ControlOk(c, w, w.segs[k]);
    RenameIsLocal(c, w, FinalRename(k, out, synced));
    LocalKeepsControl(c, w, Next(c, w, FinalRename(k, out, synced)), k);
  }

  lemma QuietControl(c: Conf, w: World, s: Step)
    requires Control(c, w) && Enabled(c, w, s) && (s.MarkSealed? || s.End? || s.Cancel?)
    ensures Control(c, Next(c, w, s))
  {
    assert ControlOk(c, w, w.segs[s.k]);
    LocalKeepsControl(c, w, Next(c, w, s), s.k);
  }

  lemma StaleControl(c: Conf, w: World, k: nat, clock: string, out: Outcome, synced: bool)
    requires Control(c, w) && Enabled(c, w, StaleRename(k, clock, out, synced))
    ensures Control(c, Next(c, w, StaleRename(k, clock, out, synced)))
  {
    assert ControlOk(c, w, w.segs[k]);
    RenameIsLocal(c, w, StaleRename(k, clock, out, synced));
    LocalKeepsControl(c, w, Next(c, w, StaleRename(k, clock, out, synced)), k);
  }

  // ----- the environment

  lemma EnvironmentControl(c: Conf, w: World, s: Step)
    requires Control(c, w) && Enabled(c, w, s) && (s.Grow? || s.NewSource? || s.Scan? || s.ApplyLate?)
    ensures Control(c, Next(c, w, s))
  {
    var w' := Next(c, w, s);
    if s.Scan? {
      LearnAllExtends(c.base, w.marks, s.names);
    }
    forall iso ensures Used(w, iso) <==> Used(w', iso) {
    }
    forall k | 0 <= k < |w'.segs| ensures ControlOk(c, w', w'.segs[k]) {
      assert ControlOk(c, w, w.segs[k]);
    }
  }

  lemma DisconnectedControl(c: Conf, w: World, w': World, g: Seg)
    requires ControlOk(c, w, g) && w'.src == w.src && w'.marks == w.marks
    ensures ControlOk(c, w', Disconnected(g))
  {
  }

  lemma CrashIsos(w: World, back: nat, kept: set<Name>, cut: seq<nat>)
    requires IsosUsed(w)
    ensures IsosUsed(NextCrash(w, back, kept, cut))
  {
    var w' := NextCrash(w, back, kept, cut);
    forall iso ensures Used(w, iso) <==> Used(w', iso) {
    }
    forall j, k | 0 <= j < k < |w'.segs| ensures IsosApart(w'.segs[j], w'.segs[k]) {
      assert IsosApart(w.segs[j], w.segs[k]);
    }
  }

  lemma CrashControl(c: Conf, w: World, back: nat, kept: set<Name>, cut: seq<nat>)
    requires Control(c, w)
    ensures Control(c, NextCrash(w, back, kept, cut))
  {
    var w' := NextCrash(w, back, kept, cut);
    CrashIsos(w, back, kept, cut);
    forall k | 0 <= k < |w'.segs| ensures ControlOk(c, w', w'.segs[k]) {
      DisconnectedControl(c, w, w', w.segs[k]);
    }
  }

  // ----- the coordinator

  lemma CoreIsControl(m: Mode, c: Conf, w: World)
    requires Core(m, c, w)
    ensures Control(c, w)
  {
    assert forall k | 0 <= k < |w.segs| :: SegIn(m, c, w, w.segs[k]);
  }

  /** The old live segment, if any, can no longer touch the live name. */
  ghost predicate LiveNameFree(w: World) {
    forall k | 0 <= k < |w.segs| && w.segs[k].phase != Done :: w.segs[k].target != Live
  }

  lemma SealedLeftLiveName(c: Conf, w: World, k: nat)
    requires Control(c, w) && k < |w.segs| && w.segs[k].sealed
    ensures w.segs[k].target != Live
  {
    assert ControlOk(c, w, w.segs[k]);
  }

  lemma LiveNameFreed(c: Conf, w: World)
    requires Control(c, w)
    requires w.coord.live.Some? ==> LiveSeg(w).Some? && (LiveSeg(w).value.sealed || LiveSeg(w).value.phase == Done)
    ensures LiveNameFree(w)
  {
    forall k | 0 <= k < |w.segs| && w.segs[k].phase != Done ensures w.segs[k].target != Live {
      assert w.coord.live == Some(k) || k in w.coord.closing;
      SealedLeftLiveName(c, w, k);
    }
  }

  lemma StartCoord(c: Conf, w: World, s: Step)
    requires CoordOk(w) && Enabled(c, w, s) && (s.Spawn? || s.Rotate?)
    ensures CoordOk(Next(c, w, s))
    ensures forall iso | Used(w, iso) :: Used(Next(c, w, s), iso)
  {
  }

  lemma StartControl(c: Conf, w: World, s: Step)
    requires Control(c, w) && Enabled(c, w, s) && (s.Spawn? || s.Rotate?)
    ensures Control(c, Next(c, w, s))
  {
    var w' := Next(c, w, s);
    StartCoord(c, w, s);
    forall j, k | 0 <= j < k < |w'.segs| ensures IsosApart(w'.segs[j], w'.segs[k]) {
      assert k < |w.segs| ==> IsosApart(w.segs[j], w.segs[k]);
    }
    forall k | 0 <= k < |w'.segs| ensures ControlOk(c, w', w'.segs[k]) {
      assert k < |w.segs| ==> ControlOk(c, w, w.segs[k]);
    }
  }

  /** A timestamp taken from a marker is not used yet. */
  lemma RequestControl(c: Conf, w: World, req: Request)
    requires Control(c, w) && Enabled(c, w, RequestSeal(req))
    ensures Control(c, Next(c, w, RequestSeal(req)))
  {
    var w', k := Next(c, w, RequestSeal(req)), w.coord.live.value;
    NewestIsLast(w.marks.waiting, w.coord.consumed);
    forall iso | Used(w, iso) ensures Used(w', iso) {
    }
    forall i, j | 0 <= i < j < |w'.segs| ensures IsosApart(w'.segs[i], w'.segs[j]) {
      assert IsosApart(w.segs[i], w.segs[j]);
    }
    forall j | 0 <= j < |w'.segs| ensures ControlOk(c, w', w'.segs[j]) {
      assert ControlOk(c, w, w.segs[j]);
    }
  }

  lemma BookkeepingControl(c: Conf, w: World, s: Step)
    requires Control(c, w) && Enabled(c, w, s) && (s.Skip? || s.DropDead? || s.Reap?)
    ensures Control(c, Next(c, w, s))
  {
    var w' := Next(c, w, s);
    forall iso | Used(w, iso) ensures Used(w', iso) {
    }
    forall k | 0 <= k < |w'.segs| ensures ControlOk(c, w', w'.segs[k]) {
      assert ControlOk(c, w, w.segs[k]);
    }
  }

  // ----- every step, every run

  lemma SegmentControl(c: Conf, w: World, s: Step)
    requires Control(c, w) && Enabled(c, w, s) && ActorOf(s).Segment?
    ensures Control(c, Next(c, w, s))
  {
    match s
    case Connect(k, prefix) => ConnectControl(c, w, k, prefix);
    case StaleRename(k, clock, out, synced) => StaleControl(c, w, k, clock, out, synced);
    case Reopen(_) => OpenControl(c, w, s);
    case Send(k, n, out) => SendControl(c, w, k, n, out);
    case Reconnect(_, _) => OpenControl(c, w, s);
    case SealRename(k, out, synced) => SealControl(c, w, k, out, synced);
    case FinalRename(k, out, synced) => FinalControl(c, w, k, out, synced);
    case _ => QuietControl(c, w, s);
  }

  lemma CoordinatorControl(c: Conf, w: World, s: Step)
    requires Control(c, w) && Enabled(c, w, s) && ActorOf(s).Coordinator?
    ensures Control(c, Next(c, w, s))
  {
    match s
    case Spawn(_, _) => StartControl(c, w, s);
    case Rotate(_, _) => StartControl(c, w, s);
    case RequestSeal(req) => RequestControl(c, w, req);
    case Cancel(_) => QuietControl(c, w, s);
    case _ => BookkeepingControl(c, w, s);
  }

  lemma StepKeepsControl(c: Conf, w: World, s: Step)
    requires Control(c, w) && Enabled(c, w, s)
    ensures Control(c, Next(c, w, s))
  {
    match ActorOf(s)
    case Segment(_) => SegmentControl(c, w, s);
    case Coordinator => CoordinatorControl(c, w, s);
    case Environment =>
      if s.Crash? {
        CrashControl(c, w, s.back, s.kept, s.cut);
      } else {
        EnvironmentControl(c, w, s);
      }
  }

  lemma {:induction false} RunKeepsControl(c: Conf, w: World, steps: seq<Step>)
    requires Control(c, w) && Run(c, w, steps).Some?
    ensures Control(c, Run(c, w, steps).value)
  {
    if steps != [] {
      RunKeepsControl(c, w, steps[..|steps| - 1]);
      StepKeepsControl(c, Run(c, w, steps[..|steps| - 1]).value, steps[|steps| - 1]);
    }
  }
}
