/** The directory's history stays in order, in every run. */
module History {
  import opened Names
  import opened Protocol
  import opened Invariant

  lemma AddedState(w: World, w': World)
    requires HistoryOk(w) && |w.fs.data| <= |w'.fs.data|
    requires w'.dirs == w.dirs + [w'.fs.dir] || w'.dirs == [w'.fs.dir]
    requires Fits(w'.fs.dir, |w'.fs.data|)
    ensures HistoryOk(w')
  {
    forall i | 0 <= i < |w'.dirs| ensures Fits(w'.dirs[i], |w'.fs.data|) {
      assert i < |w.dirs| && w'.dirs == w.dirs + [w'.fs.dir] ==> Fits(w.dirs[i], |w.fs.data|);
    }
  }

  lemma SendHistory(c: Conf, w: World, k: nat, n: nat, out: Outcome)
    requires HistoryOk(w) && Enabled(c, w, Send(k, n, out))
    ensures HistoryOk(NextSend(c, w, k, n, out))
  {
    var g, w' := w.segs[k], NextSend(c, w, k, n, out);
    assert Fits(w.fs.dir, |w.fs.data|);
    if Delivered(g, out) && SendFrame(w, g, n).Some? && g.conn.value.h.fd.None? {
      AddedState(w, w');
    }
  }

  lemma RenameHistory(w: World, k: nat, dst: Name, out: Outcome, synced: bool, g: Seg)
    requires HistoryOk(w) && k < |w.segs|
    ensures HistoryOk(NextRename(w, k, dst, out, synced, g))
  {
    var w' := NextRename(w, k, dst, out, synced, g);
    if Delivered(w.segs[k], out) && RenameCall(w, w.segs[k], dst).Some? {
      assert Fits(w.fs.dir, |w.fs.data|);
      assert forall n :: n in w'.fs.dir ==> n == dst || n in w.fs.dir;
      AddedState(w, w');
    }
  }

  lemma CrashHistory(c: Conf, w: World, back: nat, kept: set<Name>, cut: seq<nat>)
    requires HistoryOk(w) && back < |w.dirs|
    ensures HistoryOk(NextCrash(w, back, kept, cut))
  {
    assert Fits(w.dirs[back], |w.fs.data|);
  }

  lemma StepHistory(c: Conf, w: World, s: Step)
    requires HistoryOk(w) && Enabled(c, w, s)
    ensures HistoryOk(Next(c, w, s))
  {
    match s
    case Send(k, n, out) => SendHistory(c, w, k, n, out);
    case StaleRename(k, clock, out, synced) =>
      RenameHistory(w, k, StaleName(c, clock), out, synced, SegAfterStaleRename(c, w, w.segs[k], clock, out));
    case SealRename(k, out, synced) =>
      RenameHistory(w, k, w.segs[k].pending.value.name, out, synced, SegAfterSealRename(c, w, w.segs[k], out));
    case FinalRename(k, out, synced) =>
      RenameHistory(w, k, FinalName(w, w.segs[k]), out, synced, SegAfterFinalRename(c, w, w.segs[k], out));
    case Crash(back, kept, cut) => CrashHistory(c, w, back, kept, cut);
    case _ =>
  }

  lemma {:induction false} RunHistory(c: Conf, w: World, steps: seq<Step>)
    requires HistoryOk(w) && Run(c, w, steps).Some?
    ensures HistoryOk(Run(c, w, steps).value)
  {
    if steps != [] {
      RunHistory(c, w, steps[..|steps| - 1]);
      StepHistory(c, Run(c, w, steps[..|steps| - 1]).value, steps[|steps| - 1]);
    }
  }
}
