/** What a server crash can undo: the history of the directory, in every run. */
module Rollback {
  import opened Prelude
  import opened Names
  import opened Files
  import opened Protocol
  import opened Invariant
  import opened History
  import opened Lifecycle
  import opened Safety
  import opened Theorems
  import opened Corruption

  lemma ReachableHistory(c: Conf, w: World)
    requires Reachable(c, w)
    ensures HistoryOk(w)
  {
    var start: World, steps: seq<Step> :| Init(c, start) && Run(c, start, steps) == Some(w);
    assert HistoryOk(start);
    RunHistory(c, start, steps);
  }

  /** In every run, whatever a crash undoes, no inode ever has two names. */
  lemma LinkedOnce(c: Conf, w: World, n: Name, m: Name)
    requires Reachable(c, w) && n in w.fs.dir && m in w.fs.dir && w.fs.dir[n] == w.fs.dir[m]
    ensures n == m
  {
    ReachableHistory(c, w);
    assert Fits(w.fs.dir, |w.fs.data|);
  }

  // ----- renames that a crash can undo

  /** The step renames, and the directory sync that follows fails. */
  predicate SyncFails(s: Step) {
    match s
    case StaleRename(_, _, _, synced) => !synced
    case SealRename(_, _, synced) => !synced
    case FinalRename(_, _, synced) => !synced
    case _ => false
  }

  /** Some crash brings back an entry that has been moved or replaced. */
  ghost predicate CanRollBack(w: World) {
    exists back: nat, kept: set<Name> :: back < |w.dirs| && RollsBack(w, back, kept)
  }

  /** Whatever a crash may leave is part of the present directory. */
  ghost predicate Settled(w: World) {
    forall i, n | 0 <= i < |w.dirs| && n in w.dirs[i] :: n in w.fs.dir && w.fs.dir[n] == w.dirs[i][n]
  }

  lemma SettledExactly(w: World)
    ensures CanRollBack(w) <==> !Settled(w)
  {
    if !Settled(w) {
      var i, n :| 0 <= i < |w.dirs| && n in w.dirs[i] && !(n in w.fs.dir && w.fs.dir[n] == w.dirs[i][n]);
      assert RollsBack(w, i, {n});
    }
  }

  /** The destination a rename step asks for. */
  function RenameTarget(c: Conf, w: World, s: Step): Name
    requires Enabled(c, w, s) && (s.StaleRename? || s.SealRename? || s.FinalRename?)
  {
    match s
    case StaleRename(_, clock, _, _) => StaleName(c, clock)
    case SealRename(k, _, _) => w.segs[k].pending.value.name
    case FinalRename(k, _, _) => FinalName(w, w.segs[k])
  }

  lemma RenamedToItself(dir: map<Name, nat>, n: Name)
    ensures n in dir ==> (dir - {n})[n := dir[n]] == dir
  {
  }

  lemma LeavesOldName(w: World, g: Seg, dst: Name, out: Outcome)
    requires FilesAfterRename(w, g, dst, out).dir != w.fs.dir
    ensures g.target in w.fs.dir && g.target !in FilesAfterRename(w, g, dst, out).dir
  {
    RenamedToItself(w.fs.dir, g.target);
  }

  /** What an applied rename does to the directory and its history. */
  lemma RenameEntersHistory(c: Conf, w: World, s: Step)
    requires Enabled(c, w, s) && (s.StaleRename? || s.SealRename? || s.FinalRename?)
    requires Next(c, w, s).fs.dir != w.fs.dir
    ensures var w' := Next(c, w, s);
            && w.segs[s.k].target in w.fs.dir && w.segs[s.k].target !in w'.fs.dir
            && w'.dirs == (if SyncFails(s) then w.dirs else []) + [w'.fs.dir]
  {
    LeavesOldName(w, w.segs[s.k], RenameTarget(c, w, s), s.out);
  }

  /**
   * A rename that moved the file is open to being undone by a crash exactly when the directory sync
   * after it failed; the agent cannot tell, as it is acknowledged all the same.
   */
  lemma RollbackPossibleExactly(c: Conf, w: World, s: Step)
    requires Reachable(c, w) && Enabled(c, w, s) && (s.StaleRename? || s.SealRename? || s.FinalRename?)
    requires Next(c, w, s).fs.dir != w.fs.dir
    ensures CanRollBack(Next(c, w, s)) <==> SyncFails(s)
  {
    ReachableHistory(c, w);
    RenameEntersHistory(c, w, s);
    SettledExactly(Next(c, w, s));
    if SyncFails(s) {
      assert Next(c, w, s).dirs[|w.dirs| - 1] == w.fs.dir;
    }
  }

  /**
   * After a crash, whatever it cuts or brings back, some continuation without a hazard corrupts a
   * file exactly when a segment that opens its target blindly finds a file there that does not
   * begin its inode.
   */
  lemma CrashCorruptsExactly(c: Conf, w: World, back: nat, kept: set<Name>, cut: seq<nat>)
    requires Inv(c, w) && back < |w.dirs|
    ensures CanCorruptSome(c, NextCrash(w, back, kept, cut)) <==> CrashMixes(w, back, kept, cut)
  {
    var w' := NextCrash(w, back, kept, cut);
    if CrashMixes(w, back, kept, cut) {
      var k :| 0 <= k < |w.segs| && OpensBlindly(w.segs[k]) && w.segs[k].target in w'.fs.dir
               && !(Content(w'.fs.data, w'.fs.dir[w.segs[k].target]) <= SourceOf(w, w.segs[k].src));
      MixedFileCorrupts(c, w, back, kept, cut, k);
    } else {
      StepKeepsInv(c, w, Crash(back, kept, cut));
      NothingCorrupts(Plain, c, w', w');
    }
  }

  lemma MixedFileCorrupts(c: Conf, w: World, back: nat, kept: set<Name>, cut: seq<nat>, k: nat)
    requires Inv(c, w) && back < |w.dirs| && k < |w.segs| && OpensBlindly(w.segs[k])
    requires w.segs[k].target in Restored(w, back, kept)
    requires !(Content(CutFiles(w, cut), Restored(w, back, kept)[w.segs[k].target]) <= SourceOf(w, w.segs[k].src))
    ensures CanCorrupt(c, NextCrash(w, back, kept, cut), w.segs[k].target)
  {
    var w' := NextCrash(w, back, kept, cut);
    CoreIsControl(Plain, c, w);
    CrashControl(c, w, back, kept, cut);
    OpenersAreBlind(c, w', k);
    RestoredFits(w, back, kept);
    BlindCorrupts(c, w', k);
  }

  lemma SettledSend(c: Conf, w: World, k: nat, n: nat, out: Outcome)
    requires Settled(w) && Enabled(c, w, Send(k, n, out))
    ensures Settled(NextSend(c, w, k, n, out))
  {
    var w' := NextSend(c, w, k, n, out);
    forall i, n | 0 <= i < |w'.dirs| && n in w'.dirs[i] ensures n in w'.fs.dir && w'.fs.dir[n] == w'.dirs[i][n] {
      assert i < |w.dirs| ==> w'.dirs[i] == w.dirs[i];
    }
  }

  lemma SettledStep(c: Conf, w: World, s: Step)
    requires Settled(w) && Enabled(c, w, s) && !SyncFails(s)
    ensures Settled(Next(c, w, s))
  {
    if s.Send? {
      SettledSend(c, w, s.k, s.n, s.out);
    }
  }

  /**
   * Once everything has settled, and as long as no directory sync fails, no crash undoes a rename,
   * acknowledged or not.
   */
  lemma {:induction false} SyncedRunsNeverRollBack(c: Conf, w: World, steps: seq<Step>)
    requires Settled(w) && Run(c, w, steps).Some? && forall i | 0 <= i < |steps| :: !SyncFails(steps[i])
    ensures !CanRollBack(Run(c, w, steps).value)
    ensures Settled(Run(c, w, steps).value)
  {
    if steps != [] {
      SyncedRunsNeverRollBack(c, w, steps[..|steps| - 1]);
      SettledStep(c, Run(c, w, steps[..|steps| - 1]).value, steps[|steps| - 1]);
    }
    SettledExactly(Run(c, w, steps).value);
  }
}
