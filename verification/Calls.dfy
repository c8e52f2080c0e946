/** What the four outcomes of one remote call have in common, and which steps change what. */
module Calls {
  import opened Prelude
  import opened Names
  import opened Files
  import opened Protocol

  /** The parts of the world that are on the server. */
  ghost predicate SameServer(w: World, w': World) {
    w'.fs == w.fs && w'.dirs == w.dirs && w'.origin == w.origin && w'.late == w.late
  }

  /** The frame one call of segment `g` hands to the server. */
  function FrameOf(w: World, g: Seg, n: nat): Bytes {
    Chunk(SourceOf(w, g.src), g.pos, n)
  }

  /**
   * The agent cannot tell a lost call, a lost acknowledgement and a delay apart; the server cannot
   * tell whether its acknowledgement arrives. Over a broken connection nothing happens on the server.
   */
  lemma SendOutcomes(c: Conf, w: World, k: nat, n: nat, acked: World, lost: World, never: World, late: World)
    requires Enabled(c, w, Send(k, n, Acked))
    requires acked == Next(c, w, Send(k, n, Acked)) && lost == Next(c, w, Send(k, n, AppliedAckLost))
    requires never == Next(c, w, Send(k, n, NotApplied)) && late == Next(c, w, Send(k, n, Delayed))
    ensures var g := w.segs[k];
            && SameServer(acked, lost) && SameServer(w, never)
            && late.fs == w.fs && late.dirs == w.dirs && late.origin == w.origin && w.late <= late.late
            && lost.segs == never.segs == late.segs
            && (!g.conn.value.up ==> SameServer(w, acked) && SameServer(w, late))
            && (SendFrame(w, g, n).None? ==> SameServer(w, acked) && SameServer(w, late) && acked.segs == lost.segs)
  {
  }

  /** A delivered frame through an open descriptor is in the file at its offset, and changes nothing else there. */
  lemma DeliveredSend(c: Conf, w: World, k: nat, n: nat)
    requires Enabled(c, w, Send(k, n, Acked)) && w.segs[k].conn.value.up && w.segs[k].conn.value.h.fd.Some?
    requires w.segs[k].conn.value.h.fd.value.ino < |w.fs.data|
    ensures var g, w' := w.segs[k], Next(c, w, Send(k, n, Acked));
            var fd := g.conn.value.h.fd.value;
            if fd.pos != g.pos then SameServer(w, w') && w'.segs[k].conn.None?
            else
              && w'.fs.dir == w.fs.dir
              && w'.fs.data == w.fs.data[fd.ino := WriteAt(w.fs.data[fd.ino], fd.pos, FrameOf(w, g, n))]
              && SliceAt(w'.fs.data[fd.ino], g.pos, SourceOf(w, g.src)[g.pos..g.pos + n])
              && w'.segs[k].pos == g.pos + n && w'.segs[k].conn.Some?
              && w'.segs[k].conn.value.h.fd == Some(Fd(fd.ino, g.pos + n))
  {
    assert |FrameOf(w, w.segs[k], n)| == n;
  }

  /** A delayed frame, once it is applied, has done to the files what a delivered one does at once. */
  lemma DelayedIsDelivered(c: Conf, w: World, k: nat, n: nat)
    requires Enabled(c, w, Send(k, n, Delayed)) && w.segs[k].conn.value.up && w.segs[k].conn.value.h.fd.Some?
    requires w.segs[k].conn.value.h.fd.value.pos == w.segs[k].pos
    ensures var g, w1 := w.segs[k], Next(c, w, Send(k, n, Delayed));
            var l := Late(g.conn.value.h.fd.value.ino, g.pos, FrameOf(w, g, n));
            && Enabled(c, w1, ApplyLate(l))
            && Next(c, w1, ApplyLate(l)).fs == Next(c, w, Send(k, n, AppliedAckLost)).fs
            && Next(c, w1, ApplyLate(l)).late == w.late - {l}
  {
  }

  /** What a rename that reaches the server, or does not, does to the directory. */
  ghost predicate Renamed(w: World, w': World, src: Name, dst: Name, delivered: bool, synced: bool) {
    && w'.fs.data == w.fs.data && w'.late == w.late && w'.origin == w.origin
    && if !delivered || (src !in w.fs.dir && dst !in w.fs.dir) then w'.fs.dir == w.fs.dir && w'.dirs == w.dirs
       else
         && dst in w'.fs.dir && w'.fs.dir[dst] == (if src in w.fs.dir then w.fs.dir[src] else w.fs.dir[dst])
         && (src != dst ==> src !in w'.fs.dir)
         && (forall m | m != src && m != dst :: m in w'.fs.dir <==> m in w.fs.dir)
         && (forall m | m in w.fs.dir && m != src && m != dst :: w'.fs.dir[m] == w.fs.dir[m])
         && w'.dirs == (if synced then [] else w.dirs) + [w'.fs.dir]
  }

  /** The destination of a rename step. */
  function DestinationOf(c: Conf, w: World, s: Step): Name
    requires Enabled(c, w, s) && (s.StaleRename? || s.SealRename? || s.FinalRename?)
  {
    if s.StaleRename? then StaleName(c, s.clock)
    else if s.SealRename? then w.segs[s.k].pending.value.name
    else FinalName(w, w.segs[s.k])
  }

  /** The three renames move the segment's own target, if the call is delivered, and touch no content. */
  lemma RenameOutcomes(c: Conf, w: World, s: Step)
    requires Enabled(c, w, s) && (s.StaleRename? || s.SealRename? || s.FinalRename?)
    ensures Renamed(w, Next(c, w, s), w.segs[s.k].target, DestinationOf(c, w, s),
                    Delivered(w.segs[s.k], s.out), s.synced)
  {
  }

  /** No other step of a segment or the coordinator, and no growth or scan, changes anything on the server. */
  lemma QuietSteps(c: Conf, w: World, s: Step)
    requires Enabled(c, w, s)
    requires !s.Send? && !s.StaleRename? && !s.SealRename? && !s.FinalRename? && !s.ApplyLate? && !s.Crash?
    ensures Next(c, w, s).fs == w.fs && Next(c, w, s).dirs == w.dirs && Next(c, w, s).late == w.late
    ensures !s.Connect? ==> SameServer(w, Next(c, w, s))
  {
  }

  /** Who changes what: sources, knowledge and the coordinator's state each have one kind of writer. */
  lemma WhoWritesWhat(c: Conf, w: World, s: Step)
    requires Enabled(c, w, s)
    ensures !s.Grow? && !s.NewSource? ==> Next(c, w, s).src == w.src
    ensures !s.Scan? ==> Next(c, w, s).marks == w.marks
    ensures !ActorOf(s).Coordinator? ==> Next(c, w, s).coord == w.coord && |Next(c, w, s).segs| == |w.segs|
    ensures Next(c, w, s).taken == w.taken
  {
  }

  /** A segment changes no other segment, and the coordinator only asks for a seal or a cancellation. */
  lemma WhoWritesSegments(c: Conf, w: World, s: Step, j: nat)
    requires Enabled(c, w, s) && j < |w.segs| && ActorOf(s) != Segment(j)
    ensures |w.segs| <= |Next(c, w, s).segs|
    ensures Next(c, w, s).segs[j] ==
              if s.Crash? then Disconnected(w.segs[j])
              else if s.RequestSeal? && w.coord.live == Some(j) then w.segs[j].(pending := Some(s.req))
              else if s.Cancel? && s.k == j then w.segs[j].(cancelled := true)
              else w.segs[j]
  {
  }

  // ----- the environment

  /** A part of some directory state since the last sync, and a prefix of every file. */
  ghost predicate CrashMayLeave(w: World, fs': FileSystem<Name>) {
    && (exists back | 0 <= back < |w.dirs| ::
          forall n | n in fs'.dir :: n in w.dirs[back] && w.dirs[back][n] == fs'.dir[n])
    && |fs'.data| == |w.fs.data| && forall i | 0 <= i < |w.fs.data| :: fs'.data[i] <= w.fs.data[i]
  }

  lemma CrashLeaves(c: Conf, w: World, back: nat, kept: set<Name>, cut: seq<nat>)
    requires Enabled(c, w, Crash(back, kept, cut))
    ensures CrashMayLeave(w, Next(c, w, Crash(back, kept, cut)).fs)
    ensures var w' := Next(c, w, Crash(back, kept, cut));
            && w'.late == {} && w'.dirs == [w'.fs.dir] && |w'.segs| == |w.segs|
            && forall k | 0 <= k < |w.segs| && w'.segs[k].conn.Some? :: !w'.segs[k].conn.value.up
  {
  }

  /** A crash can leave every such state and no other. */
  lemma CrashLeavesExactly(c: Conf, w: World, fs': FileSystem<Name>)
    ensures CrashMayLeave(w, fs')
       <==> exists back: nat, kept, cut ::
              Enabled(c, w, Crash(back, kept, cut)) && Next(c, w, Crash(back, kept, cut)).fs == fs'
  {
    if CrashMayLeave(w, fs') {
      var back :| 0 <= back < |w.dirs| && forall n | n in fs'.dir :: n in w.dirs[back] && w.dirs[back][n] == fs'.dir[n];
      var kept := set n | n in fs'.dir;
      var cut := seq(|fs'.data|, i requires 0 <= i < |fs'.data| => |fs'.data[i]| as nat);
      var w' := Next(c, w, Crash(back, kept, cut));
      assert w'.fs.dir == fs'.dir;
      assert forall i | 0 <= i < |fs'.data| :: w'.fs.data[i] == w.fs.data[i][..|fs'.data[i]|] == fs'.data[i];
      assert w'.fs.data == fs'.data;
    }
    forall back: nat, kept, cut | Enabled(c, w, Crash(back, kept, cut))
                                  && Next(c, w, Crash(back, kept, cut)).fs == fs'
      ensures CrashMayLeave(w, fs')
    {
      CrashLeaves(c, w, back, kept, cut);
    }
  }
}
