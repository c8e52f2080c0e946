/** One segment of the agent, method by method, taking only steps of the protocol. */
module Agent {
  import opened Prelude
  import opened Names
  import opened Markers
  import opened Files
  import opened Protocol
  import opened Invariant
  import opened Preservation
  import opened Theorems
  import opened Safety
  import opened Recovery
  import opened Network

  /**
   * How a method ends: normally, by `_EndSegment`, by another exception, by cancellation, or not at
   * all: it still waits after as many rounds as we look at.
   */
  datatype Status = Fine | EndSegment | Failed | Cancelled | Waiting

  /** What the network makes of one call: whether a handshake is answered, and what becomes of a request. */
  datatype Fate = Fate(answered: bool, out: Outcome, synced: bool)

  datatype Sent = AtEnd | Shipped | Resumed | GaveUp

  /** The stream is where the server's descriptor is, or at the start if there is none. */
  ghost predicate InStep(g: Seg) {
    && g.conn.Some?
    && match g.conn.value.h.fd
       case Some(fd) => fd.pos == g.pos
       case None => g.pos == 0
  }

  lemma FileBehindStream(c: Conf, w: World, k: nat)
    requires Inv(c, w) && InPhase(w, k, Running) && InStep(w.segs[k]) && w.segs[k].conn.value.up
    requires w.segs[k].pos > 0 && w.segs[k].target != FixedOrphan
    ensures var g, s := w.segs[k], SourceOf(w, w.segs[k].src);
            g.target in w.fs.dir && g.pos <= |s| && s[..g.pos] <= FileAt(w, g.target)
  {
    assert SegOk(c, w, w.segs[k]);
  }

  lemma {:induction false} SoundBefore(c: Conf, w: World, a: seq<Step>, b: seq<Step>)
    requires a <= b && Sound(c, w, b)
    ensures Sound(c, w, a)
    decreases |b|
  {
    if a == b {
      assert a == b;
    } else {
      assert a == b[..|a|] && a <= b[..|b| - 1];
      SoundBefore(c, w, a, b[..|b| - 1]);
    }
  }

  /** A final rename that is acknowledged to a segment in step leaves what it has shipped under the final name. */
  lemma FinalHolds(c: Conf, w: World, k: nat, out: Outcome, synced: bool)
    requires Inv(c, w) && Enabled(c, w, FinalRename(k, out, synced))
    requires RenameAcked(w, w.segs[k], FinalName(w, w.segs[k]), out)
    requires InStep(w.segs[k]) && w.segs[k].pos > 0
    ensures var w', dst := Next(c, w, FinalRename(k, out, synced)), FinalName(w, w.segs[k]);
            var s := SourceOf(w, w.segs[k].src);
            dst in w'.fs.dir && w.segs[k].pos <= |s| && s[..w.segs[k].pos] <= FileAt(w', dst)
  {
    assert SegOk(c, w, w.segs[k]);
    RenameEffect(Plain, c, w, w.segs[k], FinalName(w, w.segs[k]));
  }

  lemma FinalHoldsInRun(c: Conf, start: World, steps: seq<Step>, w: World, k: nat, out: Outcome, synced: bool)
    requires Run(c, start, steps) == Some(w) && Enabled(c, w, FinalRename(k, out, synced))
    ensures var w', dst := Next(c, w, FinalRename(k, out, synced)), FinalName(w, w.segs[k]);
            var g, s := w.segs[k], SourceOf(w, w.segs[k].src);
            Inv(c, start) && Sound(c, start, steps + [FinalRename(k, out, synced)])
            && RenameAcked(w, g, dst, out) && InStep(g) && g.pos > 0 ==>
              dst in w'.fs.dir && g.pos <= |s| && s[..g.pos] <= FileAt(w', dst)
  {
    var all := steps + [FinalRename(k, out, synced)];
    if Inv(c, start) && Sound(c, start, all) {
      SoundBefore(c, start, steps, all);
      RunKeepsInv(c, start, steps);
      if RenameAcked(w, w.segs[k], FinalName(w, w.segs[k]), out) && InStep(w.segs[k]) && w.segs[k].pos > 0 {
        FinalHolds(c, w, k, out, synced);
      }
    }
  }

  /** A handshake that finds a stale file, and a request to put it aside that is not acknowledged, in world `w`. */
  ghost predicate AnsweredStale(c: Conf, w: World, s: Step)
    requires s.Connect?
  {
    s.k < |w.segs| && SeesStale(c, w.fs, w.segs[s.k].target, PrefixRead(c, w, s.k, s.prefix))
  }

  ghost predicate StaleAnswered(c: Conf, k: nat, steps: seq<Step>, trace: seq<World>, from: nat) {
    exists i | from <= i < |steps| && i < |trace| ::
      steps[i].Connect? && steps[i].k == k && AnsweredStale(c, trace[i], steps[i])
  }

  /** Segment `k` has not introduced itself. */
  ghost predicate NoHandshake(k: nat, steps: seq<Step>, from: nat) {
    forall i | from <= i < |steps| && steps[i].Connect? :: steps[i].k != k
  }

  ghost predicate LostAside(c: Conf, w: World, s: Step)
    requires s.StaleRename?
  {
    s.k < |w.segs| && !RenameAcked(w, w.segs[s.k], StaleName(c, s.clock), s.out)
  }

  ghost predicate StaleNotAside(c: Conf, k: nat, steps: seq<Step>, trace: seq<World>, from: nat) {
    exists i | from <= i < |steps| && i < |trace| ::
      steps[i].StaleRename? && steps[i].k == k && LostAside(c, trace[i], steps[i])
  }

  /** Exactly the step `s` was taken. */
  ghost predicate Took(before: seq<Step>, after: seq<Step>, s: Step) {
    before <= after && |after| == |before| + 1 && after[|before|] == s
  }

  /** In so many rounds, each either shipped a frame or slept an interval. */
  ghost predicate Busy(rounds: nat, interval: nat, frames: int, elapsed: int) {
    exists q: nat :: q <= rounds && elapsed >= Intervals(q, interval) && frames >= rounds - q
  }

  lemma StaysBusy(rounds: nat, interval: nat, frames: int, elapsed: int, frames': int, elapsed': int)
    requires Busy(rounds, interval, frames, elapsed) && frames <= frames' && elapsed <= elapsed'
    requires frames < frames' || elapsed' >= elapsed + interval
    ensures Busy(rounds + 1, interval, frames', elapsed')
  {
    var q: nat :| q <= rounds && elapsed >= Intervals(q, interval) && frames >= rounds - q;
    if frames < frames' {
      assert elapsed' >= Intervals(q, interval);
    } else {
      assert elapsed' >= Intervals(q + 1, interval);
    }
  }

  // ----- single steps, as the segment that takes them sees them

  method TakeReconnect(net: Net, k: nat, seek: bool)
    requires net.Valid() && Enabled(net.c, net.w, Step.Reconnect(k, seek))
    modifies net
    ensures net.Valid() && Took(old(net.steps), net.steps, Step.Reconnect(k, seek)) && old(net.clock) <= net.clock
    ensures |net.w.segs| == |old(net.w).segs|
    ensures net.w.src == old(net.w).src && net.w.fs == old(net.w).fs && net.w.marks == old(net.w).marks
    ensures net.w.segs[k].conn.Some? && (seek ==> Synced(net.w, k))
    ensures net.w.segs[k] == old(net.w).segs[k].(conn := net.w.segs[k].conn,
              pos := if seek then ReportedLength(net.w.fs, net.w.segs[k].target) else old(net.w).segs[k].pos,
              reconnects := old(net.w).segs[k].reconnects + 1)
  {
    net.Take(Step.Reconnect(k, seek));
  }

  lemma ConnectOutcome(c: Conf, w: World, k: nat, prefix: Bytes)
    requires Enabled(c, w, Step.Connect(k, |prefix|)) && w.segs[k].roleLive
    requires prefix <= LocalPrefix(c, SourceOf(w, w.segs[k].src))
    ensures var g, w' := w.segs[k], Next(c, w, Step.Connect(k, |prefix|));
            && |w'.segs| == |w.segs| && w'.src == w.src && w'.fs == w.fs && w'.marks == w.marks
            && w'.segs[k].conn.Some? && (!SeesStale(c, w.fs, g.target, prefix) ==> Synced(w', k))
            && w'.segs[k] == if SeesStale(c, w.fs, g.target, prefix)
                             then g.(conn := w'.segs[k].conn, phase := Stale, pos := |prefix|, prefix := prefix)
                             else g.(conn := w'.segs[k].conn, phase := Running, pos := ReportedLength(w.fs, g.target),
                                     prefix := prefix)
  {
    var p := LocalPrefix(c, SourceOf(w, w.segs[k].src));
    assert p[..Min(|prefix|, |p|)] == prefix;
  }

  method TakeConnect(net: Net, k: nat, prefix: Bytes, ghost stale: bool, ghost from: nat)
    requires from <= |net.steps| && NoHandshake(k, net.steps, from)
    requires net.Valid() && Enabled(net.c, net.w, Step.Connect(k, |prefix|)) && net.w.segs[k].roleLive
    requires prefix <= LocalPrefix(net.c, SourceOf(net.w, net.w.segs[k].src))
    requires stale == SeesStale(net.c, net.w.fs, net.w.segs[k].target, prefix)
    modifies net
    ensures net.Valid() && Took(old(net.steps), net.steps, Step.Connect(k, |prefix|)) && old(net.clock) <= net.clock
    ensures stale <==> StaleAnswered(net.c, k, net.steps, net.trace, from)
    ensures |net.w.segs| == |old(net.w).segs|
    ensures net.w.src == old(net.w).src && net.w.fs == old(net.w).fs && net.w.marks == old(net.w).marks
    ensures net.w.segs[k].conn.Some? && (!stale ==> Synced(net.w, k))
    ensures net.w.segs[k] == old(net.w).segs[k].(conn := net.w.segs[k].conn,
              phase := if stale then Stale else Running, prefix := prefix,
              pos := if stale then |prefix| else ReportedLength(net.w.fs, old(net.w).segs[k].target))
  {
    ConnectOutcome(net.c, net.w, k, prefix);
    assert PrefixRead(net.c, net.w, k, |prefix|) == prefix;
    net.Take(Step.Connect(k, |prefix|));
    assert net.trace[|old(net.steps)|] == old(net.w);
    assert forall i | from <= i < |old(net.steps)| :: net.steps[i] == old(net.steps)[i];
  }

  method TakeReopen(net: Net, k: nat)
    requires net.Valid() && Enabled(net.c, net.w, Step.Reopen(k))
    modifies net
    ensures net.Valid() && Took(old(net.steps), net.steps, Step.Reopen(k)) && old(net.clock) <= net.clock
    ensures |net.w.segs| == |old(net.w).segs|
    ensures net.w.src == old(net.w).src && net.w.fs == old(net.w).fs && net.w.marks == old(net.w).marks
    ensures net.w.segs[k].conn.Some? && Synced(net.w, k)
    ensures net.w.segs[k] == old(net.w).segs[k].(conn := net.w.segs[k].conn, phase := Running,
              pos := ReportedLength(net.w.fs, old(net.w).segs[k].target))
  {
    net.Take(Step.Reopen(k));
  }

  method TakeMarkSealed(net: Net, k: nat)
    requires net.Valid() && Enabled(net.c, net.w, Step.MarkSealed(k))
    modifies net
    ensures net.Valid() && Took(old(net.steps), net.steps, Step.MarkSealed(k)) && old(net.clock) <= net.clock
    ensures |net.w.segs| == |old(net.w).segs|
    ensures net.w.src == old(net.w).src && net.w.fs == old(net.w).fs && net.w.marks == old(net.w).marks
    ensures net.w.segs[k] == NowSealed(net.c, old(net.w).segs[k])
  {
    net.Take(Step.MarkSealed(k));
  }

  lemma SendOutcome(c: Conf, w: World, k: nat, n: nat, out: Outcome)
    requires Enabled(c, w, Send(k, n, out))
    ensures var g, w' := w.segs[k], NextSend(c, w, k, n, out);
            && |w'.segs| == |w.segs| && w'.src == w.src && w'.marks == w.marks
            && if SendAcked(w, g, n, out) then
                 w'.segs[k] == g.(conn := w'.segs[k].conn, pos := g.pos + n) && Aligned(w'.segs[k])
               else w'.segs[k] == AfterFailedSend(c, w', g)
  {
    assert |Chunk(SourceOf(w, w.segs[k].src), w.segs[k].pos, n)| == n;
  }

  method TakeSend(net: Net, k: nat, n: nat, out: Outcome)
    requires net.Valid() && Enabled(net.c, net.w, Send(k, n, out))
    modifies net
    ensures net.Valid() && Took(old(net.steps), net.steps, Send(k, n, out)) && old(net.clock) <= net.clock
    ensures |net.w.segs| == |old(net.w).segs| && net.w.src == old(net.w).src && net.w.marks == old(net.w).marks
    ensures if SendAcked(old(net.w), old(net.w).segs[k], n, out) then
              && net.w.segs[k] == old(net.w).segs[k].(conn := net.w.segs[k].conn, pos := old(net.w).segs[k].pos + n)
              && Aligned(net.w.segs[k])
            else net.w.segs[k] == AfterFailedSend(net.c, net.w, old(net.w).segs[k])
  {
    SendOutcome(net.c, net.w, k, n, out);
    net.Take(Send(k, n, out));
  }

  lemma FinalRenameOutcome(c: Conf, w: World, k: nat, out: Outcome, synced: bool)
    requires Enabled(c, w, FinalRename(k, out, synced))
    ensures var g, w' := w.segs[k], Next(c, w, FinalRename(k, out, synced));
            var dst := FinalName(w, g);
            && |w'.segs| == |w.segs| && w'.src == w.src && w'.marks == w.marks
            && if RenameAcked(w, g, dst, out) then w'.segs[k] == Dead(g.(past := g.past + [g.target], target := dst))
               else w'.segs[k] == AfterFailedRename(c, w', g, dst)
  {
  }

  method TakeFinalRename(net: Net, k: nat, out: Outcome, synced: bool, dst: Name)
    requires net.Valid() && Enabled(net.c, net.w, Step.FinalRename(k, out, synced))
    requires dst == FinalName(net.w, net.w.segs[k])
    modifies net
    ensures net.Valid() && old(net.clock) <= net.clock
    ensures Took(old(net.steps), net.steps, Step.FinalRename(k, out, synced))
    ensures |net.w.segs| == |old(net.w).segs| && net.w.src == old(net.w).src && net.w.marks == old(net.w).marks
    ensures net.w.segs[k] ==
              if RenameAcked(old(net.w), old(net.w).segs[k], dst, out) then
                Dead(old(net.w).segs[k].(past := old(net.w).segs[k].past + [old(net.w).segs[k].target], target := dst))
              else AfterFailedRename(net.c, net.w, old(net.w).segs[k], dst)
    ensures var g, s := old(net.w).segs[k], SourceOf(net.w, old(net.w).segs[k].src);
            Inv(net.c, net.start) && Sound(net.c, net.start, net.steps)
            && RenameAcked(old(net.w), g, dst, out) && InStep(g) && g.pos > 0 ==>
              dst in net.w.fs.dir && g.pos <= |s| && s[..g.pos] <= FileAt(net.w, dst)
  {
    FinalRenameOutcome(net.c, net.w, k, out, synced);
    net.IsRun();
    FinalHoldsInRun(net.c, net.start, net.steps, net.w, k, out, synced);
    net.Take(Step.FinalRename(k, out, synced));
  }

  method TakeStaleRename(net: Net, k: nat, clock: string, out: Outcome, synced: bool)
    requires net.Valid() && Enabled(net.c, net.w, Step.StaleRename(k, clock, out, synced))
    modifies net
    ensures net.Valid() && Took(old(net.steps), net.steps, Step.StaleRename(k, clock, out, synced))
    ensures old(net.clock) <= net.clock
    ensures RenameAcked(old(net.w), old(net.w).segs[k], StaleName(net.c, clock), out)
       <==> !StaleNotAside(net.c, k, net.steps, net.trace, |old(net.steps)|)
    ensures |net.w.segs| == |old(net.w).segs| && net.w.src == old(net.w).src && net.w.marks == old(net.w).marks
    ensures net.w.segs[k] ==
              if RenameAcked(old(net.w), old(net.w).segs[k], StaleName(net.c, clock), out) then
                old(net.w).segs[k].(phase := Reopening, conn := None)
              else Dead(old(net.w).segs[k])
  {
    net.Take(Step.StaleRename(k, clock, out, synced));
    assert net.trace[|old(net.steps)|] == old(net.w);
  }

  class Segment {
    const net: Net
    const id: nat
    const src: nat
    const interval: nat            // tail_read_interval_seconds
    const fate: nat -> Fate        // what the network makes of the n-th call
    const listings: nat -> Option<seq<string>>   // what the n-th look at the directory finds
    var target: Name
    ghost var past: seq<Name>
    var roleLive: bool
    ghost var phase: Phase
    var connected: bool            // self.conn is not None
    var headerLength: nat          // conn.header_reply['length']
    var pos: nat                   // file_stream.tell()
    var pending: Option<Request>
    var sealed: bool
    var noResume: bool
    ghost var reconnects: nat
    var cancelled: bool
    var calls: nat                 // how many calls the network has been given
    var looks: nat                 // how often the directory has been looked at
    ghost var frames: nat          // how many frames were acknowledged
    ghost var lastShipped: int     // when a frame was acknowledged last

    /** A live segment the coordinator has just started. */
    constructor (net: Net, id: nat, interval: nat, fate: nat -> Fate, listings: nat -> Option<seq<string>>)
      requires net.Valid() && id < |net.w.segs| && net.w.segs[id] == NewSeg(net.w.segs[id].src)
      requires net.w.segs[id].src < |net.w.src|
      ensures this.net == net && this.id == id && src == net.w.segs[id].src
      ensures this.interval == interval && this.fate == fate && this.listings == listings && calls == looks == 0
      ensures Opening(Starting)
    {
      this.net, this.id, src := net, id, net.w.segs[id].src;
      this.interval, this.fate, this.listings, calls, looks, frames := interval, fate, listings, 0, 0, 0;
      target, past, roleLive, phase := Live, [], true, Starting;
      connected, headerLength, pos, pending, sealed, noResume, reconnects := false, 0, 0, None, false, false, 0;
      cancelled, lastShipped := false, 0;
    }

    /** This object is segment `id` of the world, except that the stream may be ahead of the record's `at`. */
    ghost predicate ValidAt(at: nat)
      reads this, net
    {
      && net.Valid() && id < |net.w.segs| && src < |net.w.src|
      && net.w.segs[id] == Seg(src, target, past, roleLive, phase, net.w.segs[id].conn, at, pending, sealed,
                                noResume, reconnects,
                                net.w.segs[id].prefix, cancelled)
      && (connected <==> net.w.segs[id].conn.Some?)
    }

    ghost predicate Valid()
      reads this, net
    {
      ValidAt(pos)
    }

    /** The record of this segment. */
    ghost function Me(): Seg
      requires id < |net.w.segs|
      reads this, net
    {
      net.w.segs[id]
    }

    /** The same wherever the stream is. */
    ghost predicate Tracked()
      reads this, net
    {
      id < |net.w.segs| && ValidAt(net.w.segs[id].pos)
    }

    /** What every method keeps: the run goes on, and a seal request stays. */
    twostate predicate Later()
      reads this, net
    {
      && old(net.steps) <= net.steps && (old(pending).Some? ==> pending == old(pending))
      && old(reconnects) <= reconnects && old(net.clock) <= net.clock
      && (src < |old(net.w).src| ==> src < |net.w.src| && |old(net.w).src[src]| <= |net.w.src[src]|)
    }

    /** The first `n` bytes of the source were acknowledged or reported, unless a call failed meanwhile. */
    ghost predicate ShippedTo(n: nat, before: nat)
      reads this
    {
      pos >= n || reconnects > before
    }

    /** In addition, sources and what is known from markers have only grown. */
    twostate predicate Onward()
      reads this, net
    {
      Later() && SourcesGrow(old(net.w), net.w)
    }

    /** Streaming with a connection. */
    ghost predicate Streaming()
      reads this, net
    {
      Valid() && phase == Running && connected
    }

    /** The run so far started in order and contains no hazard. */
    ghost predicate Good()
      reads net
    {
      Inv(net.c, net.start) && Sound(net.c, net.start, net.steps)
    }

    /** The server holds at least the first `n` bytes of the source under this segment's target. */
    ghost predicate Holds(n: nat)
      reads this, net
    {
      && target in net.w.fs.dir && src < |net.w.src| && n <= |net.w.src[src]|
      && net.w.src[src][..n] <= FileAt(net.w, target)
    }

    /**
     * In a run without hazards, a segment that took its name from a marker and never had to
     * reconnect since `before` has left at least the first `n` bytes of the source under that name.
     */
    ghost predicate Kept(n: nat, before: nat)
      reads this, net
    {
      pending.Some? && !pending.value.isOrphan && reconnects == before && Good() && n > 0 ==> Holds(n)
    }

    lemma HoldsLess(n: nat, m: nat)
      requires Holds(m) && n <= m
      ensures Holds(n)
    {
      assert net.w.src[src][..n] <= net.w.src[src][..m];
    }

    lemma KeptLess(n: nat, m: nat, before: nat)
      requires Kept(m, before) && n <= m
      ensures Kept(n, before)
    {
      if n > 0 && Holds(m) {
        HoldsLess(n, m);
      }
    }

    // ----- waiting and reading

    /** Anything may happen meanwhile; the coordinator may have requested a seal. */
    method Await(ghost at: nat)
      requires ValidAt(at)
      modifies this`pending, this`cancelled, net
      ensures ValidAt(at) && old(net.steps) <= net.steps && old(net.clock) <= net.clock
      ensures SegRely(old(net.w), net.w, id) && NoHandshake(id, net.steps, |old(net.steps)|)
    {
      net.Yield(Actor.Segment(id));
      pending, cancelled := net.w.segs[id].pending, net.w.segs[id].cancelled;
    }

    /** Sleeping between two rounds. */
    method Pause()
      requires Valid()
      modifies this`pending, this`cancelled, net
      ensures Valid() && Onward() && (old(Aligned(Me())) ==> Aligned(Me()))
      ensures old(InStep(Me())) ==> InStep(Me())
    {
      Await(pos);
    }

    /** `asyncio.sleep` for one interval. */
    method Sleep()
      requires Valid()
      modifies this`pending, this`cancelled, net
      ensures Valid() && Onward() && (old(Aligned(Me())) ==> Aligned(Me()))
      ensures old(InStep(Me())) ==> InStep(Me())
      ensures net.clock >= old(net.clock) + interval
    {
      net.Sleep(Actor.Segment(id), interval);
      pending, cancelled := net.w.segs[id].pending, net.w.segs[id].cancelled;
    }

    method Read(size: nat) returns (bytes: Bytes)
      requires src < |net.w.src|
      modifies this`pos
      ensures var s := net.w.src[src];
              && bytes == Chunk(s, old(pos), if old(pos) < |s| then Min(size, |s| - old(pos)) else 0)
              && pos == old(pos) + |bytes|
    {
      var s := net.w.src[src];
      bytes := if pos < |s| then s[pos..pos + Min(size, |s| - pos)] else [];
      pos := pos + |bytes|;
    }

    method ReadPrefix() returns (prefix: Bytes)
      requires src < |net.w.src|
      modifies this`pos
      ensures prefix == LocalPrefix(net.c, net.w.src[src]) && pos == |prefix|
    {
      pos := 0;
      prefix := Read(net.c.prefixLength);
    }

    // ----- remote calls: what becomes of them is given

    method SendData(at: nat, chunk: Bytes) returns (ok: bool)
      requires ValidAt(at) && phase == Running && connected
      requires 0 < |chunk| <= CHUNK_SIZE && at + |chunk| <= |net.w.src[src]|
      requires chunk == Chunk(net.w.src[src], at, |chunk|)
      modifies this`calls, net
      ensures net.Valid() && old(net.clock) <= net.clock && calls == old(calls) + 1
      ensures Took(old(net.steps), net.steps, Send(id, |chunk|, fate(old(calls)).out))
      ensures ok <==> SendAcked(old(net.w), old(Me()), |chunk|, fate(old(calls)).out)
      ensures |net.w.segs| == |old(net.w).segs|
      ensures net.w.src == old(net.w).src && net.w.marks == old(net.w).marks
      ensures ok ==> Me().conn.Some? && Me() == old(Me()).(conn := Me().conn, pos := at + |chunk|) && Aligned(Me())
      ensures !ok ==> Me() == AfterFailedSend(net.c, net.w, old(Me()))
    {
      var out := fate(calls).out;
      calls := calls + 1;
      ok := SendAcked(net.w, net.w.segs[id], |chunk|, out);
      TakeSend(net, id, |chunk|, out);
    }

    // ----- reconnecting

    /** The server answers a handshake for the current target. */
    method Handshake(seek: bool)
      requires Valid() && phase == Running && !connected
      modifies this`connected, this`headerLength, this`reconnects, net
      ensures ValidAt(if seek then headerLength else pos) && connected
      ensures old(net.steps) <= net.steps && old(net.clock) <= net.clock
      ensures reconnects == old(reconnects) + 1
      ensures headerLength == ReportedLength(net.w.fs, target)
      ensures SourcesGrow(old(net.w), net.w) && (seek ==> Synced(net.w, id))
    {
      headerLength := ReportedLength(net.w.fs, target);
      TakeReconnect(net, id, seek);
      connected, reconnects := true, reconnects + 1;
    }

    /** The server does not answer for a while. */
    method Backoff()
      requires Valid() && phase == Running && !connected
      modifies this`pending, this`cancelled, net
      ensures Valid() && old(net.steps) <= net.steps && old(net.clock) <= net.clock && SourcesGrow(old(net.w), net.w)
      ensures old(pending).Some? ==> pending == old(pending)
    {
      var attempts: nat := *;
      while attempts > 0
        invariant Valid() && old(net.steps) <= net.steps && old(net.clock) <= net.clock
        invariant SourcesGrow(old(net.w), net.w)
        invariant old(pending).Some? ==> pending == old(pending)
      {
        Await(pos);
        attempts := attempts - 1;
      }
    }

    /**
     * `_reconnect`: drops the connection, rereads the prefix and retries until the server answers.
     * `seek` says whether the caller will seek to the reported length at once.
     */
    method Reconnect(seek: bool)
      requires net.Valid() && id < |net.w.segs| && src < |net.w.src| && phase == Running
      requires Me() == Seg(src, target, past, roleLive, phase, None, |LocalPrefix(net.c, net.w.src[src])|,
                           pending, sealed, noResume, reconnects, Me().prefix, cancelled)
      modifies this`connected, this`pos, this`pending, this`cancelled, this`headerLength, this`reconnects, net
      ensures ValidAt(if seek then headerLength else pos) && connected
      ensures old(net.steps) <= net.steps && old(net.clock) <= net.clock
      ensures reconnects == old(reconnects) + 1
      ensures headerLength == ReportedLength(net.w.fs, target)
      ensures SourcesGrow(old(net.w), net.w)
      ensures old(pending).Some? ==> pending == old(pending)
      ensures seek ==> Synced(net.w, id)
    {
      connected := false;
      var prefix := ReadPrefix();
      Backoff();
      Handshake(seek);
    }

    // ----- draining

    /** What has been read stays what a source holds there. */
    static lemma ChunkStays(s: Bytes, s': Bytes, at: nat, n: nat)
      requires s <= s' && at + n <= |s|
      ensures Chunk(s', at, n) == Chunk(s, at, n)
    {
    }

    /** In a good run, an aligned stream at the end of the source means the whole source is on the server. */
    lemma CompleteAtEnd()
      requires Streaming() && pos >= |net.w.src[src]| && Aligned(Me()) && Me().conn.value.up && Good()
      ensures Complete(net.w, id)
    {
      net.IsRun();
      RunKeepsInv(net.c, net.start, net.steps);
      SyncedAtEndIsComplete(net.c, net.w, id);
    }

    /** In a good run, what a stream in step over a working connection has shipped is under the segment's name. */
    lemma ShippedIsThere()
      requires Streaming() && InStep(Me()) && Me().conn.value.up && pos > 0 && target != FixedOrphan && Good()
      ensures Holds(pos)
    {
      net.IsRun();
      RunKeepsInv(net.c, net.start, net.steps);
      FileBehindStream(net.c, net.w, id);
    }

    /** The `except` branch of `_drain_available`. */
    method AfterLostSend() returns (r: Sent)
      requires net.Valid() && id < |net.w.segs| && src < |net.w.src| && phase == Running
      requires noResume ==> Me() == Seg(src, target, past, roleLive, Done, None, Me().pos,
                                        pending, sealed, noResume, reconnects, Me().prefix, cancelled)
      requires !noResume ==>
                 Me() == Seg(src, target, past, roleLive, phase, None, |LocalPrefix(net.c, net.w.src[src])|,
                             pending, sealed, noResume, reconnects, Me().prefix, cancelled)
      modifies this`connected, this`pos, this`pending, this`cancelled,
               this`headerLength, this`reconnects, this`phase, net
      ensures Onward() && r in {Resumed, GaveUp}
      ensures reconnects == if r == Resumed then old(reconnects) + 1 else old(reconnects)
      ensures r == Resumed ==> Streaming() && !noResume && Synced(net.w, id) && pos == ReportedLength(net.w.fs, target)
      ensures r == GaveUp ==> Tracked() && noResume && phase == Done
    {
      if noResume {
        phase, connected := Done, false;
        return GaveUp;
      }
      Reconnect(true);
      pos := headerLength;
      return Resumed;
    }

    /** The frame itself. */
    method TrySend(at: nat, chunk: Bytes) returns (ok: bool)
      requires ValidAt(at) && phase == Running && connected
      requires 0 < |chunk| <= CHUNK_SIZE && pos == at + |chunk| <= |net.w.src[src]|
      requires chunk == Chunk(net.w.src[src], at, |chunk|)
      modifies this`lastShipped, this`frames, this`calls, net
      ensures Onward()
      ensures if ok then lastShipped == net.clock && frames == old(frames) + 1
              else lastShipped == old(lastShipped) && frames == old(frames)
      ensures ok ==> Streaming() && pos <= |net.w.src[src]| && Aligned(Me())
      ensures !ok ==> net.Valid() && id < |net.w.segs| && src < |net.w.src|
      ensures !ok && noResume ==> Me() == Seg(src, target, past, roleLive, Done, None, Me().pos,
                                        pending, sealed, noResume, reconnects, Me().prefix, cancelled)
      ensures !ok && !noResume ==>
                 Me() == Seg(src, target, past, roleLive, phase, None, |LocalPrefix(net.c, net.w.src[src])|,
                             pending, sealed, noResume, reconnects, Me().prefix, cancelled)
    {
      ok := SendData(at, chunk);
      if ok {
        lastShipped, frames := net.clock, frames + 1;
      }
    }

    /** The frame and what `_drain_available` does when it fails. */
    method SendNow(at: nat, chunk: Bytes) returns (r: Sent)
      requires ValidAt(at) && phase == Running && connected
      requires 0 < |chunk| <= CHUNK_SIZE && pos == at + |chunk| <= |net.w.src[src]|
      requires chunk == Chunk(net.w.src[src], at, |chunk|)
      modifies this`connected, this`pos, this`pending, this`cancelled,
               this`headerLength, this`reconnects, this`phase, this`lastShipped, this`frames, this`calls, net
      ensures Onward() && r != AtEnd
      ensures r == Shipped ==> Streaming() && pos == old(pos) <= |net.w.src[src]| && Aligned(Me())
      ensures reconnects == if r == Resumed then old(reconnects) + 1 else old(reconnects)
      ensures if r == Shipped then lastShipped <= net.clock else lastShipped == old(lastShipped)
      ensures frames == if r == Shipped then old(frames) + 1 else old(frames)
      ensures r == Resumed ==> Streaming() && !noResume && Synced(net.w, id) && pos == ReportedLength(net.w.fs, target)
      ensures r == GaveUp ==> Tracked() && noResume && phase == Done
    {
      var ok := TrySend(at, chunk);
      if ok {
        Pause();
        return Shipped;
      }
      r := AfterLostSend();
    }

    /** One frame and what `_drain_available` does when it fails; `chunk` was read at `at`. */
    method SendOrRecover(at: nat, chunk: Bytes) returns (r: Sent)
      requires ValidAt(at) && phase == Running && connected
      requires 0 < |chunk| <= CHUNK_SIZE && pos == at + |chunk| <= |net.w.src[src]|
      requires chunk == Chunk(net.w.src[src], at, |chunk|)
      modifies this`connected, this`pos, this`pending, this`cancelled,
               this`headerLength, this`reconnects, this`phase, this`lastShipped, this`frames, this`calls, net
      ensures Onward() && r != AtEnd
      ensures r == Shipped ==> Streaming() && pos == old(pos) <= |net.w.src[src]| && Aligned(Me())
      ensures reconnects == if r == Resumed then old(reconnects) + 1 else old(reconnects)
      ensures if r == Shipped then lastShipped <= net.clock else lastShipped == old(lastShipped)
      ensures frames == if r == Shipped then old(frames) + 1 else old(frames)
      ensures r == Resumed ==> Streaming() && !noResume && Synced(net.w, id) && pos == ReportedLength(net.w.fs, target)
      ensures r == GaveUp ==> Tracked() && noResume && phase == Done
    {
      ghost var s := net.w.src[src];
      Await(at);
      ChunkStays(s, net.w.src[src], at, |chunk|);
      r := SendNow(at, chunk);
    }

    /** One round of `_drain_available`. */
    method DrainRound() returns (r: Sent)
      requires Streaming()
      modifies this`connected, this`pos, this`pending, this`cancelled,
               this`headerLength, this`reconnects, this`phase, this`lastShipped, this`frames, this`calls, net
      ensures Onward()
      ensures r == AtEnd ==> Streaming() && pos == old(pos) >= |net.w.src[src]| && net.w == old(net.w)
      ensures r == Shipped ==>
                && Streaming() && Aligned(Me()) && pos <= |net.w.src[src]|
                && old(pos) < |old(net.w).src[src]|
                && pos == old(pos) + Min(CHUNK_SIZE, |old(net.w).src[src][old(pos)..]|)
      ensures reconnects == if r == Resumed then old(reconnects) + 1 else old(reconnects)
      ensures if r == Shipped then lastShipped <= net.clock else lastShipped == old(lastShipped)
      ensures frames == if r == Shipped then old(frames) + 1 else old(frames)
      ensures r == Resumed ==> Streaming() && !noResume && Synced(net.w, id) && pos == ReportedLength(net.w.fs, target)
      ensures r == GaveUp ==> Tracked() && noResume && phase == Done
    {
      var at := pos;
      var chunk := Read(CHUNK_SIZE);
      if chunk == [] {
        return AtEnd;
      }
      r := SendOrRecover(at, chunk);
    }

    /**
     * `_drain_available`. When a send failed and the segment had to reconnect it ends at the length
     * the server reports. Otherwise a drain that sent anything, or started aligned, ends aligned at
     * the end of the source, where the file is complete (`CompleteAtEnd`).
     */
    method DrainAvailable() returns (sent: bool, r: Status)
      requires Streaming()
      modifies this`connected, this`pos, this`pending, this`cancelled,
               this`headerLength, this`reconnects, this`phase, this`lastShipped, this`frames, this`calls, net
      ensures Onward() && r in {Fine, EndSegment}
      ensures if sent then lastShipped <= net.clock else lastShipped == old(lastShipped)
      ensures frames >= old(frames) && (sent <==> frames > old(frames))
      ensures r == Fine ==> Streaming()
      ensures r == EndSegment ==> Tracked() && noResume && phase == Done
      ensures r == Fine && old(InStep(Me())) ==> InStep(Me())
      ensures r == Fine && reconnects == old(reconnects) ==>
                pos >= |net.w.src[src]| && (sent || old(Aligned(Me())) ==> Aligned(Me()))
      ensures r == Fine && reconnects != old(reconnects) ==>
                && reconnects == old(reconnects) + 1 && !noResume
                && Synced(net.w, id) && pos == ReportedLength(net.w.fs, target)
    {
      sent, r := false, Fine;
      while true
        invariant Streaming() && Onward() && reconnects == old(reconnects)
        invariant if sent then Aligned(Me()) else Me().conn.value.h == old(Me()).conn.value.h && pos == old(pos)
        invariant if sent then lastShipped <= net.clock else lastShipped == old(lastShipped)
        invariant frames >= old(frames) && (sent <==> frames > old(frames))
        decreases net.cap - pos
      {
        var s := DrainRound();
        if s == AtEnd || s == Resumed {
          return;
        }
        if s == GaveUp {
          r := EndSegment;
          return;
        }
        sent := true;
      }
    }

    // ----- renames

    static lemma SealRenameOutcome(c: Conf, w: World, k: nat, out: Outcome, synced: bool)
      requires Enabled(c, w, SealRename(k, out, synced))
      ensures var g, w' := w.segs[k], Next(c, w, SealRename(k, out, synced));
              var dst := g.pending.value.name;
              && |w'.segs| == |w.segs| && w'.src == w.src && w'.marks == w.marks
              && if RenameAcked(w, g, dst, out) then
                   && w'.segs[k].conn.Some? && (InStep(g) ==> InStep(w'.segs[k]))
                   && w'.segs[k] ==
                      NowSealed(c, g.(past := g.past + [g.target], target := dst, conn := w'.segs[k].conn))
                 else if FailClosed(c, g) then w'.segs[k] == Dead(g)
                 else w'.segs[k] == AfterFailedRename(c, w', g, dst)
    {
    }

    method SendSealRename() returns (acked: bool)
      requires Streaming() && pending.Some? && !sealed && past == []
      modifies this`calls, net
      ensures net.Valid() && old(net.clock) <= net.clock && calls == old(calls) + 1
      ensures Took(old(net.steps), net.steps, SealRename(id, fate(old(calls)).out, fate(old(calls)).synced))
      ensures acked <==> RenameAcked(old(net.w), old(Me()), pending.value.name, fate(old(calls)).out)
      ensures |net.w.segs| == |old(net.w).segs|
      ensures net.w.src == old(net.w).src && net.w.marks == old(net.w).marks
      ensures acked ==>
                && Me().conn.Some?
                && Me() == NowSealed(net.c, old(Me()).(past := [target], target := pending.value.name,
                                                       conn := Me().conn))
      ensures acked && old(InStep(Me())) ==> InStep(Me())
      ensures !acked ==> Me() == if FailClosed(net.c, old(Me())) then Dead(old(Me()))
                                 else AfterFailedRename(net.c, net.w, old(Me()), pending.value.name)
    {
      var out, synced := fate(calls).out, fate(calls).synced;
      calls := calls + 1;
      acked := RenameAcked(net.w, net.w.segs[id], pending.value.name, out);
      SealRenameOutcome(net.c, net.w, id, out, synced);
      net.Take(SealRename(id, out, synced));
      assert [] + [target] == [target];
    }

    method SendFinalRename(dst: Name) returns (acked: bool)
      requires Streaming() && pending.Some? && !pending.value.isOrphan && sealed && |past| == 1
      requires pending.value.iso in net.w.marks.shas
      requires dst == Final(pending.value.iso, net.w.marks.shas[pending.value.iso])
      modifies this`calls, net
      ensures net.Valid() && old(net.clock) <= net.clock && calls == old(calls) + 1
      ensures Took(old(net.steps), net.steps, Step.FinalRename(id, fate(old(calls)).out, fate(old(calls)).synced))
      ensures acked <==> RenameAcked(old(net.w), old(Me()), dst, fate(old(calls)).out)
      ensures |net.w.segs| == |old(net.w).segs|
      ensures net.w.src == old(net.w).src && net.w.marks == old(net.w).marks
      ensures Me() == if acked then Dead(old(Me()).(past := past + [target], target := dst))
                      else AfterFailedRename(net.c, net.w, old(Me()), dst)
      ensures acked && Good() && old(InStep(Me())) && pos > 0 ==>
                && dst in net.w.fs.dir && pos <= |net.w.src[src]| && net.w.src[src][..pos] <= FileAt(net.w, dst)
    {
      var out, synced := fate(calls).out, fate(calls).synced;
      calls := calls + 1;
      acked := RenameAcked(net.w, net.w.segs[id], dst, out);
      TakeFinalRename(net, id, out, synced, dst);
    }

    /**
     * The recovery of `_rename`: adopt the destination, reconnect to it, and take its existence or
     * not (the reported length is never negative) for success.
     */
    method AdoptDestination(dst: Name)
      requires net.Valid() && id < |net.w.segs| && src < |net.w.src| && phase == Running
      requires Me() == Seg(src, dst, past + [target], roleLive, phase, None, |LocalPrefix(net.c, net.w.src[src])|,
                           pending, sealed, noResume, reconnects, Me().prefix, cancelled)
      modifies this`target, this`past, this`connected, this`pos,
               this`pending, this`cancelled, this`headerLength, this`reconnects, net
      ensures reconnects == old(reconnects) + 1
      ensures Streaming() && Onward() && target == dst && past == old(past) + [old(target)]
    {
      past := past + [target];
      target := dst;
      Reconnect(false);
    }

    /** The end of `_do_seal` after the destination was adopted. */
    method MarkSealed()
      requires Streaming() && pending.Some? && !sealed && past != []
      modifies this`roleLive, this`sealed, this`noResume, net
      ensures Streaming() && Later() && sealed && !roleLive
      ensures noResume == (net.c.ephemeral && pending.value.isOrphan)
    {
      TakeMarkSealed(net, id);
      roleLive, sealed, noResume := false, true, net.c.ephemeral && pending.value.isOrphan;
    }

    /** What a seal request made of this segment. */
    ghost predicate SealedAsAsked()
      reads this, net
    {
      && Streaming() && pending.Some? && sealed && !roleLive && past == [Live] && target == pending.value.name
      && noResume == (net.c.ephemeral && pending.value.isOrphan)
    }

    /** Since step `from`, this segment has asked the server for its seal name, or for its final name. */
    ghost predicate AskedForSeal(from: nat)
      reads net
    {
      exists i | from <= i < |net.steps| :: net.steps[i].SealRename? && net.steps[i].k == id
    }

    ghost predicate AskedForFinal(from: nat)
      reads net
    {
      exists i | from <= i < |net.steps| :: net.steps[i].FinalRename? && net.steps[i].k == id
    }

    /** The seal rename was not acknowledged: fail closed, or take the destination for the result. */
    method AfterLostSeal(dst: Name) returns (r: Status)
      requires net.Valid() && id < |net.w.segs| && src < |net.w.src| && phase == Running
      requires pending.Some? && !sealed && past == [] && target == Live && dst == pending.value.name
      requires net.c.ephemeral && pending.value.isOrphan ==>
                 Me() == Seg(src, target, past, roleLive, Done, None, Me().pos,
                             pending, sealed, noResume, reconnects, Me().prefix, cancelled)
      requires !(net.c.ephemeral && pending.value.isOrphan) ==>
                 Me() == Seg(src, dst, past + [target], roleLive, phase, None, |LocalPrefix(net.c, net.w.src[src])|,
                             pending, sealed, noResume, reconnects, Me().prefix, cancelled)
      modifies this, net
      ensures Later() && r in {Fine, EndSegment}
      ensures r == Fine ==> SealedAsAsked() && reconnects > old(reconnects)
      ensures r == EndSegment ==> Tracked() && phase == Done && net.c.ephemeral && pending.value.isOrphan
    {
      if net.c.ephemeral && pending.value.isOrphan {
        phase, connected := Done, false;
        return EndSegment;
      }
      AdoptDestination(dst);
      MarkSealed();
      return Fine;
    }

    /** The seal rename was acknowledged. */
    method AfterSeal(dst: Name)
      requires net.Valid() && id < |net.w.segs| && src < |net.w.src| && phase == Running && connected
      requires pending.Some? && past == [] && target == Live && dst == pending.value.name && Me().conn.Some?
      requires Me() == Seg(src, dst, [target], false, phase, Me().conn, pos, pending, true,
                           net.c.ephemeral && pending.value.isOrphan, reconnects, Me().prefix, cancelled)
      modifies this`past, this`target, this`roleLive, this`sealed, this`noResume
      ensures SealedAsAsked()
    {
      past, target, roleLive, sealed := [target], dst, false, true;
      noResume := net.c.ephemeral && pending.value.isOrphan;
    }

    /** The rename request itself and what follows. */
    method RelabelNow() returns (r: Status)
      requires Streaming() && pending.Some? && !sealed && past == [] && target == Live
      modifies this, net
      ensures Later() && r in {Fine, EndSegment} && AskedForSeal(|old(net.steps)|)
      ensures r == Fine ==> SealedAsAsked() && ShippedTo(old(pos), old(reconnects))
      ensures r == Fine && old(InStep(Me())) && reconnects == old(reconnects) ==> InStep(Me())
      ensures r == EndSegment ==> Tracked() && phase == Done && net.c.ephemeral && pending.value.isOrphan
    {
      var dst := pending.value.name;
      var acked := SendSealRename();
      if acked {
        AfterSeal(dst);
        r := Fine;
      } else {
        r := AfterLostSeal(dst);
      }
    }

    /** `_rename` to the seal name and the end of `_do_seal`. */
    method Relabel(ghost before: nat) returns (r: Status)
      requires Streaming() && pending.Some? && !sealed && past == [] && target == Live
      requires ShippedTo(|net.w.src[src]|, before)
      modifies this, net
      ensures Later() && r in {Fine, EndSegment} && AskedForSeal(|old(net.steps)|)
      ensures r == Fine ==> SealedAsAsked() && ShippedTo(old(pos), old(reconnects))
      ensures r == Fine && old(InStep(Me())) && reconnects == old(reconnects) ==> InStep(Me())
      ensures r == EndSegment ==> Tracked() && phase == Done && net.c.ephemeral && pending.value.isOrphan
    {
      Pause();
      r := RelabelNow();
    }

    /** `_do_seal`: flush, then relabel. */
    method DoSeal() returns (r: Status)
      requires Streaming() && pending.Some? && !sealed && past == [] && !noResume && target == Live
      modifies this, net
      ensures Later() && r in {Fine, EndSegment} && AskedForSeal(|old(net.steps)|)
      ensures r == Fine ==> SealedAsAsked() && ShippedTo(|old(net.w).src[src]|, old(reconnects))
      ensures r == Fine && old(InStep(Me())) && reconnects == old(reconnects) ==> InStep(Me())
      ensures r == EndSegment ==> Tracked() && phase == Done && net.c.ephemeral && pending.value.isOrphan
    {
      var sent, drained := DrainAvailable();
      r := Relabel(old(reconnects));
    }

    // ----- the phases of a segment's life

    /** A live segment that streams into the live name. */
    ghost predicate Shipping()
      reads this, net
    {
      Streaming() && past == [] && target == Live && roleLive && !sealed && !noResume && InStep(Me())
    }

    /** One round of `_live_phase`: ships what is there, and sleeps if that was nothing. */
    method LiveRound()
      requires Shipping()
      modifies this`connected, this`pos, this`pending, this`cancelled,
               this`headerLength, this`reconnects, this`phase, this`lastShipped, this`frames, this`calls, net
      ensures Shipping() && Later() && ShippedTo(|old(net.w).src[src]|, old(reconnects))
      ensures frames >= old(frames)
      ensures pending.Some? || frames > old(frames) || net.clock >= old(net.clock) + interval
    {
      var sent, drained := DrainAvailable();
      if pending.None? && !sent {
        Sleep();
      }
    }

    /**
     * `_live_phase`: ships whatever is there until the coordinator asks for a seal. Still waiting
     * after `rounds` more rounds, it has not been asked, nor stood idle.
     */
    method LivePhase(rounds: nat) returns (r: Status)
      requires Shipping()
      modifies this`connected, this`pos, this`pending, this`cancelled,
               this`headerLength, this`reconnects, this`phase, this`lastShipped, this`frames, this`calls, net
      ensures Shipping() && Later() && r in {Fine, Cancelled, Waiting}
      ensures r == Fine ==> pending.Some?
      ensures r == Cancelled ==> cancelled
      ensures r == Waiting ==>
                && pending.None? && !cancelled
                && Busy(rounds + 1, interval, frames - old(frames), net.clock - old(net.clock))
      ensures old(pending).None? ==> ShippedTo(|old(net.w).src[src]|, old(reconnects))
      ensures old(pending).Some? ==> r == Fine && net.steps == old(net.steps)
    {
      var n := 0;
      assert Intervals(0, interval) == 0;
      while pending.None?
        invariant Shipping() && Later() && (n <= rounds || pending.Some?)
        invariant n > 0 || unchanged(this, net)
        invariant n > 0 ==> old(pending).None? && ShippedTo(|old(net.w).src[src]|, old(reconnects))
        invariant pending.None? ==> Busy(n, interval, frames - old(frames), net.clock - old(net.clock))
        decreases rounds + 1 - n
      {
        ghost var f, t := frames - old(frames), net.clock - old(net.clock);
        LiveRound();
        if cancelled {
          return Cancelled;
        }
        if pending.None? {
          StaysBusy(n, interval, f, t, frames - old(frames), net.clock - old(net.clock));
          if n == rounds {
            return Waiting;
          }
        }
        n := n + 1;
      }
      r := Fine;
    }

    /** Draining after the seal. */
    method DrainSealed() returns (sent: bool, r: Status)
      requires SealedAsAsked()
      modifies this`connected, this`pos, this`pending, this`cancelled,
               this`headerLength, this`reconnects, this`phase, this`lastShipped, this`frames, this`calls, net
      ensures Onward() && r in {Fine, EndSegment}
      ensures r == Fine ==> SealedAsAsked() && ShippedTo(|net.w.src[src]|, old(reconnects))
      ensures r == Fine && old(InStep(Me())) ==> InStep(Me())
      ensures frames >= old(frames) && (sent <==> frames > old(frames))
      ensures if sent then lastShipped <= net.clock else lastShipped == old(lastShipped)
      ensures r == EndSegment ==> Tracked() && noResume && phase == Done
    {
      sent, r := DrainAvailable();
    }

    /** The sleep between two rounds of closing; we look no further after the last one. */
    method SleepBetween(last: bool) returns (r: Status)
      requires SealedAsAsked()
      modifies this`pending, this`cancelled, net
      ensures SealedAsAsked() && Onward() && (old(InStep(Me())) ==> InStep(Me()))
      ensures if last then net.w == old(net.w) && net.clock == old(net.clock)
              else net.clock >= old(net.clock) + interval
      ensures r == if cancelled then Cancelled else if last then Waiting else Fine
    {
      if !last {
        Sleep();
      }
      r := if cancelled then Cancelled else if last then Waiting else Fine;
    }

    /** One round of `_drain_until_idle`: `Waiting` unless it is over. */
    method IdleRound(idle: nat, lastActive: nat) returns (r: Status, active: nat)
      requires SealedAsAsked() && lastActive <= net.clock
      modifies this`connected, this`pos, this`pending, this`cancelled,
               this`headerLength, this`reconnects, this`phase, this`lastShipped, this`frames, this`calls, net
      ensures Later() && r in {Fine, EndSegment, Waiting} && lastActive <= active <= net.clock
      ensures r != EndSegment ==> SealedAsAsked() && (old(InStep(Me())) ==> InStep(Me()))
      ensures r == EndSegment ==> Tracked() && noResume && phase == Done
      ensures r == Fine ==> ShippedTo(|net.w.src[src]|, old(reconnects)) && net.clock > active + idle
      ensures if frames == old(frames) then active == lastActive && lastShipped == old(lastShipped)
              else frames > old(frames) && lastShipped <= active
      ensures r == Waiting && frames == old(frames) ==> net.clock <= active + idle
    {
      var sent, drained := DrainSealed();
      r, active := Waiting, lastActive;
      if drained == EndSegment {
        r := EndSegment;
      }
      if sent {
        active := net.clock;
      } else if drained == Fine && net.clock - lastActive > idle {
        r := Fine;
      }
    }

    /**
     * `_drain_until_idle`: an orphan is done when nothing has come for longer than `idle`. Still
     * waiting after `rounds` sleeps, it has seen something come or `idle` is not over.
     */
    method DrainUntilIdle(idle: nat, rounds: nat) returns (r: Status)
      requires SealedAsAsked()
      modifies this`connected, this`pos, this`pending, this`cancelled,
               this`headerLength, this`reconnects, this`phase, this`lastShipped, this`frames, this`calls, net
      ensures Later() && r in {Fine, EndSegment, Cancelled, Waiting}
      ensures r != EndSegment ==> SealedAsAsked()
      ensures r == Fine ==> ShippedTo(|net.w.src[src]|, old(reconnects))
      ensures r == Fine ==> net.clock > old(net.clock) + idle
      ensures r == Fine ==> lastShipped == old(lastShipped) || net.clock > lastShipped + idle
      ensures r == Fine && old(InStep(Me())) ==> InStep(Me())
      ensures r == EndSegment ==> Tracked() && noResume && phase == Done
      ensures r == Cancelled ==> cancelled
      ensures r == Waiting ==> !cancelled && net.clock >= old(net.clock) + Intervals(rounds, interval)
      ensures r == Waiting ==> frames > old(frames) || net.clock <= old(net.clock) + idle
    {
      var lastActive, n := net.clock, 0;
      while true
        invariant SealedAsAsked() && Later() && old(net.clock) <= lastActive <= net.clock
        invariant old(InStep(Me())) ==> InStep(Me())
        invariant n <= rounds && net.clock >= old(net.clock) + Intervals(n, interval)
        invariant if frames == old(frames) then lastActive == old(net.clock) && lastShipped == old(lastShipped)
                  else frames > old(frames) && lastShipped <= lastActive
        decreases rounds - n
      {
        r, lastActive := IdleRound(idle, lastActive);
        if r != Waiting {
          return;
        }
        r := SleepBetween(n == rounds);
        if r != Fine {
          return;
        }
        n := n + 1;
      }
    }

    /** None of the looks from `a` up to `b` found a marker that tells the hash for `iso`. */
    ghost predicate NothingFound(iso: string, a: nat, b: nat)
      reads this, net
    {
      forall i | a <= i < b && listings(i).Some? :: Silent(net.c.base, listings(i).value, iso)
    }

    /** `markers.sha13_for`: looks at the directory only while the hash is not known. */
    method Sha13For(iso: string) returns (sha: Option<string>)
      requires Valid()
      modifies this`looks, net
      ensures Valid() && Onward()
      ensures old(InStep(Me())) ==> InStep(Me())
      ensures sha == if iso in net.w.marks.shas then Some(net.w.marks.shas[iso]) else None
      ensures looks == if iso in old(net.w).marks.shas then old(looks) else old(looks) + 1
      ensures sha == None ==> NothingFound(iso, old(looks), looks)
    {
      if iso !in net.w.marks.shas {
        var listing := listings(looks);
        looks := looks + 1;
        if listing.Some? {
          StepGrowsSources(net.c, net.w, Scan(listing.value));
          LearnAllComplete(net.c.base, net.w.marks, listing.value);
          net.Take(Scan(listing.value));
        }
      }
      sha := if iso in net.w.marks.shas then Some(net.w.marks.shas[iso]) else None;
    }

    /** One round of `_drain_until_sha13`: drains, then looks. */
    method Sha13Round(iso: string, ghost first: nat) returns (sha: Option<string>)
      requires SealedAsAsked() && !noResume && first <= looks && NothingFound(iso, first, looks)
      modifies this`connected, this`pos, this`pending, this`cancelled,
               this`headerLength, this`reconnects, this`phase, this`lastShipped, this`frames, this`calls,
               this`looks, net
      ensures SealedAsAsked() && Later() && (old(InStep(Me())) ==> InStep(Me()))
      ensures ShippedTo(|old(net.w).src[src]|, old(reconnects))
      ensures sha == if iso in net.w.marks.shas then Some(net.w.marks.shas[iso]) else None
      ensures sha.None? ==> NothingFound(iso, first, looks) && looks == old(looks) + 1
    {
      var sent, drained := DrainSealed();
      sha := Sha13For(iso);
    }

    /**
     * `_drain_until_sha13`: drains until a marker tells the hash. Still waiting after `rounds`
     * sleeps, it has looked each time and the hash is not known.
     */
    method DrainUntilSha13(iso: string, rounds: nat) returns (sha: Option<string>)
      requires SealedAsAsked() && !noResume
      modifies this`connected, this`pos, this`pending, this`cancelled,
               this`headerLength, this`reconnects, this`phase, this`lastShipped, this`frames, this`calls,
               this`looks, net
      ensures SealedAsAsked() && Later()
      ensures old(InStep(Me())) ==> InStep(Me())
      ensures ShippedTo(|old(net.w).src[src]|, old(reconnects))
      ensures sha.Some? ==> iso in net.w.marks.shas && net.w.marks.shas[iso] == sha.value
      ensures sha.None? ==> NothingFound(iso, old(looks), looks)
      ensures sha.None? && !cancelled ==>
                && iso !in net.w.marks.shas && looks == old(looks) + rounds + 1
                && net.clock >= old(net.clock) + Intervals(rounds, interval)
    {
      var n := 0;
      while true
        invariant SealedAsAsked() && Later() && (old(InStep(Me())) ==> InStep(Me()))
        invariant n <= rounds && net.clock >= old(net.clock) + Intervals(n, interval)
        invariant looks == old(looks) + n && NothingFound(iso, old(looks), looks)
        invariant n > 0 ==> ShippedTo(|old(net.w).src[src]|, old(reconnects))
        decreases rounds - n
      {
        sha := Sha13Round(iso, old(looks));
        if sha.Some? {
          return;
        }
        var r := SleepBetween(n == rounds);
        if r != Fine {
          return;
        }
        n := n + 1;
      }
    }

    /** The final rename was acknowledged. */
    method AfterFinal(dst: Name)
      requires net.Valid() && id < |net.w.segs| && src < |net.w.src|
      requires Me() == Seg(src, dst, past + [target], roleLive, Done, None, pos, pending, sealed, noResume, reconnects,
                           Me().prefix, cancelled)
      modifies this`past, this`target, this`phase, this`connected
      ensures Tracked() && target == dst && past == old(past) + [old(target)]
    {
      past, target, phase, connected := past + [target], dst, Done, false;
    }

    /** The rename request itself and what follows. */
    method FinalizeNow(sha: string)
      requires SealedAsAsked() && !pending.value.isOrphan
      requires pending.value.iso in net.w.marks.shas && net.w.marks.shas[pending.value.iso] == sha
      modifies this`target, this`past, this`connected, this`pos, this`pending,
               this`cancelled, this`headerLength, this`reconnects, this`phase, this`calls, net
      ensures Tracked() && Onward() && ShippedTo(old(pos), old(reconnects)) && pending == old(pending)
      ensures AskedForFinal(|old(net.steps)|)
      ensures target == Final(pending.value.iso, sha) && past == [Live, pending.value.name]
      ensures reconnects == old(reconnects) && Good() && old(InStep(Me())) && old(pos) > 0 ==> Holds(old(pos))
    {
      var dst := Final(pending.value.iso, sha);
      var acked := SendFinalRename(dst);
      if acked {
        AfterFinal(dst);
      } else {
        AdoptDestination(dst);
      }
    }

    /** `_rename` to the final name. */
    method Finalize(sha: string, ghost before: nat)
      requires SealedAsAsked() && !pending.value.isOrphan && before <= reconnects
      requires pending.value.iso in net.w.marks.shas && net.w.marks.shas[pending.value.iso] == sha
      requires ShippedTo(|net.w.src[src]|, before)
      modifies this`target, this`past, this`connected, this`pos, this`pending,
               this`cancelled, this`headerLength, this`reconnects, this`phase, this`calls, net
      ensures Tracked() && Onward() && ShippedTo(old(pos), old(reconnects)) && pending == old(pending)
      ensures AskedForFinal(|old(net.steps)|)
      ensures target == Final(pending.value.iso, sha) && past == [Live, pending.value.name]
      ensures old(InStep(Me())) ==> Kept(|old(net.w).src[src]|, before)
    {
      ghost var n := |net.w.src[src]|;
      Pause();
      FinalizeNow(sha);
      if n > 0 && reconnects == before && Holds(old(pos)) {
        HoldsLess(n, old(pos));
      }
    }

    /** The name a segment ends with when nothing goes wrong. */
    ghost predicate Finished()
      reads this, net
    {
      && pending.Some?
      && if pending.value.isOrphan then target == pending.value.name && past == [Live]
         else && pending.value.iso in net.w.marks.shas && past == [Live, pending.value.name]
              && target == Final(pending.value.iso, net.w.marks.shas[pending.value.iso])
    }

    /** Closing is not over: the hash is not known, or an orphan's time is not. */
    ghost predicate StillClosing()
      reads this, net
    {
      SealedAsAsked() && !cancelled && (!pending.value.isOrphan ==> pending.value.iso !in net.w.marks.shas)
    }

    /** The part of `_closing_phase` for a segment sealed under a marker's timestamp. */
    method CloseMarked(rounds: nat) returns (r: Status)
      requires SealedAsAsked() && !pending.value.isOrphan
      modifies this`target, this`past, this`connected, this`pos, this`pending,
               this`cancelled, this`headerLength, this`reconnects, this`phase, this`lastShipped,
               this`frames, this`calls, this`looks, net
      ensures Tracked() && Later() && pending == old(pending) && r in {Fine, Cancelled, Waiting}
      ensures r == Fine ==> Finished() && ShippedTo(|old(net.w).src[src]|, old(reconnects))
      ensures r == Fine ==> AskedForFinal(|old(net.steps)|)
      ensures r == Fine && old(InStep(Me())) ==> Kept(|old(net.w).src[src]|, old(reconnects))
      ensures r == Cancelled ==> cancelled
      ensures r != Fine ==> SealedAsAsked() && NothingFound(pending.value.iso, old(looks), looks)
      ensures r == Waiting ==>
                && StillClosing() && looks == old(looks) + rounds + 1
                && net.clock >= old(net.clock) + Intervals(rounds, interval)
    {
      var sha := DrainUntilSha13(pending.value.iso, rounds);
      if sha.None? {
        return if cancelled then Cancelled else Waiting;
      }
      var sent, drained := DrainSealed();
      ghost var m := |net.w.src[src]|;
      Finalize(sha.value, old(reconnects));
      if old(InStep(Me())) {
        KeptLess(|old(net.w).src[src]|, m, old(reconnects));
      }
      r := Fine;
    }

    /** `_closing_phase`. */
    method ClosingPhase(idle: nat, rounds: nat) returns (r: Status)
      requires SealedAsAsked()
      modifies this`target, this`past, this`connected, this`pos, this`pending,
               this`cancelled, this`headerLength, this`reconnects, this`phase, this`lastShipped,
               this`frames, this`calls, this`looks, net
      ensures Tracked() && Later() && pending == old(pending) && r in {Fine, EndSegment, Cancelled, Waiting}
      ensures r == Fine ==> Finished() && ShippedTo(|old(net.w).src[src]|, old(reconnects))
      ensures r == Fine && pending.value.isOrphan ==> net.clock > old(net.clock) + idle
      ensures r == Fine && !pending.value.isOrphan ==> AskedForFinal(|old(net.steps)|)
      ensures r == EndSegment ==> noResume && pending.value.isOrphan && target == pending.value.name
      ensures r == Fine && old(InStep(Me())) ==> Kept(|old(net.w).src[src]|, old(reconnects))
      ensures r == Cancelled ==> cancelled
      ensures r == Waiting ==> StillClosing() && net.clock >= old(net.clock) + Intervals(rounds, interval)
      ensures r == Waiting && pending.value.isOrphan ==> frames > old(frames) || net.clock <= old(net.clock) + idle
      ensures r != Fine && !pending.value.isOrphan ==> NothingFound(pending.value.iso, old(looks), looks)
    {
      if pending.value.isOrphan {
        r := DrainUntilIdle(idle, rounds);
      } else {
        r := CloseMarked(rounds);
      }
    }

    // ----- connecting

    /** The `prefix_sha1` field of the server's answer. */
    function ReportedHash(n: nat): Option<string>
      reads this, net
    {
      match ReportedPrefix(net.w.fs, target, n)
      case None => None
      case Some(p) => Some(net.c.sha1(p))
    }

    /** A live segment before it streams, in phase `p`. */
    ghost predicate Opening(p: Phase)
      reads this, net
    {
      Tracked() && phase == p && past == [] && target == Live && roleLive && !sealed && !noResume
    }

    /** Since step `from`, this segment's handshake was answered with a stale file. */
    ghost predicate FoundStale(from: nat)
      reads net
    {
      StaleAnswered(net.c, id, net.steps, net.trace, from)
    }

    /** It has asked the server to put the file aside. */
    ghost predicate AskedAside(from: nat)
      reads net
    {
      exists i | from <= i < |net.steps| :: net.steps[i].StaleRename? && net.steps[i].k == id
    }

    /** And that was not acknowledged. */
    ghost predicate NotPutAside(from: nat)
      reads net
    {
      StaleNotAside(net.c, id, net.steps, net.trace, from)
    }

    /**
     * Why a segment cannot connect, `first` being its first call since step `from`: that call is not
     * answered; or the file found is stale and not put aside; or it is, and the next call is not answered.
     */
    ghost predicate Refused(first: nat, from: nat)
      reads this, net
    {
      !fate(first).answered || NotPutAside(from) || (AskedAside(from) && !fate(first + 2).answered)
    }

    /** The rename that puts a stale remote file aside, in `_seal_stale_remote`. */
    method SendStaleRename(clock: string) returns (acked: bool)
      requires Opening(Stale) && connected && IsIso(clock)
      modifies this`phase, this`connected, this`calls, net
      ensures Later() && Opening(if acked then Reopening else Done) && !connected && calls == old(calls) + 1
      ensures acked <==> RenameAcked(old(net.w), old(Me()), StaleName(net.c, clock), fate(old(calls)).out)
      ensures AskedAside(|old(net.steps)|) && (NotPutAside(|old(net.steps)|) <==> !acked)
    {
      var out, synced := fate(calls).out, fate(calls).synced;
      calls := calls + 1;
      acked := RenameAcked(net.w, net.w.segs[id], StaleName(net.c, clock), out);
      TakeStaleRename(net, id, clock, out, synced);
      phase, connected := if acked then Reopening else Done, false;
    }

    /** The handshake for the live name that is now free. */
    method Reopen()
      requires Opening(Reopening)
      modifies this`phase, this`connected, this`headerLength, this`reconnects, net
      ensures Later() && Opening(Running) && connected && Synced(net.w, id)
      ensures ValidAt(headerLength) && headerLength == ReportedLength(net.w.fs, Live)
    {
      headerLength := ReportedLength(net.w.fs, target);
      TakeReopen(net, id);
      phase, connected := Running, true;
    }

    /** Waiting before the segment streams. */
    method PauseOpening(ghost p: Phase)
      requires Opening(p)
      modifies this`pending, this`cancelled, net
      ensures Later() && Opening(p) && NoHandshake(id, net.steps, |old(net.steps)|)
    {
      Await(net.w.segs[id].pos);
    }

    /** The first half of `_seal_stale_remote`: the old file is to go aside. */
    method PutAside() returns (acked: bool)
      requires Opening(Stale) && connected
      modifies this`phase, this`connected, this`pending, this`cancelled, this`calls, net
      ensures Later() && Opening(if acked then Reopening else Done) && calls == old(calls) + 1
      ensures AskedAside(|old(net.steps)|)
      ensures if acked then fate(old(calls)).out == Acked else NotPutAside(|old(net.steps)|)
    {
      PauseOpening(Stale);
      var clock := net.UtcIsoDt();
      acked := SendStaleRename(clock);
    }

    /** The second half: a handshake for the live name that is now free. */
    method ConnectAgain() returns (r: Status)
      requires Opening(Reopening)
      modifies this`phase, this`connected, this`headerLength, this`reconnects, this`pending, this`cancelled,
               this`calls, net
      ensures Later() && r in {Fine, Failed, Cancelled}
      ensures r == Fine ==> Opening(Running) && connected && ValidAt(headerLength) && Synced(net.w, id)
      ensures r != Fine ==> Opening(phase)
      ensures if r == Cancelled then cancelled else r == Fine <==> fate(old(calls)).answered
    {
      PauseOpening(Reopening);
      if cancelled {
        return Cancelled;
      }
      var answered := fate(calls).answered;
      calls := calls + 1;
      if !answered {
        return Failed;
      }
      Reopen();
      return Fine;
    }

    /**
     * `_seal_stale_remote`: the rename is asked for in any case. If it is acknowledged and the next
     * handshake answered, the segment streams; only a cancellation comes in between.
     */
    method SealStaleRemote() returns (r: Status)
      requires Opening(Stale) && connected
      modifies this`phase, this`connected, this`headerLength, this`reconnects, this`pending, this`cancelled,
               this`calls, net
      ensures Later() && r in {Fine, Failed, Cancelled}
      ensures AskedAside(|old(net.steps)|)
      ensures r == Fine ==> Opening(Running) && connected && ValidAt(headerLength) && Synced(net.w, id)
      ensures r == Fine ==> fate(old(calls)).out == Acked && fate(old(calls) + 1).answered
      ensures r == Failed ==> NotPutAside(|old(net.steps)|) || !fate(old(calls) + 1).answered
      ensures r == Cancelled ==> cancelled
      ensures r != Fine ==> Opening(phase)
    {
      var acked := PutAside();
      if acked {
        r := ConnectAgain();
      } else {
        r := Failed;
      }
    }

    /** The server's answer, and what `_connect` makes of it. */
    method ReadAnswer(prefix: Bytes) returns (stale: bool)
      requires Opening(Starting)
      modifies this`headerLength
      ensures headerLength == ReportedLength(net.w.fs, Live) && stale == SeesStale(net.c, net.w.fs, Live, prefix)
    {
      headerLength := ReportedLength(net.w.fs, target);
      var hash := ReportedHash(|prefix|);
      stale := roleLive && headerLength > 0 && hash != None && hash != Some(net.c.sha1(prefix));
    }

    /** The first handshake: streams at the reported length, or finds a stale file. */
    method FirstHandshake(prefix: Bytes, ghost from: nat) returns (stale: bool)
      requires from <= |net.steps| && NoHandshake(id, net.steps, from)
      requires Opening(Starting) && prefix <= LocalPrefix(net.c, net.w.src[src])
      modifies this`phase, this`connected, this`headerLength, this`reconnects, net
      ensures Later() && connected && Opening(if stale then Stale else Running) && Me().prefix == prefix
      ensures stale == SeesStale(net.c, old(net.w).fs, Live, prefix) && net.w.fs == old(net.w).fs
      ensures !stale ==> ValidAt(headerLength) && Synced(net.w, id)
      ensures FoundStale(from) <==> stale
    {
      stale := ReadAnswer(prefix);
      TakeConnect(net, id, prefix, stale, from);
      phase, connected := if stale then Stale else Running, true;
    }

    /** Seeks to the length the server has reported. */
    method Seek()
      requires Opening(Running) && connected && ValidAt(headerLength) && Synced(net.w, id)
      modifies this`pos
      ensures Shipping() && Synced(net.w, id)
    {
      pos := headerLength;
    }

    /** The handshake, and what it makes necessary. */
    method Introduce(prefix: Bytes, ghost from: nat) returns (r: Status)
      requires from <= |net.steps| && NoHandshake(id, net.steps, from)
      requires Opening(Starting) && prefix <= LocalPrefix(net.c, net.w.src[src])
      modifies this`phase, this`connected, this`headerLength, this`reconnects,
               this`pending, this`cancelled, this`pos, this`calls, net
      ensures Later() && r in {Fine, Failed, Cancelled}
      ensures r == Fine ==> Shipping() && Synced(net.w, id)
      ensures r != Fine ==> Opening(phase)
      ensures r != Fine || FoundStale(from) ==> AskedAside(|old(net.steps)|)
      ensures r == Failed ==> NotPutAside(|old(net.steps)|) || !fate(old(calls) + 1).answered
      ensures r == Cancelled ==> cancelled
    {
      var stale := FirstHandshake(prefix, from);
      r := Fine;
      if stale {
        r := SealStaleRemote();
      }
      if r == Fine {
        Seek();
      }
    }

    /** The call that opens the connection. */
    method Dial() returns (prefix: Bytes, answered: bool)
      requires Opening(Starting)
      modifies this`pending, this`cancelled, this`pos, this`calls, net
      ensures Later() && Opening(Starting) && NoHandshake(id, net.steps, |old(net.steps)|)
      ensures prefix == LocalPrefix(net.c, old(net.w).src[src]) && prefix <= LocalPrefix(net.c, net.w.src[src])
      ensures calls == old(calls) + 1 && answered == fate(old(calls)).answered
    {
      prefix := ReadPrefix();
      Await(net.w.segs[id].pos);
      answered := fate(calls).answered;
      calls := calls + 1;
    }

    /**
     * `_connect`: a stale file is not left in place, and a segment that is not cancelled streams
     * unless it is `Refused`.
     */
    method Connect() returns (r: Status)
      requires Opening(Starting)
      modifies this`phase, this`connected, this`headerLength, this`reconnects,
               this`pending, this`cancelled, this`pos, this`calls, net
      ensures Later() && r in {Fine, Failed, Cancelled}
      ensures r == Fine ==> Shipping() && Synced(net.w, id)
      ensures r != Fine ==> Opening(phase)
      ensures FoundStale(|old(net.steps)|) ==> AskedAside(|old(net.steps)|)
      ensures r == Failed ==> Refused(old(calls), |old(net.steps)|)
      ensures r == Cancelled ==> cancelled
    {
      var prefix, answered := Dial();
      if cancelled {
        r := Cancelled;
      } else if answered {
        r := Introduce(prefix, |old(net.steps)|);
      } else {
        r := Failed;
      }
    }

    // ----- the whole life

    static lemma EndOutcome(c: Conf, w: World, k: nat)
      requires Enabled(c, w, Step.End(k))
      ensures var w' := Next(c, w, Step.End(k));
              && w'.src == w.src && w'.marks == w.marks && w'.fs == w.fs
              && |w'.segs| == |w.segs| && w'.segs[k] == Dead(w.segs[k])
    {
    }

    /** `_close`. */
    method Close()
      requires Tracked()
      modifies this`phase, this`connected, net
      ensures Tracked() && Later() && phase == Done && !connected
      ensures net.w.src == old(net.w).src && (Good() ==> old(Good()))
      ensures net.w.marks == old(net.w).marks && net.w.fs == old(net.w).fs
      ensures old(net.trace) <= net.trace
    {
      EndOutcome(net.c, net.w, id);
      ghost var before := net.steps;
      net.Take(Step.End(id));
      phase, connected := Done, false;
      if Sound(net.c, net.start, net.steps) {
        SoundBefore(net.c, net.start, before, net.steps);
      }
    }

    /**
     * From the connection to the seal. A segment that is connected and asked for a seal asks the
     * server for it, unless it is cancelled before.
     */
    method UntilSealed(rounds: nat) returns (r: Status)
      requires Opening(Starting)
      modifies this, net
      ensures Tracked() && Later()
      ensures r == Fine ==> SealedAsAsked() && (reconnects == old(reconnects) ==> InStep(Me()))
      ensures r == EndSegment ==> net.c.ephemeral && pending.Some? && pending.value.isOrphan
      ensures r in {Fine, EndSegment} ==> AskedForSeal(|old(net.steps)|)
      ensures r == Failed ==> Refused(old(calls), |old(net.steps)|)
      ensures r == Cancelled ==> cancelled
      ensures r == Waiting ==> Shipping() && pending.None? && !cancelled
      ensures sealed ==> r in {Fine, EndSegment}
    {
      r := Connect();
      if r != Fine {
        return;
      }
      r := LivePhase(rounds);
      if r != Fine {
        return;
      }
      r := DoSeal();
    }

    /** From the connection to the end, whichever way it goes. */
    method Phases(idle: nat, rounds: nat) returns (r: Status)
      requires Opening(Starting)
      modifies this, net
      ensures Tracked() && Later()
      ensures r == Fine ==> Finished() && ShippedTo(|old(net.w).src[src]|, old(reconnects))
      ensures r == EndSegment ==> net.c.ephemeral && pending.Some? && pending.value.isOrphan
      ensures r == Fine ==> Kept(|old(net.w).src[src]|, old(reconnects))
      ensures r in {Fine, EndSegment} || sealed ==> AskedForSeal(|old(net.steps)|)
      ensures r == Fine && !pending.value.isOrphan ==> AskedForFinal(|old(net.steps)|)
      ensures r == Failed ==> Refused(old(calls), |old(net.steps)|)
      ensures r == Cancelled ==> cancelled
      ensures r == Waiting ==> (Shipping() && pending.None? && !cancelled) || StillClosing()
    {
      r := UntilSealed(rounds);
      if r != Fine {
        return;
      }
      ghost var m, before := |net.w.src[src]|, reconnects;
      r := ClosingPhase(idle, rounds);
      if r == Fine && before == old(reconnects) {
        KeptLess(|old(net.w).src[src]|, m, before);
      }
    }

    /**
     * `run`. However it goes the segment ends closed. It ends under the name it was asked to take
     * unless it was cancelled, was refused a connection, or gave up an ephemeral orphan; it asks the
     * server for the names it is to take; and it goes on as long as there is something to wait for.
     */
    method Run(idle: nat, rounds: nat) returns (r: Status)
      requires Opening(Starting)
      modifies this, net
      ensures Tracked() && Later() && (r != Waiting ==> phase == Done && !connected)
      ensures r == Fine ==> Finished() && ShippedTo(|old(net.w).src[src]|, old(reconnects))
      ensures r == EndSegment ==> net.c.ephemeral && pending.Some? && pending.value.isOrphan
      ensures r == Fine ==> Kept(|old(net.w).src[src]|, old(reconnects))
      ensures r in {Fine, EndSegment} || sealed ==> AskedForSeal(|old(net.steps)|)
      ensures r == Fine && !pending.value.isOrphan ==> AskedForFinal(|old(net.steps)|)
      ensures r == Failed ==> Refused(old(calls), |old(net.steps)|)
      ensures r == Cancelled ==> cancelled
      ensures r == Waiting ==> (Shipping() && pending.None? && !cancelled) || StillClosing()
    {
      r := Phases(idle, rounds);
      if r != Waiting {
        Close();
      }
    }
  }
}
