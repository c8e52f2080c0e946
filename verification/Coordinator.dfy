/** The coordinator of one tailed path (class `PathCoordinator`), taking only steps of the protocol. */
module Coordinator {
  import opened Prelude
  import opened Names
  import opened Markers
  import opened Protocol
  import opened Invariant
  import opened Lifecycle
  import opened Theorems
  import opened Network

  /** What one round sees: the inode of the path, the one that is opened, and how long a seal is awaited. */
  datatype Sight = Sight(stat: Option<nat>, file: Option<nat>, patience: nat)

  /** The name of a seal. */
  function SealRequest(c: Conf, iso: string, isOrphan: bool): Request {
    Request(if !isOrphan then Sealed(iso) else if c.ephemeral then FixedOrphan else DatedOrphan(iso), isOrphan, iso)
  }

  class PathCoordinator {
    const net: Net
    const interval: nat            // tail_read_interval
    const graceSteps: nat          // max(1, seal_marker_grace / tail_read_interval)
    const listings: nat -> Option<seq<string>>   // what the n-th look at the directory finds
    var looks: nat                 // how often the directory has been looked at
    var live: Option<nat>
    var closing: set<nat>
    var consumed: set<string>
    var last: Option<nat>          // last_inode

    constructor (net: Net, interval: nat, graceSteps: nat, listings: nat -> Option<seq<string>>)
      requires net.Valid() && MarksOk(net.start.marks) && net.w.coord == Coord(None, {}, {}, None)
      ensures this.net == net && this.interval == interval && this.graceSteps == graceSteps && AtHead()
      ensures this.listings == listings && looks == 0 && live == None && last == None
    {
      this.net, this.interval, this.graceSteps, this.listings, looks := net, interval, graceSteps, listings, 0;
      live, closing, consumed, last := None, {}, {}, None;
    }

    /** This object is the coordinator of the world. */
    ghost predicate Valid()
      reads this, net
    {
      && net.Valid() && MarksOk(net.start.marks)
      && net.w.coord == Coord(live, closing, consumed, last)
      && (live.Some? ==> live.value < |net.w.segs|) && (forall k | k in closing :: k < |net.w.segs|)
    }

    /** At the head of the loop: nobody waits for a seal, and a remembered inode has its live segment. */
    ghost predicate AtHead()
      reads this, net
    {
      && Valid() && (last.Some? ==> live.Some?)
      && (live.Some? ==> net.w.segs[live.value].pending.None?)
    }

    /** The segments the coordinator still knows. */
    ghost predicate Knows(k: nat)
      reads this
    {
      live == Some(k) || k in closing
    }

    ghost predicate Ended(k: nat)
      reads net
    {
      k < |net.w.segs| && net.w.segs[k].phase == Done
    }

    /** Sleeping for one interval. */
    method Sleep()
      requires Valid()
      modifies net
      ensures Valid() && CoordRely(old(net.w), net.w) && old(net.steps) <= net.steps
      ensures net.clock >= old(net.clock) + interval
    {
      net.Sleep(Actor.Coordinator, interval);
    }

    // ----- the name of a seal

    /** None of the looks from `a` up to `b` found a marker whose timestamp is not consumed. */
    ghost predicate NothingWaiting(a: nat, b: nat)
      reads this
    {
      forall i | a <= i < b && listings(i).Some? :: AllConsumed(net.c.base, listings(i).value, consumed)
    }

    /** `markers.newest_unconsumed_waiting`: one scan, if the directory can be listed. */
    method NewestUnconsumedWaiting() returns (iso: Option<string>)
      requires Valid()
      modifies this`looks, net
      ensures Valid() && CoordRely(old(net.w), net.w) && old(net.steps) <= net.steps && net.clock == old(net.clock)
      ensures iso == Newest(net.w.marks.waiting, consumed)
      ensures looks == old(looks) + 1 && (iso == None ==> NothingWaiting(old(looks), looks))
    {
      var listing := listings(looks);
      looks := looks + 1;
      if listing.Some? {
        StepGrowsSources(net.c, net.w, Scan(listing.value));
        AllLearnt(net.c.base, net.w.marks, listing.value, consumed);
        net.Take(Scan(listing.value));
      }
      iso := Newest(net.w.marks.waiting, consumed);
    }

    lemma NewestIsIso(iso: string)
      requires Valid() && Newest(net.w.marks.waiting, consumed) == Some(iso)
      ensures IsIso(iso)
    {
      net.IsRun();
      KnowledgeIsWellFormed(net.c, net.start, net.steps);
      NewestIsLast(net.w.marks.waiting, consumed);
    }

    static lemma NoneBefore(waiting: seq<string>, waiting': seq<string>, consumed: set<string>)
      requires waiting <= waiting' && Newest(waiting', consumed) == None
      ensures Newest(waiting, consumed) == None
    {
      NewestIsLast(waiting, consumed);
      NewestIsLast(waiting', consumed);
      assert forall iso | iso in waiting :: iso in waiting';
    }

    /** One round of `_learn_iso_dt`: looks, and sleeps if there is nothing. */
    method LookOnce(ghost before: seq<string>) returns (seen: Option<string>)
      requires Valid() && before <= net.w.marks.waiting
      modifies this`looks, net
      ensures Valid() && CoordRely(old(net.w), net.w) && old(net.steps) <= net.steps && looks == old(looks) + 1
      ensures net.clock >= old(net.clock)
      ensures match seen
              case Some(iso) => IsIso(iso) && Newest(net.w.marks.waiting, consumed) == Some(iso)
              case None =>
                && net.clock >= old(net.clock) + interval && Newest(before, consumed) == None
                && NothingWaiting(old(looks), looks)
    {
      seen := NewestUnconsumedWaiting();
      if seen.Some? {
        NewestIsIso(seen.value);
      } else {
        NoneBefore(before, net.w.marks.waiting, consumed);
        ghost var mid := net.w;
        Sleep();
        RelyTwice(Actor.Coordinator, old(net.w), mid, net.w);
      }
    }

    /**
     * `_learn_iso_dt`: a timestamp from a marker, or one of its own, but not while an unconsumed
     * marker is known or found, and not before the grace period is over.
     */
    method LearnIsoDt() returns (iso: string, isOrphan: bool)
      requires Valid()
      modifies this`looks, net
      ensures Valid() && CoordRely(old(net.w), net.w) && old(net.steps) <= net.steps && old(net.clock) <= net.clock
      ensures IsIso(iso) && (!isOrphan ==> Newest(net.w.marks.waiting, consumed) == Some(iso))
      ensures isOrphan ==> Newest(old(net.w).marks.waiting, consumed) == None
      ensures isOrphan ==> looks == old(looks) + graceSteps + 1 && NothingWaiting(old(looks), looks)
      ensures isOrphan ==> net.clock >= old(net.clock) + Intervals(graceSteps + 1, interval)
    {
      ghost var start := net.w;
      for i := 0 to graceSteps + 1
        invariant Valid() && CoordRely(start, net.w) && old(net.steps) <= net.steps && old(net.clock) <= net.clock
        invariant net.clock >= old(net.clock) + Intervals(i, interval)
        invariant looks == old(looks) + i && NothingWaiting(old(looks), looks)
        invariant i > 0 ==> Newest(start.marks.waiting, consumed) == None
      {
        ghost var mid := net.w;
        var seen := LookOnce(start.marks.waiting);
        RelyTwice(Actor.Coordinator, start, mid, net.w);
        if seen.Some? {
          return seen.value, false;
        }
      }
      iso := net.UtcIsoDt();
      isOrphan := true;
    }

    // ----- rotation

    static lemma RequestOutcome(c: Conf, w: World, req: Request)
      requires Enabled(c, w, Step.RequestSeal(req))
      ensures var w' := Next(c, w, Step.RequestSeal(req));
              w' == w.(segs := w.segs[w.coord.live.value := w.segs[w.coord.live.value].(pending := Some(req))])
    {
    }

    /** `request_seal` with the name that fits. */
    method RequestSeal(iso: string, isOrphan: bool)
      requires AtHead() && live.Some?
      requires IsIso(iso) && (!isOrphan ==> Newest(net.w.marks.waiting, consumed) == Some(iso))
      modifies net
      ensures Valid() && old(net.steps) <= net.steps
      ensures |net.w.segs| == |old(net.w).segs| && net.w.src == old(net.w).src
      ensures net.w.segs[live.value].pending == Some(SealRequest(net.c, iso, isOrphan))
      ensures net.w.marks == old(net.w).marks && net.clock == old(net.clock)
      ensures forall k | 0 <= k < |net.w.segs| && k != live.value :: net.w.segs[k].pending == old(net.w).segs[k].pending
    {
      var name :=
        if !isOrphan then Sealed(iso) else if net.c.ephemeral then FixedOrphan else DatedOrphan(iso);
      RequestOutcome(net.c, net.w, Request(name, isOrphan, iso));
      net.Take(Step.RequestSeal(Request(name, isOrphan, iso)));
    }

    /** The segment need not be waited for. */
    ghost predicate SealedOrDead(k: nat)
      reads net
    {
      k < |net.w.segs| && (net.w.segs[k].sealed || net.w.segs[k].phase == Done)
    }

    /**
     * `wait_sealed`: until the segment has sealed itself or is dead, and not a moment longer. `ok` is
     * false if it still runs unsealed after `rounds` sleeps.
     */
    method WaitSealed(k: nat, rounds: nat) returns (ok: bool)
      requires Valid() && k < |net.w.segs|
      modifies net
      ensures Valid() && CoordRely(old(net.w), net.w) && old(net.steps) <= net.steps && old(net.clock) <= net.clock
      ensures ok <==> SealedOrDead(k)
      ensures old(SealedOrDead(k)) ==> net.steps == old(net.steps) && net.clock == old(net.clock)
      ensures !ok ==> net.clock >= old(net.clock) + Intervals(rounds, interval)
    {
      var n := 0;
      while !(net.w.segs[k].sealed || net.w.segs[k].phase == Done)
        invariant Valid() && CoordRely(old(net.w), net.w) && old(net.steps) <= net.steps
        invariant n <= rounds && net.clock >= old(net.clock) + Intervals(n, interval)
        invariant n == 0 || !old(SealedOrDead(k))
        invariant n > 0 || unchanged(net)
        decreases rounds - n
      {
        if n == rounds {
          return false;
        }
        Sleep();
        n := n + 1;
      }
      ok := true;
    }

    /**
     * How segment `k` was asked to seal itself, `first` being the first look for it at time `since`:
     * under the timestamp of an unconsumed marker, or as an orphan after looking in vain for the
     * whole grace period.
     */
    ghost predicate WellAsked(k: nat, used: set<string>, first: nat, since: nat)
      reads this, net
    {
      && k < |net.w.segs| && net.w.segs[k].pending.Some?
      && var req := net.w.segs[k].pending.value;
         && IsIso(req.iso) && req == SealRequest(net.c, req.iso, req.isOrphan)
         && if req.isOrphan then
              && looks == first + graceSteps + 1 && net.clock >= since + Intervals(graceSteps + 1, interval)
              && forall i | first <= i < looks && listings(i).Some? :: AllConsumed(net.c.base, listings(i).value, used)
            else req.iso in net.w.marks.waiting && req.iso !in used
    }

    lemma NewestIsUnconsumed(waiting: seq<string>, iso: string)
      requires Newest(waiting, consumed) == Some(iso)
      ensures iso in waiting && iso !in consumed
    {
      NewestIsLast(waiting, consumed);
    }

    /** `_seal_live` up to the request. */
    method AskLive()
      requires AtHead() && live.Some?
      modifies this`looks, net
      ensures Valid() && old(net.steps) <= net.steps && old(net.clock) <= net.clock
      ensures |net.w.segs| == |old(net.w).segs| && |net.w.src| >= |old(net.w).src|
      ensures WellAsked(live.value, consumed, old(looks), old(net.clock))
      ensures forall k | 0 <= k < |net.w.segs| && k != live.value :: net.w.segs[k].pending == old(net.w).segs[k].pending
    {
      var iso, isOrphan := LearnIsoDt();
      if !isOrphan {
        NewestIsUnconsumed(net.w.marks.waiting, iso);
      }
      RequestSeal(iso, isOrphan);
    }

    /** `_seal_live` up to the point where the next live segment may start. */
    method SealLive(rounds: nat) returns (ok: bool)
      requires AtHead() && live.Some?
      modifies this`looks, net
      ensures Valid() && old(net.steps) <= net.steps && old(net.clock) <= net.clock
      ensures |net.w.segs| == |old(net.w).segs| && |net.w.src| >= |old(net.w).src|
      ensures WellAsked(live.value, consumed, old(looks), old(net.clock))
      ensures forall k | 0 <= k < |net.w.segs| && k != live.value :: net.w.segs[k].pending == old(net.w).segs[k].pending
      ensures ok <==> SealedOrDead(live.value)
      ensures !ok ==> net.clock >= old(net.clock) + Intervals(rounds, interval)
    {
      AskLive();
      ok := WaitSealed(live.value, rounds);
    }

    /** Starting the first or the next live segment on the opened inode. */
    method StartFirst(i: nat, stat: nat)
      requires AtHead() && live.None? && i < |net.w.src|
      modifies this, net
      ensures AtHead() && old(net.steps) <= net.steps && last == Some(stat) && live == Some(|old(net.w).segs|)
      ensures closing == old(closing) && consumed == old(consumed) && net.w.segs == old(net.w).segs + [NewSeg(i)]
      ensures net.clock == old(net.clock) && net.w.marks == old(net.w).marks && looks == old(looks)
    {
      var k := |net.w.segs|;
      net.Take(Spawn(i, stat));
      live, last := Some(k), Some(stat);
    }

    method StartNext(i: nat, stat: nat)
      requires Valid() && live.Some? && i < |net.w.src|
      requires net.w.segs[live.value].sealed || net.w.segs[live.value].phase == Done
      requires net.w.segs[live.value].pending.Some?
      modifies this, net
      ensures AtHead() && old(net.steps) <= net.steps && last == Some(stat) && live == Some(|old(net.w).segs|)
      ensures closing == old(closing) + {old(live).value}
      ensures consumed == old(consumed) + {old(net.w.segs[live.value].pending.value.iso)}
      ensures net.w.segs == old(net.w).segs + [NewSeg(i)]
      ensures net.clock == old(net.clock) && net.w.marks == old(net.w).marks && looks == old(looks)
    {
      var k, iso := |net.w.segs|, net.w.segs[live.value].pending.value.iso;
      net.Take(Rotate(i, stat));
      consumed, closing, live, last := consumed + {iso}, closing + {live.value}, Some(k), Some(stat);
    }

    /** What a rotation has made of the live segment `k`, or of there being none. */
    ghost predicate Succeeded(before: Option<nat>, closing0: set<nat>, used: set<string>, first: nat, since: nat)
      reads this, net
    {
      match before
      case None => closing == closing0 && consumed == used
      case Some(k) =>
        && SealedOrDead(k) && WellAsked(k, used, first, since)
        && closing == closing0 + {k} && consumed == used + {net.w.segs[k].pending.value.iso}
    }

    /** A new live segment for the opened inode `i`, after the present one, if any, is out of the way. */
    method Replace(i: nat, stat: nat, rounds: nat) returns (ok: bool)
      requires AtHead() && i < |net.w.src|
      modifies this, net
      ensures Valid() && old(net.steps) <= net.steps && old(net.clock) <= net.clock
      ensures ok ==>
                && AtHead() && last == Some(stat) && live == Some(|old(net.w).segs|)
                && |net.w.segs| == |old(net.w).segs| + 1 && net.w.segs[live.value] == NewSeg(i)
                && Succeeded(old(live), old(closing), old(consumed), old(looks), old(net.clock))
      ensures !ok ==>
                && live.Some? && live == old(live) && last == old(last) && |net.w.segs| == |old(net.w).segs|
                && !SealedOrDead(live.value) && WellAsked(live.value, old(consumed), old(looks), old(net.clock))
                && net.clock >= old(net.clock) + Intervals(rounds, interval)
      ensures forall k | 0 <= k < |old(net.w).segs| && old(live) != Some(k) ::
                net.w.segs[k].pending == old(net.w).segs[k].pending
    {
      if live.Some? {
        ok := SealLive(rounds);
        if ok {
          StartNext(i, stat);
        }
      } else {
        StartFirst(i, stat);
        ok := true;
      }
    }

    /**
     * `_on_new_inode` and the assignment to `last_inode` after it: `stat` is the inode seen, and the
     * one opened, `file`, may be another. An inode that is not the remembered one gets a new live
     * segment, after the previous one has sealed itself or is dead. The coordinator fails only if
     * nothing can be opened, or (as far as we look) waits for a seal that does not come.
     */
    method OnNewInode(stat: nat, file: Option<nat>, rounds: nat) returns (ok: bool)
      requires AtHead() && last != Some(stat)
      modifies this, net
      ensures Valid() && old(net.steps) <= net.steps && old(net.clock) <= net.clock
      ensures ok ==> AtHead() && last == Some(stat) && file.Some?
      ensures ok && file != old(last) ==>
                && live == Some(|old(net.w).segs|)
                && |net.w.segs| == |old(net.w).segs| + 1 && net.w.segs[live.value] == NewSeg(file.value)
                && Succeeded(old(live), old(closing), old(consumed), old(looks), old(net.clock))
      ensures ok && file == old(last) ==>
                && live == old(live) && closing == old(closing) && consumed == old(consumed)
                && net.w.segs == old(net.w).segs
      ensures !ok ==>
                || (file.None? || file.value >= |old(net.w).src|)
                || (&& file != old(last) && live.Some? && live == old(live)
                    && !SealedOrDead(live.value) && WellAsked(live.value, old(consumed), old(looks), old(net.clock))
                    && net.clock >= old(net.clock) + Intervals(rounds, interval))
      ensures |old(net.w).segs| <= |net.w.segs|
      ensures forall k | 0 <= k < |old(net.w).segs| && old(live) != Some(k) ::
                net.w.segs[k].pending == old(net.w).segs[k].pending
    {
      if file.None? || file.value >= |net.w.src| {
        return false;
      }
      if last == file {
        net.Take(Skip(stat));
        last := Some(stat);
        return true;
      }
      ok := Replace(file.value, stat, rounds);
    }

    // ----- the loop

    method ReapClosing()
      requires Valid()
      modifies this`closing, net
      ensures Valid() && old(net.steps) <= net.steps && net.w.segs == old(net.w).segs
      ensures net.clock == old(net.clock) && net.w.src == old(net.w).src
      ensures closing == set k | k in old(closing) && IsActive(net.w, k)
    {
      closing := set k | k in closing && IsActive(net.w, k);
      net.Take(Reap);
    }

    /** A live segment that died unasked is forgotten, and its inode with it. */
    method DropDeadLive()
      requires AtHead()
      modifies this`live, this`last, net
      ensures AtHead() && old(net.steps) <= net.steps && net.w.segs == old(net.w).segs
      ensures net.clock == old(net.clock) && net.w.src == old(net.w).src
      ensures if old(live).Some? && net.w.segs[old(live).value].phase == Done then live == None && last == None
              else live == old(live) && last == old(last)
    {
      if live.Some? && net.w.segs[live.value].phase == Done {
        net.Take(Step.DropDead);
        live, last := None, None;
      }
    }

    /** What is left to go on with at the head of the loop: a dead live segment is none, and its inode forgotten. */
    ghost function LiveNow(): Option<nat>
      reads this, net
    {
      if live.Some? && Ended(live.value) then None else live
    }

    ghost function LastNow(): Option<nat>
      reads this, net
    {
      if live.Some? && Ended(live.value) then None else last
    }

    ghost function Unended(): set<nat>
      reads this, net
    {
      set k | k in closing && IsActive(net.w, k)
    }

    /** The part of a round before the sleep. */
    method LookAtPath(s: Sight) returns (ok: bool)
      requires AtHead()
      modifies this, net
      ensures Valid() && old(net.steps) <= net.steps && old(net.clock) <= net.clock && (ok ==> AtHead())
      ensures s.stat.None? ==> ok
      ensures ok && s.stat.Some? ==> last == s.stat && live.Some?
      ensures ok && s.stat.Some? && s.stat != old(LastNow()) && s.file != old(LastNow()) ==>
                && s.file.Some? && live == Some(|old(net.w).segs|)
                && |net.w.segs| == |old(net.w).segs| + 1 && net.w.segs[live.value].src == s.file.value
                && Succeeded(old(LiveNow()), old(Unended()), old(consumed), old(looks), old(net.clock))
      ensures ok && (s.stat.None? || s.stat == old(LastNow()) || s.file == old(LastNow())) ==>
                && live == old(LiveNow()) && closing == old(Unended()) && consumed == old(consumed)
                && |net.w.segs| == |old(net.w).segs|
      ensures !ok ==>
                || (s.file.None? || s.file.value >= |old(net.w).src|)
                || (live.Some? && live == old(LiveNow()) && !SealedOrDead(live.value)
                    && net.clock >= old(net.clock) + Intervals(s.patience, interval))
      ensures |old(net.w).segs| <= |net.w.segs|
      ensures forall k | 0 <= k < |old(net.w).segs| && old(LiveNow()) != Some(k) ::
                net.w.segs[k].pending == old(net.w).segs[k].pending
    {
      ReapClosing();
      DropDeadLive();
      ok := true;
      if s.stat.Some? && s.stat != last {
        ok := OnNewInode(s.stat.value, s.file, s.patience);
      }
    }

    /**
     * One round of `run`. If the inode seen and the one opened are both other than the remembered
     * one, there is a new live segment on the opened one, and its predecessor, if any, is sealed or
     * dead and closing. Otherwise live segment, closing ones and requests stay. A live segment that
     * has died counts as none, so that it is replaced at once and uses up neither a seal nor a timestamp.
     */
    method Iteration(s: Sight) returns (ok: bool)
      requires AtHead()
      modifies this, net
      ensures Valid() && old(net.steps) <= net.steps && old(net.clock) <= net.clock
      ensures ok ==> AtHead() && net.clock >= old(net.clock) + interval
      ensures s.stat.None? ==> ok
      ensures ok && s.stat.Some? ==> last == s.stat && live.Some?
      ensures ok && s.stat.Some? && s.stat != old(LastNow()) && s.file != old(LastNow()) ==>
                && s.file.Some? && live == Some(|old(net.w).segs|)
                && |net.w.segs| == |old(net.w).segs| + 1 && net.w.segs[live.value].src == s.file.value
                && Succeeded(old(LiveNow()), old(Unended()), old(consumed), old(looks), old(net.clock))
      ensures ok && (s.stat.None? || s.stat == old(LastNow()) || s.file == old(LastNow())) ==>
                && live == old(LiveNow()) && closing == old(Unended()) && consumed == old(consumed)
                && |net.w.segs| == |old(net.w).segs|
      ensures !ok ==>
                || (s.file.None? || s.file.value >= |old(net.w).src|)
                || (live.Some? && live == old(LiveNow()) && !SealedOrDead(live.value)
                    && net.clock >= old(net.clock) + Intervals(s.patience, interval))
      ensures |old(net.w).segs| <= |net.w.segs|
      ensures forall k | 0 <= k < |old(net.w).segs| && old(LiveNow()) != Some(k) ::
                net.w.segs[k].pending == old(net.w).segs[k].pending
    {
      ok := LookAtPath(s);
      if ok {
        Sleep();
      }
    }

    // ----- the end

    static lemma CancelOutcome(c: Conf, w: World, k: nat)
      requires Enabled(c, w, Step.Cancel(k))
      ensures var w' := Next(c, w, Step.Cancel(k));
              CoordRely(w, w') && w'.segs[k].cancelled
    {
    }

    /** `task.cancel()`. */
    method Cancel(k: nat)
      requires Valid() && Knows(k)
      modifies net
      ensures Valid() && CoordRely(old(net.w), net.w) && old(net.steps) <= net.steps
      ensures k < |net.w.segs| && net.w.segs[k].cancelled && net.clock == old(net.clock)
    {
      CancelOutcome(net.c, net.w, k);
      net.Take(Step.Cancel(k));
    }

    /** `_cancel`: waits for the task to end; `ok` is false if it has not after `rounds` sleeps. */
    method AwaitEnd(k: nat, rounds: nat) returns (ok: bool)
      requires Valid() && k < |net.w.segs|
      modifies net
      ensures Valid() && CoordRely(old(net.w), net.w) && old(net.steps) <= net.steps && old(net.clock) <= net.clock
      ensures ok <==> Ended(k)
      ensures !ok ==> net.clock >= old(net.clock) + Intervals(rounds, interval)
    {
      var n := 0;
      while net.w.segs[k].phase != Done
        invariant Valid() && CoordRely(old(net.w), net.w) && old(net.steps) <= net.steps
        invariant n <= rounds && net.clock >= old(net.clock) + Intervals(n, interval)
        decreases rounds - n
      {
        if n == rounds {
          return false;
        }
        Sleep();
        n := n + 1;
      }
      ok := true;
    }

    /** It was asked to stop and has ended. */
    ghost predicate Stopped(k: nat)
      reads net
    {
      Ended(k) && net.w.segs[k].cancelled
    }

    /** It was asked to stop and has not ended. */
    ghost predicate Hangs(k: nat)
      reads this, net
    {
      Knows(k) && k < |net.w.segs| && net.w.segs[k].cancelled && !Ended(k)
    }

    /**
     * The `finally` branch of `run`: cancels and awaits every segment in turn, whether it is still
     * running or not. Only a segment that does not end keeps it from getting through.
     */
    method Shutdown(rounds: nat) returns (ok: bool)
      requires Valid()
      modifies net
      ensures Valid() && old(net.steps) <= net.steps && old(net.clock) <= net.clock
      ensures ok ==> forall k: nat | Knows(k) :: Stopped(k)
      ensures !ok ==> net.clock >= old(net.clock) + Intervals(rounds, interval) && exists k :: Hangs(k)
    {
      var rest := closing + if live.Some? then {live.value} else {};
      while rest != {}
        invariant Valid() && old(net.steps) <= net.steps && old(net.clock) <= net.clock
        invariant forall k | k in rest :: Knows(k)
        invariant forall k: nat | Knows(k) :: k in rest || Stopped(k)
      {
        var k :| k in rest;
        Cancel(k);
        ok := AwaitEnd(k, rounds);
        if !ok {
          assert Hangs(k);
          return;
        }
        rest := rest - {k};
      }
      ok := true;
    }

    /**
     * `run`: rounds, `sights` being what they see, until it is cancelled after `rounds` of them or
     * a round fails; `failed` says which. However it ends, the segments are shut down.
     */
    method Run(rounds: nat, sights: nat -> Sight, patience: nat) returns (failed: bool, ok: bool)
      requires AtHead()
      modifies this, net
      ensures Valid() && old(net.steps) <= net.steps
      ensures ok ==> forall k: nat | Knows(k) :: Stopped(k)
      ensures !ok ==> exists k :: Hangs(k)
      ensures failed ==> exists i :: 0 <= i < rounds && sights(i).stat.Some?
      ensures !failed ==> net.clock >= old(net.clock) + Intervals(rounds, interval)
      ensures !failed && rounds > 0 && sights(rounds - 1).stat.Some? ==> last == sights(rounds - 1).stat && live.Some?
    {
      var n := 0;
      failed := false;
      while n < rounds && !failed
        invariant Valid() && old(net.steps) <= net.steps && n <= rounds
        invariant !failed ==> AtHead() && net.clock >= old(net.clock) + Intervals(n, interval)
        invariant !failed && n > 0 && sights(n - 1).stat.Some? ==> last == sights(n - 1).stat && live.Some?
        invariant failed ==> exists i :: 0 <= i < rounds && sights(i).stat.Some?
        decreases rounds - n, !failed
      {
        var ran := Iteration(sights(n));
        if ran {
          n := n + 1;
        } else {
          failed := true;
        }
      }
      ok := Shutdown(patience);
    }

    /** That was all of them: whatever happened in the run, no segment runs on after the coordinator. */
    lemma NothingLeftRunning(k: nat)
      requires Valid() && (forall j | Knows(j) :: Ended(j)) && k < |net.w.segs|
      requires Init(net.c, net.start)
      ensures Ended(k)
    {
      net.IsRun();
      RunKeepsControl(net.c, net.start, net.steps);
      assert CoordOk(net.w);
      if net.w.segs[k].phase != Done {
        assert net.w.coord.live == Some(k) || k in net.w.coord.closing;
      }
    }
  }
}
