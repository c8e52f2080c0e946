/**
 * The world around one asynchronous task: everything that can happen while the task waits, and
 * what it can rely on when it goes on. Every change of the world is a step of the protocol.
 */
module Network {
  import opened Prelude
  import opened Names
  import opened Markers
  import opened Protocol
  import opened Lifecycle

  // ----- what other actors leave alone

  /** While others act, a segment's own state stays but for a seal request, a cancellation and a lost connection. */
  ghost predicate SameTask(g: Seg, g': Seg) {
    && g' == g.(pending := g'.pending, conn := g'.conn, cancelled := g'.cancelled)
    && (g.cancelled ==> g'.cancelled)
    && (g.pending.Some? ==> g'.pending == g.pending)
    && match g.conn
       case None => g'.conn.None?
       case Some(conn) => g'.conn.Some? && g'.conn.value.h == conn.h && (g'.conn.value.up ==> conn.up)
  }

  ghost predicate SourcesGrow(w: World, w': World) {
    && |w.src| <= |w'.src| && (forall i | 0 <= i < |w.src| :: w.src[i] <= w'.src[i])
    && Extends(w.marks, w'.marks)
  }

  ghost predicate SegRely(w: World, w': World, k: nat) {
    k < |w.segs| <= |w'.segs| && SameTask(w.segs[k], w'.segs[k]) && SourcesGrow(w, w')
  }

  /** While others act, the coordinator's own state stays, and ended or sealed segments stay so. */
  ghost predicate CoordRely(w: World, w': World) {
    && w'.coord == w.coord && |w'.segs| == |w.segs| && SourcesGrow(w, w')
    && forall k | 0 <= k < |w.segs| ::
         && w'.segs[k].pending == w.segs[k].pending && w'.segs[k].src == w.segs[k].src
         && (w.segs[k].sealed ==> w'.segs[k].sealed) && (w.segs[k].phase == Done ==> w'.segs[k].phase == Done)
         && (w.segs[k].cancelled ==> w'.segs[k].cancelled)
  }

  ghost predicate Rely(me: Actor, w: World, w': World) {
    match me
    case Segment(k) => k < |w.segs| ==> SegRely(w, w', k)
    case Coordinator => CoordRely(w, w')
    case Environment => true
  }

  lemma StepGrowsSources(c: Conf, w: World, s: Step)
    requires Enabled(c, w, s)
    ensures SourcesGrow(w, Next(c, w, s))
  {
    if s.Scan? {
      LearnAllExtends(c.base, w.marks, s.names);
    }
  }

  lemma EnvironmentSegRely(c: Conf, w: World, s: Step, k: nat)
    requires Enabled(c, w, s) && ActorOf(s).Environment? && k < |w.segs|
    ensures SegRely(w, Next(c, w, s), k)
  {
    StepGrowsSources(c, w, s);
  }

  lemma BookkeepingSegRely(c: Conf, w: World, s: Step, k: nat)
    requires Enabled(c, w, s) && (s.Skip? || s.DropDead? || s.Reap? || s.Cancel?) && k < |w.segs|
    ensures SegRely(w, Next(c, w, s), k)
  {
  }

  lemma CoordinatorSegRely(c: Conf, w: World, s: Step, k: nat)
    requires Enabled(c, w, s) && ActorOf(s).Coordinator? && k < |w.segs|
    ensures SegRely(w, Next(c, w, s), k)
  {
    if s.Skip? || s.DropDead? || s.Reap? || s.Cancel? {
      BookkeepingSegRely(c, w, s, k);
    } else {
      var w' := Next(c, w, s);
      assert w'.src == w.src && w'.marks == w.marks;
    }
  }

  lemma OtherStepSegRely(c: Conf, w: World, s: Step, k: nat)
    requires Enabled(c, w, s) && ActorOf(s) != Segment(k) && k < |w.segs|
    ensures SegRely(w, Next(c, w, s), k)
  {
    match ActorOf(s)
    case Environment => EnvironmentSegRely(c, w, s, k);
    case Coordinator => CoordinatorSegRely(c, w, s, k);
    case Segment(j) => SegmentIsLocal(c, w, s, j);
  }

  lemma SegStepCoordRely(c: Conf, w: World, s: Step)
    requires Enabled(c, w, s) && ActorOf(s).Segment?
    ensures CoordRely(w, Next(c, w, s))
  {
    SegmentIsLocal(c, w, s, ActorOf(s).id);
  }

  lemma OtherStepRely(c: Conf, w: World, s: Step, me: Actor)
    requires Enabled(c, w, s) && ActorOf(s) != me
    ensures Rely(me, w, Next(c, w, s))
  {
    match me
    case Segment(k) =>
      if k < |w.segs| {
        OtherStepSegRely(c, w, s, k);
      }
    case Coordinator =>
      if ActorOf(s).Segment? {
        SegStepCoordRely(c, w, s);
      } else {
        StepGrowsSources(c, w, s);
      }
    case _ =>
  }

  lemma RelyTwice(me: Actor, w: World, m: World, w': World)
    requires Rely(me, w, m) && Rely(me, m, w')
    ensures Rely(me, w, w')
  {
    assert forall i | 0 <= i < |w.src| && |w.src| <= |m.src| && |m.src| <= |w'.src| ::
        w.src[i] <= m.src[i] && m.src[i] <= w'.src[i] ==> w.src[i] <= w'.src[i];
  }

  /** The length of `n` intervals. */
  function Intervals(n: nat, interval: nat): nat {
    if n == 0 then 0 else Intervals(n - 1, interval) + interval
  }

  /** `later` adds only steps of others to `earlier`. */
  ghost predicate OthersSince(me: Actor, earlier: seq<Step>, later: seq<Step>) {
    earlier <= later && forall i | |earlier| <= i < |later| :: ActorOf(later[i]) != me
  }

  /** `i` numbers a step. `IsTrace` is unfolded only where this is mentioned, not at every step in sight. */
  predicate IsStage(steps: seq<Step>, i: nat) {
    i < |steps|
  }

  /** `trace` holds the worlds before, between and after `steps`. */
  ghost predicate IsTrace(c: Conf, trace: seq<World>, steps: seq<Step>) {
    && |trace| == |steps| + 1
    && forall i: nat {:trigger IsStage(steps, i)} | IsStage(steps, i) ::
         Enabled(c, trace[i], steps[i]) && trace[i + 1] == Next(c, trace[i], steps[i])
  }

  lemma {:induction false} TraceIsRun(c: Conf, trace: seq<World>, steps: seq<Step>)
    requires IsTrace(c, trace, steps)
    ensures Run(c, trace[0], steps) == Some(trace[|steps|])
    decreases |steps|
  {
    if steps != [] {
      var front, worlds := steps[..|steps| - 1], trace[..|steps|];
      forall i: nat | IsStage(front, i)
        ensures Enabled(c, worlds[i], front[i]) && worlds[i + 1] == Next(c, worlds[i], front[i])
      {
        assert IsStage(steps, i) && front[i] == steps[i] && worlds[i] == trace[i] && worlds[i + 1] == trace[i + 1];
      }
      assert IsStage(steps, |front|) && worlds[|front|] == trace[|front|];
      TraceIsRun(c, worlds, front);
    }
  }

  class Net {
    const c: Conf
    const cap: nat              // no local inode ever gets longer
    ghost const start: World
    ghost var steps: seq<Step>
    ghost var trace: seq<World> // the world before each step, and now
    var w: World
    var clock: nat              // what `monotime` reads

    ghost predicate Valid()
      reads this
    {
      IsTrace(c, trace, steps) && trace[0] == start && trace[|steps|] == w && Bounded(w)
    }

    /** Whatever happened is a run of the protocol. */
    lemma IsRun()
      requires Valid()
      ensures Run(c, start, steps) == Some(w)
    {
      TraceIsRun(c, trace, steps);
    }

    ghost predicate Bounded(w: World) {
      forall i | 0 <= i < |w.src| :: |w.src[i]| <= cap
    }

    predicate WithinCap(w: World, s: Step) {
      s.Grow? && s.i < |w.src| ==> |w.src[s.i]| + |s.bytes| <= cap
    }

    constructor (c: Conf, cap: nat, w: World)
      requires forall i | 0 <= i < |w.src| :: |w.src[i]| <= cap
      ensures Valid() && this.c == c && this.cap == cap && this.w == w && start == w && steps == []
    {
      this.c, this.cap, this.w, clock := c, cap, w, 0;
      start, steps, trace := w, [], [w];
    }

    /** One step happens. */
    method Take(s: Step)
      requires Valid() && Enabled(c, w, s) && WithinCap(w, s)
      modifies this
      ensures Valid() && w == Next(c, old(w), s) && steps == old(steps) + [s] && clock == old(clock)
      ensures trace == old(trace) + [w]
    {
      w := Next(c, w, s);
      steps := steps + [s];
      trace := trace + [w];
      forall i: nat | IsStage(steps, i)
        ensures Enabled(c, trace[i], steps[i]) && trace[i + 1] == Next(c, trace[i], steps[i])
      {
        assert i < |old(steps)| ==> IsStage(old(steps), i);
      }
      BoundedNext(old(w), s);
    }

    lemma BoundedNext(w: World, s: Step)
      requires Enabled(c, w, s) && WithinCap(w, s) && Bounded(w)
      ensures Bounded(Next(c, w, s))
    {
    }

    /** `utc_iso_dt`: any timestamp. */
    method UtcIsoDt() returns (iso: string)
      ensures IsIso(iso)
    {
      iso := *;
      if !IsIso(iso) {
        iso := "19700101T000000Z";
      }
    }

    /** The task `me` waits: any number of steps of anybody else. */
    method Yield(me: Actor)
      requires Valid()
      modifies this
      ensures Valid() && Rely(me, old(w), w) && OthersSince(me, old(steps), steps) && clock >= old(clock)
    {
      var n: nat := *;
      while n > 0
        invariant Valid() && Rely(me, old(w), w) && OthersSince(me, old(steps), steps) && clock >= old(clock)
      {
        var s: Step := *;
        if ActorOf(s) != me && Enabled(c, w, s) && WithinCap(w, s) {
          OtherStepRely(c, w, s, me);
          RelyTwice(me, old(w), w, Next(c, w, s));
          Take(s);
        }
        var later: nat := *;
        clock := if later > clock then later else clock;
        n := n - 1;
      }
    }

    /** The task `me` sleeps: it waits, and at least `t` passes. */
    method Sleep(me: Actor, t: nat)
      requires Valid()
      modifies this
      ensures Valid() && Rely(me, old(w), w) && OthersSince(me, old(steps), steps) && clock >= old(clock) + t
    {
      Yield(me);
      clock := clock + t;
    }
  }
}
