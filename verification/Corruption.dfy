/** Corrupt files, what can lead to them, and how a segment can be made to write one. */
module Corruption {
  import opened Prelude
  import opened Names
  import opened Files
  import opened Protocol
  import opened Invariant
  import opened Safety
  import opened Theorems

  /** The file `n` is a prefix of no local inode. */
  ghost predicate Corrupt(w: World, n: Name) {
    n in w.fs.dir && forall i | 0 <= i < |w.src| :: !(FileAt(w, n) <= w.src[i])
  }

  /** Some continuation without a hazard corrupts the file `n`. */
  ghost predicate CanCorrupt(c: Conf, w: World, n: Name) {
    exists steps: seq<Step> :: Sound(c, w, steps) && Run(c, w, steps).Some? && Corrupt(Run(c, w, steps).value, n)
  }

  /** Some continuation without a hazard corrupts some file. */
  ghost predicate CanCorruptSome(c: Conf, w: World) {
    exists n: Name :: CanCorrupt(c, w, n)
  }

  // ----- attribution is bookkeeping: nothing depends on it

  /** The same but for the attribution of server inodes. */
  ghost predicate Twins(w: World, v: World) {
    v == w.(origin := v.origin)
  }

  lemma TwinSend(c: Conf, w: World, v: World, k: nat, n: nat, out: Outcome)
    requires Twins(w, v) && Enabled(c, w, Send(k, n, out))
    ensures Twins(NextSend(c, w, k, n, out), NextSend(c, v, k, n, out))
  {
    assert SegAfterSend(c, w, w.segs[k], n, out) == SegAfterSend(c, v, v.segs[k], n, out);
    assert Twins(AfterSend(w, w.segs[k], n, out), AfterSend(v, v.segs[k], n, out));
  }

  lemma TwinConnect(c: Conf, w: World, v: World, k: nat, prefix: nat)
    requires Twins(w, v) && k < |w.segs|
    ensures Twins(NextConnect(c, w, k, prefix), NextConnect(c, v, k, prefix))
    ensures CanTell(c, w, k, prefix) == CanTell(c, v, k, prefix)
  {
    assert Twins(Adopt(w, w.segs[k]), Adopt(v, v.segs[k]));
  }

  lemma TwinChoices(c: Conf, w: World, v: World, s: Step)
    requires Twins(w, v)
    ensures Enabled(c, w, s) <==> Enabled(c, v, s)
    ensures Hazard(c, w, s) <==> Hazard(c, v, s)
  {
    if s.Connect? && s.k < |w.segs| {
      TwinConnect(c, w, v, s.k, s.prefix);
    }
  }

  lemma TwinStep(c: Conf, w: World, v: World, s: Step)
    requires Twins(w, v) && Enabled(c, w, s)
    ensures Enabled(c, v, s) && Twins(Next(c, w, s), Next(c, v, s))
  {
    TwinChoices(c, w, v, s);
    match s
    case Send(k, n, out) => TwinSend(c, w, v, k, n, out);
    case Connect(k, prefix) => TwinConnect(c, w, v, k, prefix);
    case _ =>
  }

  lemma {:induction false} TwinRuns(c: Conf, w: World, v: World, steps: seq<Step>)
    requires Twins(w, v) && Sound(c, w, steps) && Run(c, w, steps).Some?
    ensures Sound(c, v, steps) && Run(c, v, steps).Some? && Twins(Run(c, w, steps).value, Run(c, v, steps).value)
  {
    if steps != [] {
      var front, last := steps[..|steps| - 1], steps[|steps| - 1];
      TwinRuns(c, w, v, front);
      TwinChoices(c, Run(c, w, front).value, Run(c, v, front).value, last);
      TwinStep(c, Run(c, w, front).value, Run(c, v, front).value, last);
    }
  }

  /** Where some attribution satisfies the invariant, no continuation corrupts anything. */
  lemma NothingCorrupts(m: Mode, c: Conf, w: World, v: World)
    requires Twins(w, v) && InvIn(m, c, v) && m != Unrolled
    ensures !CanCorruptSome(c, w)
  {
    forall n: Name, steps | Sound(c, w, steps) && Run(c, w, steps).Some? ensures !Corrupt(Run(c, w, steps).value, n) {
      TwinRuns(c, w, v, steps);
      RunKeeps(m, c, v, steps);
      var w', v' := Run(c, w, steps).value, Run(c, v, steps).value;
      if n in w'.fs.dir {
        assert FileAt(w', n) <= w'.src[v'.origin[v'.fs.dir[n]]];
      }
    }
  }

  // ----- making a segment write

  /** `steps` lead from `w0` to `w` without a hazard. */
  ghost predicate LeadsTo(c: Conf, w0: World, steps: seq<Step>, w: World) {
    Sound(c, w0, steps) && Run(c, w0, steps) == Some(w)
  }

  lemma LeadsOn(c: Conf, w0: World, steps: seq<Step>, w: World, s: Step) returns (steps': seq<Step>)
    requires LeadsTo(c, w0, steps, w) && Enabled(c, w, s) && !Hazard(c, w, s)
    ensures LeadsTo(c, w0, steps', Next(c, w, s))
  {
    RunOne(c, w0, steps, s);
    steps' := steps + [s];
  }

  /** Segment `k` has a working descriptor on `ino`, where its next frame will be accepted. */
  ghost predicate Writing(w: World, k: nat, ino: nat) {
    && InPhase(w, k, Running) && w.segs[k].src < |w.src| && ino < |w.fs.data|
    && w.segs[k].conn.Some? && w.segs[k].conn.value.up
    && w.segs[k].conn.value.h.fd == Some(Fd(ino, w.segs[k].pos))
  }

  /** Only segment `k`'s position and the contents of `ino` differ. */
  ghost predicate OnlyWrote(w: World, w': World, k: nat, ino: nat) {
    && k < |w.segs| == |w'.segs| && w'.segs == w.segs[k := w'.segs[k]] && w'.segs[k].src == w.segs[k].src
    && w'.src == w.src && w'.late == w.late && w'.fs.dir == w.fs.dir && |w'.fs.data| == |w.fs.data|
  }

  lemma FeedOne(c: Conf, w: World, k: nat, ino: nat, n: nat)
    requires Writing(w, k, ino) && 0 < n <= CHUNK_SIZE && w.segs[k].pos + n <= |w.src[w.segs[k].src]|
    ensures Enabled(c, w, Send(k, n, Acked)) && !Hazard(c, w, Send(k, n, Acked))
    ensures var w', at := NextSend(c, w, k, n, Acked), w.segs[k].pos;
            && Writing(w', k, ino) && OnlyWrote(w, w', k, ino) && w'.segs[k].pos == at + n
            && w'.fs.data[ino] == WriteAt(w.fs.data[ino], at, w.src[w.segs[k].src][at..at + n])
  {
    var g := w.segs[k];
    assert SendFrame(w, g, n).Some?;
    assert SendAcked(w, g, n, Acked);
  }

  lemma WriteTwice(c: Bytes, at: nat, p: Bytes, r: Bytes)
    requires p != []
    ensures WriteAt(WriteAt(c, at, p), at + |p|, r) == WriteAt(c, at, p + r)
  {
  }

  /** `w'` is `w` after segment `k` has written its source to `ino` from where it was up to `upto`. */
  ghost predicate Fed(w: World, w': World, k: nat, ino: nat, upto: nat) {
    && Writing(w, k, ino) && Writing(w', k, ino) && OnlyWrote(w, w', k, ino) && w'.segs[k].pos == upto
    && w.segs[k].pos < upto <= |w.src[w.segs[k].src]|
    && w'.fs.data[ino] == WriteAt(w.fs.data[ino], w.segs[k].pos, w.src[w.segs[k].src][w.segs[k].pos..upto])
  }

  lemma FeedMore(c: Conf, w: World, m: World, k: nat, ino: nat, p: nat, n: nat)
    requires Fed(w, m, k, ino, p) && 0 < n <= CHUNK_SIZE && p + n <= |w.src[w.segs[k].src]|
    ensures Enabled(c, m, Send(k, n, Acked)) && !Hazard(c, m, Send(k, n, Acked))
    ensures Fed(w, NextSend(c, m, k, n, Acked), k, ino, p + n)
  {
    var s, at := w.src[w.segs[k].src], w.segs[k].pos;
    FeedOne(c, m, k, ino, n);
    WriteTwice(w.fs.data[ino], at, s[at..p], s[p..p + n]);
    assert s[at..p] + s[p..p + n] == s[at..p + n];
  }

  lemma FeedFirst(c: Conf, w: World, k: nat, ino: nat, n: nat)
    requires Writing(w, k, ino) && 0 < n <= CHUNK_SIZE && w.segs[k].pos + n <= |w.src[w.segs[k].src]|
    ensures Enabled(c, w, Send(k, n, Acked)) && !Hazard(c, w, Send(k, n, Acked))
    ensures Fed(w, NextSend(c, w, k, n, Acked), k, ino, w.segs[k].pos + n)
  {
    FeedOne(c, w, k, ino, n);
  }

  lemma FeedOn(c: Conf, w0: World, steps: seq<Step>, w: World, m: World, k: nat, ino: nat, p: nat, upto: nat)
    returns (steps': seq<Step>, m': World, p': nat)
    requires LeadsTo(c, w0, steps, m) && Fed(w, m, k, ino, p) && p < upto <= |w.src[w.segs[k].src]|
    ensures LeadsTo(c, w0, steps', m') && Fed(w, m', k, ino, p') && p < p' <= upto
  {
    var n := Min(CHUNK_SIZE, upto - p);
    FeedMore(c, w, m, k, ino, p, n);
    steps' := LeadsOn(c, w0, steps, m, Send(k, n, Acked));
    m', p' := NextSend(c, m, k, n, Acked), p + n;
  }

  /** Some continuation by segment `k` alone does that. */
  lemma FeedTo(c: Conf, w0: World, steps0: seq<Step>, w: World, k: nat, ino: nat, upto: nat)
    returns (steps: seq<Step>, w': World)
    requires LeadsTo(c, w0, steps0, w) && Writing(w, k, ino)
    requires w.segs[k].pos < upto <= |w.src[w.segs[k].src]|
    ensures LeadsTo(c, w0, steps, w') && Fed(w, w', k, ino, upto)
  {
    var n := Min(CHUNK_SIZE, upto - w.segs[k].pos);
    FeedFirst(c, w, k, ino, n);
    steps := LeadsOn(c, w0, steps0, w, Send(k, n, Acked));
    w' := NextSend(c, w, k, n, Acked);
    var p := w.segs[k].pos + n;
    while p < upto
      invariant p <= upto && LeadsTo(c, w0, steps, w') && Fed(w, w', k, ino, p)
      decreases upto - p
    {
      steps, w', p := FeedOn(c, w0, steps, w, w', k, ino, p, upto);
    }
  }

  /** A step that only lets inode `i` grow. */
  lemma GrowOn(c: Conf, w0: World, steps0: seq<Step>, w: World, i: nat, x: Bytes) returns (steps: seq<Step>, w': World)
    requires LeadsTo(c, w0, steps0, w) && i < |w.src|
    ensures LeadsTo(c, w0, steps, w') && w' == w.(src := w.src[i := w.src[i] + x])
  {
    steps := LeadsOn(c, w0, steps0, w, Grow(i, x));
    w' := Next(c, w, Grow(i, x));
  }

  lemma NoSteps(c: Conf, w: World)
    ensures LeadsTo(c, w, [], w)
  {
  }

  // ----- files that begin nothing

  ghost function Longest(ss: seq<Bytes>): (n: nat)
    ensures forall i | 0 <= i < |ss| :: |ss[i]| <= n
  {
    if ss == [] then 0
    else
      var n := Longest(ss[..|ss| - 1]);
      assert forall i | 0 <= i < |ss| - 1 :: ss[i] == ss[..|ss| - 1][i];
      if |ss[|ss| - 1]| > n then |ss[|ss| - 1]| else n
  }

  /** If `p` is not at `at` in `s`, then `s` can grow so that it never is. */
  lemma GrowsApart(s: Bytes, at: nat, p: Bytes, n: nat) returns (x: Bytes)
    requires at <= |s| && !SliceAt(s, at, p) && n >= at + |p|
    ensures |x| == n && !SliceAt(s + x, at, p)
  {
    var b: byte := if at <= |s| < at + |p| && p[|s| - at] == 0 then 1 else 0;
    x := seq(n, _ => b);
    var t := s + x;
    if |s| < at + |p| {
      assert t[at..at + |p|][|s| - at] == t[|s|] == b;
    } else {
      assert t[at..at + |p|] == s[at..at + |p|];
    }
  }

  lemma PrefixIsSlice(p: Bytes, s: Bytes)
    ensures p <= s <==> SliceAt(s, 0, p)
  {
    if |p| <= |s| {
      assert s[..|p|] == s[0..|p|];
    }
  }

  /** A file longer than every other source that does not begin its own is corrupt. */
  lemma TooLong(w: World, t: Name, i: nat, n: nat)
    requires t in w.fs.dir && i < |w.src| && !(FileAt(w, t) <= w.src[i]) && |FileAt(w, t)| > n
    requires forall j | 0 <= j < |w.src| && j != i :: |w.src[j]| <= n
    ensures Corrupt(w, t)
  {
  }

  /** The segment's source grows by `x`, and it writes all of it. */
  lemma GrowAndFeed(c: Conf, w0: World, steps0: seq<Step>, w: World, k: nat, ino: nat, x: Bytes)
    returns (steps: seq<Step>, w': World)
    requires LeadsTo(c, w0, steps0, w) && Writing(w, k, ino) && w.segs[k].pos < |w.src[w.segs[k].src] + x|
    ensures LeadsTo(c, w0, steps, w') && w'.src == w.src[w.segs[k].src := w.src[w.segs[k].src] + x]
    ensures w'.fs.dir == w.fs.dir && w'.late == w.late && |w'.fs.data| == |w.fs.data|
    ensures Writing(w', k, ino) && |w'.segs| == |w.segs| && w'.segs == w.segs[k := w'.segs[k]]
    ensures w'.fs.data[ino] == WriteAt(w.fs.data[ino], w.segs[k].pos, (w.src[w.segs[k].src] + x)[w.segs[k].pos..])
  {
    var s := w.src[w.segs[k].src] + x;
    var w1;
    steps, w1 := GrowOn(c, w0, steps0, w, w.segs[k].src, x);
    steps, w' := FeedTo(c, w0, steps, w1, k, ino, |s|);
    assert s[w.segs[k].pos..|s|] == s[w.segs[k].pos..];
  }

  lemma AppendPadded(f: Bytes, q: nat, r: Bytes)
    requires q >= |f|
    ensures WriteAt(f, q, r) == Padded(f, q) + r
  {
  }

  /** A descriptor behind bytes, or over a gap, that are not those of the segment's source. */
  lemma WriterCorrupts(c: Conf, w0: World, steps0: seq<Step>, w: World, k: nat, t: Name)
    requires LeadsTo(c, w0, steps0, w) && t in w.fs.dir && Writing(w, k, w.fs.dir[t])
    requires !(Padded(FileAt(w, t), w.segs[k].pos) <= w.src[w.segs[k].src]) && w.segs[k].pos >= |FileAt(w, t)|
    ensures CanCorrupt(c, w0, t)
  {
    var i, q := w.segs[k].src, w.segs[k].pos;
    var f := Padded(FileAt(w, t), q);
    PrefixIsSlice(f, w.src[i]);
    var x := GrowsApart(w.src[i], 0, f, Longest(w.src) + |f| + 1);
    var s := w.src[i] + x;
    PrefixIsSlice(f, s);
    var steps, w' := GrowAndFeed(c, w0, steps0, w, k, w.fs.dir[t], x);
    AppendPadded(FileAt(w, t), q, s[q..]);
    assert !(f + s[q..] <= s);
    TooLong(w', t, i, Longest(w.src) + |f|);
  }

  /** A segment that opens its target blindly, in order to fail and come back. */
  ghost predicate Blind(w: World, k: nat) {
    && k < |w.segs| && OpensBlindly(w.segs[k]) && w.segs[k].src < |w.src|
    && !w.segs[k].noResume && (w.segs[k].phase == Reopening ==> w.segs[k].conn.None?)
  }

  lemma OpenersAreBlind(c: Conf, w: World, k: nat)
    requires Control(c, w) && k < |w.segs| && OpensBlindly(w.segs[k])
    ensures Blind(w, k)
  {
    assert ControlOk(c, w, w.segs[k]);
  }

  /** It can be made to open its target at the end of what is there. */
  lemma ComesBack(c: Conf, w0: World, steps0: seq<Step>, w: World, k: nat) returns (steps: seq<Step>, w': World)
    requires LeadsTo(c, w0, steps0, w) && Blind(w, k)
    requires w.segs[k].target in w.fs.dir && w.fs.dir[w.segs[k].target] < |w.fs.data|
    requires w.segs[k].pos < |w.src[w.segs[k].src]|
    ensures LeadsTo(c, w0, steps, w') && w'.fs == w.fs && w'.src == w.src && w'.late == w.late
    ensures |w'.segs| == |w.segs| && w'.segs == w.segs[k := w'.segs[k]]
    ensures w'.segs[k].src == w.segs[k].src && Writing(w', k, w.fs.dir[w.segs[k].target])
    ensures w'.segs[k].pos == |FileAt(w, w.segs[k].target)|
  {
    if w.segs[k].phase == Reopening {
      steps := LeadsOn(c, w0, steps0, w, Reopen(k));
      w' := Next(c, w, Reopen(k));
    } else {
      var w1 := w;
      steps := steps0;
      if w.segs[k].conn.Some? {
        steps := LeadsOn(c, w0, steps0, w, Send(k, 1, NotApplied));
        w1 := NextSend(c, w, k, 1, NotApplied);
      }
      steps := LeadsOn(c, w0, steps, w1, Reconnect(k, true));
      w' := Next(c, w1, Reconnect(k, true));
    }
  }

  /** If what is there does not begin its source, the file can be corrupted. */
  lemma BlindCorrupts(c: Conf, w: World, k: nat)
    requires Blind(w, k) && w.segs[k].target in w.fs.dir && w.fs.dir[w.segs[k].target] < |w.fs.data|
    requires !(FileAt(w, w.segs[k].target) <= w.src[w.segs[k].src])
    ensures CanCorrupt(c, w, w.segs[k].target)
  {
    var f, s := FileAt(w, w.segs[k].target), w.src[w.segs[k].src];
    PrefixIsSlice(f, s);
    var x := GrowsApart(s, 0, f, |f| + w.segs[k].pos + 1);
    PrefixIsSlice(f, s + x);
    NoSteps(c, w);
    var steps, w1 := GrowOn(c, w, [], w, w.segs[k].src, x);
    var w2;
    steps, w2 := ComesBack(c, w, steps, w1, k);
    WriterCorrupts(c, w, steps, w2, k, w.segs[k].target);
  }
}
