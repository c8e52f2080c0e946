/** Several server connections over one directory: overlapping writers, tiling, and tracked names. */
module Sessions {
  import opened Prelude
  import opened Files

  datatype Event<N> =
    | Open(n: N)
    | Frame(i: nat, offset: int, payload: Bytes)
    | Rename(i: nat, src: N, dst: N)
    | Close(i: nat)

  /** One accepted data frame. */
  datatype Piece = Piece(offset: nat, payload: Bytes)

  /** The directory, every connection (`None` once closed), and what each inode has accepted. */
  datatype System<N(==)> = System(fs: FileSystem<N>, hs: seq<Option<Handler<N>>>, log: seq<seq<Piece>>)

  predicate IsOpen<N>(y: System<N>, i: nat) {
    i < |y.hs| && y.hs[i].Some?
  }

  /** A rejected frame ends its connection. */
  function Act<N>(y: System<N>, e: Event<N>): System<N> {
    match e
    case Open(n) => y.(hs := y.hs + [Some(OpenTarget(y.fs, n))])
    case Close(i) => if i < |y.hs| then y.(hs := y.hs[i := None]) else y
    case Rename(i, src, dst) =>
      if IsOpen(y, i) then
        match RenameFrame(y.fs, y.hs[i].value, src, dst)
        case Some(s) => y.(fs := s.fs, hs := y.hs[i := Some(s.h)])
        case None => y.(hs := y.hs[i := None])
      else y
    case Frame(i, offset, payload) =>
      if IsOpen(y, i) then
        match DataFrame(y.fs, y.hs[i].value, offset, payload)
        case Some(s) => System(s.fs, y.hs[i := Some(s.h)], Logged(y.log, s.h.fd.value.ino, Piece(offset, payload)))
        case None => y.(hs := y.hs[i := None])
      else y
  }

  function Logged(log: seq<seq<Piece>>, ino: nat, p: Piece): seq<seq<Piece>> {
    if ino < |log| then log[ino := log[ino] + [p]] else log + [[p]]
  }

  function ActAll<N>(y: System<N>, es: seq<Event<N>>): System<N> {
    if es == [] then y else Act(ActAll(y, es[..|es| - 1]), es[|es| - 1])
  }

  // ----- overlapping handlers

  /** No handler of the inode is beyond its end, and the inode holds a prefix of `s`. */
  ghost predicate Overlap<N>(y: System<N>, ino: nat, s: Bytes) {
    && ino < |y.fs.data| && y.fs.data[ino] <= s
    && (forall i: nat | IsOpen(y, i) && y.hs[i].value.fd.Some? && y.hs[i].value.fd.value.ino == ino ::
          y.hs[i].value.fd.value.pos <= |y.fs.data[ino]|)
    && (forall n | n in y.fs.dir :: y.fs.dir[n] < |y.fs.data|)
  }

  /**
   * The event feeds the inode from `s` only: by right slices, at whatever offset. A frame without
   * descriptor may create any file but this one.
   */
  ghost predicate Feeds<N>(y: System<N>, e: Event<N>, ino: nat, s: Bytes) {
    e.Frame? && IsOpen(y, e.i) ==>
      var h := y.hs[e.i].value;
      match h.fd
      case Some(fd) => fd.ino == ino && e.offset >= 0 ==> SliceAt(s, e.offset, e.payload)
      case None => h.path in y.fs.dir ==> y.fs.dir[h.path] != ino
  }

  ghost predicate FeedsAll<N>(y: System<N>, es: seq<Event<N>>, ino: nat, s: Bytes) {
    es == [] || (FeedsAll(y, es[..|es| - 1], ino, s) && Feeds(ActAll(y, es[..|es| - 1]), es[|es| - 1], ino, s))
  }

  lemma OverlapFrame<N>(y: System<N>, e: Event<N>, ino: nat, s: Bytes)
    requires Overlap(y, ino, s) && Feeds(y, e, ino, s) && e.Frame? && IsOpen(y, e.i)
    ensures Overlap(Act(y, e), ino, s)
    ensures y.fs.data[ino] <= Act(y, e).fs.data[ino]
  {
    var h := y.hs[e.i].value;
    if h.fd.Some? && h.fd.value.ino == ino && e.offset == h.fd.value.pos {
      WriteKeepsPrefix(s, y.fs.data[ino], h.fd.value.pos, e.payload);
    }
  }

  lemma OverlapStep<N>(y: System<N>, e: Event<N>, ino: nat, s: Bytes)
    requires Overlap(y, ino, s) && Feeds(y, e, ino, s)
    ensures Overlap(Act(y, e), ino, s)
    ensures y.fs.data[ino] <= Act(y, e).fs.data[ino]
  {
    if e.Frame? && IsOpen(y, e.i) {
      OverlapFrame(y, e, ino, s);
    }
  }

  /**
   * Any number of handlers of one existing inode, fed by one source in any interleaving, keep the
   * content a growing prefix of the source and every position within it.
   */
  lemma {:induction false} OverlappingHandlersAgree<N>(y: System<N>, es: seq<Event<N>>, ino: nat, s: Bytes)
    requires Overlap(y, ino, s) && FeedsAll(y, es, ino, s)
    ensures Overlap(ActAll(y, es), ino, s)
    ensures y.fs.data[ino] <= ActAll(y, es).fs.data[ino]
  {
    if es != [] {
      OverlappingHandlersAgree(y, es[..|es| - 1], ino, s);
      OverlapStep(ActAll(y, es[..|es| - 1]), es[|es| - 1], ino, s);
    }
  }

  // ----- exactly-once tiling

  function Joined(ps: seq<Piece>): Bytes {
    if ps == [] then [] else Joined(ps[..|ps| - 1]) + ps[|ps| - 1].payload
  }

  /** The pieces follow each other without gap or overlap, starting at `at`. */
  ghost predicate Tiles(at: nat, ps: seq<Piece>) {
    ps == [] || (Tiles(at, ps[..|ps| - 1]) && ps[|ps| - 1].offset == at + |Joined(ps[..|ps| - 1])|)
  }

  function Initially(base: seq<Bytes>, ino: nat): Bytes {
    if ino < |base| then base[ino] else []
  }

  /** At most one open handler for each inode, and it stands at the end. */
  ghost predicate Exclusive<N>(y: System<N>) {
    && (forall i, j | 0 <= i < j < |y.hs| && y.hs[i].Some? && y.hs[j].Some?
                      && y.hs[i].value.fd.Some? && y.hs[j].value.fd.Some? ::
          y.hs[i].value.fd.value.ino != y.hs[j].value.fd.value.ino)
    && (forall i | 0 <= i < |y.hs| && y.hs[i].Some? && y.hs[i].value.fd.Some? ::
          && y.hs[i].value.fd.value.ino < |y.fs.data|
          && y.hs[i].value.fd.value.pos == |y.fs.data[y.hs[i].value.fd.value.ino]|)
    && (forall n | n in y.fs.dir :: y.fs.dir[n] < |y.fs.data|)
  }

  /** Every inode is what it held at first followed by the accepted payloads, in order, each byte once. */
  ghost predicate Tiled<N>(y: System<N>, base: seq<Bytes>) {
    && |y.log| == |y.fs.data| && |base| <= |y.fs.data|
    && forall k | 0 <= k < |y.log| ::
         && Tiles(|Initially(base, k)|, y.log[k])
         && y.fs.data[k] == Initially(base, k) + Joined(y.log[k])
  }

  /** One handler at a time: nothing opens an inode that is open, nor creates over an existing name. */
  ghost predicate OneAtATime<N>(y: System<N>, e: Event<N>) {
    match e
    case Open(n) =>
      n in y.fs.dir ==> forall i | 0 <= i < |y.hs| && y.hs[i].Some? && y.hs[i].value.fd.Some? ::
                          y.hs[i].value.fd.value.ino != y.fs.dir[n]
    case Frame(i, _, _) => IsOpen(y, i) && y.hs[i].value.fd.None? ==> y.hs[i].value.path !in y.fs.dir
    case _ => true
  }

  ghost predicate OneAtATimeAll<N>(y: System<N>, es: seq<Event<N>>) {
    es == [] || (OneAtATimeAll(y, es[..|es| - 1]) && OneAtATime(ActAll(y, es[..|es| - 1]), es[|es| - 1]))
  }

  lemma JoinMore(ps: seq<Piece>, p: Piece, at: nat)
    requires Tiles(at, ps) && p.offset == at + |Joined(ps)|
    ensures Tiles(at, ps + [p]) && Joined(ps + [p]) == Joined(ps) + p.payload
  {
    assert (ps + [p])[..|ps|] == ps;
  }

  /** Appending a piece to inode `k`. */
  lemma AppendTiles<N>(y: System<N>, y': System<N>, base: seq<Bytes>, k: nat, p: Piece)
    requires Tiled(y, base) && k < |y.fs.data| && p.offset == |y.fs.data[k]|
    requires y'.fs.data == y.fs.data[k := y.fs.data[k] + p.payload] && y'.log == y.log[k := y.log[k] + [p]]
    ensures Tiled(y', base)
  {
    JoinMore(y.log[k], p, |Initially(base, k)|);
  }

  /** A frame through an open descriptor appends to its inode. */
  lemma AppendEffect<N>(y: System<N>, e: Event<N>)
    requires Exclusive(y) && |y.log| == |y.fs.data| && e.Frame? && IsOpen(y, e.i) && y.hs[e.i].value.fd.Some?
    requires e.offset == y.hs[e.i].value.fd.value.pos
    ensures var k, y' := y.hs[e.i].value.fd.value.ino, Act(y, e);
            && k < |y.fs.data| && e.offset == |y.fs.data[k]|
            && y'.fs.data == y.fs.data[k := y.fs.data[k] + e.payload]
            && y'.log == y.log[k := y.log[k] + [Piece(e.offset, e.payload)]]
            && Exclusive(y')
  {
    var k := y.hs[e.i].value.fd.value.ino;
    assert WriteAt(y.fs.data[k], e.offset, e.payload) == y.fs.data[k] + e.payload;
  }

  lemma TileAppend<N>(y: System<N>, base: seq<Bytes>, e: Event<N>)
    requires Exclusive(y) && Tiled(y, base) && e.Frame? && IsOpen(y, e.i) && y.hs[e.i].value.fd.Some?
    ensures Exclusive(Act(y, e)) && Tiled(Act(y, e), base)
  {
    if e.offset == y.hs[e.i].value.fd.value.pos {
      AppendEffect(y, e);
      AppendTiles(y, Act(y, e), base, y.hs[e.i].value.fd.value.ino, Piece(e.offset, e.payload));
    }
  }

  /** A first frame makes a new inode with one piece. */
  lemma CreateEffect<N>(y: System<N>, e: Event<N>)
    requires e.Frame? && e.offset == 0 && IsOpen(y, e.i) && |y.log| == |y.fs.data|
    requires y.hs[e.i].value.fd.None? && y.hs[e.i].value.path !in y.fs.dir
    ensures var h, y' := y.hs[e.i].value, Act(y, e);
            && y'.fs.data == y.fs.data + [e.payload] && y'.log == y.log + [[Piece(0, e.payload)]]
            && y'.hs == y.hs[e.i := Some(h.(fd := Some(Fd(|y.fs.data|, |e.payload|))))]
            && y'.fs.dir == y.fs.dir[h.path := |y.fs.data|]
  {
    assert WriteAt([], 0, e.payload) == e.payload;
    assert Act(y, e).fs.data == y.fs.data + [e.payload];
  }

  lemma CreateTiles<N>(y: System<N>, y': System<N>, base: seq<Bytes>, p: Piece)
    requires Tiled(y, base) && p.offset == 0
    requires y'.fs.data == y.fs.data + [p.payload] && y'.log == y.log + [[p]]
    ensures Tiled(y', base)
  {
    JoinMore([], p, 0);
    assert [] + [p] == [p];
  }

  lemma CreateExclusive<N>(y: System<N>, y': System<N>, i: nat, h: Handler<N>, payload: Bytes)
    requires Exclusive(y) && IsOpen(y, i) && h.fd == Some(Fd(|y.fs.data|, |payload|))
    requires y'.fs.data == y.fs.data + [payload] && y'.hs == y.hs[i := Some(h)]
    requires forall n | n in y'.fs.dir :: (n in y.fs.dir && y'.fs.dir[n] == y.fs.dir[n]) || y'.fs.dir[n] == |y.fs.data|
    ensures Exclusive(y')
  {
  }

  lemma TileCreate<N>(y: System<N>, base: seq<Bytes>, e: Event<N>)
    requires Exclusive(y) && Tiled(y, base) && e.Frame? && IsOpen(y, e.i)
    requires y.hs[e.i].value.fd.None? && y.hs[e.i].value.path !in y.fs.dir
    ensures Exclusive(Act(y, e)) && Tiled(Act(y, e), base)
  {
    if e.offset == 0 {
      CreateEffect(y, e);
      CreateTiles(y, Act(y, e), base, Piece(0, e.payload));
      CreateExclusive(y, Act(y, e), e.i, Act(y, e).hs[e.i].value, e.payload);
    }
  }

  lemma TileFrame<N>(y: System<N>, base: seq<Bytes>, e: Event<N>)
    requires Exclusive(y) && Tiled(y, base) && e.Frame? && OneAtATime(y, e)
    ensures Exclusive(Act(y, e)) && Tiled(Act(y, e), base)
  {
    if IsOpen(y, e.i) {
      if y.hs[e.i].value.fd.Some? {
        TileAppend(y, base, e);
      } else {
        TileCreate(y, base, e);
      }
    }
  }

  lemma TileStep<N>(y: System<N>, base: seq<Bytes>, e: Event<N>)
    requires Exclusive(y) && Tiled(y, base) && OneAtATime(y, e)
    ensures Exclusive(Act(y, e)) && Tiled(Act(y, e), base)
  {
    if e.Frame? {
      TileFrame(y, base, e);
    }
  }

  /** Whatever is sent and rejected, re-sent or renamed, accepted frames tile every file exactly once. */
  lemma {:induction false} AcceptedFramesTile<N>(y: System<N>, base: seq<Bytes>, es: seq<Event<N>>)
    requires Exclusive(y) && Tiled(y, base) && OneAtATimeAll(y, es)
    ensures Exclusive(ActAll(y, es)) && Tiled(ActAll(y, es), base)
  {
    if es != [] {
      AcceptedFramesTile(y, base, es[..|es| - 1]);
      TileStep(ActAll(y, es[..|es| - 1]), base, es[|es| - 1]);
    }
  }

  // ----- tracked names

  /** A rename keeps the tracked name on the descriptor's inode unless it moves another file onto it. */
  lemma RenameTracksExactly<N>(fs: FileSystem<N>, h: Handler<N>, src: N, dst: N)
    requires DirOk(fs) && h.fd.Some? && Tracks(fs, h) && RenameFrame(fs, h, src, dst).Some?
    ensures var s := RenameFrame(fs, h, src, dst).value;
            DirOk(s.fs) && (Tracks(s.fs, s.h) <==> !(src in fs.dir && src != h.path && dst == h.path))
  {
    var s := RenameFrame(fs, h, src, dst).value;
    if src in fs.dir {
      assert forall n :: n in s.fs.dir <==> n == dst || (n in fs.dir && n != src);
    }
  }

  /** The frames of a connection that owns its names: it never moves a file that is not its own onto its name. */
  ghost predicate OwnNames<N>(fs: FileSystem<N>, h: Handler<N>, e: Event<N>) {
    match e
    case Rename(_, src, dst) => !(src in fs.dir && src != h.path && dst == h.path)
    case Frame(_, _, _) => h.fd.None? ==> h.path !in fs.dir
    case _ => true
  }

  /** One connection serving its frames in order; `None` after a rejected one. */
  function Serve<N>(s: Served<N>, es: seq<Event<N>>): Option<Served<N>> {
    if es == [] then Some(s)
    else
      match Serve(s, es[..|es| - 1])
      case None => None
      case Some(m) =>
        match es[|es| - 1]
        case Frame(_, offset, payload) => DataFrame(m.fs, m.h, offset, payload)
        case Rename(_, src, dst) => RenameFrame(m.fs, m.h, src, dst)
        case _ => Some(m)
  }

  ghost predicate OwnNamesAll<N>(s: Served<N>, es: seq<Event<N>>) {
    es == [] || (&& OwnNamesAll(s, es[..|es| - 1])
                 && (Serve(s, es[..|es| - 1]).Some? ==>
                       OwnNames(Serve(s, es[..|es| - 1]).value.fs, Serve(s, es[..|es| - 1]).value.h, es[|es| - 1])))
  }

  /** Once its descriptor is open, a connection always tracks the name its inode has. */
  lemma {:induction false} ConnectionTracks<N>(s: Served<N>, es: seq<Event<N>>)
    requires DirOk(s.fs) && Tracks(s.fs, s.h) && OwnNamesAll(s, es)
    ensures Serve(s, es).Some? ==> DirOk(Serve(s, es).value.fs) && Tracks(Serve(s, es).value.fs, Serve(s, es).value.h)
  {
    if es != [] && Serve(s, es).Some? {
      var front, last := es[..|es| - 1], es[|es| - 1];
      ConnectionTracks(s, front);
      var m := Serve(s, front).value;
      if last.Rename? {
        if m.h.fd.Some? {
          RenameTracksExactly(m.fs, m.h, last.src, last.dst);
        } else if last.src in m.fs.dir {
          assert forall n :: n in Serve(s, es).value.fs.dir <==> n == last.dst || (n in m.fs.dir && n != last.src);
        }
      }
    }
  }

  /** An append after any of that lands in the file under the tracked name, and in no other. */
  lemma AppendLandsInTrackedFile<N>(fs: FileSystem<N>, h: Handler<N>, payload: Bytes)
    requires DirOk(fs) && h.fd.Some? && Tracks(fs, h) && h.fd.value.pos == |fs.data[h.fd.value.ino]|
    ensures var s := DataFrame(fs, h, h.fd.value.pos, payload);
            && s.Some? && s.value.fs.dir == fs.dir
            && s.value.fs.data[fs.dir[h.path]] == fs.data[fs.dir[h.path]] + payload
            && forall n | n in fs.dir && n != h.path :: s.value.fs.data[fs.dir[n]] == fs.data[fs.dir[n]]
  {
  }

  /** Replaying an accepted rename is accepted and changes nothing. */
  lemma RenameIsIdempotent<N>(fs: FileSystem<N>, h: Handler<N>, src: N, dst: N)
    requires RenameFrame(fs, h, src, dst).Some?
    ensures var s := RenameFrame(fs, h, src, dst).value;
            RenameFrame(s.fs, s.h, src, dst) == Some(s)
  {
    var s := RenameFrame(fs, h, src, dst).value;
    if src in fs.dir && src == dst {
      assert s.fs.dir == fs.dir;
      assert (s.fs.dir - {src})[dst := s.fs.dir[src]] == s.fs.dir;
    }
  }

  // ----- a first frame that arrives late

  /**
   * A frame that creates its file applied after another handler has created and filled it cuts the
   * file back, and the other handler's next frame leaves a gap: `a` then `b`, late `a`, then `c`.
   */
  lemma LateCreationLeavesGap<N>(n: N)
    ensures var fs0: FileSystem<N> := FileSystem(map[], []);
            var s1 := DataFrame(fs0, Handler(n, None), 0, [1, 2]).value;
            var s2 := DataFrame(s1.fs, Handler(n, None), 0, [1]);
            && s2.Some? && s2.value.fs.data == [[1]]
            && var s3 := DataFrame(s2.value.fs, s1.h, 2, [3]);
               s3.Some? && s3.value.fs.data == [[1, 0, 3]]
  {
    var fs0: FileSystem<N> := FileSystem(map[], []);
    assert WriteAt([], 0, [1, 2]) == [1, 2] && WriteAt([], 0, [1]) == [1];
    var s1 := DataFrame(fs0, Handler(n, None), 0, [1, 2]).value;
    assert s1.fs.data == [[1, 2]];
    var s2 := DataFrame(s1.fs, Handler(n, None), 0, [1]).value;
    assert s2.fs.data == [[1]];
    assert WriteAt([1], 2, [3]) == [1, 0, 3];
  }
}
