/**
 * The replication protocol for one tailed path, as a machine of atomic steps.
 *
 * The machine holds the local inodes, the server's directory, every segment ever started with
 * the server-side handler of its connection, and the coordinator. `Enabled` says when the code
 * (or the environment) can take a step, `Next` what the step does, and `Hazard` names the kinds
 * of step after which the code can lose track of whose bytes a server file holds.
 */
module Protocol {
  import opened Prelude
  import opened Names
  import opened Markers
  import opened Files

  const CHUNK_SIZE: nat := 0x10_0000

  datatype Conf = Conf(base: string, ephemeral: bool, prefixLength: nat, sha1: Bytes -> string)

  /** The fate of one remote call: the effect on the server and what the agent learns of it. */
  datatype Outcome = Acked | AppliedAckLost | NotApplied | Delayed

  /** What the coordinator asks a live segment to become. */
  datatype Request = Request(name: Name, isOrphan: bool, iso: string)

  /** `up` is lost for good when the server crashes. */
  datatype Conn = Conn(h: Handler<Name>, up: bool)

  datatype Phase = Starting | Stale | Reopening | Running | Done

  datatype Seg = Seg(
    src: nat,                  // the local inode it reads
    target: Name,
    past: seq<Name>,           // its earlier targets, oldest first
    roleLive: bool,
    phase: Phase,
    conn: Option<Conn>,
    pos: nat,                  // file_stream.tell()
    pending: Option<Request>,
    sealed: bool,
    noResume: bool,
    reconnects: nat,           // how often `_reconnect` has succeeded
    prefix: Bytes,             // the local prefix its first handshake compared
    cancelled: bool)           // the coordinator has asked it to stop

  /** A data frame still in the hands of a handler whose client has given up waiting. */
  datatype Late = Late(ino: nat, offset: nat, payload: Bytes)

  datatype Coord = Coord(live: Option<nat>, closing: set<nat>, consumed: set<string>, last: Option<nat>)

  datatype World = World(
    src: seq<Bytes>,           // bytes of every local inode; append-only
    fs: FileSystem<Name>,
    dirs: seq<map<Name, nat>>, // states of the directory since its last successful sync, oldest first
    origin: seq<nat>,          // for each server inode, the local inode whose bytes it was made for
    late: set<Late>,
    marks: Marks,
    taken: set<string>,        // marker timestamps already used on the server at the start
    segs: seq<Seg>,
    coord: Coord)

  datatype Step =
    // environment
    | Grow(i: nat, bytes: Bytes)
    | NewSource
    | Scan(names: seq<string>)
    | ApplyLate(late: Late)
    | Crash(back: nat, kept: set<Name>, cut: seq<nat>)
    // segment k
    | Connect(k: nat, prefix: nat)
    | StaleRename(k: nat, clock: string, out: Outcome, synced: bool)
    | Reopen(k: nat)
    | Send(k: nat, n: nat, out: Outcome)
    | Reconnect(k: nat, seek: bool)
    | SealRename(k: nat, out: Outcome, synced: bool)
    | MarkSealed(k: nat)
    | FinalRename(k: nat, out: Outcome, synced: bool)
    | End(k: nat)
    // coordinator
    | Spawn(i: nat, stat: nat)
    | RequestSeal(req: Request)
    | Rotate(i: nat, stat: nat)
    | Skip(stat: nat)
    | DropDead
    | Reap
    | Cancel(k: nat)

  datatype Actor = Environment | Segment(id: nat) | Coordinator

  function ActorOf(s: Step): Actor {
    match s
    case Grow(_, _) | NewSource | Scan(_) | ApplyLate(_) | Crash(_, _, _) => Environment
    case Connect(k, _) => Segment(k)
    case StaleRename(k, _, _, _) => Segment(k)
    case Reopen(k) => Segment(k)
    case Send(k, _, _) => Segment(k)
    case Reconnect(k, _) => Segment(k)
    case SealRename(k, _, _) => Segment(k)
    case MarkSealed(k) => Segment(k)
    case FinalRename(k, _, _) => Segment(k)
    case End(k) => Segment(k)
    case Spawn(_, _) | RequestSeal(_) | Rotate(_, _) | Skip(_) | DropDead | Reap | Cancel(_) => Coordinator
  }

  // ----- reading the world

  function SourceOf(w: World, i: nat): Bytes {
    if i < |w.src| then w.src[i] else []
  }

  /** What `_read_prefix` returns, and where it leaves the stream. */
  function LocalPrefix(c: Conf, s: Bytes): Bytes {
    s[..Min(c.prefixLength, |s|)]
  }

  /** `n` bytes read at a position. */
  function Chunk(s: Bytes, pos: nat, n: nat): Bytes {
    if pos + n <= |s| then s[pos..pos + n] else []
  }

  predicate InPhase(w: World, k: nat, p: Phase) {
    k < |w.segs| && w.segs[k].phase == p
  }

  predicate IsActive(w: World, k: nat) {
    k < |w.segs| && w.segs[k].phase != Done
  }

  function LiveSeg(w: World): Option<Seg> {
    match w.coord.live
    case Some(k) => if k < |w.segs| then Some(w.segs[k]) else None
    case None => None
  }

  /** The handshake's answer makes the agent treat the live target as somebody else's file. */
  predicate SeesStale(c: Conf, fs: FileSystem<Name>, target: Name, prefix: Bytes) {
    && ReportedLength(fs, target) > 0
    && match ReportedPrefix(fs, target, |prefix|)
       case None => false
       case Some(p) => c.sha1(p) != c.sha1(prefix)
  }

  function StaleName(c: Conf, clock: string): Name {
    if c.ephemeral then FixedOrphan else DatedOrphan(clock)
  }

  /** The seal requests the coordinator can come up with. */
  predicate Chosen(c: Conf, w: World, req: Request) {
    && IsIso(req.iso)
    && if req.isOrphan then req.name == StaleName(c, req.iso)
       else req.name == Sealed(req.iso) && Newest(w.marks.waiting, w.coord.consumed) == Some(req.iso)
  }

  function NewSeg(i: nat): Seg {
    Seg(i, Live, [], true, Starting, None, 0, None, false, false, 0, [], false)
  }

  // ----- what a step does

  function WithSeg(w: World, k: nat, g: Seg): World {
    if k < |w.segs| then w.(segs := w.segs[k := g]) else w
  }

  function Dead(g: Seg): Seg {
    g.(phase := Done, conn := None)
  }

  /** A failed `send_data`: give up when resuming is unsafe, else drop the connection to reconnect. */
  function AfterFailedSend(c: Conf, w: World, g: Seg): Seg {
    if g.noResume then Dead(g) else g.(conn := None, pos := |LocalPrefix(c, SourceOf(w, g.src))|)
  }

  /** `_rename` adopts the destination as its target before it reconnects. */
  function AfterFailedRename(c: Conf, w: World, g: Seg, dst: Name): Seg {
    g.(past := g.past + [g.target], target := dst, conn := None, pos := |LocalPrefix(c, SourceOf(w, g.src))|)
  }

  function FailClosed(c: Conf, g: Seg): bool {
    g.pending.Some? && c.ephemeral && g.pending.value.isOrphan
  }

  /** The end of `_do_seal` and the first line of `_closing_phase`. */
  function NowSealed(c: Conf, g: Seg): Seg {
    g.(roleLive := false, sealed := true, noResume := FailClosed(c, g))
  }

  /** Opening a connection for segment `g` to its target. */
  function Opened(w: World, g: Seg): Option<Conn> {
    Some(Conn(OpenTarget(w.fs, g.target), true))
  }

  /** The server took the call: the connection works and the call was not lost on the way. */
  predicate Delivered(g: Seg, out: Outcome) {
    g.conn.Some? && g.conn.value.up && (out == Acked || out == AppliedAckLost)
  }

  function SendFrame(w: World, g: Seg, n: nat): Option<Served<Name>> {
    if g.conn.Some? then DataFrame(w.fs, g.conn.value.h, g.pos, Chunk(SourceOf(w, g.src), g.pos, n)) else None
  }

  /** `send_data` returns normally. */
  predicate SendAcked(w: World, g: Seg, n: nat, out: Outcome) {
    Delivered(g, out) && out == Acked && SendFrame(w, g, n).Some?
  }

  /** What the server side of a send amounts to. */
  function AfterSend(w: World, g: Seg, n: nat, out: Outcome): World
    requires g.conn.Some?
  {
    var h := g.conn.value.h;
    match SendFrame(w, g, n)
    case None => w
    case Some(s) =>
      if Delivered(g, out) then
        w.(fs := s.fs,
           dirs := if h.fd.Some? then w.dirs else w.dirs + [s.fs.dir],
           origin := if h.fd.Some? then w.origin
                     else if h.path in w.fs.dir && w.fs.dir[h.path] < |w.origin| then
                       w.origin[w.fs.dir[h.path] := g.src]
                     else w.origin + [g.src])
      else if g.conn.value.up && out == Delayed && h.fd.Some? then
        w.(late := w.late + {Late(h.fd.value.ino, g.pos, Chunk(SourceOf(w, g.src), g.pos, n))})
      else w
  }

  /** What the segment makes of it. */
  function SegAfterSend(c: Conf, w: World, g: Seg, n: nat, out: Outcome): Seg {
    if SendAcked(w, g, n, out) then
      g.(conn := Some(Conn(SendFrame(w, g, n).value.h, true)),
         pos := g.pos + |Chunk(SourceOf(w, g.src), g.pos, n)|)
    else AfterFailedSend(c, w, g)
  }

  function NextSend(c: Conf, w: World, k: nat, n: nat, out: Outcome): World
    requires k < |w.segs| && w.segs[k].conn.Some?
  {
    WithSeg(AfterSend(w, w.segs[k], n, out), k, SegAfterSend(c, w, w.segs[k], n, out))
  }

  function RenameCall(w: World, g: Seg, dst: Name): Option<Served<Name>> {
    if g.conn.Some? then RenameFrame(w.fs, g.conn.value.h, g.target, dst) else None
  }

  predicate RenameAcked(w: World, g: Seg, dst: Name, out: Outcome) {
    Delivered(g, out) && out == Acked && RenameCall(w, g, dst).Some?
  }

  function FilesAfterRename(w: World, g: Seg, dst: Name, out: Outcome): FileSystem<Name> {
    if Delivered(g, out) && RenameCall(w, g, dst).Some? then RenameCall(w, g, dst).value.fs else w.fs
  }

  /** The directory is synced after every rename that is accepted; a failure is only logged. */
  function DirsAfterRename(w: World, g: Seg, dst: Name, out: Outcome, synced: bool): seq<map<Name, nat>> {
    if Delivered(g, out) && RenameCall(w, g, dst).Some? then
      (if synced then [] else w.dirs) + [RenameCall(w, g, dst).value.fs.dir]
    else w.dirs
  }

  function SegAfterSealRename(c: Conf, w: World, g: Seg, out: Outcome): Seg
    requires g.pending.Some?
  {
    var dst := g.pending.value.name;
    if RenameAcked(w, g, dst, out) then
      NowSealed(c, g.(past := g.past + [g.target], target := dst,
                      conn := Some(Conn(RenameCall(w, g, dst).value.h, true))))
    else if FailClosed(c, g) then Dead(g)
    else AfterFailedRename(c, w, g, dst)
  }

  /** The name a finished lh-logrotate segment gets, once its hash is known. */
  function FinalName(w: World, g: Seg): Name
    requires g.pending.Some? && g.pending.value.iso in w.marks.shas
  {
    Final(g.pending.value.iso, w.marks.shas[g.pending.value.iso])
  }

  function SegAfterFinalRename(c: Conf, w: World, g: Seg, out: Outcome): Seg
    requires g.pending.Some? && g.pending.value.iso in w.marks.shas
  {
    var dst := FinalName(w, g);
    if RenameAcked(w, g, dst, out) then Dead(g.(past := g.past + [g.target], target := dst))
    else AfterFailedRename(c, w, g, dst)
  }

  function SegAfterStaleRename(c: Conf, w: World, g: Seg, clock: string, out: Outcome): Seg {
    if RenameAcked(w, g, StaleName(c, clock), out) then g.(phase := Reopening, conn := None) else Dead(g)
  }

  /** Segment `k` asks for a rename of its target to `dst` and becomes `g`. */
  function NextRename(w: World, k: nat, dst: Name, out: Outcome, synced: bool, g: Seg): World
    requires k < |w.segs|
  {
    WithSeg(w.(fs := FilesAfterRename(w, w.segs[k], dst, out),
               dirs := DirsAfterRename(w, w.segs[k], dst, out, synced)), k, g)
  }

  /** The first bytes of its inode that segment `k` compares when it has read `n` of them. */
  function PrefixRead(c: Conf, w: World, k: nat, n: nat): Bytes
    requires k < |w.segs|
  {
    var p := LocalPrefix(c, SourceOf(w, w.segs[k].src));
    p[..Min(n, |p|)]
  }

  function NextConnect(c: Conf, w: World, k: nat, prefix: nat): World
    requires k < |w.segs|
  {
    var g, p := w.segs[k], PrefixRead(c, w, k, prefix);
    if g.roleLive && SeesStale(c, w.fs, g.target, p) then
      WithSeg(w, k, g.(conn := Opened(w, g), phase := Stale, pos := |p|, prefix := p))
    else
      WithSeg(Adopt(w, g), k,
              g.(conn := Opened(w, g), phase := Running, pos := ReportedLength(w.fs, g.target), prefix := p))
  }

  /** An existing but empty file becomes the segment's own. */
  function Adopt(w: World, g: Seg): World {
    if g.target in w.fs.dir && Unclaimed(w, w.fs.dir[g.target]) then
      w.(origin := w.origin[w.fs.dir[g.target] := g.src])
    else w
  }

  /** An inode nobody's bytes are in, nor on their way to. */
  predicate Unclaimed(w: World, ino: nat) {
    ino < |w.origin| && Content(w.fs.data, ino) == [] && forall l | l in w.late :: l.ino != ino
  }

  /** The directory state a crash starts from. */
  function DirBack(w: World, back: nat): map<Name, nat> {
    if back < |w.dirs| then w.dirs[back] else map[]
  }

  /** The directory a crash leaves: part of that state. */
  function Restored(w: World, back: nat, kept: set<Name>): map<Name, nat> {
    map n | n in DirBack(w, back) && n in kept :: DirBack(w, back)[n]
  }

  /** The files it leaves: a prefix of each. */
  function CutFiles(w: World, cut: seq<nat>): seq<Bytes> {
    seq(|w.fs.data|, i requires 0 <= i < |w.fs.data| =>
      if i < |cut| then w.fs.data[i][..Min(cut[i], |w.fs.data[i]|)] else w.fs.data[i])
  }

  /** The segment will open its target without comparing anything. */
  predicate OpensBlindly(g: Seg) {
    (g.phase == Running || g.phase == Reopening) && g.target != FixedOrphan
  }

  /** What such segments find under their targets counts as their own from now on. */
  function Reclaimed(segs: seq<Seg>, dir: map<Name, nat>, origin: seq<nat>): seq<nat> {
    if segs == [] then origin
    else
      var rest, g := Reclaimed(segs[..|segs| - 1], dir, origin), segs[|segs| - 1];
      if OpensBlindly(g) && g.target in dir && dir[g.target] < |rest| then rest[dir[g.target] := g.src] else rest
  }

  function NextCrash(w: World, back: nat, kept: set<Name>, cut: seq<nat>): World {
    var dir := Restored(w, back, kept);
    w.(fs := FileSystem(dir, CutFiles(w, cut)),
       dirs := [dir],
       origin := Reclaimed(w.segs, dir, w.origin),
       late := {},
       segs := seq(|w.segs|, i requires 0 <= i < |w.segs| => Disconnected(w.segs[i])))
  }

  function Disconnected(g: Seg): Seg {
    if g.conn.Some? then g.(conn := Some(g.conn.value.(up := false))) else g
  }

  predicate Enabled(c: Conf, w: World, s: Step) {
    match s
    case Grow(i, _) => i < |w.src|
    case NewSource => true
    case Scan(_) => true
    case ApplyLate(l) => l in w.late
    case Crash(back, _, _) => back < |w.dirs|
    case Connect(k, prefix) =>
      InPhase(w, k, Starting) && prefix <= |LocalPrefix(c, SourceOf(w, w.segs[k].src))|
    case StaleRename(k, clock, _, _) => InPhase(w, k, Stale) && IsIso(clock)
    case Reopen(k) => InPhase(w, k, Reopening)
    case Send(k, n, _) =>
      && InPhase(w, k, Running) && w.segs[k].conn.Some?
      && 0 < n <= CHUNK_SIZE && w.segs[k].pos + n <= |SourceOf(w, w.segs[k].src)|
    case Reconnect(k, _) => InPhase(w, k, Running) && w.segs[k].conn.None?
    case SealRename(k, _, _) =>
      && InPhase(w, k, Running) && w.segs[k].conn.Some?
      && w.segs[k].pending.Some? && !w.segs[k].sealed && w.segs[k].past == []
    case MarkSealed(k) =>
      && InPhase(w, k, Running) && w.segs[k].conn.Some?
      && w.segs[k].pending.Some? && !w.segs[k].sealed && w.segs[k].past != []
    case FinalRename(k, _, _) =>
      && InPhase(w, k, Running) && w.segs[k].conn.Some?
      && w.segs[k].sealed && |w.segs[k].past| == 1
      && w.segs[k].pending.Some? && !w.segs[k].pending.value.isOrphan
      && w.segs[k].pending.value.iso in w.marks.shas
    case End(k) => k < |w.segs|
    case Spawn(i, _) => w.coord.live.None? && i < |w.src|
    case RequestSeal(req) => LiveSeg(w).Some? && LiveSeg(w).value.pending.None? && Chosen(c, w, req)
    case Rotate(i, _) =>
      && LiveSeg(w).Some? && LiveSeg(w).value.pending.Some? && i < |w.src|
      && (LiveSeg(w).value.sealed || LiveSeg(w).value.phase == Done)
    case Skip(_) => w.coord.last.Some?
    case DropDead => LiveSeg(w).Some? && LiveSeg(w).value.phase == Done && LiveSeg(w).value.pending.None?
    case Reap => true
    case Cancel(k) => k < |w.segs| && (w.coord.live == Some(k) || k in w.coord.closing)
  }

  function Next(c: Conf, w: World, s: Step): World
    requires Enabled(c, w, s)
  {
    match s
    case Grow(i, bytes) => w.(src := w.src[i := w.src[i] + bytes])
    case NewSource => w.(src := w.src + [[]])
    case Scan(names) => w.(marks := LearnAll(c.base, w.marks, names))
    case ApplyLate(l) =>
      w.(fs := w.fs.(data := SetContent(w.fs.data, l.ino, WriteAt(Content(w.fs.data, l.ino), l.offset, l.payload))),
         late := w.late - {l})
    case Crash(back, kept, cut) => NextCrash(w, back, kept, cut)
    case Connect(k, prefix) => NextConnect(c, w, k, prefix)
    case StaleRename(k, clock, out, synced) =>
      NextRename(w, k, StaleName(c, clock), out, synced, SegAfterStaleRename(c, w, w.segs[k], clock, out))
    case Reopen(k) =>
      var g := w.segs[k];
      WithSeg(w, k, g.(conn := Opened(w, g), phase := Running, pos := ReportedLength(w.fs, g.target)))
    case Send(k, n, out) => NextSend(c, w, k, n, out)
    case Reconnect(k, seek) =>
      var g := w.segs[k];
      WithSeg(w, k, g.(conn := Opened(w, g), pos := if seek then ReportedLength(w.fs, g.target) else g.pos,
                       reconnects := g.reconnects + 1))
    case SealRename(k, out, synced) =>
      NextRename(w, k, w.segs[k].pending.value.name, out, synced, SegAfterSealRename(c, w, w.segs[k], out))
    case MarkSealed(k) => WithSeg(w, k, NowSealed(c, w.segs[k]))
    case FinalRename(k, out, synced) =>
      NextRename(w, k, FinalName(w, w.segs[k]), out, synced, SegAfterFinalRename(c, w, w.segs[k], out))
    case End(k) => WithSeg(w, k, Dead(w.segs[k]))
    case Spawn(i, stat) =>
      w.(segs := w.segs + [NewSeg(i)], coord := w.coord.(live := Some(|w.segs|), last := Some(stat)))
    case RequestSeal(req) =>
      WithSeg(w, w.coord.live.value, LiveSeg(w).value.(pending := Some(req)))
    case Rotate(i, stat) =>
      w.(segs := w.segs + [NewSeg(i)],
         coord := Coord(Some(|w.segs|), w.coord.closing + {w.coord.live.value},
                        w.coord.consumed + {LiveSeg(w).value.pending.value.iso}, Some(stat)))
    case Skip(stat) => w.(coord := w.coord.(last := Some(stat)))
    case DropDead => w.(coord := w.coord.(live := None, last := None))
    case Reap => w.(coord := w.coord.(closing := set k | k in w.coord.closing && IsActive(w, k)))
    case Cancel(k) => WithSeg(w, k, w.segs[k].(cancelled := true))
  }

  // ----- the steps after which the code no longer knows whose bytes a file holds

  /** SHA-1 tells the two prefixes of a handshake apart. */
  predicate NoCollision(c: Conf, f: Bytes, p: Bytes) {
    c.sha1(f[..Min(|p|, |f|)]) == c.sha1(p) ==> f[..Min(|p|, |f|)] == p
  }

  /**
   * A live handshake can tell whether the remote file is its own. There is none; or it is empty and
   * nothing is on its way to it; or the local prefix is not empty, begins no other local inode, and
   * SHA-1 does not confuse it with the beginning of the file.
   */
  predicate CanTell(c: Conf, w: World, k: nat, prefix: nat)
    requires k < |w.segs|
  {
    var g, p := w.segs[k], PrefixRead(c, w, k, prefix);
    g.target in w.fs.dir ==>
      var ino := w.fs.dir[g.target];
      var f := Content(w.fs.data, ino);
      if f == [] then forall l | l in w.late :: l.ino != ino
      else p != [] && NoCollision(c, f, p) && forall i | 0 <= i < |w.src| && i != g.src :: !(p <= w.src[i])
  }

  /** A first append through a handler that has no descriptor and tracks another name than the agent means. */
  predicate DetachedCreate(w: World, k: nat, n: nat, out: Outcome) {
    && k < |w.segs| && w.segs[k].conn.Some?
    && Delivered(w.segs[k], out) && SendFrame(w, w.segs[k], n).Some?
    && w.segs[k].conn.value.h.fd.None? && w.segs[k].conn.value.h.path != w.segs[k].target
  }

  /** A name that is on the server, or that a crash may bring back. */
  predicate Listed(w: World, n: Name) {
    n in w.fs.dir || exists i | 0 <= i < |w.dirs| :: n in w.dirs[i]
  }

  /** A name that should be new is already listed, or about to be. */
  predicate NameTaken(w: World, n: Name) {
    || Listed(w, n)
    || exists j | 0 <= j < |w.segs| ::
         w.segs[j].phase != Done && w.segs[j].pending.Some? && w.segs[j].pending.value.name == n
  }

  /** A crash brings back an entry that a rename has moved or replaced. */
  predicate RollsBack(w: World, back: nat, kept: set<Name>) {
    exists n | n in DirBack(w, back) && n in kept :: n !in w.fs.dir || w.fs.dir[n] != DirBack(w, back)[n]
  }

  /**
   * A crash leaves under the target of a segment that will open it without comparing anything a file
   * that does not begin the segment's inode.
   */
  predicate CrashMixes(w: World, back: nat, kept: set<Name>, cut: seq<nat>) {
    var dir := Restored(w, back, kept);
    exists k | 0 <= k < |w.segs| ::
      && OpensBlindly(w.segs[k]) && w.segs[k].target in dir
      && !(Content(CutFiles(w, cut), dir[w.segs[k].target]) <= SourceOf(w, w.segs[k].src))
  }

  predicate Hazard(c: Conf, w: World, s: Step) {
    match s
    case Crash(back, kept, cut) => CrashMixes(w, back, kept, cut)
    case Connect(k, prefix) => k < |w.segs| && !CanTell(c, w, k, prefix)
    case Send(k, n, out) => DetachedCreate(w, k, n, out)
    case StaleRename(k, clock, _, _) => !c.ephemeral && NameTaken(w, DatedOrphan(clock))
    case RequestSeal(req) =>
      if req.isOrphan then !c.ephemeral && NameTaken(w, req.name) else req.iso in w.taken
    case _ => false
  }

  // ----- runs

  /** The world after taking `steps` in order, if each is enabled in its turn. */
  function Run(c: Conf, w: World, steps: seq<Step>): Option<World> {
    if steps == [] then Some(w)
    else
      match Run(c, w, steps[..|steps| - 1])
      case None => None
      case Some(m) => if Enabled(c, m, steps[|steps| - 1]) then Some(Next(c, m, steps[|steps| - 1])) else None
  }

  /** A run none of whose steps is a hazard. */
  ghost predicate Sound(c: Conf, w: World, steps: seq<Step>) {
    steps == [] ||
    var front := steps[..|steps| - 1];
    && Sound(c, w, front) && Run(c, w, front).Some?
    && Enabled(c, Run(c, w, front).value, steps[|steps| - 1])
    && !Hazard(c, Run(c, w, front).value, steps[|steps| - 1])
  }
}
