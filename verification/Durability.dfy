/** What a crash may leave of the server's files, and why an acknowledged seal survives it. */
module Durability {
  import opened Prelude
  import opened Files

  /**
   * The files as processes see them; the states of the directory since it was last synced, oldest
   * first; and how many bytes of each inode are known to be on disk.
   */
  datatype Store<N(==)> = Store(fs: FileSystem<N>, dirs: seq<map<N, nat>>, synced: seq<nat>)

  ghost predicate StoreOk<N>(st: Store<N>) {
    && DirOk(st.fs)
    && st.dirs != [] && st.dirs[|st.dirs| - 1] == st.fs.dir
    && |st.synced| == |st.fs.data|
    && forall i | 0 <= i < |st.synced| :: st.synced[i] <= |st.fs.data[i]|
  }

  /** A crash leaves one of the unsynced directory states, and of each file at least the synced bytes. */
  ghost predicate CrashLeaves<N>(st: Store<N>, fs': FileSystem<N>) {
    && fs'.dir in st.dirs
    && |fs'.data| == |st.fs.data| == |st.synced|
    && forall i | 0 <= i < |st.fs.data| :: fs'.data[i] <= st.fs.data[i] && |fs'.data[i]| >= st.synced[i]
  }

  function SetSynced(synced: seq<nat>, ino: nat, n: nat): seq<nat> {
    if ino < |synced| then synced[ino := n] else synced
  }

  function Synced(synced: seq<nat>, ino: nat): nat {
    if ino < |synced| then synced[ino] else 0
  }

  /** A write takes what it overwrites off the synced bytes. */
  function StoreWrite<N>(st: Store<N>, h: Handler<N>, payload: Bytes): Store<N>
    requires h.fd.Some?
  {
    var fd := h.fd.value;
    st.(fs := Write(st.fs, h, payload).fs,
        synced := SetSynced(st.synced, fd.ino, Min(Synced(st.synced, fd.ino), fd.pos)))
  }

  function StoreCreate<N>(st: Store<N>, h: Handler<N>): Store<N> {
    if h.path in st.fs.dir then
      st.(fs := Create(st.fs, h).fs, synced := SetSynced(st.synced, st.fs.dir[h.path], 0))
    else
      Store(Create(st.fs, h).fs, st.dirs + [Create(st.fs, h).fs.dir], st.synced + [0])
  }

  function StoreRename<N>(st: Store<N>, src: N, dst: N): Store<N> {
    if src in st.fs.dir then
      var dir := (st.fs.dir - {src})[dst := st.fs.dir[src]];
      st.(fs := st.fs.(dir := dir), dirs := st.dirs + [dir])
    else st
  }

  /** `os.fsync` of a file and of the directory; `ok` is false when it fails, which is only logged. */
  function SyncFile<N>(st: Store<N>, ino: nat, ok: bool): Store<N> {
    if ok then st.(synced := SetSynced(st.synced, ino, |Content(st.fs.data, ino)|)) else st
  }

  function SyncDir<N>(st: Store<N>, ok: bool): Store<N> {
    if ok then st.(dirs := [st.fs.dir]) else st
  }

  /** `handle_rename` on the disk, for a rename that is accepted. */
  function StoreAfterRename<N>(st: Store<N>, h: Handler<N>, src: N, dst: N, fileOk: bool, dirOk: bool): Store<N> {
    var st1 := StoreRename(st, src, dst);
    var st2 := if src in st.fs.dir && h.fd.Some? && src == h.path then SyncFile(st1, h.fd.value.ino, fileOk) else st1;
    SyncDir(st2, dirOk)
  }

  /** Anything that can happen on the disk afterwards. */
  datatype Later<N> =
    | LaterWrite(h: Handler<N>, payload: Bytes)
    | LaterCreate(h: Handler<N>)
    | LaterRename(src: N, dst: N)
    | LaterSyncFile(ino: nat)
    | LaterSyncDir

  function Does<N>(st: Store<N>, e: Later<N>): Store<N> {
    match e
    case LaterWrite(h, payload) => if h.fd.Some? then StoreWrite(st, h, payload) else st
    case LaterCreate(h) => StoreCreate(st, h)
    case LaterRename(src, dst) => StoreRename(st, src, dst)
    case LaterSyncFile(ino) => SyncFile(st, ino, true)
    case LaterSyncDir => SyncDir(st, true)
  }

  function DoesAll<N>(st: Store<N>, es: seq<Later<N>>): Store<N> {
    if es == [] then st else Does(DoesAll(st, es[..|es| - 1]), es[|es| - 1])
  }

  /** It neither gives the name away nor writes into the first `n` bytes of the inode, nor leaves a gap. */
  ghost predicate LeavesAlone<N>(st: Store<N>, e: Later<N>, name: N, ino: nat, n: nat) {
    match e
    case LaterWrite(h, _) =>
      h.fd.Some? && h.fd.value.ino == ino ==> n <= h.fd.value.pos <= |Content(st.fs.data, ino)|
    case LaterCreate(h) => h.path != name
    case LaterRename(src, dst) => src != name && dst != name
    case _ => true
  }

  ghost predicate LeaveAlone<N>(st: Store<N>, es: seq<Later<N>>, name: N, ino: nat, n: nat) {
    es == [] || (LeaveAlone(st, es[..|es| - 1], name, ino, n)
                 && LeavesAlone(DoesAll(st, es[..|es| - 1]), es[|es| - 1], name, ino, n))
  }

  /** In every state a crash may leave, `name` names the inode and the inode starts with `bytes`. */
  ghost predicate Safe<N>(st: Store<N>, name: N, ino: nat, bytes: Bytes) {
    && StoreOk(st) && ino < |st.fs.data|
    && (forall d | d in st.dirs :: name in d && d[name] == ino)
    && bytes <= st.fs.data[ino] && |bytes| <= st.synced[ino]
  }

  lemma SafeSurvivesCrash<N>(st: Store<N>, name: N, ino: nat, bytes: Bytes, fs': FileSystem<N>)
    requires Safe(st, name, ino, bytes) && CrashLeaves(st, fs')
    ensures name in fs'.dir && fs'.dir[name] == ino && ino < |fs'.data| && bytes <= fs'.data[ino]
  {
  }

  lemma WriteStaysSafe<N>(st: Store<N>, h: Handler<N>, payload: Bytes, name: N, ino: nat, bytes: Bytes)
    requires Safe(st, name, ino, bytes) && LeavesAlone(st, LaterWrite(h, payload), name, ino, |bytes|)
    requires h.fd.Some?
    ensures Safe(StoreWrite(st, h, payload), name, ino, bytes)
  {
  }

  lemma RenameStaysSafe<N>(st: Store<N>, src: N, dst: N, name: N, ino: nat, bytes: Bytes)
    requires Safe(st, name, ino, bytes) && src != name && dst != name
    ensures Safe(StoreRename(st, src, dst), name, ino, bytes)
  {
    if src in st.fs.dir {
      var dir := (st.fs.dir - {src})[dst := st.fs.dir[src]];
      assert forall n :: n in dir <==> n == dst || (n in st.fs.dir && n != src);
    }
  }

  lemma CreateStaysSafe<N>(st: Store<N>, h: Handler<N>, name: N, ino: nat, bytes: Bytes)
    requires Safe(st, name, ino, bytes) && h.path != name
    ensures Safe(StoreCreate(st, h), name, ino, bytes)
  {
    assert st.fs.dir in st.dirs;
  }

  lemma StaysSafe<N>(st: Store<N>, e: Later<N>, name: N, ino: nat, bytes: Bytes)
    requires Safe(st, name, ino, bytes) && LeavesAlone(st, e, name, ino, |bytes|)
    ensures Safe(Does(st, e), name, ino, bytes)
  {
    match e
    case LaterWrite(h, payload) =>
      if h.fd.Some? {
        WriteStaysSafe(st, h, payload, name, ino, bytes);
      }
    case LaterCreate(h) => CreateStaysSafe(st, h, name, ino, bytes);
    case LaterRename(src, dst) => RenameStaysSafe(st, src, dst, name, ino, bytes);
    case _ => assert st.fs.dir in st.dirs;
  }

  lemma {:induction false} AllStaySafe<N>(st: Store<N>, es: seq<Later<N>>, name: N, ino: nat, bytes: Bytes)
    requires Safe(st, name, ino, bytes) && LeaveAlone(st, es, name, ino, |bytes|)
    ensures Safe(DoesAll(st, es), name, ino, bytes)
  {
    if es != [] {
      AllStaySafe(st, es[..|es| - 1], name, ino, bytes);
      StaysSafe(DoesAll(st, es[..|es| - 1]), es[|es| - 1], name, ino, bytes);
    }
  }

  lemma RenameSyncs<N>(st: Store<N>, h: Handler<N>, dst: N)
    requires StoreOk(st) && h.fd.Some? && Tracks(st.fs, h)
    ensures var st1, ino := StoreAfterRename(st, h, h.path, dst, true, true), h.fd.value.ino;
            Safe(st1, dst, ino, st.fs.data[ino])
  {
    var st1 := StoreRename(st, h.path, dst);
    assert forall n :: n in st1.fs.dir <==> n == dst || (n in st.fs.dir && n != h.path);
  }

  /**
   * Once a rename that moved the connection's own file is acknowledged with both syncs done, no
   * later crash loses the new name or a byte written before the rename, whatever else goes on.
   */
  lemma AckedSealIsDurable<N>(st: Store<N>, h: Handler<N>, dst: N, es: seq<Later<N>>, fs': FileSystem<N>)
    requires StoreOk(st) && h.fd.Some? && Tracks(st.fs, h)
    requires var st1, ino := StoreAfterRename(st, h, h.path, dst, true, true), h.fd.value.ino;
             LeaveAlone(st1, es, dst, ino, |st.fs.data[ino]|) && CrashLeaves(DoesAll(st1, es), fs')
    ensures var ino := h.fd.value.ino;
            && dst in fs'.dir && fs'.dir[dst] == ino
            && ino < |fs'.data| && st.fs.data[ino] <= fs'.data[ino]
  {
    var st1, ino := StoreAfterRename(st, h, h.path, dst, true, true), h.fd.value.ino;
    RenameSyncs(st, h, dst);
    AllStaySafe(st1, es, dst, ino, st.fs.data[ino]);
    SafeSurvivesCrash(DoesAll(st1, es), dst, ino, st.fs.data[ino], fs');
  }

  /** What is left when nothing unsynced reaches the disk. */
  ghost function Least<N>(st: Store<N>): FileSystem<N>
    requires StoreOk(st)
  {
    FileSystem(st.dirs[0], seq(|st.fs.data|, i requires 0 <= i < |st.fs.data| => st.fs.data[i][..st.synced[i]]))
  }

  /** Every crash leaves the inode under `name` with at least `bytes`. */
  ghost predicate SurvivesCrash<N(!new)>(st: Store<N>, name: N, ino: nat, bytes: Bytes) {
    forall fs' | CrashLeaves(st, fs') ::
      name in fs'.dir && fs'.dir[name] == ino && ino < |fs'.data| && bytes <= fs'.data[ino]
  }

  /** For a fresh name and unsynced bytes both syncs are needed: an acknowledgement alone promises neither. */
  lemma SealIsDurableExactly<N(!new)>(st: Store<N>, h: Handler<N>, dst: N, fileOk: bool, dirOk: bool)
    requires StoreOk(st) && h.fd.Some? && Tracks(st.fs, h)
    requires dst !in st.dirs[0] && st.synced[h.fd.value.ino] < |st.fs.data[h.fd.value.ino]|
    ensures SurvivesCrash(StoreAfterRename(st, h, h.path, dst, fileOk, dirOk), dst, h.fd.value.ino,
                          st.fs.data[h.fd.value.ino])
       <==> fileOk && dirOk
  {
    var st1, ino := StoreAfterRename(st, h, h.path, dst, fileOk, dirOk), h.fd.value.ino;
    if fileOk && dirOk {
      RenameSyncs(st, h, dst);
      forall fs' | CrashLeaves(st1, fs')
        ensures dst in fs'.dir && fs'.dir[dst] == ino && ino < |fs'.data| && st.fs.data[ino] <= fs'.data[ino]
      {
        SafeSurvivesCrash(st1, dst, ino, st.fs.data[ino], fs');
      }
    } else {
      var moved := StoreRename(st, h.path, dst);
      assert forall n :: n in moved.fs.dir <==> n == dst || (n in st.fs.dir && n != h.path);
      var fs' := Least(st1);
      assert CrashLeaves(st1, fs');
      assert !dirOk ==> fs'.dir == st.dirs[0];
      assert !fileOk ==> |fs'.data[ino]| == st.synced[ino];
    }
  }

  /**
   * The directory sync follows every accepted rename, also the repeated one that moves nothing: if an
   * older directory than the present one could still come back, every crash leaves the present one
   * if and only if that sync succeeds.
   */
  lemma AcceptedRenameSyncsExactly<N(!new)>(st: Store<N>, h: Handler<N>, src: N, dst: N, fileOk: bool, dirOk: bool)
    requires StoreOk(st) && RenameFrame(st.fs, h, src, dst).Some?
    ensures var st1, now := StoreAfterRename(st, h, src, dst, fileOk, dirOk), RenameFrame(st.fs, h, src, dst).value.fs;
            st1.fs == now && (st.dirs[0] != now.dir ==>
                                ((forall fs' | CrashLeaves(st1, fs') :: fs'.dir == now.dir) <==> dirOk))
  {
    var st1 := StoreAfterRename(st, h, src, dst, fileOk, dirOk);
    if !dirOk {
      var fs' := FileSystem(st.dirs[0], st.fs.data);
      assert CrashLeaves(st1, fs');
    }
  }
}
