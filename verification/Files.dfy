/** What the server's file operations do: one directory, its inodes, and open descriptors. */
module Files {
  import opened Prelude

  /** `dir` maps names to inode numbers; an inode stays in `data` after it is unlinked. */
  datatype FileSystem<N(==)> = FileSystem(dir: map<N, nat>, data: seq<Bytes>)

  /** An open descriptor has its own position. */
  datatype Fd = Fd(ino: nat, pos: nat)

  /** One server-side connection: the name it believes it writes, and its descriptor if it has one. */
  datatype Handler<N> = Handler(path: N, fd: Option<Fd>)

  /** The state after an accepted frame. */
  datatype Served<N(==)> = Served(fs: FileSystem<N>, h: Handler<N>)

  function Content(data: seq<Bytes>, ino: nat): Bytes {
    if ino < |data| then data[ino] else []
  }

  function SetContent(data: seq<Bytes>, ino: nat, c: Bytes): seq<Bytes> {
    if ino < |data| then data[ino := c] else data
  }

  /** Every entry names an inode, and no inode has two names. */
  ghost predicate DirOk<N>(fs: FileSystem<N>) {
    && (forall n | n in fs.dir :: fs.dir[n] < |fs.data|)
    && (forall n, m | n in fs.dir && m in fs.dir && fs.dir[n] == fs.dir[m] :: n == m)
  }

  /** Opening the target of a handshake: at the end when it exists, not at all when it does not. */
  function OpenTarget<N>(fs: FileSystem<N>, n: N): Handler<N> {
    if n in fs.dir then Handler(n, Some(Fd(fs.dir[n], |Content(fs.data, fs.dir[n])|)))
    else Handler(n, None)
  }

  /** The length and leading bytes a handshake reports (`None` when there are none). */
  function ReportedLength<N>(fs: FileSystem<N>, n: N): nat {
    if n in fs.dir then |Content(fs.data, fs.dir[n])| else 0
  }

  function ReportedPrefix<N>(fs: FileSystem<N>, n: N, length: nat): Option<Bytes> {
    if n in fs.dir then
      var c := Content(fs.data, fs.dir[n]);
      var p := c[..Min(length, |c|)];
      if p == [] then None else Some(p)
    else None
  }

  /** `open('wb+')`: truncates what the name refers to, or makes a new inode. */
  function Create<N>(fs: FileSystem<N>, h: Handler<N>): Served<N> {
    if h.path in fs.dir then
      Served(fs.(data := SetContent(fs.data, fs.dir[h.path], [])), h.(fd := Some(Fd(fs.dir[h.path], 0))))
    else
      Served(fs.(dir := fs.dir[h.path := |fs.data|], data := fs.data + [[]]),
             h.(fd := Some(Fd(|fs.data|, 0))))
  }

  /** Write at the descriptor's position and advance it. */
  function Write<N>(fs: FileSystem<N>, h: Handler<N>, payload: Bytes): Served<N>
    requires h.fd.Some?
  {
    var fd := h.fd.value;
    Served(fs.(data := SetContent(fs.data, fd.ino, WriteAt(Content(fs.data, fd.ino), fd.pos, payload))),
           h.(fd := Some(fd.(pos := fd.pos + |payload|))))
  }

  /** A well-formed data frame with decompressed payload: accepted only at the descriptor's position. */
  function DataFrame<N>(fs: FileSystem<N>, h: Handler<N>, offset: int, payload: Bytes): Option<Served<N>> {
    if h.fd.None? then
      if offset != 0 then None
      else
        var s := Create(fs, h);
        Some(Write(s.fs, s.h, payload))
    else if offset != h.fd.value.pos then None
    else Some(Write(fs, h, payload))
  }

  /** A rename frame: POSIX rename, or a no-op when only the destination exists. */
  function RenameFrame<N>(fs: FileSystem<N>, h: Handler<N>, src: N, dst: N): Option<Served<N>> {
    var h' := if h.fd.Some? && src == h.path then h.(path := dst) else h;
    if src in fs.dir then Some(Served(fs.(dir := (fs.dir - {src})[dst := fs.dir[src]]), h'))
    else if dst in fs.dir then Some(Served(fs, h'))
    else None
  }

  /** The tracked path names the descriptor's inode. */
  ghost predicate Tracks<N>(fs: FileSystem<N>, h: Handler<N>) {
    h.fd.Some? ==> h.path in fs.dir && fs.dir[h.path] == h.fd.value.ino
  }
}
