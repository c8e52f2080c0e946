/** The server's connection handling, step by step, on a shared disk. */
module Server {
  import opened Prelude
  import opened Names
  import opened Files
  import opened Wire
  import opened Requests
  import opened Durability

  /** A stream reader: what has arrived and not been read yet; no more will come. */
  class Reader {
    var buffer: Bytes

    constructor (bytes: Bytes)
      ensures buffer == bytes
    {
      buffer := bytes;
    }

    method ReadLine() returns (line: Bytes)
      modifies this
      ensures line == old(buffer)[..LineLength(old(buffer))]
      ensures buffer == old(buffer)[LineLength(old(buffer))..]
    {
      var n := 0;
      while n < |buffer| && buffer[n] != NEWLINE
        invariant n <= |buffer| && buffer == old(buffer)
        invariant LineLength(buffer) == n + LineLength(buffer[n..])
      {
        n := n + 1;
      }
      if n < |buffer| {
        n := n + 1;
      }
      line, buffer := buffer[..n], buffer[n..];
    }

    /** `None` when the stream ends first. */
    method ReadExactly(n: nat) returns (bytes: Option<Bytes>)
      modifies this
      ensures n <= |old(buffer)| ==> bytes == Some(old(buffer)[..n]) && buffer == old(buffer)[n..]
      ensures n > |old(buffer)| ==> bytes == None && buffer == []
    {
      if |buffer| < n {
        buffer := [];
        return None;
      }
      bytes, buffer := Some(buffer[..n]), buffer[n..];
    }
  }

  /** The part of a command after its first line. */
  method RecvBody(reader: Reader, z: Codec, header: Header) returns (r: Received)
    requires !header.BadHeader?
    modifies reader
    ensures r == ReceiveBody(z, header, old(reader.buffer))
    ensures r.Got? ==> reader.buffer == r.rest
  {
    if header.metaSize.None? {
      return Got(Command(header.name, None, None), reader.buffer);
    }
    ghost var body, m := reader.buffer, header.metaSize.value;
    var meta := reader.ReadExactly(header.metaSize.value);
    if meta.None? {
      return Torn;
    }
    var json := z.loads(meta.value);
    if json.None? {
      return Malformed;
    }
    if header.dataSize.None? {
      return Got(Command(header.name, json, None), reader.buffer);
    }
    var data := reader.ReadExactly(header.dataSize.value);
    if data.None? {
      return Torn;
    }
    ghost var d := header.dataSize.value;
    assert body[m..][..d] == body[m..m + d] && body[m..][d..] == body[m + d..];
    return Got(Command(header.name, json, data), reader.buffer);
  }

  method RecvCommand(reader: Reader, z: Codec) returns (r: Received)
    modifies reader
    ensures r == Receive(z, old(reader.buffer))
    ensures r.Got? ==> reader.buffer == r.rest
  {
    var line := reader.ReadLine();
    if line == [] {
      return Closed;
    }
    var header := ParseHeader(line);
    if header.BadHeader? {
      return Malformed;
    }
    r := RecvBody(reader, z, header);
  }

  /** The destination directory, with what is known to be on disk. */
  class Disk {
    var dir: map<string, nat>
    var data: seq<Bytes>
    var dirs: seq<map<string, nat>>   // directory states since the last directory sync
    var synced: seq<nat>              // bytes of each inode known to be on disk

    ghost function View(): FileSystem<string>
      reads this
    {
      FileSystem(dir, data)
    }

    ghost function Stored(): Store<string>
      reads this
    {
      Store(View(), dirs, synced)
    }

    /** `os.fsync` of a descriptor. */
    method SyncFile(ino: nat, ok: bool)
      modifies this`synced
      ensures Stored() == Durability.SyncFile(old(Stored()), ino, ok)
    {
      if ok && ino < |synced| {
        synced := synced[ino := |Content(data, ino)|];
      }
    }

    /** `fsync_dir` */
    method SyncDir(ok: bool)
      modifies this`dirs
      ensures Stored() == Durability.SyncDir(old(Stored()), ok)
    {
      if ok {
        dirs := [dir];
      }
    }

    method Rename(src: string, dst: string)
      requires src in dir
      modifies this`dir, this`dirs
      ensures Stored() == StoreRename(old(Stored()), src, dst)
    {
      dir := (dir - {src})[dst := dir[src]];
      dirs := dirs + [dir];
    }

    /** `open('wb+')` */
    method OpenTruncated(name: string) returns (fd: Fd)
      modifies this
      ensures Stored() == StoreCreate(old(Stored()), Handler(name, None))
      ensures Some(fd) == Create(old(View()), Handler(name, None)).h.fd
    {
      if name in dir {
        fd := Fd(dir[name], 0);
        data := SetContent(data, fd.ino, []);
        synced := SetSynced(synced, fd.ino, 0);
      } else {
        fd := Fd(|data|, 0);
        dir := dir[name := |data|];
        data := data + [[]];
        dirs, synced := dirs + [dir], synced + [0];
      }
    }

    method Write(fd: Fd, bytes: Bytes) returns (fd': Fd)
      modifies this
      ensures Stored() == StoreWrite(old(Stored()), Handler("", Some(fd)), bytes)
      ensures fd' == fd.(pos := fd.pos + |bytes|)
    {
      data := SetContent(data, fd.ino, WriteAt(Content(data, fd.ino), fd.pos, bytes));
      synced := SetSynced(synced, fd.ino, Min(Synced(synced, fd.ino), fd.pos));
      fd' := fd.(pos := fd.pos + |bytes|);
    }
  }

  /** One connection being served; several may share a disk. */
  class Connection {
    const disk: Disk
    const z: Codec
    var path: string
    var fd: Option<Fd>

    ghost function View(): Handler<string>
      reads this
    {
      Handler(path, fd)
    }

    /** The opening lines of `serve_client`. */
    constructor (disk: Disk, z: Codec, target: string)
      ensures this.disk == disk && this.z == z
      ensures View() == OpenTarget(disk.View(), target)
    {
      this.disk, this.z, path := disk, z, target;
      fd := if target in disk.dir then Some(Fd(disk.dir[target], |Content(disk.data, disk.dir[target])|)) else None;
    }

    /** What a fresh connection reports of its target. */
    method Report(prefixLength: nat, sha1: Bytes -> string) returns (length: nat, prefixSha1: Option<string>)
      requires View() == OpenTarget(disk.View(), path)
      ensures length == ReportedLength(disk.View(), path)
      ensures match ReportedPrefix(disk.View(), path, prefixLength)
              case None => prefixSha1 == None
              case Some(p) => prefixSha1 == Some(sha1(p))
    {
      if fd.Some? {
        var content := Content(disk.data, fd.value.ino);
        var prefix := content[..Min(prefixLength, |content|)];
        length, prefixSha1 := |content|, if prefix != [] then Some(sha1(prefix)) else None;
      } else {
        length, prefixSha1 := 0, None;
      }
    }

    method ApplyData(meta: Option<Json>, data: Option<Bytes>) returns (ok: bool)
      requires fd.Some?
      modifies this`fd, disk
      ensures Handled(disk.View(), View(), ok) == Requests.ApplyData(z, old(disk.View()), old(View()), meta, data)
    {
      if data.None? || !IsObject(meta) {
        return false;
      }
      var payload := Payload(z, meta.value, data.value);
      if payload.None? || Field(meta.value, "offset") != Int(fd.value.pos) {
        return false;
      }
      var advanced := disk.Write(fd.value, payload.value);
      fd := Some(advanced);
      return true;
    }

    method HandleData(meta: Option<Json>, data: Option<Bytes>) returns (ok: bool)
      modifies this`fd, disk
      ensures Handled(disk.View(), View(), ok) == Requests.HandleData(z, old(disk.View()), old(View()), meta, data)
    {
      if fd.None? {
        if !IsObject(meta) || Field(meta.value, "offset") != Int(0) {
          return false;
        }
        var created := disk.OpenTruncated(path);
        fd := Some(created);
      }
      ok := ApplyData(meta, data);
    }

    /** `fileOk` and `dirOk` say whether the two fsync calls succeed. */
    method HandleRename(meta: Option<Json>, fileOk: bool, dirOk: bool) returns (ok: bool)
      modifies this`path, disk`dir, disk`dirs, disk`synced
      ensures Handled(disk.View(), View(), ok) == Requests.HandleRename(old(disk.View()), old(View()), meta)
      ensures ok ==>
                disk.Stored() == StoreAfterRename(old(disk.Stored()), old(View()), Field(meta.value, "from").s,
                                                  Field(meta.value, "to").s, fileOk, dirOk)
    {
      if !IsObject(meta) || !Field(meta.value, "from").Str? || !Field(meta.value, "to").Str? {
        return false;
      }
      var src, dst := Field(meta.value, "from").s, Field(meta.value, "to").s;
      if !SafeSegment(src) || !SafeSegment(dst) {
        return false;
      }
      var fdFollows := fd.Some? && src == path;
      if src in disk.dir {
        disk.Rename(src, dst);
        if fdFollows {
          disk.SyncFile(fd.value.ino, fileOk);
        }
      } else if dst !in disk.dir {
        return false;
      }
      disk.SyncDir(dirOk);
      if fdFollows {
        path := dst;
      }
      return true;
    }

    /** The command loop; `acks` counts the `ok` replies after the handshake. */
    method Serve(reader: Reader) returns (acks: nat)
      modifies this, disk, reader
      ensures Session(disk.View(), View(), acks)
           == ServeStream(z, old(disk.View()), old(View()), old(reader.buffer))
    {
      acks := 0;
      var open := true;
      ghost var all := ServeStream(z, disk.View(), View(), reader.buffer);
      while open
        invariant open ==>
                    var s := ServeStream(z, disk.View(), View(), reader.buffer);
                    all == s.(acks := acks + s.acks)
        invariant !open ==> all == Session(disk.View(), View(), acks)
        decreases open, |reader.buffer|
      {
        var r := RecvCommand(reader, z);
        if r.Got? {
          var ok := false;
          if r.command.name == DATA {
            ok := HandleData(r.command.meta, r.command.payload);
          } else if r.command.name == RENAME {
            var fileOk: bool, dirOk: bool := *, *;
            ok := HandleRename(r.command.meta, fileOk, dirOk);
          }
          if ok {
            acks := acks + 1;
          } else {
            open := false;
          }
        } else {
          open := false;
        }
      }
    }
  }

  /** The agent's end of a connection. */
  class ClientConnection {
    const z: Codec
    const reader: Reader
    var written: Bytes

    constructor (z: Codec, reader: Reader)
      ensures this.z == z && this.reader == reader && written == []
    {
      this.z, this.reader, written := z, reader, [];
    }

    method WriteCommand(c: Command)
      requires c.meta.Some?
      modifies this
      ensures written == old(written) + Print(z, c)
    {
      var meta := z.dumps(c.meta.value) + [NEWLINE];
      if c.payload.None? {
        written := written + (c.name + [SPACE] + Decimal(|meta|) + [NEWLINE]);
        written := written + meta;
        assert written == old(written) + Print(z, c);
      } else {
        var data := c.payload.value;
        written := written + (c.name + [SPACE] + Decimal(|meta|) + [SPACE] + Decimal(|data|) + [NEWLINE]);
        written := written + meta;
        written := written + data;
        assert HeadLine(c.name, meta, c.payload) == c.name + [SPACE] + Decimal(|meta|) + [SPACE] + Decimal(|data|);
        assert written == old(written) + Print(z, c);
      }
    }

    method SendData(offset: nat, content: Bytes)
      modifies this
      ensures written == old(written) + Print(z, DataCommand(z, offset, content))
    {
      var payload, compression := content, Null;
      var gz := z.gzip(content);
      if |gz| < |content| {
        payload, compression := gz, Str("gzip");
      }
      WriteCommand(Command(DATA, Some(Object(map["offset" := Int(offset), "compression" := compression])),
                           Some(payload)));
    }

    method SendRename(src: string, dst: string)
      modifies this
      ensures written == old(written) + Print(z, RenameCommand(src, dst))
    {
      WriteCommand(Command(RENAME, Some(Object(map["from" := Str(src), "to" := Str(dst)])), None));
    }

    /** The reply half of `_send_command`. */
    method AwaitReply() returns (r: ReplyRead)
      modifies reader
      ensures r == ReadReply(z, old(reader.buffer))
      ensures r.Replied? ==> reader.buffer == r.rest
    {
      var line := reader.ReadLine();
      if line == [] {
        return NoReply;
      }
      if !IsAscii(line) {
        return BadReply;
      }
      var words := Split(line);
      if |words| == 1 {
        return Replied(Reply(words[0], None), reader.buffer);
      }
      if |words| != 2 || !IsDigits(words[1]) {
        return BadReply;
      }
      var size := Number(words[1]);
      if size == 0 {
        return Replied(Reply(words[0], None), reader.buffer);
      }
      var text := reader.ReadExactly(size);
      if text.None? {
        return CutReply;
      }
      var json := z.loads(text.value);
      if json.None? {
        return BadReply;
      }
      return Replied(Reply(words[0], json), reader.buffer);
    }
  }
}
