/** What the server makes of a received command, and of a whole stream of them. */
module Requests {
  import opened Prelude
  import opened Names
  import opened Files
  import opened Wire

  const DATA: Bytes := [100, 97, 116, 97]                 // "data"
  const RENAME: Bytes := [114, 101, 110, 97, 109, 101]    // "rename"

  /** The outcome of one command; a rejected one ends the connection. */
  datatype Handled = Handled(fs: FileSystem<string>, h: Handler<string>, ok: bool)

  /** `metadata.get(key)` of a JSON object. */
  function Field(j: Json, key: string): Value
    requires j.Object?
  {
    if key in j.fields then j.fields[key] else Null
  }

  predicate IsObject(meta: Option<Json>) {
    meta.Some? && meta.value.Object?
  }

  function Payload(z: Codec, j: Json, data: Bytes): Option<Bytes>
    requires j.Object?
  {
    match Field(j, "compression")
    case Null => Some(data)
    case Str(s) =>
      if s == "gzip" then z.decompress(Gzip, data)
      else if s == "lzma" then z.decompress(Lzma, data)
      else if s == "zst" then z.decompress(Zst, data)
      else None
    case _ => None
  }

  /** `apply_data` with an open descriptor. */
  function ApplyData(z: Codec, fs: FileSystem<string>, h: Handler<string>, meta: Option<Json>,
                     data: Option<Bytes>): Handled
    requires h.fd.Some?
  {
    if data.None? || !IsObject(meta) then Handled(fs, h, false)
    else
      match Payload(z, meta.value, data.value)
      case None => Handled(fs, h, false)
      case Some(payload) =>
        if Field(meta.value, "offset") != Int(h.fd.value.pos) then Handled(fs, h, false)
        else
          var s := Write(fs, h, payload);
          Handled(s.fs, s.h, true)
  }

  function HandleData(z: Codec, fs: FileSystem<string>, h: Handler<string>, meta: Option<Json>,
                      data: Option<Bytes>): Handled {
    if h.fd.Some? then ApplyData(z, fs, h, meta, data)
    else if !IsObject(meta) || Field(meta.value, "offset") != Int(0) then Handled(fs, h, false)
    else
      var s := Create(fs, h);
      ApplyData(z, s.fs, s.h, meta, data)
  }

  function HandleRename(fs: FileSystem<string>, h: Handler<string>, meta: Option<Json>): Handled {
    if !IsObject(meta) then Handled(fs, h, false)
    else
      match (Field(meta.value, "from"), Field(meta.value, "to"))
      case (Str(src), Str(dst)) =>
        if !SafeSegment(src) || !SafeSegment(dst) then Handled(fs, h, false)
        else (match RenameFrame(fs, h, src, dst)
              case None => Handled(fs, h, false)
              case Some(s) => Handled(s.fs, s.h, true))
      case _ => Handled(fs, h, false)
  }

  function HandleCommand(z: Codec, fs: FileSystem<string>, h: Handler<string>, c: Command): Handled {
    if c.name == DATA then HandleData(z, fs, h, c.meta, c.payload)
    else if c.name == RENAME then HandleRename(fs, h, c.meta)
    else Handled(fs, h, false)
  }

  /** A connection that has ended: the files, its last state, and how many commands it acknowledged. */
  datatype Session = Session(fs: FileSystem<string>, h: Handler<string>, acks: nat)

  function ServeCommands(z: Codec, fs: FileSystem<string>, h: Handler<string>, cs: seq<Command>): Session
    decreases |cs|
  {
    if cs == [] then Session(fs, h, 0)
    else
      var r := HandleCommand(z, fs, h, cs[0]);
      if !r.ok then Session(r.fs, r.h, 0)
      else
        var s := ServeCommands(z, r.fs, r.h, cs[1..]);
        s.(acks := s.acks + 1)
  }

  /** The loop of `serve_client` on everything still to come. */
  function ServeStream(z: Codec, fs: FileSystem<string>, h: Handler<string>, stream: Bytes): Session
    decreases |stream|
  {
    match Receive(z, stream)
    case Got(c, rest) =>
      var r := HandleCommand(z, fs, h, c);
      if !r.ok then Session(r.fs, r.h, 0)
      else
        var s := ServeStream(z, r.fs, r.h, rest);
        s.(acks := s.acks + 1)
    case _ => Session(fs, h, 0)
  }

  // ----- torn commands

  lemma BareCommandIsRejected(z: Codec, fs: FileSystem<string>, h: Handler<string>, c: Command)
    requires c.meta.None? && c.payload.None?
    ensures HandleCommand(z, fs, h, c) == Handled(fs, h, false)
  {
  }

  lemma TornStreamDoesNothing(z: Codec, fs: FileSystem<string>, h: Handler<string>, c: Command, n: nat)
    requires GoodCodec(z) && Printable(c) && n < |Print(z, c)|
    ensures ServeStream(z, fs, h, Print(z, c)[..n]) == Session(fs, h, 0)
  {
    CutCommandIsHarmless(z, c, n);
    var r := Receive(z, Print(z, c)[..n]);
    if r.Got? {
      BareCommandIsRejected(z, fs, h, r.command);
    }
  }

  /** One printed command, then the rest of the stream. */
  lemma ServePrinted(z: Codec, fs: FileSystem<string>, h: Handler<string>, c: Command, rest: Bytes)
    requires GoodCodec(z) && Printable(c)
    ensures var r := HandleCommand(z, fs, h, c);
            ServeStream(z, fs, h, Print(z, c) + rest) ==
              if !r.ok then Session(r.fs, r.h, 0)
              else ServeStream(z, r.fs, r.h, rest).(acks := ServeStream(z, r.fs, r.h, rest).acks + 1)
  {
    ReceivesPrinted(z, c, rest);
  }

  lemma PrintAllFirst(z: Codec, cs: seq<Command>, t: Bytes)
    requires cs != []
    ensures PrintAll(z, cs) + t == Print(z, cs[0]) + (PrintAll(z, cs[1..]) + t)
  {
  }

  /**
   * A stream that ends strictly inside a command has the effect of exactly the complete commands
   * before it, wherever the cut is.
   */
  lemma {:induction false} TornCommandHasNoEffect(
      z: Codec, fs: FileSystem<string>, h: Handler<string>, cs: seq<Command>, c: Command, n: nat)
    requires GoodCodec(z) && (forall d | d in cs :: Printable(d)) && Printable(c) && n < |Print(z, c)|
    ensures ServeStream(z, fs, h, PrintAll(z, cs) + Print(z, c)[..n]) == ServeCommands(z, fs, h, cs)
    decreases |cs|
  {
    var t := Print(z, c)[..n];
    if cs == [] {
      assert PrintAll(z, cs) + t == t;
      TornStreamDoesNothing(z, fs, h, c, n);
    } else {
      PrintAllFirst(z, cs, t);
      ServePrinted(z, fs, h, cs[0], PrintAll(z, cs[1..]) + t);
      var r := HandleCommand(z, fs, h, cs[0]);
      if r.ok {
        TornCommandHasNoEffect(z, r.fs, r.h, cs[1..], c, n);
      }
    }
  }

  /** A stream that ends between commands has the effect of all of them. */
  lemma {:induction false} WholeStreamIsServed(z: Codec, fs: FileSystem<string>, h: Handler<string>, cs: seq<Command>)
    requires GoodCodec(z) && forall d | d in cs :: Printable(d)
    ensures ServeStream(z, fs, h, PrintAll(z, cs)) == ServeCommands(z, fs, h, cs)
    decreases |cs|
  {
    if cs != [] {
      ReceivesPrinted(z, cs[0], PrintAll(z, cs[1..]));
      var r := HandleCommand(z, fs, h, cs[0]);
      if r.ok {
        WholeStreamIsServed(z, r.fs, r.h, cs[1..]);
      }
    }
  }

  // ----- the agent's commands

  /** `send_data`: compressed only if that is shorter. */
  function DataCommand(z: Codec, offset: nat, content: Bytes): Command {
    var gz := z.gzip(content);
    if |gz| < |content| then
      Command(DATA, Some(Object(map["offset" := Int(offset), "compression" := Str("gzip")])), Some(gz))
    else
      Command(DATA, Some(Object(map["offset" := Int(offset), "compression" := Null])), Some(content))
  }

  /** `send_rename` */
  function RenameCommand(src: string, dst: string): Command {
    Command(RENAME, Some(Object(map["from" := Str(src), "to" := Str(dst)])), None)
  }

  /** A frame never carries more bytes than its content has, and says gzip exactly if gzip is shorter. */
  lemma DataCommandIsShortest(z: Codec, offset: nat, content: Bytes)
    ensures var c := DataCommand(z, offset, content);
            && IsObject(c.meta) && c.payload.Some? && |c.payload.value| == Min(|z.gzip(content)|, |content|)
            && Field(c.meta.value, "offset") == Int(offset)
            && (Field(c.meta.value, "compression") == Str("gzip") <==> |z.gzip(content)| < |content|)
            && (Field(c.meta.value, "compression") != Str("gzip") ==>
                  Field(c.meta.value, "compression") == Null && c.payload == Some(content))
  {
  }

  lemma AgentCommandsPrintable(z: Codec, offset: nat, content: Bytes, src: string, dst: string)
    ensures Printable(DataCommand(z, offset, content)) && Printable(RenameCommand(src, dst))
  {
  }

  /** A data command byte by byte: "data <size> <size>", the metadata with a newline, the payload. */
  lemma DataSpelled(z: Codec, j: Json, payload: Bytes)
    ensures var m := z.dumps(j) + [10];
            Print(z, Command(DATA, Some(j), Some(payload))) ==
              [100, 97, 116, 97] + [32] + Decimal(|m|) + ([32] + Decimal(|payload|)) + [10] + (m + payload)
  {
  }

  /** A rename command: "rename <size>" and the metadata. */
  lemma RenameSpelled(z: Codec, j: Json)
    ensures var m := z.dumps(j) + [10];
            Print(z, Command(RENAME, Some(j), None)) == [114, 101, 110, 97, 109, 101] + [32] + Decimal(|m|) + [10] + m
  {
    var m := z.dumps(j) + [10];
    assert HeadLine(RENAME, m, None) == RENAME + [32] + Decimal(|m|);
  }

  /** A data command of the agent does what the protocol's data frame does, compressed or not. */
  lemma AgentDataIsDataFrame(z: Codec, fs: FileSystem<string>, h: Handler<string>, offset: nat, content: Bytes)
    requires GoodCodec(z)
    ensures var r := HandleCommand(z, fs, h, DataCommand(z, offset, content));
            match DataFrame(fs, h, offset, content)
            case None => r == Handled(fs, h, false)
            case Some(s) => r == Handled(s.fs, s.h, true)
  {
    assert z.decompress(Gzip, z.gzip(content)) == Some(content);
  }

  /** A rename command between acceptable names does what the protocol's rename frame does. */
  lemma AgentRenameIsRenameFrame(z: Codec, fs: FileSystem<string>, h: Handler<string>, src: string, dst: string)
    requires SafeSegment(src) && SafeSegment(dst)
    ensures var r := HandleCommand(z, fs, h, RenameCommand(src, dst));
            match RenameFrame(fs, h, src, dst)
            case None => r == Handled(fs, h, false)
            case Some(s) => r == Handled(s.fs, s.h, true)
  {
  }

  // ----- any command

  /** The three values of the `compression` field, and how the server undoes each. */
  ghost predicate Compressed(z: Codec, name: string, packed: Bytes, content: Bytes) {
    || (name == "gzip" && z.decompress(Gzip, packed) == Some(content))
    || (name == "lzma" && z.decompress(Lzma, packed) == Some(content))
    || (name == "zst" && z.decompress(Zst, packed) == Some(content))
  }

  /** A data command with offset `offset`, compressed as `name` says or not at all. */
  function DataWith(offset: int, name: Option<string>, packed: Bytes): Command {
    Command(DATA, Some(Object(map["offset" := Int(offset),
                                  "compression" := if name.None? then Null else Str(name.value)])), Some(packed))
  }

  /** Whichever codec packed it, what is written is the content and not what travelled. */
  lemma AnyCodecIsUndone(z: Codec, fs: FileSystem<string>, h: Handler<string>, offset: int, name: string,
                         packed: Bytes, content: Bytes)
    requires Compressed(z, name, packed, content)
    ensures HandleCommand(z, fs, h, DataWith(offset, Some(name), packed))
         == HandleCommand(z, fs, h, DataWith(offset, None, content))
    ensures HandleCommand(z, fs, h, DataWith(offset, None, content)).ok
       <==> offset == if h.fd.Some? then h.fd.value.pos else 0
  {
  }

  /** Where the next frame of a connection must start. */
  function NextOffset(h: Handler<string>): int {
    if h.fd.Some? then h.fd.value.pos else 0
  }

  /** The bytes a data command carries, once unpacked. */
  ghost predicate Carries(z: Codec, c: Command, content: Bytes) {
    && IsObject(c.meta) && c.payload.Some?
    && match Field(c.meta.value, "compression")
       case Null => c.payload.value == content
       case Str(name) => Compressed(z, name, c.payload.value, content)
       case _ => false
  }

  /** Whatever the command: it is accepted if and only if it carries some content for the next offset. */
  lemma DataAcceptedExactly(z: Codec, fs: FileSystem<string>, h: Handler<string>, c: Command)
    requires c.name == DATA
    ensures HandleCommand(z, fs, h, c).ok
       <==> (exists content :: Carries(z, c, content)) && Field(c.meta.value, "offset") == Int(NextOffset(h))
  {
    if IsObject(c.meta) && c.payload.Some? && Payload(z, c.meta.value, c.payload.value).Some? {
      assert Carries(z, c, Payload(z, c.meta.value, c.payload.value).value);
    }
  }

  lemma CarriesOne(z: Codec, c: Command, content: Bytes)
    requires Carries(z, c, content)
    ensures Payload(z, c.meta.value, c.payload.value) == Some(content)
  {
  }

  /** Then that content is written where the descriptor is, and nothing else changes. */
  lemma AcceptedAppend(z: Codec, fs: FileSystem<string>, h: Handler<string>, c: Command, content: Bytes)
    requires c.name == DATA && Carries(z, c, content) && HandleCommand(z, fs, h, c).ok
    requires h.fd.Some? && h.fd.value.ino < |fs.data|
    ensures var r, fd := HandleCommand(z, fs, h, c), h.fd.value;
            && r.fs.dir == fs.dir && r.h == h.(fd := Some(Fd(fd.ino, fd.pos + |content|)))
            && r.fs.data == fs.data[fd.ino := WriteAt(fs.data[fd.ino], fd.pos, content)]
            && SliceAt(r.fs.data[fd.ino], fd.pos, content)
  {
    CarriesOne(z, c, content);
  }

  /** On a first frame, the file under the tracked name then holds that content alone. */
  lemma AcceptedFirstFrame(z: Codec, fs: FileSystem<string>, h: Handler<string>, c: Command, content: Bytes)
    requires c.name == DATA && Carries(z, c, content) && HandleCommand(z, fs, h, c).ok
    requires h.fd.None? && DirOk(fs)
    ensures var r := HandleCommand(z, fs, h, c);
            && r.h.path == h.path && r.h.fd == Some(Fd(r.fs.dir[h.path], |content|))
            && (forall n :: n in r.fs.dir <==> n == h.path || n in fs.dir)
            && r.fs.dir[h.path] < |r.fs.data| && r.fs.data[r.fs.dir[h.path]] == content
            && forall n | n in fs.dir && n != h.path ::
                 r.fs.dir[n] == fs.dir[n] && r.fs.data[r.fs.dir[n]] == fs.data[fs.dir[n]]
  {
    CarriesOne(z, c, content);
    assert WriteAt([], 0, content) == content;
  }

  /** A command that is rejected changes nothing but, for a first frame, the file it may have created. */
  lemma RejectedCommandChangesNothing(z: Codec, fs: FileSystem<string>, h: Handler<string>, c: Command)
    requires !HandleCommand(z, fs, h, c).ok && (h.fd.Some? || c.name != DATA)
    ensures HandleCommand(z, fs, h, c) == Handled(fs, h, false)
  {
  }

  /** No other command is known, and none without metadata is accepted. */
  lemma OnlyTwoCommands(z: Codec, fs: FileSystem<string>, h: Handler<string>, c: Command)
    requires HandleCommand(z, fs, h, c).ok
    ensures c.name in {DATA, RENAME} && IsObject(c.meta) && (c.name == DATA ==> c.payload.Some?)
  {
  }

  /**
   * Whatever the command: a rename is accepted if and only if both names are strings that cannot
   * leave the directory and one of them is there. It moves the entry if there is one to move, and
   * touches no other entry and no content.
   */
  lemma RenameAcceptedExactly(z: Codec, fs: FileSystem<string>, h: Handler<string>, c: Command)
    requires c.name == RENAME
    ensures var r := HandleCommand(z, fs, h, c);
            && (r.ok <==> && IsObject(c.meta) && Field(c.meta.value, "from").Str? && Field(c.meta.value, "to").Str?
                          && SafeSegment(Field(c.meta.value, "from").s) && SafeSegment(Field(c.meta.value, "to").s)
                          && (Field(c.meta.value, "from").s in fs.dir || Field(c.meta.value, "to").s in fs.dir))
            && (r.ok ==>
                  var src, dst := Field(c.meta.value, "from").s, Field(c.meta.value, "to").s;
                  && r.fs.data == fs.data && r.h.fd == h.fd && dst in r.fs.dir
                  && r.fs.dir[dst] == (if src in fs.dir then fs.dir[src] else fs.dir[dst])
                  && (src != dst ==> src !in r.fs.dir)
                  && (forall n | n != src && n != dst :: n in r.fs.dir <==> n in fs.dir)
                  && (forall n | n in fs.dir && n != src && n != dst :: r.fs.dir[n] == fs.dir[n])
                  && r.h.path == if h.fd.Some? && h.path == src then dst else h.path)
  {
  }

  /**
   * What a session acknowledges is the longest beginning of its commands in which each is accepted
   * after the ones before it; the first one that is not ends it.
   */
  lemma {:induction false} StopsAtFirstRejected(z: Codec, fs: FileSystem<string>, h: Handler<string>, cs: seq<Command>,
                                                n: nat)
    requires n <= |cs|
    ensures var s, t := ServeCommands(z, fs, h, cs), ServeCommands(z, fs, h, cs[..n]);
            && s.acks <= |cs| && t.acks == (if n < s.acks then n else s.acks)
            && (s.acks == n < |cs| ==>
                  HandleCommand(z, t.fs, t.h, cs[n]) == Handled(s.fs, s.h, false))
            && (s.acks > n ==> HandleCommand(z, t.fs, t.h, cs[n]).ok)
    decreases |cs|
  {
    if n == |cs| {
      assert cs[..n] == cs;
      AcksAreCommands(z, fs, h, cs);
    } else if n == 0 {
      AcksAreCommands(z, fs, h, cs);
    } else {
      var r := HandleCommand(z, fs, h, cs[0]);
      assert cs[..n][1..] == cs[1..][..n - 1];
      if r.ok {
        StopsAtFirstRejected(z, r.fs, r.h, cs[1..], n - 1);
      }
    }
  }

  lemma {:induction false} AcksAreCommands(z: Codec, fs: FileSystem<string>, h: Handler<string>, cs: seq<Command>)
    ensures ServeCommands(z, fs, h, cs).acks <= |cs|
    decreases |cs|
  {
    if cs != [] {
      var r := HandleCommand(z, fs, h, cs[0]);
      if r.ok {
        AcksAreCommands(z, r.fs, r.h, cs[1..]);
      }
    }
  }

  // ----- stray files

  /**
   * A rejected first append is meant to leave no stray file. It does leave one, empty, exactly when
   * its offset is 0: the payload and its compression are looked at only after the file exists.
   */
  lemma RejectedFirstFrameExactly(z: Codec, fs: FileSystem<string>, h: Handler<string>, c: Command)
    requires c.name == DATA && h.fd.None? && h.path !in fs.dir && !HandleCommand(z, fs, h, c).ok
    ensures h.path in HandleCommand(z, fs, h, c).fs.dir
       <==> IsObject(c.meta) && Field(c.meta.value, "offset") == Int(0)
    ensures h.path in HandleCommand(z, fs, h, c).fs.dir ==>
              var fs' := HandleCommand(z, fs, h, c).fs;
              fs' == FileSystem(fs.dir[h.path := |fs.data|], fs.data + [[]])
  {
  }
}
