/**
 * From the agent's call to the server's files: the bytes of one call, served by the server's loop
 * on files named by strings, do exactly what the protocol's step does on the names of one path.
 */
module Delivery {
  import opened Prelude
  import opened Names
  import opened Files
  import opened Wire
  import opened Requests

  /** The directory as the server spells it; files of other paths may be there as well. */
  ghost predicate Agrees(base: string, fs: FileSystem<Name>, gs: FileSystem<string>) {
    && gs.data == fs.data
    && (forall n | n in fs.dir :: WellFormed(n))
    && (forall n | WellFormed(n) :: n in fs.dir <==> Render(base, n) in gs.dir)
    && (forall n | n in fs.dir :: gs.dir[Render(base, n)] == fs.dir[n])
  }

  function Spelled(base: string, h: Handler<Name>): Handler<string> {
    Handler(Render(base, h.path), h.fd)
  }

  lemma RenderInjectiveAt(base: string, n: Name)
    requires WellFormed(n)
    ensures forall m | WellFormed(m) && Render(base, m) == Render(base, n) :: m == n
  {
    forall m | WellFormed(m) && Render(base, m) == Render(base, n) ensures m == n {
      RenderInjective(base, m, n);
    }
  }

  /** A handshake opens and reports the same. */
  lemma HandshakeAgrees(base: string, fs: FileSystem<Name>, gs: FileSystem<string>, n: Name, length: nat)
    requires Agrees(base, fs, gs) && WellFormed(n)
    ensures OpenTarget(gs, Render(base, n)) == Spelled(base, OpenTarget(fs, n))
    ensures ReportedLength(gs, Render(base, n)) == ReportedLength(fs, n)
    ensures ReportedPrefix(gs, Render(base, n), length) == ReportedPrefix(fs, n, length)
  {
  }

  lemma DataFrameAgrees(base: string, fs: FileSystem<Name>, gs: FileSystem<string>, h: Handler<Name>, offset: int,
                        payload: Bytes)
    requires Agrees(base, fs, gs) && WellFormed(h.path)
    ensures match DataFrame(fs, h, offset, payload)
            case None => DataFrame(gs, Spelled(base, h), offset, payload).None?
            case Some(s) =>
              && DataFrame(gs, Spelled(base, h), offset, payload).Some?
              && var t := DataFrame(gs, Spelled(base, h), offset, payload).value;
                 Agrees(base, s.fs, t.fs) && t.h == Spelled(base, s.h) && s.h.path == h.path
  {
    RenderInjectiveAt(base, h.path);
  }

  /** Moving an entry between two names of the path. */
  lemma MoveAgrees(base: string, fs: FileSystem<Name>, gs: FileSystem<string>, src: Name, dst: Name)
    requires Agrees(base, fs, gs) && WellFormed(src) && WellFormed(dst) && src in fs.dir
    ensures Render(base, src) in gs.dir
    ensures var a, b := Render(base, src), Render(base, dst);
            Agrees(base, fs.(dir := (fs.dir - {src})[dst := fs.dir[src]]), gs.(dir := (gs.dir - {a})[b := gs.dir[a]]))
  {
    var a, b := Render(base, src), Render(base, dst);
    var dir', gdir' := (fs.dir - {src})[dst := fs.dir[src]], (gs.dir - {a})[b := gs.dir[a]];
    forall n | WellFormed(n)
      ensures n in dir' <==> Render(base, n) in gdir'
      ensures n in dir' ==> gdir'[Render(base, n)] == dir'[n]
    {
      RenderInjective(base, n, src);
      RenderInjective(base, n, dst);
    }
  }

  /** The tracked name follows a rename of itself, however it is spelled. */
  lemma TrackedAgrees(base: string, h: Handler<Name>, src: Name, dst: Name)
    requires WellFormed(h.path) && WellFormed(src)
    ensures (if h.fd.Some? && Render(base, src) == Render(base, h.path) then
               Spelled(base, h).(path := Render(base, dst))
             else Spelled(base, h))
         == Spelled(base, if h.fd.Some? && src == h.path then h.(path := dst) else h)
  {
    RenderInjective(base, src, h.path);
  }

  lemma RenameFrameAgrees(base: string, fs: FileSystem<Name>, gs: FileSystem<string>, h: Handler<Name>, src: Name,
                          dst: Name)
    requires Agrees(base, fs, gs) && WellFormed(h.path) && WellFormed(src) && WellFormed(dst)
    ensures match RenameFrame(fs, h, src, dst)
            case None => RenameFrame(gs, Spelled(base, h), Render(base, src), Render(base, dst)).None?
            case Some(s) =>
              && RenameFrame(gs, Spelled(base, h), Render(base, src), Render(base, dst)).Some?
              && var t := RenameFrame(gs, Spelled(base, h), Render(base, src), Render(base, dst)).value;
                 Agrees(base, s.fs, t.fs) && t.h == Spelled(base, s.h) && WellFormed(s.h.path)
  {
    TrackedAgrees(base, h, src, dst);
    if src in fs.dir {
      MoveAgrees(base, fs, gs, src, dst);
    }
  }

  // ----- one call, from the agent's bytes to the server's files

  lemma OneCommand(z: Codec, gs: FileSystem<string>, h: Handler<string>, c: Command)
    requires GoodCodec(z) && Printable(c)
    ensures var r := HandleCommand(z, gs, h, c);
            ServeStream(z, gs, h, Print(z, c)) == Session(r.fs, r.h, if r.ok then 1 else 0)
  {
    ServePrinted(z, gs, h, c, []);
    assert Print(z, c) + [] == Print(z, c);
  }

  /** `send_data` is acknowledged exactly when the protocol's frame is accepted, with the same effect. */
  lemma DataCallDelivered(z: Codec, base: string, fs: FileSystem<Name>, gs: FileSystem<string>, h: Handler<Name>,
                          offset: nat, content: Bytes)
    requires GoodCodec(z) && Agrees(base, fs, gs) && WellFormed(h.path)
    ensures var s := ServeStream(z, gs, Spelled(base, h), Print(z, DataCommand(z, offset, content)));
            match DataFrame(fs, h, offset, content)
            case None => s == Session(gs, Spelled(base, h), 0)
            case Some(t) => Agrees(base, t.fs, s.fs) && s.h == Spelled(base, t.h) && s.acks == 1
  {
    AgentCommandsPrintable(z, offset, content, "", "");
    OneCommand(z, gs, Spelled(base, h), DataCommand(z, offset, content));
    AgentDataIsDataFrame(z, gs, Spelled(base, h), offset, content);
    DataFrameAgrees(base, fs, gs, h, offset, content);
  }

  /** So is `send_rename`, between any two names the agent can come up with. */
  lemma RenameCallDelivered(z: Codec, base: string, fs: FileSystem<Name>, gs: FileSystem<string>, h: Handler<Name>,
                            src: Name, dst: Name)
    requires GoodCodec(z) && Agrees(base, fs, gs) && SafeSegment(base)
    requires WellFormed(h.path) && WellFormed(src) && WellFormed(dst)
    ensures var s := ServeStream(z, gs, Spelled(base, h),
                                 Print(z, RenameCommand(Render(base, src), Render(base, dst))));
            match RenameFrame(fs, h, src, dst)
            case None => s == Session(gs, Spelled(base, h), 0)
            case Some(t) => Agrees(base, t.fs, s.fs) && s.h == Spelled(base, t.h) && s.acks == 1
  {
    var a, b := Render(base, src), Render(base, dst);
    AgentCommandsPrintable(z, 0, [], a, b);
    OneCommand(z, gs, Spelled(base, h), RenameCommand(a, b));
    RenderSafe(base, src);
    RenderSafe(base, dst);
    AgentRenameIsRenameFrame(z, gs, Spelled(base, h), a, b);
    RenameFrameAgrees(base, fs, gs, h, src, dst);
  }

  /** A call whose bytes do not all arrive is not acknowledged and changes nothing. */
  lemma CutCallNotApplied(z: Codec, base: string, gs: FileSystem<string>, h: Handler<Name>, c: Command, n: nat)
    requires GoodCodec(z) && Printable(c) && n < |Print(z, c)|
    ensures ServeStream(z, gs, Spelled(base, h), Print(z, c)[..n]) == Session(gs, Spelled(base, h), 0)
  {
    TornStreamDoesNothing(z, gs, Spelled(base, h), c, n);
  }
}
