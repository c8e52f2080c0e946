/** The wire format: how commands and replies are printed and read back. */
module Wire {
  import opened Prelude

  const NEWLINE: byte := 10
  const SPACE: byte := 32

  /** JSON values as far as the two programs look at them. */
  datatype Value = Null | Int(i: int) | Str(s: string) | OtherValue
  datatype Json = NotAnObject | Object(fields: map<string, Value>)

  datatype Compression = Gzip | Lzma | Zst

  /** The library functions both sides rely on. */
  datatype Codec = Codec(
    dumps: Json -> Bytes,
    loads: Bytes -> Option<Json>,
    gzip: Bytes -> Bytes,
    decompress: (Compression, Bytes) -> Option<Bytes>)

  /** JSON and gzip are undone by their inverses; whitespace after a JSON text does not matter. */
  ghost predicate GoodCodec(z: Codec) {
    && (forall j :: z.dumps(j) != [] && z.loads(z.dumps(j)) == Some(j) && z.loads(z.dumps(j) + [NEWLINE]) == Some(j))
    && (forall b :: z.decompress(Gzip, z.gzip(b)) == Some(b))
  }

  /** One command; a line with a single word carries no metadata. */
  datatype Command = Command(name: Bytes, meta: Option<Json>, payload: Option<Bytes>)

  // ----- decimal numbers

  predicate IsDigits(s: Bytes) {
    s != [] && forall i | 0 <= i < |s| :: 48 <= s[i] <= 57
  }

  function Decimal(n: nat): Bytes {
    if n < 10 then [(48 + n) as byte] else Decimal(n / 10) + [(48 + n % 10) as byte]
  }

  function Number(s: Bytes): nat
    requires s == [] || IsDigits(s)
  {
    if s == [] then 0
    else
      assert forall i | 0 <= i < |s| - 1 :: s[..|s| - 1][i] == s[i];
      Number(s[..|s| - 1]) * 10 + (s[|s| - 1] - 48) as nat
  }

  lemma {:induction false} DecimalReads(n: nat)
    ensures IsDigits(Decimal(n)) && Number(Decimal(n)) == n
    ensures n > 0 ==> Decimal(n)[0] != 48
  {
    if n >= 10 {
      DecimalReads(n / 10);
      assert Decimal(n)[..|Decimal(n)| - 1] == Decimal(n / 10);
    } else {
      assert Decimal(n)[..0] == [];
    }
  }

  /** A size as it is spelled. */
  lemma SizeSpelled()
    ensures Decimal(0) == [48] && Decimal(1048576) == [49, 48, 52, 56, 53, 55, 54]
  {
    assert Decimal(1048) == [49, 48, 52, 56];
    assert Decimal(104857) == [49, 48, 52, 56, 53, 55];
  }

  /** A number that does not start with a zero is not zero, even when it is cut off. */
  lemma {:induction false} CutNumberIsPositive(s: Bytes)
    requires IsDigits(s) && s[0] != 48
    ensures Number(s) > 0
  {
    if |s| > 1 {
      var front := s[..|s| - 1];
      assert forall i | 0 <= i < |front| :: front[i] == s[i];
      CutNumberIsPositive(front);
    } else {
      assert s[..0] == [];
    }
  }

  // ----- words

  /** What `str.split` splits an ASCII string at. */
  predicate IsBlank(b: byte) {
    9 <= b <= 13 || 28 <= b <= 32
  }

  predicate IsAscii(s: Bytes) {
    forall i | 0 <= i < |s| :: s[i] < 128
  }

  /** A word: not empty, ASCII, nothing to split at. */
  predicate IsWord(s: Bytes) {
    s != [] && IsAscii(s) && forall i | 0 <= i < |s| :: !IsBlank(s[i])
  }

  function WordLength(s: Bytes): (n: nat)
    ensures n <= |s|
    ensures forall i | 0 <= i < n :: !IsBlank(s[i])
    ensures n < |s| ==> IsBlank(s[n])
  {
    if s == [] || IsBlank(s[0]) then 0 else 1 + WordLength(s[1..])
  }

  function Split(s: Bytes): seq<Bytes>
    decreases |s|
  {
    if s == [] then []
    else if IsBlank(s[0]) then Split(s[1..])
    else [s[..WordLength(s)]] + Split(s[WordLength(s)..])
  }

  lemma SplitWord(word: Bytes, rest: Bytes)
    requires IsWord(word) && (rest == [] || IsBlank(rest[0]))
    ensures Split(word + rest) == [word] + Split(rest)
  {
    var s := word + rest;
    assert forall i | 0 <= i < |word| :: s[i] == word[i] && !IsBlank(s[i]);
    assert |word| < |s| ==> IsBlank(s[|word|]);
    assert WordLength(s) == |word|;
    assert s[..|word|] == word && s[|word|..] == rest;
  }

  lemma SplitBlank(b: byte, rest: Bytes)
    requires IsBlank(b)
    ensures Split([b] + rest) == Split(rest)
  {
    assert ([b] + rest)[1..] == rest;
  }

  /** What may follow the last word of a line. */
  predicate IsLineEnd(end: Bytes) {
    end == [] || end == [SPACE] || end == [NEWLINE]
  }

  /** One, two or three words separated by single spaces, with or without the newline. */
  lemma SplitOne(a: Bytes, end: Bytes)
    requires IsWord(a) && IsLineEnd(end)
    ensures Split(a + end) == [a]
  {
    if end != [] {
      SplitBlank(end[0], []);
      assert end == [end[0]] + [];
    }
    SplitWord(a, end);
  }

  lemma SplitMore(a: Bytes, tail: Bytes)
    requires IsWord(a)
    ensures Split(a + [SPACE] + tail) == [a] + Split(tail)
  {
    SplitBlank(SPACE, tail);
    SplitWord(a, [SPACE] + tail);
    assert a + [SPACE] + tail == a + ([SPACE] + tail);
  }

  lemma SplitTwo(a: Bytes, b: Bytes, end: Bytes)
    requires IsWord(a) && IsWord(b) && IsLineEnd(end)
    ensures Split(a + [SPACE] + b + end) == [a, b]
  {
    SplitOne(b, end);
    SplitMore(a, b + end);
    assert a + [SPACE] + b + end == a + [SPACE] + (b + end);
  }

  lemma Regroup(x: Bytes, b: Bytes, s: Bytes, c: Bytes, end: Bytes)
    ensures x + b + s + c + end == x + (b + s + c + end)
  {
    assert x + b + s == x + (b + s);
    assert x + (b + s) + c == x + (b + s + c);
  }

  lemma SplitThree(a: Bytes, b: Bytes, c: Bytes, end: Bytes)
    requires IsWord(a) && IsWord(b) && IsWord(c) && IsLineEnd(end)
    ensures Split(a + [SPACE] + b + [SPACE] + c + end) == [a, b, c]
  {
    var tail := b + [SPACE] + c + end;
    SplitTwo(b, c, end);
    SplitMore(a, tail);
    Regroup(a + [SPACE], b, [SPACE], c, end);
    assert [a] + [b, c] == [a, b, c];
  }

  // ----- printing

  function Size(d: Option<Bytes>): Bytes {
    match d
    case None => []
    case Some(b) => [SPACE] + Decimal(|b|)
  }

  function HeadLine(name: Bytes, meta: Bytes, payload: Option<Bytes>): Bytes {
    name + [SPACE] + Decimal(|meta|) + Size(payload)
  }

  function Body(meta: Bytes, payload: Option<Bytes>): Bytes {
    match payload
    case None => meta
    case Some(b) => meta + b
  }

  function MetaText(z: Codec, c: Command): Bytes {
    match c.meta
    case None => [NEWLINE]
    case Some(j) => z.dumps(j) + [NEWLINE]
  }

  /** What `_send_command` writes. */
  function Print(z: Codec, c: Command): Bytes {
    HeadLine(c.name, MetaText(z, c), c.payload) + [NEWLINE] + Body(MetaText(z, c), c.payload)
  }

  function PrintAll(z: Codec, cs: seq<Command>): Bytes {
    if cs == [] then [] else Print(z, cs[0]) + PrintAll(z, cs[1..])
  }

  /** The commands an agent can send. */
  predicate Printable(c: Command) {
    IsWord(c.name) && c.meta.Some?
  }

  // ----- reading

  /** The length of `readline`'s result: through the first newline, or all there is. */
  function LineLength(s: Bytes): (n: nat)
    ensures n <= |s| && (s != [] ==> n > 0)
    ensures forall i | 0 <= i < n - 1 :: s[i] != NEWLINE
    ensures n == |s| || s[n - 1] == NEWLINE
  {
    if s == [] then 0 else if s[0] == NEWLINE then 1 else 1 + LineLength(s[1..])
  }

  datatype Received =
    | Closed                               // end of stream between commands
    | Malformed                            // a line or metadata that cannot be parsed
    | Torn                                 // end of stream inside a command
    | Got(command: Command, rest: Bytes)

  /** What the words of a line ask for: the name, and the sizes of metadata and payload if given. */
  datatype Header = BadHeader | Header(name: Bytes, metaSize: Option<nat>, dataSize: Option<nat>)

  function ParseHeader(line: Bytes): Header {
    if !IsAscii(line) then BadHeader
    else
      var w := Split(line);
      if |w| == 1 then Header(w[0], None, None)
      else if |w| == 2 && IsDigits(w[1]) then Header(w[0], Some(Number(w[1])), None)
      else if |w| == 3 && IsDigits(w[1]) && IsDigits(w[2]) then Header(w[0], Some(Number(w[1])), Some(Number(w[2])))
      else BadHeader
  }

  /** The part of `recv_command` after its line has been parsed. */
  function ReceiveBody(z: Codec, h: Header, s: Bytes): Received
    requires h.Header?
  {
    match h.metaSize
    case None => Got(Command(h.name, None, None), s)
    case Some(m) =>
      if |s| < m then Torn
      else
        match z.loads(s[..m])
        case None => Malformed
        case Some(j) =>
          match h.dataSize
          case None => Got(Command(h.name, Some(j), None), s[m..])
          case Some(d) =>
            if |s| - m < d then Torn
            else Got(Command(h.name, Some(j), Some(s[m..m + d])), s[m + d..])
  }

  /** `recv_command` on everything still to come. */
  function Receive(z: Codec, s: Bytes): (r: Received)
    ensures r.Got? ==> |r.rest| < |s|
  {
    if s == [] then Closed
    else
      var n := LineLength(s);
      var h := ParseHeader(s[..n]);
      if h.BadHeader? then Malformed else ReceiveBody(z, h, s[n..])
  }

  /** All commands until the stream ends or makes no sense, and how it ended. */
  function ReceiveAll(z: Codec, s: Bytes): (seq<Command>, Received)
    decreases |s|
  {
    match Receive(z, s)
    case Got(c, rest) => var (cs, end) := ReceiveAll(z, rest); ([c] + cs, end)
    case end => ([], end)
  }

  // ----- reading undoes printing

  lemma LineOf(line: Bytes, rest: Bytes)
    requires forall i | 0 <= i < |line| :: line[i] != NEWLINE
    ensures LineLength(line + [NEWLINE] + rest) == |line| + 1
    ensures LineLength(line) == |line|
  {
    var s := line + [NEWLINE] + rest;
    assert forall i | 0 <= i < |line| :: s[i] == line[i];
    assert s[|line|] == NEWLINE;
  }

  lemma DecimalIsWord(n: nat)
    ensures IsWord(Decimal(n)) && IsDigits(Decimal(n))
  {
    DecimalReads(n);
  }

  lemma WordIsLine(w: Bytes)
    requires IsWord(w)
    ensures forall i | 0 <= i < |w| :: w[i] != NEWLINE
  {
  }

  lemma HeadLineIsLine(name: Bytes, meta: Bytes, payload: Option<Bytes>)
    requires IsWord(name)
    ensures var line := HeadLine(name, meta, payload);
            IsAscii(line) && forall i | 0 <= i < |line| :: line[i] != NEWLINE
  {
    DecimalIsWord(|meta|);
    WordIsLine(name);
    WordIsLine(Decimal(|meta|));
    if payload.Some? {
      DecimalIsWord(|payload.value|);
      WordIsLine(Decimal(|payload.value|));
    }
  }

  function SizeOf(payload: Option<Bytes>): Option<nat> {
    match payload
    case None => None
    case Some(b) => Some(|b|)
  }

  lemma HeadLineWords(name: Bytes, meta: Bytes, payload: Option<Bytes>)
    requires IsWord(name)
    ensures Split(HeadLine(name, meta, payload) + [NEWLINE]) ==
              match payload
              case None => [name, Decimal(|meta|)]
              case Some(b) => [name, Decimal(|meta|), Decimal(|b|)]
  {
    var m := Decimal(|meta|);
    DecimalIsWord(|meta|);
    match payload
    case None =>
      assert HeadLine(name, meta, payload) == name + [SPACE] + m;
      SplitTwo(name, m, [NEWLINE]);
    case Some(b) =>
      DecimalIsWord(|b|);
      assert HeadLine(name, meta, payload) == name + [SPACE] + m + [SPACE] + Decimal(|b|);
      SplitThree(name, m, Decimal(|b|), [NEWLINE]);
  }

  lemma WordsParse(line: Bytes, name: Bytes, m: Bytes, d: Option<Bytes>)
    requires IsAscii(line) && IsDigits(m) && (d.Some? ==> IsDigits(d.value))
    requires Split(line) == match d case None => [name, m] case Some(x) => [name, m, x]
    ensures ParseHeader(line) == Header(name, Some(Number(m)),
                                        match d case None => None case Some(x) => Some(Number(x)))
  {
  }

  lemma HeadLineParses(name: Bytes, meta: Bytes, payload: Option<Bytes>)
    requires IsWord(name)
    ensures ParseHeader(HeadLine(name, meta, payload) + [NEWLINE]) == Header(name, Some(|meta|), SizeOf(payload))
  {
    var line := HeadLine(name, meta, payload) + [NEWLINE];
    HeadLineIsLine(name, meta, payload);
    HeadLineWords(name, meta, payload);
    DecimalReads(|meta|);
    match payload
    case None => WordsParse(line, name, Decimal(|meta|), None);
    case Some(b) =>
      DecimalReads(|b|);
      WordsParse(line, name, Decimal(|meta|), Some(Decimal(|b|)));
  }

  /** A printed command, whatever follows it, is received as it was sent. */
  lemma ReceivesPrinted(z: Codec, c: Command, rest: Bytes)
    requires GoodCodec(z) && Printable(c)
    ensures Receive(z, Print(z, c) + rest) == Got(c, rest)
  {
    var meta := MetaText(z, c);
    var line, body := HeadLine(c.name, meta, c.payload), Body(meta, c.payload);
    var s := Print(z, c) + rest;
    assert s == line + [NEWLINE] + (body + rest);
    HeadLineParses(c.name, meta, c.payload);
    HeadLineIsLine(c.name, meta, c.payload);
    LineOf(line, body + rest);
    assert s[..|line| + 1] == line + [NEWLINE];
    assert s[|line| + 1..] == body + rest;
    BodyReceived(z, c, rest);
  }

  lemma BodyReceived(z: Codec, c: Command, rest: Bytes)
    requires GoodCodec(z) && Printable(c)
    ensures var meta := MetaText(z, c);
            ReceiveBody(z, Header(c.name, Some(|meta|), SizeOf(c.payload)),
                        Body(meta, c.payload) + rest) == Got(c, rest)
  {
    var meta := MetaText(z, c);
    var s := Body(meta, c.payload) + rest;
    assert s[..|meta|] == meta;
    match c.payload
    case None => assert s[|meta|..] == rest;
    case Some(b) =>
      assert s[|meta|..|meta| + |b|] == b;
      assert s[|meta| + |b|..] == rest;
  }

  /** Every sequence of commands comes back as it was sent, with nothing left over. */
  lemma {:induction false} ReceivesAllPrinted(z: Codec, cs: seq<Command>)
    requires GoodCodec(z) && forall c | c in cs :: Printable(c)
    ensures ReceiveAll(z, PrintAll(z, cs)) == (cs, Closed)
  {
    if cs != [] {
      var first, others := cs[0], cs[1..];
      assert cs == [first] + others;
      ReceivesAllPrinted(z, others);
      ReceivesPrinted(z, first, PrintAll(z, others));
      ReceiveAllStep(z, PrintAll(z, cs), first, PrintAll(z, others));
    }
  }

  lemma ReceiveAllStep(z: Codec, s: Bytes, c: Command, rest: Bytes)
    requires Receive(z, s) == Got(c, rest)
    ensures ReceiveAll(z, s) == ([c] + ReceiveAll(z, rest).0, ReceiveAll(z, rest).1)
  {
  }

  // ----- a command cut off by the end of the stream

  /** Nothing is received from a cut-off command, unless its line is cut within or after the first word. */
  predicate Harmless(r: Received) {
    r.Got? ==> r.command.meta.None? && r.command.payload.None? && r.rest == []
  }

  lemma CutWord(w: Bytes, n: nat)
    requires IsWord(w) && 0 < n <= |w|
    ensures IsWord(w[..n]) && (IsDigits(w) ==> IsDigits(w[..n]))
  {
  }

  /** A header that shows no metadata size shows none at all, and otherwise one that is not zero. */
  predicate WantsMore(h: Header) {
    h.Header? && if h.metaSize.None? then h.dataSize.None? else h.metaSize.value > 0
  }

  lemma CutInName(name: Bytes, n: nat)
    requires IsWord(name) && 0 < n <= |name|
    ensures WantsMore(ParseHeader(name[..n])) && WantsMore(ParseHeader(name[..n] + [SPACE]))
  {
    CutWord(name, n);
    SplitOne(name[..n], []);
    assert name[..n] + [] == name[..n];
    SplitOne(name[..n], [SPACE]);
  }

  lemma CutInMetaSize(name: Bytes, m: Bytes)
    requires IsWord(name) && IsWord(m) && IsDigits(m) && m[0] != 48
    ensures WantsMore(ParseHeader(name + [SPACE] + m)) && WantsMore(ParseHeader(name + [SPACE] + m + [SPACE]))
  {
    CutNumberIsPositive(m);
    SplitTwo(name, m, []);
    assert name + [SPACE] + m + [] == name + [SPACE] + m;
    SplitTwo(name, m, [SPACE]);
  }

  lemma CutInDataSize(name: Bytes, m: Bytes, d: Bytes)
    requires IsWord(name) && IsWord(m) && IsDigits(m) && m[0] != 48 && IsWord(d) && IsDigits(d)
    ensures WantsMore(ParseHeader(name + [SPACE] + m + [SPACE] + d))
  {
    CutNumberIsPositive(m);
    SplitThree(name, m, d, []);
    assert name + [SPACE] + m + [SPACE] + d + [] == name + [SPACE] + m + [SPACE] + d;
  }

  lemma CutOfFirst(a: Bytes, b: Bytes, n: nat)
    requires n <= |a|
    ensures (a + b)[..n] == a[..n]
  {
  }

  lemma CutBeforeDataSize(name: Bytes, m: Bytes, n: nat)
    requires IsWord(name) && IsWord(m) && IsDigits(m) && m[0] != 48
    requires 0 < n <= |name| + |m| + 2
    ensures WantsMore(ParseHeader((name + [SPACE] + m + [SPACE])[..n]))
  {
    var t := (name + [SPACE] + m + [SPACE])[..n];
    if n <= |name| + 1 {
      var k := Min(n, |name|);
      assert t == if n <= |name| then name[..k] else name[..k] + [SPACE];
      CutInName(name, k);
    } else {
      var k := Min(n - |name| - 1, |m|);
      assert t == if n <= |name| + 1 + |m| then name + [SPACE] + m[..k] else name + [SPACE] + m[..k] + [SPACE];
      CutWord(m, k);
      CutInMetaSize(name, m[..k]);
    }
  }

  lemma CutBehindMetaSize(name: Bytes, m: Bytes, d: Bytes, n: nat)
    requires IsWord(name) && IsWord(m) && IsDigits(m) && m[0] != 48 && IsWord(d) && IsDigits(d)
    requires |name| + |m| + 2 < n <= |name| + |m| + 2 + |d|
    ensures WantsMore(ParseHeader((name + [SPACE] + m + [SPACE] + d)[..n]))
  {
    var k := n - |name| - |m| - 2;
    assert (name + [SPACE] + m + [SPACE] + d)[..n] == name + [SPACE] + m + [SPACE] + d[..k];
    CutWord(d, k);
    CutInDataSize(name, m, d[..k]);
  }

  lemma CutBareLine(name: Bytes, m: Bytes, n: nat)
    requires IsWord(name) && IsWord(m) && IsDigits(m) && m[0] != 48 && 0 < n <= |name| + |m| + 1
    ensures WantsMore(ParseHeader((name + [SPACE] + m)[..n]))
  {
    CutOfFirst(name + [SPACE] + m, [SPACE], n);
    CutBeforeDataSize(name, m, n);
  }

  lemma CutFullLine(name: Bytes, m: Bytes, d: Bytes, n: nat)
    requires IsWord(name) && IsWord(m) && IsDigits(m) && m[0] != 48 && IsWord(d) && IsDigits(d)
    requires 0 < n <= |name| + |m| + 2 + |d|
    ensures WantsMore(ParseHeader((name + [SPACE] + m + [SPACE] + d)[..n]))
  {
    if n <= |name| + |m| + 2 {
      CutOfFirst(name + [SPACE] + m + [SPACE], d, n);
      CutBeforeDataSize(name, m, n);
    } else {
      CutBehindMetaSize(name, m, d, n);
    }
  }

  /** A line cut before its newline: the metadata size it shows, if any, is not zero. */
  lemma CutLine(name: Bytes, meta: Bytes, payload: Option<Bytes>, n: nat)
    requires IsWord(name) && meta != [] && 0 < n <= |HeadLine(name, meta, payload)|
    ensures WantsMore(ParseHeader(HeadLine(name, meta, payload)[..n]))
  {
    var m := Decimal(|meta|);
    DecimalReads(|meta|);
    DecimalIsWord(|meta|);
    match payload
    case None =>
      assert HeadLine(name, meta, payload) == name + [SPACE] + m;
      CutBareLine(name, m, n);
    case Some(b) =>
      DecimalIsWord(|b|);
      assert HeadLine(name, meta, payload) == name + [SPACE] + m + [SPACE] + Decimal(|b|);
      CutFullLine(name, m, Decimal(|b|), n);
  }

  /** A command of which the stream ends before the last byte yields nothing that could be applied. */
  lemma CutCommandIsHarmless(z: Codec, c: Command, n: nat)
    requires GoodCodec(z) && Printable(c) && n < |Print(z, c)|
    ensures Harmless(Receive(z, Print(z, c)[..n]))
  {
    var meta := MetaText(z, c);
    var line, body := HeadLine(c.name, meta, c.payload), Body(meta, c.payload);
    var t := Print(z, c)[..n];
    HeadLineParses(c.name, meta, c.payload);
    HeadLineIsLine(c.name, meta, c.payload);
    if n == 0 {
    } else if n <= |line| {
      assert t == line[..n];
      CutLine(c.name, meta, c.payload, n);
      LineOf(t, []);
      assert t[..n] == t && t[n..] == [];
    } else {
      var x := body[..n - |line| - 1];
      assert t == line + [NEWLINE] + x;
      LineOf(line, x);
      assert t[..|line| + 1] == line + [NEWLINE] && t[|line| + 1..] == x;
      if |x| >= |meta| {
        assert x[..|meta|] == meta;
      }
    }
  }

  // ----- replies

  datatype Reply = Reply(status: Bytes, payload: Option<Json>)

  datatype ReplyRead =
    | NoReply                              // the server closed the connection first
    | BadReply
    | CutReply
    | Replied(reply: Reply, rest: Bytes)

  /** What `send_reply` writes. */
  function PrintReply(z: Codec, r: Reply): Bytes {
    match r.payload
    case None => r.status + [NEWLINE]
    case Some(j) => r.status + [SPACE] + Decimal(|z.dumps(j)|) + [NEWLINE] + z.dumps(j)
  }

  /** The two replies to a command of the agent byte by byte: "ok", and "ok <size>" with a JSON text. */
  lemma ReplySpelled(z: Codec, j: Json)
    ensures PrintReply(z, Reply([111, 107], None)) == [111, 107, 10]
    ensures PrintReply(z, Reply([111, 107], Some(j))) == [111, 107, 32] + Decimal(|z.dumps(j)|) + [10] + z.dumps(j)
  {
    assert [111, 107] + [32] == [111 as byte, 107, 32];
  }

  /** The part of `_send_command` after the words of the reply line are known. */
  function ReplyBody(z: Codec, w: seq<Bytes>, s: Bytes): ReplyRead {
    if |w| == 1 then Replied(Reply(w[0], None), s)
    else if |w| == 2 && IsDigits(w[1]) then
      var m := Number(w[1]);
      if m == 0 then Replied(Reply(w[0], None), s)
      else if |s| < m then CutReply
      else
        match z.loads(s[..m])
        case None => BadReply
        case Some(j) => Replied(Reply(w[0], Some(j)), s[m..])
    else BadReply
  }

  /** How `_send_command` reads a reply. */
  function ReadReply(z: Codec, s: Bytes): ReplyRead {
    if s == [] then NoReply
    else
      var n := LineLength(s);
      if !IsAscii(s[..n]) then BadReply else ReplyBody(z, Split(s[..n]), s[n..])
  }

  lemma ReadsShortReply(z: Codec, status: Bytes, rest: Bytes)
    requires IsWord(status)
    ensures ReadReply(z, status + [NEWLINE] + rest) == Replied(Reply(status, None), rest)
  {
    var s := status + [NEWLINE] + rest;
    SplitOne(status, [NEWLINE]);
    WordIsLine(status);
    LineOf(status, rest);
    assert s[..|status| + 1] == status + [NEWLINE] && s[|status| + 1..] == rest;
  }

  lemma ReplyBodyRead(z: Codec, status: Bytes, j: Json, rest: Bytes)
    requires GoodCodec(z)
    ensures ReplyBody(z, [status, Decimal(|z.dumps(j)|)], z.dumps(j) + rest) == Replied(Reply(status, Some(j)), rest)
  {
    var text := z.dumps(j);
    DecimalReads(|text|);
    assert (text + rest)[..|text|] == text && (text + rest)[|text|..] == rest;
  }

  lemma ReadsLongReply(z: Codec, status: Bytes, size: Bytes, tail: Bytes)
    requires IsWord(status) && IsWord(size)
    ensures ReadReply(z, status + [SPACE] + size + [NEWLINE] + tail) == ReplyBody(z, [status, size], tail)
  {
    var line := status + [SPACE] + size;
    var s := line + [NEWLINE] + tail;
    SplitTwo(status, size, [NEWLINE]);
    WordIsLine(status);
    WordIsLine(size);
    LineOf(line, tail);
    assert s[..|line| + 1] == line + [NEWLINE] && s[|line| + 1..] == tail;
  }

  /** The client reads the reply the server sent, and no more than that. */
  lemma ReadsPrintedReply(z: Codec, r: Reply, rest: Bytes)
    requires GoodCodec(z) && IsWord(r.status)
    ensures ReadReply(z, PrintReply(z, r) + rest) == Replied(r, rest)
  {
    match r.payload
    case None => ReadsShortReply(z, r.status, rest);
    case Some(j) =>
      var text := z.dumps(j);
      var head := r.status + [SPACE] + Decimal(|text|) + [NEWLINE];
      DecimalIsWord(|text|);
      assert PrintReply(z, r) + rest == head + (text + rest);
      ReadsLongReply(z, r.status, Decimal(|text|), text + rest);
      ReplyBodyRead(z, r.status, j, rest);
  }
}
