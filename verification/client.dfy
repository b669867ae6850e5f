/** The client: one request out, one response in, for each command. */
module Client {
  import opened Bytes
  import opened Endian
  import opened Connections
  import P = Protocol
  import opened Requests
  import opened Sessions

  // ---- what is sent ----

  /** A request whose only parameter is a string; the length is announced for `announced` octets of it. */
  ghost function StringRequest(command: u16, text: Octets, announced: nat): Octets
    requires |CString(text)| < 0x1_0000_0000
  {
    P.Encode(P.HeaderOf(command, Wrapped32(P.HEADER_SIZE + announced))) + P.Encode(P.StringOf(CString(text)))
  }

  /** get and list measure the string as it is sent. */
  method SendMeasured(stream: Stream, host: Host, command: u16, text: Octets)
    requires stream.open && |text| < 0x1_0000_0000
    modifies stream`output
    ensures stream.output == old(stream.output) + StringRequest(command, text, |CString(text)|)
  {
    hide P.Encode, CString;
    var tmp := new Out(host);
    var param := new P.Data(P.StringOf(CString(text)));
    var head := new P.Data(P.HeaderOf(command, Wrapped32(P.HEADER_SIZE + param.length)));
    head.To(tmp);
    param.To(tmp);
    stream.Write(tmp.bytes);
  }

  /** desc and del announce the length of the argument itself. */
  method SendAnnounced(stream: Stream, host: Host, command: u16, text: Octets)
    requires stream.open && |text| < 0x1_0000_0000
    modifies stream`output
    ensures stream.output == old(stream.output) + StringRequest(command, text, |text|)
  {
    hide P.Encode, CString;
    var tmp := new Out(host);
    var head := new P.Data(P.HeaderOf(command, Wrapped32(P.HEADER_SIZE + |text|)));
    head.To(tmp);
    var param := new P.Data(P.StringOf(CString(text)));
    param.To(tmp);
    stream.Write(tmp.bytes);
  }

  const BLOCK := 4096

  /** The request of a put: name and content, the lengths cut to 32 bits. */
  ghost function PutRequest(name: Octets, content: Octets): Octets
    requires |CString(name)| < 0x1_0000_0000
  {
    var n := CString(name);
    var size := Wrapped32(|content|);
    P.Encode(P.HeaderOf(PUT, Wrapped32(2 * P.HEADER_SIZE + |n| + |content|)))
    + P.Encode(P.StringOf(n)) + P.Encode(P.BigdataOf(size)) + content[..size] + [P.MAGIC]
  }

  /**
   * The block loop of put: `written` runs past the end, the blocks do not. Every block but the
   * last is full, and together they are the first `size` octets of the file.
   */
  method SendBlocks(stream: Stream, content: Octets, size: u32) returns (ghost blocks: seq<Octets>)
    requires stream.open && size <= |content|
    modifies stream`output
    ensures Flat(blocks) == content[..size] && stream.output == old(stream.output) + content[..size]
    ensures forall i :: 0 <= i < |blocks| ==> 0 < |blocks[i]| <= 4096 && (i < |blocks| - 1 ==> |blocks[i]| == 4096)
  {
    blocks := [];
    ghost var was := stream.output;
    var at, written := 0, 0;
    while written < size
      invariant at == if written < size then written else size
      invariant written == |blocks| * BLOCK
      invariant Flat(blocks) == content[..at] && stream.output == was + content[..at]
      invariant forall i :: 0 <= i < |blocks| ==>
        0 < |blocks[i]| <= BLOCK && ((i < |blocks| - 1 || written <= size) ==> |blocks[i]| == BLOCK)
      decreases size - written
    {
      var bytes := if size - written > BLOCK then BLOCK else size - written;
      var blk := content[at..at + bytes];
      stream.Write(blk);
      assert content[..at + bytes] == content[..at] + blk;
      FlatAppends(blocks, blk);
      blocks := blocks + [blk];
      at := at + bytes;
      written := written + BLOCK;
    }
  }

  /** Header, name and big data header, lengths added up as the code does. */
  method PrintPutHead(tmp: Out, name: Octets, size: nat)
    requires tmp.bytes == [] && |name| < 0x1_0000_0000
    modifies tmp
    ensures var n := CString(name);
            tmp.bytes == P.Encode(P.HeaderOf(PUT, Wrapped32(2 * P.HEADER_SIZE + |n| + size)))
                       + P.Encode(P.StringOf(n)) + P.Encode(P.BigdataOf(Wrapped32(size)))
  {
    hide P.Encode, CString, Wrapped32;
    var n := CString(name);
    WrappedTwice(2 * P.HEADER_SIZE + |n|, size);
    var head := new P.Data(P.HeaderOf(PUT, 2 * P.HEADER_SIZE));
    var fname := new P.Data(P.StringOf(n));
    head.length := Wrapped32(head.length + fname.length);
    var fdata := new P.Data(P.BigdataOf(Wrapped32(size)));
    head.length := Wrapped32(head.length + size);
    head.To(tmp);
    fname.To(tmp);
    fdata.To(tmp);
  }

  lemma WrappedTwice(a: nat, b: nat)
    ensures Wrapped32(Wrapped32(a) + b) == Wrapped32(a + b)
  {
  }

  method SendPut(stream: Stream, host: Host, name: Octets, content: Octets)
    requires stream.open && |name| < 0x1_0000_0000
    modifies stream`output
    ensures stream.output == old(stream.output) + PutRequest(name, content)
  {
    hide P.Encode, CString;
    ghost var was := stream.output;
    var tmp := new Out(host);
    PrintPutHead(tmp, name, |content|);
    stream.Write(tmp.bytes);
    var size := Wrapped32(|content|);
    var _ := SendBlocks(stream, content, size);
    stream.Write([P.MAGIC]);
    stream.Write([]);
    Regroup(was, tmp.bytes, content[..size], [P.MAGIC]);
  }

  lemma Regroup(a: Octets, b: Octets, c: Octets, d: Octets)
    ensures a + b + c + d + [] == a + (b + c + d)
  {
  }

  // ---- what is understood ----

  datatype Outcome<+T> = BadResponse | ServerSays(msg: Octets) | Received(value: T)

  ghost function ErrorOutcome<T>(body: Octets): Outcome<T>
    requires P.Checkable(P.Default(P.Error), body, 0)
  {
    var r := P.Check(P.Default(P.Error), body, 0);
    if r.err.Fails() then BadResponse else ServerSays(r.f.text)
  }

  ghost predicate FileReadable(body: Octets) {
    && P.Checkable(P.Default(P.Bigdata), body, 0)
    && var r := P.Check(P.Default(P.Bigdata), body, 0);
       !r.err.Fails() ==> r.at + r.f.length < |body|
  }

  ghost function FileOutcome(body: Octets): Outcome<Octets>
    requires FileReadable(body)
  {
    var r := P.Check(P.Default(P.Bigdata), body, 0);
    if r.err.Fails() || body[r.at + r.f.length] != P.MAGIC then BadResponse
    else Received(body[r.at..r.at + r.f.length])
  }

  ghost function IdOutcome(body: Octets): Outcome<Octets>
    requires P.Checkable(P.Default(P.String), body, 0)
  {
    var r := P.Check(P.Default(P.String), body, 0);
    if r.err.Fails() then BadResponse else Received(r.f.text)
  }

  datatype Description = Description(name: Octets, size: u32)

  /** A number of wire type 0 would be read without having been set. */
  ghost predicate NumberReadable(kind: P.Kind, body: Octets, at: nat) {
    P.Checkable(P.Default(kind), body, at) && At16(body, at) != 0
  }

  ghost predicate DescReadable(body: Octets) {
    && P.Checkable(P.Default(P.String), body, 0)
    && var r := P.Check(P.Default(P.String), body, 0);
       !r.err.Fails() ==> NumberReadable(P.Integer, body, r.at)
  }

  ghost function DescOutcome(body: Octets): Outcome<Description>
    requires DescReadable(body)
  {
    var r := P.Check(P.Default(P.String), body, 0);
    if r.err.Fails() then BadResponse
    else
      var q := P.Check(P.Default(P.Integer), body, r.at);
      if q.err.Fails() then BadResponse else Received(Description(r.f.text, q.f.num))
  }

  ghost predicate StringsReadable(body: Octets, at: nat, n: nat)
    decreases n
  {
    n > 0 ==>
      && P.Checkable(P.Default(P.String), body, at)
      && var r := P.Check(P.Default(P.String), body, at);
         !r.err.Fails() ==> StringsReadable(body, r.at, n - 1)
  }

  /** `n` strings from `at` on, unless one is refused; and where they end. */
  datatype Strings = Refused | Strings(texts: seq<Octets>, at: nat)

  ghost function StringsAt(body: Octets, at: nat, n: nat): Strings
    requires StringsReadable(body, at, n)
    decreases n
  {
    if n == 0 then Strings([], at)
    else
      var r := P.Check(P.Default(P.String), body, at);
      if r.err.Fails() then Refused
      else
        match StringsAt(body, r.at, n - 1)
        case Refused => Refused
        case Strings(texts, end) => Strings([r.f.text] + texts, end)
  }

  ghost predicate ListReadable(body: Octets) {
    && NumberReadable(P.Smallint, body, 0)
    && var r := P.Check(P.Default(P.Smallint), body, 0);
       !r.err.Fails() ==> StringsReadable(body, r.at, r.f.num)
  }

  ghost function ListOutcome(body: Octets): Outcome<seq<Octets>>
    requires ListReadable(body)
  {
    var r := P.Check(P.Default(P.Smallint), body, 0);
    if r.err.Fails() then BadResponse
    else
      match StringsAt(body, r.at, r.f.num)
      case Refused => BadResponse
      case Strings(texts, _) => Received(texts)
  }

  // ---- the exchanges ----

  ghost predicate Plausible(stream: Stream)
    reads stream
  {
    stream.Valid() && stream.open && (stream.at + FRAME_HEAD <= |stream.input| ==> At16(stream.input, stream.at) != 0)
  }

  /** The next frame, whole; -1 in the source when the header is refused or the stream ends. */
  method ReadResponse(stream: Stream, host: Host) returns (ok: bool, command: u16, body: Octets)
    requires Plausible(stream)
    modifies stream`at
    ensures stream.Valid() && ok == Complete(stream.input, old(stream.at))
    ensures ok ==>
      && command == CommandAt(stream.input, old(stream.at)) && body == BodyAt(stream.input, old(stream.at))
      && stream.at == NextAt(stream.input, old(stream.at))
  {
    var head := new P.Data(P.Default(P.Header));
    var err;
    ok, err := ReadHeader(stream, host, head);
    if !ok || err.Fails() {
      return false, 0, [];
    }
    command := head.num;
    body, ok := stream.Read(head.length);
  }

  /** The frame at the cursor answers with an error, or with something of this kind. */
  ghost predicate Answers(input: Octets, at: nat, readable: Octets -> bool) {
    Complete(input, at) ==>
      if CommandAt(input, at) != P.SUCCESS then P.Checkable(P.Default(P.Error), BodyAt(input, at), 0)
      else readable(BodyAt(input, at))
  }

  method TakeError<T>(body: Octets, host: Host) returns (r: Outcome<T>)
    requires P.Checkable(P.Default(P.Error), body, 0)
    ensures r == ErrorOutcome<T>(body)
  {
    hide P.Check;
    var c := new Cursor(host, body);
    var msg := new P.Data(P.Default(P.Error));
    var err := P.GetType(c, msg);
    r := if err.Fails() then BadResponse else ServerSays(msg.text);
  }

  /** get: the content of the file. */
  method Get(stream: Stream, host: Host, id: Octets) returns (r: Outcome<Octets>)
    requires Plausible(stream) && |id| < 0x1_0000_0000 && Answers(stream.input, stream.at, b => FileReadable(b))
    modifies stream`at, stream`output
    ensures stream.Valid() && stream.output == old(stream.output) + StringRequest(1, id, |CString(id)|)
    ensures !Complete(stream.input, old(stream.at)) ==> r == BadResponse
    ensures Complete(stream.input, old(stream.at)) ==>
      && stream.at == NextAt(stream.input, old(stream.at))
      && var body := BodyAt(stream.input, old(stream.at));
         r == if CommandAt(stream.input, old(stream.at)) != P.SUCCESS then ErrorOutcome(body) else FileOutcome(body)
  {
    hide P.Check, StringRequest;
    SendMeasured(stream, host, GET, id);
    var ok, command, body := ReadResponse(stream, host);
    if !ok {
      return BadResponse;
    }
    if command != P.SUCCESS {
      r := TakeError(body, host);
      return;
    }
    var req := new Cursor(host, body);
    var fdata := new P.Data(P.Default(P.Bigdata));
    var err := P.GetType(req, fdata);
    if err.Fails() || body[req.at + fdata.length] != P.MAGIC {
      return BadResponse;
    }
    r := Received(body[req.at..req.at + fdata.length]);
  }

  /** put: the id the file got. */
  method Put(stream: Stream, host: Host, name: Octets, content: Octets) returns (r: Outcome<Octets>)
    requires Plausible(stream) && |name| < 0x1_0000_0000
    requires Answers(stream.input, stream.at, b => P.Checkable(P.Default(P.String), b, 0))
    modifies stream`at, stream`output
    ensures stream.Valid() && stream.output == old(stream.output) + PutRequest(name, content)
    ensures !Complete(stream.input, old(stream.at)) ==> r == BadResponse
    ensures Complete(stream.input, old(stream.at)) ==>
      && stream.at == NextAt(stream.input, old(stream.at))
      && var body := BodyAt(stream.input, old(stream.at));
         r == if CommandAt(stream.input, old(stream.at)) != P.SUCCESS then ErrorOutcome(body) else IdOutcome(body)
  {
    hide P.Check, PutRequest;
    SendPut(stream, host, name, content);
    var ok, command, body := ReadResponse(stream, host);
    if !ok {
      return BadResponse;
    }
    if command != P.SUCCESS {
      r := TakeError(body, host);
      return;
    }
    var req := new Cursor(host, body);
    var fid := new P.Data(P.Default(P.String));
    var err := P.GetType(req, fid);
    r := if err.Fails() then BadResponse else Received(fid.text);
  }

  /** desc: name and size. */
  method Desc(stream: Stream, host: Host, id: Octets) returns (r: Outcome<Description>)
    requires Plausible(stream) && |id| < 0x1_0000_0000 && Answers(stream.input, stream.at, b => DescReadable(b))
    modifies stream`at, stream`output
    ensures stream.Valid() && stream.output == old(stream.output) + StringRequest(3, id, |id|)
    ensures !Complete(stream.input, old(stream.at)) ==> r == BadResponse
    ensures Complete(stream.input, old(stream.at)) ==>
      && stream.at == NextAt(stream.input, old(stream.at))
      && var body := BodyAt(stream.input, old(stream.at));
         r == if CommandAt(stream.input, old(stream.at)) != P.SUCCESS then ErrorOutcome(body) else DescOutcome(body)
  {
    hide P.Check, StringRequest;
    SendAnnounced(stream, host, DESC, id);
    var ok, command, body := ReadResponse(stream, host);
    if !ok {
      return BadResponse;
    }
    if command != P.SUCCESS {
      r := TakeError(body, host);
      return;
    }
    var req := new Cursor(host, body);
    var fname := new P.Data(P.Default(P.String));
    var err := P.GetType(req, fname);
    if err.Fails() {
      return BadResponse;
    }
    var fsize := new P.Data(P.Default(P.Integer));
    err := P.GetType(req, fsize);
    r := if err.Fails() then BadResponse else Received(Description(fname.text, fsize.num));
  }

  /** del: on success the body is not even read. */
  method Del(stream: Stream, host: Host, id: Octets) returns (r: Outcome<()>)
    requires Plausible(stream) && |id| < 0x1_0000_0000 && Answers(stream.input, stream.at, b => true)
    modifies stream`at, stream`output
    ensures stream.Valid() && stream.output == old(stream.output) + StringRequest(4, id, |id|)
    ensures var input, at := stream.input, old(stream.at);
            if |input| < at + FRAME_HEAD || At16(input, at) != P.TypeId(P.Header) then r == BadResponse
            else if At16(input, at + 6) == P.SUCCESS then r == Received(()) && stream.at == at + FRAME_HEAD
            else if !Complete(input, at) then r == BadResponse
            else r == ErrorOutcome(BodyAt(input, at)) && stream.at == NextAt(input, at)
  {
    hide P.Check, StringRequest;
    SendAnnounced(stream, host, DEL, id);
    var head := new P.Data(P.Default(P.Header));
    var ok, err := ReadHeader(stream, host, head);
    if !ok || err.Fails() {
      return BadResponse;
    }
    if head.num == P.SUCCESS {
      return Received(());
    }
    var body;
    body, ok := stream.Read(head.length);
    if !ok {
      return BadResponse;
    }
    r := TakeError(body, host);
  }

  /** The counted loop of list. */
  method TakeStrings(req: Cursor, n: nat) returns (ok: bool, texts: seq<Octets>)
    requires StringsReadable(req.buf, req.at, n)
    modifies req
    ensures StringsAt(req.buf, old(req.at), n) == if ok then Strings(texts, req.at) else Refused
  {
    hide P.Check, P.Checkable;
    texts := [];
    ghost var total := StringsAt(req.buf, req.at, n);
    for i := 0 to n
      invariant StringsReadable(req.buf, req.at, n - i)
      invariant total == match StringsAt(req.buf, req.at, n - i)
                         case Refused => Refused
                         case Strings(rest, end) => Strings(texts + rest, end)
    {
      ghost var rest := StringsAt(req.buf, req.at, n - i);
      var fid := new P.Data(P.Default(P.String));
      var err := P.GetType(req, fid);
      if err.Fails() {
        return false, [];
      }
      ghost var tail := StringsAt(req.buf, req.at, n - i - 1);
      if tail.Strings? {
        assert texts + ([fid.text] + tail.texts) == (texts + [fid.text]) + tail.texts;
      }
      texts := texts + [fid.text];
    }
    assert texts + [] == texts;
    ok := true;
  }

  /** list: the ids listed under a name. */
  method List(stream: Stream, host: Host, name: Octets) returns (r: Outcome<seq<Octets>>)
    requires Plausible(stream) && |name| < 0x1_0000_0000 && Answers(stream.input, stream.at, b => ListReadable(b))
    modifies stream`at, stream`output
    ensures stream.Valid() && stream.output == old(stream.output) + StringRequest(5, name, |CString(name)|)
    ensures !Complete(stream.input, old(stream.at)) ==> r == BadResponse
    ensures Complete(stream.input, old(stream.at)) ==>
      && stream.at == NextAt(stream.input, old(stream.at))
      && var body := BodyAt(stream.input, old(stream.at));
         r == if CommandAt(stream.input, old(stream.at)) != P.SUCCESS then ErrorOutcome(body) else ListOutcome(body)
  {
    hide P.Check, StringRequest, StringsReadable, StringsAt;
    SendMeasured(stream, host, LIST, name);
    var ok, command, body := ReadResponse(stream, host);
    if !ok {
      return BadResponse;
    }
    if command != P.SUCCESS {
      r := TakeError(body, host);
      return;
    }
    var req := new Cursor(host, body);
    var resultnum := new P.Data(P.Default(P.Smallint));
    var err := P.GetType(req, resultnum);
    if err.Fails() {
      return BadResponse;
    }
    var texts;
    ok, texts := TakeStrings(req, resultnum.num);
    r := if ok then Received(texts) else BadResponse;
  }
}
