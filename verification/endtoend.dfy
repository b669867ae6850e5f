/** A client, a server and the store between them: what was put is what is got. */
module EndToEnd {
  import opened Bytes
  import opened Endian
  import opened Connections
  import P = Protocol
  import opened Messages
  import opened Requests
  import opened Sessions
  import opened Framing
  import opened Uid
  import C = Client
  import Posix
  import Catalog

  // ---- requests arrive ----

  ghost function StringBody(text: Octets): Octets
    requires |text| < 0x1_0000_0000
  {
    P.Encode(P.StringOf(text))
  }

  /** A string body is read as its string, and nothing is left over. */
  lemma StringBodyIsRead(text: Octets, g: P.Fields)
    requires |text| <= 255 && g == P.Default(P.String)
    ensures P.Checkable(g, StringBody(text), 0)
    ensures P.Check(g, StringBody(text), 0) == P.Checked(P.Outcome(0, []), P.StringOf(text), P.HEADER_SIZE + |text|)
  {
    hide P.Decode, P.Encode, P.Readable;
    var f := P.StringOf(text);
    P.EncodedSize(f);
    P.DecodesWhereItStands(f, P.Encode(f), 0, g);
    P.Layout([], f, []);
    assert [] + P.Encode(f) + [] == P.Encode(f);
  }

  lemma ArgumentIsRead(text: Octets, empty: Octets)
    requires 0 < |text| <= 255
    ensures P.Checkable(P.Default(P.String), StringBody(text), 0)
    ensures Argument(StringBody(text), empty) == Accepted(text, P.HEADER_SIZE + |text|)
  {
    hide P.Check, P.Checkable, P.Encode;
    StringBodyIsRead(text, P.Default(P.String));
  }

  lemma StringBodyIsSendable(command: u16, text: Octets)
    requires IsComponent(text) && GET <= command <= LIST && command != PUT
    ensures Sendable(Request(command, StringBody(text)))
  {
    hide P.Encode, P.Checkable, Argument;
    ArgumentIsRead(text, EXPECTED_ID);
    assert |StringBody(text)| < 0x1_0000_0000 by { P.EncodedSize(P.StringOf(text)); }
  }

  /** What the client sends for a legal id or name is one well-formed request for exactly that string. */
  lemma StringRequestArrives(command: u16, text: Octets, empty: Octets)
    requires IsComponent(text) && GET <= command <= LIST && command != PUT
    ensures CString(text) == text
    ensures var r := Request(command, StringBody(text));
            && Sendable(r) && C.StringRequest(command, text, |text|) == Print(r)
            && P.Checkable(P.Default(P.String), r.body, 0)
            && Argument(r.body, empty) == Accepted(text, P.HEADER_SIZE + |text|)
  {
    hide P.Encode, P.Checkable, Argument, Sendable, C.StringRequest;
    CStringOfNulFree(text);
    StringBodyIsSendable(command, text);
    P.EncodedSize(P.StringOf(text));
    ArgumentIsRead(text, empty);
    StringRequestIs(command, text, |text|);
  }

  lemma StringRequestParts(command: u16, text: Octets, announced: nat, head: P.Fields, param: P.Fields)
    requires |CString(text)| < 0x1_0000_0000
    requires head == P.HeaderOf(command, Wrapped32(P.HEADER_SIZE + announced)) && param == P.StringOf(CString(text))
    ensures P.Printable(head) && P.Printable(param)
    ensures C.StringRequest(command, text, announced) == P.Encode(head) + P.Encode(param)
  {
    hide P.Encode, CString;
  }

  lemma StringRequestIs(command: u16, text: Octets, announced: nat)
    requires CString(text) == text && announced <= 255 && |text| < 0x1_0000_0000
    ensures C.StringRequest(command, text, announced)
         == P.Encode(P.HeaderOf(command, P.HEADER_SIZE + announced)) + StringBody(text)
  {
    hide P.Encode, CString, C.StringRequest;
    var head, param := P.HeaderOf(command, P.HEADER_SIZE + announced), P.StringOf(text);
    assert head == P.HeaderOf(command, Wrapped32(P.HEADER_SIZE + announced));
    StringRequestParts(command, text, announced, head, param);
  }

  ghost function PutBody(name: Octets, data: Octets): Octets
    requires |name| < 0x1_0000_0000 && |data| < 0x1_0000_0000
  {
    P.Encode(P.StringOf(name)) + P.Encode(P.BigdataOf(|data|)) + data + [P.MAGIC]
  }

  /** Octets of a put request's body. */
  function PutSize(name: Octets, data: Octets): nat {
    2 * P.HEADER_SIZE + |name| + |data|
  }

  lemma PutBodySize(name: Octets, data: Octets)
    requires |name| < 0x1_0000_0000 && |data| < 0x1_0000_0000
    ensures |PutBody(name, data)| == PutSize(name, data)
  {
    hide P.Encode;
    P.EncodedSize(P.StringOf(name));
    P.EncodedSize(P.BigdataOf(|data|));
  }

  /** The request of a put is one frame exactly when the whole body fits 32 bits. */
  lemma PutRequestIsFrameIff(name: Octets, data: Octets)
    requires IsName(name) && |data| < 0x1_0000_0000
    ensures CString(name) == name
    ensures IsFrame(C.PutRequest(name, data)) <==> PutSize(name, data) < 0x1_0000_0000
    ensures C.PutRequest(name, data)
         == P.Encode(P.HeaderOf(PUT, Wrapped32(PutSize(name, data)))) + PutBody(name, data)
  {
    hide P.Encode;
    CStringOfNulFree(name);
    PutBodySize(name, data);
    HeaderFields(PUT, Wrapped32(PutSize(name, data)), PutBody(name, data));
    assert data[..|data|] == data;
    assert C.PutRequest(name, data) == P.Encode(P.HeaderOf(PUT, Wrapped32(PutSize(name, data)))) + PutBody(name, data);
  }

  lemma PutBodyParts(name: Octets, data: Octets)
    requires |name| <= 255 && |data| < 0x1_0000_0000
    ensures var body := PutBody(name, data);
            var at := P.HEADER_SIZE + |name|;
            && P.StandsAt(P.Encode(P.StringOf(name)), body, 0) && P.StandsAt(P.Encode(P.BigdataOf(|data|)), body, at)
            && P.StandsAt(data + [P.MAGIC], body, at + 6)
  {
    hide P.Encode;
    P.EncodedSize(P.StringOf(name));
    P.EncodedSize(P.BigdataOf(|data|));
    var a, b, c := P.Encode(P.StringOf(name)), P.Encode(P.BigdataOf(|data|)), data + [P.MAGIC];
    var body := PutBody(name, data);
    assert body == a + (b + c);
    assert P.StandsAt(a + (b + c), body, 0);
    P.StandsInTwo(a, b + c, body, 0);
    P.StandsInTwo(b, c, body, |a|);
  }

  /** A proper value is accepted wherever it stands. */
  lemma ChecksWhereItStands(f: P.Fields, body: Octets, at: nat)
    requires P.Proper(f) && P.Fit(P.Default(f.kind)) && P.Printable(f) && P.StandsAt(P.Encode(f), body, at)
    ensures P.Checkable(P.Default(f.kind), body, at) && At16(body, at) == f.typ
    ensures P.Check(P.Default(f.kind), body, at) == P.Checked(P.Outcome(0, []), f, at + |P.Encode(f)|)
  {
    hide P.Decode, P.Encode, P.Readable, P.Proper;
    P.DecodesWhereItStands(f, body, at, P.Default(f.kind));
    P.ProperPrints(f);
    TypeWhereItStands(f, body, at);
  }

  lemma TypeWhereItStands(f: P.Fields, body: Octets, at: nat)
    requires P.Printable(f) && P.StandsAt(P.Encode(f), body, at)
    ensures at + 2 <= |body| && At16(body, at) == f.typ
  {
    hide P.Payload;
    Net16Value(f.typ);
    PartOfPart(body, at, P.Encode(f), 0, 2);
    assert P.Encode(f)[0..2] == Net16(f.typ);
  }

  /** A put of a legal name arrives as one well-formed request for exactly that name and content. */
  lemma PutArrives(name: Octets, data: Octets)
    requires IsName(name) && PutSize(name, data) < 0x1_0000_0000
    ensures var r := Request(PUT, PutBody(name, data));
            && Sendable(r) && Ordinary([r]) && C.PutRequest(name, data) == Print(r)
            && PutArguments(r.body) == PutAccepted(name, data)
  {
    hide P.Encode, P.Check, P.Checkable, P.StandsAt;
    var body := PutBody(name, data);
    var at := P.HEADER_SIZE + |name|;
    PutRequestIsFrameIff(name, data);
    PutBodySize(name, data);
    PutBodyParts(name, data);
    ChecksWhereItStands(P.StringOf(name), body, 0);
    ChecksWhereItStands(P.BigdataOf(|data|), body, at);
    P.EncodedSize(P.StringOf(name));
    P.EncodedSize(P.BigdataOf(|data|));
    DataBeforeMagic(body, at + 6, data);
  }

  lemma DataBeforeMagic(body: Octets, at: nat, data: Octets)
    requires P.StandsAt(data + [P.MAGIC], body, at)
    ensures at + |data| < |body| && body[at + |data|] == P.MAGIC && body[at..at + |data|] == data
  {
    var part := data + [P.MAGIC];
    PartOfPart(body, at, part, 0, |data|);
    PartOfPart(body, at, part, |data|, |data| + 1);
    assert body[at + |data|..at + |data| + 1][0] == body[at + |data|];
  }

  // ---- what the client hears ----

  ghost predicate HearsFile(b: Octets, data: Octets) {
    && IsFrame(b) && At16(b, 6) == P.SUCCESS
    && C.FileReadable(b[FRAME_HEAD..]) && C.FileOutcome(b[FRAME_HEAD..]) == C.Received(data)
  }

  ghost predicate HearsId(b: Octets, id: Octets) {
    && IsFrame(b) && At16(b, 6) == P.SUCCESS
    && P.Checkable(P.Default(P.String), b[FRAME_HEAD..], 0) && C.IdOutcome(b[FRAME_HEAD..]) == C.Received(id)
  }

  ghost predicate HearsDescription(b: Octets, name: Octets, size: nat) {
    && IsFrame(b) && At16(b, 6) == P.SUCCESS && C.DescReadable(b[FRAME_HEAD..])
    && size < 0x1_0000_0000 && C.DescOutcome(b[FRAME_HEAD..]) == C.Received(C.Description(name, size))
  }

  ghost predicate HearsIds(b: Octets, ids: seq<Octets>) {
    IsFrame(b) && At16(b, 6) == P.SUCCESS && HearsList(b[FRAME_HEAD..], ids)
  }

  ghost predicate HearsError(b: Octets, msg: Octets) {
    && IsFrame(b) && At16(b, 6) != P.SUCCESS && P.Checkable(P.Default(P.Error), b[FRAME_HEAD..], 0)
    && C.ErrorOutcome<()>(b[FRAME_HEAD..]) == C.ServerSays(msg)
  }

  // ---- replies are understood ----

  /** Where a frame stands in what the client receives, its command, body and end are those of the frame. */
  lemma FrameWhereItStands(b: Octets, input: Octets, at: nat)
    requires IsFrame(b) && P.StandsAt(b, input, at)
    ensures Complete(input, at) && CommandAt(input, at) == At16(b, 6)
    ensures BodyAt(input, at) == b[FRAME_HEAD..] && NextAt(input, at) == at + |b|
  {
    PartOfPart(input, at, b, 0, 2);
    PartOfPart(input, at, b, 2, 6);
    PartOfPart(input, at, b, 6, 8);
    PartOfPart(input, at, b, 8, |b|);
  }

  /** An error frame: the client shows the message, cut to 255 octets. */
  lemma ErrorIsUnderstood(msg: Octets)
    ensures var b := ErrorFrame(msg); HearsError(b, P.Cut(msg))
  {
    hide P.Encode, P.Check, P.Checkable, P.StandsAt;
    ErrorIsFrame(msg);
    var f := P.ErrorOf(msg);
    P.EncodedSize(f);
    HeaderFields(P.ERROR, P.HEADER_SIZE + |P.Cut(msg)|, P.Encode(f));
    StandsAlone(P.Encode(f));
    ChecksWhereItStands(f, P.Encode(f), 0);
  }

  lemma StandsAlone(b: Octets)
    ensures P.StandsAt(b, b, 0)
  {
  }

  /** Big data with its octets and the magic octet: the client takes out the octets. */
  lemma FileBodyIsUnderstood(data: Octets)
    requires 0 < |data| <= 0xffff_ffff - P.HEADER_SIZE
    ensures var body := P.Encode(P.BigdataOf(|data|)) + (data + [P.MAGIC]);
            C.FileReadable(body) && C.FileOutcome(body) == C.Received(data)
  {
    hide P.Encode, P.Check, P.Checkable, P.StandsAt;
    var f := P.BigdataOf(|data|);
    var tail := data + [P.MAGIC];
    var body := P.Encode(f) + tail;
    P.EncodedSize(f);
    StandsAlone(body);
    P.StandsInTwo(P.Encode(f), tail, body, 0);
    ChecksWhereItStands(f, body, 0);
    DataBeforeMagic(body, 6, data);
  }

  /** The reply to a GET: the client gets the octets of the file. */
  lemma FileIsUnderstood(data: Octets)
    requires 0 < |data| <= 0xffff_ffff - P.HEADER_SIZE
    ensures HearsFile(FileReply(data), data)
  {
    hide P.Encode, FileReply, C.FileReadable, C.FileOutcome, IsFrame;
    FileReplyIsFrameIff(data);
    FileReplyParts(data);
    FileBodyIsUnderstood(data);
    HeaderFields(P.SUCCESS, P.HEADER_SIZE + |data|, P.Encode(P.BigdataOf(|data|)) + (data + [P.MAGIC]));
  }

  lemma FileReplyParts(data: Octets)
    requires 0 < |data| <= 0xffff_ffff - P.HEADER_SIZE
    ensures FileReply(data)
         == P.Encode(P.HeaderOf(P.SUCCESS, P.HEADER_SIZE + |data|))
          + (P.Encode(P.BigdataOf(|data|)) + (data + [P.MAGIC]))
  {
    hide P.Encode, ErrorFrame;
    var n: u32 := Wrapped32(|data|);
    assert n == |data| && data[..n] == data;
    var head := P.HeaderOf(P.SUCCESS, Wrapped32(P.HEADER_SIZE + n));
    assert head == P.HeaderOf(P.SUCCESS, P.HEADER_SIZE + |data|);
    assert FileReply(data) == P.Encode(head) + P.Encode(P.BigdataOf(n)) + data[..n] + [P.MAGIC];
  }

  /** The reply to a PUT: the client gets the id. */
  lemma IdIsUnderstood(id: Octets)
    requires |id| <= 255
    ensures var b := P.Encode(P.HeaderOf(P.SUCCESS, P.HEADER_SIZE + |id|)) + P.Encode(P.StringOf(id));
            HearsId(b, id)
  {
    hide P.Encode, P.Check, P.Checkable, P.StandsAt;
    var f := P.StringOf(id);
    P.EncodedSize(f);
    HeaderFields(P.SUCCESS, P.HEADER_SIZE + |id|, P.Encode(f));
    StandsAlone(P.Encode(f));
    ChecksWhereItStands(f, P.Encode(f), 0);
  }

  /** The reply to a DESC: the client gets name and size. */
  lemma DescriptionIsUnderstood(name: Octets, size: u32)
    requires |name| <= 255 && Free(name, NUL)
    ensures var body := P.Encode(CStringOf(name)) + P.Encode(P.IntegerOf(size));
            HearsDescription(Success(body), name, size)
  {
    hide P.Encode, P.Check, P.Checkable, P.StandsAt, CString;
    CStringOfNulFree(name);
    var a, b := P.StringOf(name), P.IntegerOf(size);
    assert CStringOf(name) == a;
    P.EncodedSize(a);
    P.EncodedSize(b);
    var body := P.Encode(a) + P.Encode(b);
    SuccessIsFrameIff(body);
    HeaderFields(P.SUCCESS, Wrapped32(|body|), body);
    StandsAlone(body);
    P.StandsInTwo(P.Encode(a), P.Encode(b), body, 0);
    ChecksWhereItStands(a, body, 0);
    ChecksWhereItStands(b, body, |P.Encode(a)|);
  }

  /** `n` turns of the client's loop read these strings and stop at `end`. */
  ghost predicate Reads(body: Octets, at: nat, n: nat, texts: seq<Octets>, end: nat) {
    C.StringsReadable(body, at, n) && C.StringsAt(body, at, n) == C.Strings(texts, end)
  }

  lemma ReadsOneMore(body: Octets, at: nat, n: nat, f: P.Fields, next: nat, texts: seq<Octets>, end: nat)
    requires P.Checkable(P.Default(P.String), body, at)
    requires P.Check(P.Default(P.String), body, at) == P.Checked(P.Outcome(0, []), f, next)
    requires Reads(body, next, n, texts, end)
    ensures Reads(body, at, n + 1, [f.text] + texts, end)
  {
    hide P.Check, P.Checkable;
  }

  ghost predicate AllNulFree(ids: seq<Octets>) {
    AllShort(ids) && forall i :: 0 <= i < |ids| ==> Free(ids[i], NUL)
  }

  lemma FirstString(ids: seq<Octets>)
    requires AllNulFree(ids) && ids != []
    ensures |ids[0]| <= 255 && AllNulFree(ids[1..])
    ensures EncodeStrings(ids) == P.Encode(P.StringOf(ids[0])) + EncodeStrings(ids[1..])
  {
    hide P.Encode, CString;
    CStringOfNulFree(ids[0]);
    assert CStringOf(ids[0]) == P.StringOf(ids[0]);
  }

  /** Printed ids are read back in order, and nothing of them is left over. */
  lemma {:induction false} StringsAreRead(ids: seq<Octets>, body: Octets, at: nat, end: nat)
    requires AllNulFree(ids) && P.StandsAt(EncodeStrings(ids), body, at) && end == at + |EncodeStrings(ids)|
    ensures Reads(body, at, |ids|, ids, end)
    decreases |ids|
  {
    if ids != [] {
      hide P.Encode, P.Check, P.Checkable, P.StandsAt, AllNulFree, AllShort, EncodeStrings, Reads;
      FirstString(ids);
      var f, rest := P.StringOf(ids[0]), ids[1..];
      var next := at + |P.Encode(f)|;
      P.StandsInTwo(P.Encode(f), EncodeStrings(rest), body, at);
      ChecksWhereItStands(f, body, at);
      StringsAreRead(rest, body, next, end);
      ReadsOneMore(body, at, |rest|, f, next, rest, end);
      assert [f.text] + rest == ids;
    }
  }

  lemma {:induction false} EncodeStringsInTwo(ids: seq<Octets>, n: nat)
    requires AllShort(ids) && n <= |ids|
    ensures AllShort(ids[..n]) && AllShort(ids[n..])
    ensures EncodeStrings(ids) == EncodeStrings(ids[..n]) + EncodeStrings(ids[n..])
    decreases n
  {
    hide P.Encode, CString;
    if n == 0 {
      assert ids[..0] == [] && ids[0..] == ids;
    } else {
      var rest := ids[1..];
      assert rest[..n - 1] == ids[..n][1..] && rest[n - 1..] == ids[n..];
      EncodeStringsInTwo(rest, n - 1);
    }
  }

  /** The client understands the body of a list response as these ids. */
  ghost predicate HearsList(body: Octets, ids: seq<Octets>) {
    C.ListReadable(body) && C.ListOutcome(body) == C.Received(ids)
  }

  lemma ListBodyParts(told: seq<Octets>, untold: seq<Octets>, f: P.Fields, body: Octets)
    requires AllShort(told) && AllShort(untold) && P.Proper(f)
    requires body == P.Encode(f) + (EncodeStrings(told) + EncodeStrings(untold))
    ensures P.StandsAt(P.Encode(f), body, 0) && P.StandsAt(EncodeStrings(told), body, |P.Encode(f)|)
  {
    hide P.Encode, P.StandsAt, EncodeStrings, AllShort;
    StandsAlone(body);
    P.StandsInTwo(P.Encode(f), EncodeStrings(told) + EncodeStrings(untold), body, 0);
    P.StandsInTwo(EncodeStrings(told), EncodeStrings(untold), body, |P.Encode(f)|);
  }

  lemma SplitNulFree(ids: seq<Octets>, n: nat)
    requires AllNulFree(ids) && n <= |ids|
    ensures AllNulFree(ids[..n]) && AllNulFree(ids[n..])
  {
    hide Free;
  }

  lemma ToldIsAll(ids: seq<Octets>)
    ensures ids[..|ids| % 0x1_0000] == ids <==> |ids| < 0x1_0000
  {
    assert |ids[..|ids| % 0x1_0000]| == |ids| % 0x1_0000;
    if |ids| < 0x1_0000 {
      assert ids[..|ids|] == ids;
    }
  }

  /**
   * The client reads as many ids as the 16-bit count says, so it gets the whole list exactly when
   * there are fewer than 65536 of them.
   */
  lemma ListIsUnderstood(ids: seq<Octets>)
    requires AllNulFree(ids)
    ensures HearsList(ListBody(ids), ids[..|ids| % 0x1_0000])
    ensures HearsList(ListBody(ids), ids) <==> |ids| < 0x1_0000
  {
    hide P.Encode, P.StandsAt, EncodeStrings, HearsList, Reads;
    var n: u16 := |ids| % 0x1_0000;
    var f, told, body := P.SmallintOf(n), ids[..n], ListBody(ids);
    SplitNulFree(ids, n);
    EncodeStringsInTwo(ids, n);
    ListBodyParts(told, ids[n..], f, body);
    var at := |P.Encode(f)|;
    StringsAreRead(told, body, at, at + |EncodeStrings(told)|);
    CountedListIsHeard(body, f, told, at, at + |EncodeStrings(told)|);
    ToldIsAll(ids);
  }

  lemma CountedListIsHeard(body: Octets, f: P.Fields, ids: seq<Octets>, at: nat, end: nat)
    requires |ids| < 0x1_0000 && f == P.SmallintOf(|ids|)
    requires P.StandsAt(P.Encode(f), body, 0) && at == |P.Encode(f)| && Reads(body, at, |ids|, ids, end)
    ensures HearsList(body, ids)
    ensures forall other :: HearsList(body, other) ==> other == ids
  {
    hide P.Encode, P.Check, P.Checkable, P.StandsAt;
    ChecksWhereItStands(f, body, 0);
  }

  // ---- requests for what is stored ----

  /** The object is live with this name and content, and listed under its name. */
  ghost predicate Holds(st: Store, id: Octets, obj: Catalog.Obj) {
    id in st.objs && st.objs[id] == obj && id in Catalog.ListOf(st, obj.name)
  }

  ghost function GetRequest(id: Octets): Request
    requires |id| <= 255
  {
    Request(GET, StringBody(id))
  }

  ghost function DescRequest(id: Octets): Request
    requires |id| <= 255
  {
    Request(DESC, StringBody(id))
  }

  ghost function ListRequest(name: Octets): Request
    requires |name| <= 255
  {
    Request(LIST, StringBody(name))
  }

  lemma StrerrorIsShort(no: int)
    ensures P.Cut(Strerror(no)) == Strerror(no)
  {
    P.CutWhole(Strerror(no));
  }

  /** GET of a live object: its content, except that of an empty file is an error. */
  lemma GetIsHeard(g: Supply, w: World, id: Octets, obj: Catalog.Obj)
    requires Catalog.Valid(w.st) && IsName(id) && Holds(w.st, id, obj) && |obj.data| <= 0xffff_ffff - P.HEADER_SIZE
    ensures Sendable(GetRequest(id))
    ensures var b := Answer(g, w, GetRequest(id));
            && (HearsFile(b, obj.data) <==> obj.data != [])
            && (obj.data == [] ==>
                  && Strerror(Posix.EINVAL)
                  == [73, 110, 118, 97, 108, 105, 100, 32, 97, 114, 103, 117, 109, 101, 110, 116]
                  && HearsError(b, Strerror(Posix.EINVAL)))
  {
    hide Argument, Sendable, InBounds, StringBody, FileReply, ErrorFrame, Strerror, Catalog.Valid;
    StringRequestArrives(GET, id, EXPECTED_ID);
    IdIsShort(g, w.used);
    assert Answer(g, w, GetRequest(id)) == FileReply(obj.data);
    if obj.data == [] {
      SystemMessages();
      ErrorIsUnderstood(Strerror(Posix.EINVAL));
      StrerrorIsShort(Posix.EINVAL);
      EmptyFileIsAnError();
    } else {
      FileIsUnderstood(obj.data);
    }
  }

  lemma EmptyFileIsAnError()
    ensures FileReply([]) == ErrorFrame(Strerror(Posix.EINVAL))
  {
  }

  lemma SendableIsInBounds(r: Request)
    requires Sendable(r)
    ensures InBounds(r.command, r.body)
  {
  }

  lemma DescIsHeard(g: Supply, w: World, id: Octets, obj: Catalog.Obj)
    requires Catalog.Valid(w.st) && IsName(id) && Holds(w.st, id, obj) && |obj.data| < 0x1_0000_0000
    ensures Sendable(DescRequest(id)) && HearsDescription(Answer(g, w, DescRequest(id)), obj.name, |obj.data|)
  {
    hide Argument, Sendable, InBounds, StringBody, HearsDescription, Catalog.Valid, Holds;
    hide GetReply, PutReply, DescReply, DelReply, ListReply;
    StringRequestArrives(DESC, id, EXPECTED_ID);
    IdIsShort(g, w.used);
    assert InBounds(DESC, StringBody(id)) by { SendableIsInBounds(DescRequest(id)); }
    assert Answer(g, w, DescRequest(id)) == DescReply(w.st, StringBody(id));
    DescReplyIsHeard(w.st, StringBody(id), id, obj);
  }

  lemma DescReplyIsHeard(st: Store, body: Octets, id: Octets, obj: Catalog.Obj)
    requires Catalog.Valid(st) && Holds(st, id, obj) && |obj.data| < 0x1_0000_0000
    requires InBounds(DESC, body) && Argument(body, EXPECTED_ID).Accepted? && Argument(body, EXPECTED_ID).text == id
    ensures HearsDescription(DescReply(st, body), obj.name, |obj.data|)
  {
    hide Argument, P.Encode, Success, CString, HearsDescription;
    assert Wrapped32(|obj.data|) == |obj.data|;
    DescriptionIsUnderstood(obj.name, |obj.data|);
  }

  lemma ListedAreNulFree(st: Store, name: Octets)
    requires Catalog.Valid(st) && name in st.lists
    ensures AllNulFree(st.lists[name])
  {
    var ids := st.lists[name];
    ListedAreShort(st, name);
    forall i | 0 <= i < |ids| ensures Free(ids[i], NUL) {
      assert ids[i] in st.lists[name];
      assert IsName(ids[i]);
    }
  }

  lemma ListReplyIsUnderstood(ids: seq<Octets>)
    requires AllNulFree(ids) && |ids| < 0x1_0000
    ensures HearsIds(Success(ListBody(ids)), ids)
  {
    hide P.Encode, HearsList;
    ListIsUnderstood(ids);
    StringsSize(ids);
    P.EncodedSize(P.SmallintOf(|ids| % 0x1_0000));
    SuccessIsFrameIff(ListBody(ids));
    HeaderFields(P.SUCCESS, Wrapped32(|ListBody(ids)|), ListBody(ids));
  }

  /** LIST of a name with at most 65535 ids: the whole list, in order. */
  lemma ListIsHeard(g: Supply, w: World, name: Octets)
    requires Catalog.Valid(w.st) && IsName(name) && name in w.st.lists && |w.st.lists[name]| < 0x1_0000
    ensures Sendable(ListRequest(name)) && HearsIds(Answer(g, w, ListRequest(name)), w.st.lists[name])
  {
    hide Argument, Sendable, InBounds, StringBody, ListBody, Success, HearsIds, Catalog.Valid;
    StringRequestArrives(LIST, name, EXPECTED_NAME);
    IdIsShort(g, w.used);
    var ids := w.st.lists[name];
    ListedAreNulFree(w.st, name);
    ListReplyIsUnderstood(ids);
    assert Answer(g, w, ListRequest(name)) == Success(ListBody(ids));
  }

  // ---- what was put stays ----

  ghost predicate Deletes(r: Request, id: Octets)
    requires Sendable(r)
  {
    r.command == DEL && Argument(r.body, EXPECTED_ID).Accepted? && Argument(r.body, EXPECTED_ID).text == id
  }

  ghost predicate Spares(rs: seq<Request>, id: Octets)
    requires Ordinary(rs)
  {
    forall i :: 0 <= i < |rs| ==> !Deletes(rs[i], id)
  }

  /** No request but a DEL of this very id changes an object. */
  lemma {:induction false} ObjectStays(g: Supply, w: World, rs: seq<Request>, id: Octets, obj: Catalog.Obj, n: nat)
    requires Ordinary(rs) && Ready(g, w, UsesAll(rs) + n) && Spares(rs, id) && Holds(w.st, id, obj)
    ensures Ready(g, AfterAll(g, w, rs), n) && Holds(AfterAll(g, w, rs).st, id, obj)
    decreases |rs|
  {
    hide Ready, Sendable, Spares, Next, Holds, Uses, Catalog.Valid;
    if rs != [] {
      SparesFirst(rs, id);
      var left := UsesAll(rs[1..]) + n;
      ReadyToReply(g, w, rs[0], left);
      StaysOnce(g, w, rs[0], id, obj, left);
      ObjectStays(g, Next(g, w, rs[0]), rs[1..], id, obj, n);
    }
  }

  lemma SparesFirst(rs: seq<Request>, id: Octets)
    requires Ordinary(rs) && Spares(rs, id) && rs != []
    ensures Sendable(rs[0]) && Ordinary(rs[1..]) && !Deletes(rs[0], id) && Spares(rs[1..], id)
  {
    hide Deletes, Sendable;
  }

  lemma StaysOnce(g: Supply, w: World, r: Request, id: Octets, obj: Catalog.Obj, n: nat)
    requires Sendable(r) && Ready(g, w, Uses(r) + n) && Holds(w.st, id, obj) && !Deletes(r, id)
    ensures Holds(Next(g, w, r).st, id, obj)
  {
    hide Argument, PutArguments, Legal, Catalog.Valid;
  }

  ghost function PutRequest(name: Octets, data: Octets): Request
    requires |name| <= 255 && |data| < 0x1_0000_0000
  {
    Request(PUT, PutBody(name, data))
  }

  /** PUT: the client hears the id that the object is now stored under. */
  lemma PutIsHeard(g: Supply, w: World, name: Octets, data: Octets)
    requires Catalog.Valid(w.st) && IsName(name) && PutSize(name, data) < 0x1_0000_0000
    ensures var r := PutRequest(name, data);
            && Sendable(r) && Uses(r) == 1 && HearsId(Answer(g, w, r), g.Id(w.used))
            && Next(g, w, r) == World(Catalog.Put(w.st, name, g.Id(w.used), data), w.used + 1)
            && Holds(Next(g, w, r).st, g.Id(w.used), Catalog.Obj(name, data))
  {
    hide Sendable, InBounds, PutArguments, PutBody, HearsId, Catalog.Valid;
    hide GetReply, DescReply, DelReply, ListReply;
    var r := PutRequest(name, data);
    PutArrives(name, data);
    IdIsShort(g, w.used);
    assert InBounds(PUT, r.body) by { SendableIsInBounds(r); }
    IdIsUnderstood(g.Id(w.used));
    assert Answer(g, w, r) == PutReply(r.body, g.Id(w.used));
    NewestIsListed(w.st, name, g.Id(w.used), data);
  }

  lemma NewestIsListed(st: Store, name: Octets, id: Octets, data: Octets)
    ensures Holds(Catalog.Put(st, name, id, data), id, Catalog.Obj(name, data))
  {
    assert (Catalog.ListOf(st, name) + [id])[|Catalog.ListOf(st, name)|] == id;
  }

  /**
   * A client PUTs `data` under `name`; the id it hears is good for as long as nobody DELs it. After
   * any other requests, by anyone, on whatever names and ids: GET yields the data, unless it is
   * empty; DESC yields name and size; LIST of the name, if it has at most 65535 ids, yields them all
   * in order, this one among them.
   */
  lemma PutThenRead(g: Supply, w: World, name: Octets, data: Octets, rs: seq<Request>)
    requires IsName(name) && PutSize(name, data) < 0x1_0000_0000
    requires Ordinary(rs) && Spares(rs, g.Id(w.used)) && Ready(g, w, 1 + UsesAll(rs))
    ensures var put, id := PutRequest(name, data), g.Id(w.used);
            && Sendable(put) && Uses(put) == 1
            && HearsId(Answer(g, w, put), id) && Ready(g, Next(g, w, put), UsesAll(rs))
            && IsName(id) && Sendable(GetRequest(id)) && Sendable(DescRequest(id)) && Sendable(ListRequest(name))
            && var v := AfterAll(g, Next(g, w, put), rs);
               && Catalog.Valid(v.st)
               && (HearsFile(Answer(g, v, GetRequest(id)), data) <==> data != [])
               && HearsDescription(Answer(g, v, DescRequest(id)), name, |data|)
               && id in Catalog.ListOf(v.st, name)
               && (|Catalog.ListOf(v.st, name)| < 0x1_0000 ==>
                     HearsIds(Answer(g, v, ListRequest(name)), Catalog.ListOf(v.st, name)))
  {
    hide Ready, Sendable, HearsId, HearsFile, HearsDescription, HearsIds, HearsError, Answer, Next, Spares, Uses;
    hide StringBody, PutBody, Catalog.Valid;
    var put, id, obj := PutRequest(name, data), g.Id(w.used), Catalog.Obj(name, data);
    ReadyForLess(g, w, 1 + UsesAll(rs), 0);
    PutIsHeard(g, w, name, data);
    ReadyToReply(g, w, put, UsesAll(rs));
    ObjectStays(g, Next(g, w, put), rs, id, obj, 0);
    var v := AfterAll(g, Next(g, w, put), rs);
    ReadyForLess(g, v, 0, 0);
    GetIsHeard(g, v, id, obj);
    DescIsHeard(g, v, id, obj);
    StringRequestArrives(LIST, name, EXPECTED_NAME);
    if |Catalog.ListOf(v.st, name)| < 0x1_0000 {
      ListIsHeard(g, v, name);
    }
  }

  // ---- DEL, and what is not there ----

  ghost predicate HearsDone(b: Octets) {
    IsFrame(b) && At16(b, 6) == P.SUCCESS && |b| == FRAME_HEAD
  }

  ghost function DelRequest(id: Octets): Request
    requires |id| <= 255
  {
    Request(DEL, StringBody(id))
  }

  /** DEL of a live object: success, and the object is gone from map and list. */
  lemma DelIsHeard(g: Supply, w: World, id: Octets)
    requires Catalog.Valid(w.st) && IsName(id) && id in w.st.objs
    ensures Sendable(DelRequest(id))
    ensures HearsDone(Answer(g, w, DelRequest(id)))
    ensures Next(g, w, DelRequest(id)) == World(Catalog.Remove(w.st, id), w.used)
  {
    hide Argument, Sendable, InBounds, StringBody, Catalog.Valid, GetReply, PutReply, DescReply, ListReply;
    StringRequestArrives(DEL, id, EXPECTED_ID);
    IdIsShort(g, w.used);
    assert InBounds(DEL, StringBody(id)) by { SendableIsInBounds(DelRequest(id)); }
    var head := P.Encode(P.HeaderOf(P.SUCCESS, 0));
    assert Answer(g, w, DelRequest(id)) == head;
    hide P.Encode;
    HeaderFields(P.SUCCESS, 0, []);
    assert head + [] == head;
  }

  /** A PUT and the DEL of its id leave every index and every object as they were. */
  lemma DelUndoesPut(g: Supply, w: World, name: Octets, data: Octets)
    requires Ready(g, w, 1) && IsName(name) && PutSize(name, data) < 0x1_0000_0000
    ensures var put, id := PutRequest(name, data), g.Id(w.used);
            && Sendable(put) && Sendable(DelRequest(id))
            && Next(g, Next(g, w, put), DelRequest(id)).st == w.st
  {
    hide Ready, Sendable, Next, StringBody, PutBody, Catalog.Remove, Catalog.Put, Catalog.Valid, HearsDone, Answer;
    hide Uses;
    var put, id := PutRequest(name, data), g.Id(w.used);
    NextIsAbsent(g, w);
    PutIsHeard(g, w, name, data);
    ReadyToReply(g, w, put, 0);
    ReadyForLess(g, Next(g, w, put), 0, 0);
    DelIsHeard(g, Next(g, w, put), id);
    Catalog.RemoveUndoesPut(w.st, name, id, data);
  }

  lemma NextIsAbsent(g: Supply, w: World)
    requires Ready(g, w, 1)
    ensures Catalog.Valid(w.st) && g.Id(w.used) !in w.st.objs
  {
  }

  /** Asking for an id no object has, or a name no object has: the error, and nothing changes. */
  lemma MissingIsHeard(g: Supply, w: World, command: u16, text: Octets)
    requires Catalog.Valid(w.st) && IsComponent(text) && GET <= command <= LIST && command != PUT
    requires if command == LIST then text !in w.st.lists else text !in w.st.objs
    ensures var r := Request(command, StringBody(text));
            && Sendable(r) && Next(g, w, r) == w && HearsError(Answer(g, w, r), Strerror(Posix.ENOENT))
    ensures Strerror(Posix.ENOENT) == [78, 111, 32, 115, 117, 99, 104, 32, 102, 105, 108, 101, 32, 111, 114, 32,
                                       100, 105, 114, 101, 99, 116, 111, 114, 121]
  {
    hide Argument, Sendable, InBounds, StringBody, Catalog.Valid, ErrorFrame, Strerror, HearsError;
    var r := Request(command, StringBody(text));
    StringRequestArrives(command, text, EXPECTED_ID);
    StringRequestArrives(command, text, EXPECTED_NAME);
    IdIsShort(g, w.used);
    assert InBounds(command, r.body) by { SendableIsInBounds(r); }
    SystemMessages();
    ErrorIsUnderstood(Strerror(Posix.ENOENT));
    StrerrorIsShort(Posix.ENOENT);
    assert Answer(g, w, r) == ErrorFrame(Strerror(Posix.ENOENT));
  }

  // ---- refused requests ----

  lemma RefusedStoresNothing(r: Request)
    requires Sendable(r) && Refused(r.command, r.body)
    ensures !Stores(r.command, r.body)
  {
    hide PutArguments, Argument;
  }

  /** A request with a refused parameter is answered with an error the client understands; the store is as before. */
  lemma RefusedIsHeard(g: Supply, w: World, r: Request)
    requires Catalog.Valid(w.st) && Sendable(r) && Refused(r.command, r.body)
    ensures Next(g, w, r) == w && HearsError(Answer(g, w, r), P.Cut(Complaint(r.command, r.body)))
  {
    hide Catalog.Valid, InBounds, Legal, Reply, Effect, HearsError, ErrorFrame, Refused, Complaint;
    IdIsShort(g, w.used);
    RefusedIsHarmless(w.st, r.command, r.body, g.Id(w.used));
    RefusedStoresNothing(r);
    ErrorIsUnderstood(Complaint(r.command, r.body));
  }

  // ---- across the wire ----

  lemma {:induction false} PrintAllInTwo(a: seq<Request>, b: seq<Request>)
    requires Ordinary(a) && Ordinary(b)
    ensures Ordinary(a + b) && PrintAll(a + b) == PrintAll(a) + PrintAll(b)
  {
    hide Sendable, Print;
    if a == [] {
      assert a + b == b;
    } else {
      assert (a + b)[1..] == a[1..] + b;
      PrintAllInTwo(a[1..], b);
    }
  }

  lemma {:induction false} UsesAllInTwo(a: seq<Request>, b: seq<Request>)
    requires Ordinary(a) && Ordinary(b)
    ensures Ordinary(a + b) && UsesAll(a + b) == UsesAll(a) + UsesAll(b)
  {
    hide Sendable, Uses;
    if a == [] {
      assert a + b == b;
    } else {
      assert (a + b)[1..] == a[1..] + b;
      UsesAllInTwo(a[1..], b);
    }
  }

  lemma {:induction false} AfterAllInTwo(g: Supply, w: World, a: seq<Request>, b: seq<Request>, n: nat)
    requires Ordinary(a) && Ordinary(b) && Ready(g, w, UsesAll(a) + n)
    ensures Ordinary(a + b) && Ready(g, AfterAll(g, w, a), n)
    ensures AfterAll(g, w, a + b) == AfterAll(g, AfterAll(g, w, a), b)
    decreases |a|
  {
    hide Sendable, Ready, Next, Uses, Catalog.Valid;
    if a == [] {
      assert a + b == b;
    } else {
      assert (a + b)[1..] == a[1..] + b;
      ReadyToReply(g, w, a[0], UsesAll(a[1..]) + n);
      AfterAllInTwo(g, Next(g, w, a[0]), a[1..], b, n);
    }
  }

  lemma {:induction false} AnswersInTwo(g: Supply, w: World, a: seq<Request>, b: seq<Request>)
    requires Ordinary(a) && Ordinary(b) && Ordinary(a + b) && Ready(g, w, UsesAll(a + b))
    requires Ready(g, w, UsesAll(a)) && Ready(g, AfterAll(g, w, a), UsesAll(b))
    ensures Answers(g, w, a + b) == Answers(g, w, a) + Answers(g, AfterAll(g, w, a), b)
    decreases |a|
  {
    hide Sendable, Ready, Next, Answer, Answered, Uses, Catalog.Valid;
    if a == [] {
      assert a + b == b;
    } else {
      assert (a + b)[1..] == a[1..] + b && (a + b)[0] == a[0];
      AnswersHead(g, w, a + b);
      AnswersHead(g, w, a);
      var v, last := Next(g, w, a[0]), AfterAll(g, w, a);
      assert last == AfterAll(g, v, a[1..]);
      AnswersInTwo(g, v, a[1..], b);
      hide Answers, AfterAll;
      var head := if Answered(a[0]) then [Answer(g, w, a[0])] else [];
      Associative(head, Answers(g, v, a[1..]), Answers(g, last, b));
    }
  }

  lemma Associative(a: seq<Octets>, b: seq<Octets>, c: seq<Octets>)
    ensures a + (b + c) == (a + b) + c
  {
  }

  ghost function Exchange(name: Octets, data: Octets, rs: seq<Request>, id: Octets): seq<Request>
    requires |name| <= 255 && |data| < 0x1_0000_0000 && |id| <= 255
  {
    [PutRequest(name, data)] + rs + [GetRequest(id)]
  }

  lemma ExchangeIsOrdinary(name: Octets, data: Octets, rs: seq<Request>, id: Octets)
    requires IsName(name) && PutSize(name, data) < 0x1_0000_0000 && IsName(id) && Ordinary(rs)
    ensures Ordinary(Exchange(name, data, rs, id)) && Ordinary([PutRequest(name, data)]) && Ordinary([GetRequest(id)])
    ensures PrintAll(Exchange(name, data, rs, id))
         == C.PutRequest(name, data) + PrintAll(rs) + C.StringRequest(GET, id, |CString(id)|)
  {
    hide Sendable, PutBody, StringBody, C.PutRequest, C.StringRequest, CString, Print;
    PutArrives(name, data);
    StringRequestArrives(GET, id, EXPECTED_ID);
    var a, b := [PutRequest(name, data)], [GetRequest(id)];
    PrintAllInTwo(a, rs);
    PrintAllInTwo(a + rs, b);
    PrintOne(a[0]);
    PrintOne(b[0]);
  }

  lemma PrintOne(r: Request)
    requires Sendable(r) && r.command != QUIT
    ensures Ordinary([r]) && PrintAll([r]) == Print(r)
  {
    hide Sendable, Print;
    assert [r][1..] == [];
    assert Print(r) + [] == Print(r);
  }

  lemma AnswersOne(g: Supply, w: World, r: Request)
    requires Sendable(r) && r.command != QUIT && Ready(g, w, Uses(r))
    ensures Ordinary([r]) && UsesAll([r]) == Uses(r) && Catalog.Valid(w.st)
    ensures Answers(g, w, [r]) == (if Answered(r) then [Answer(g, w, r)] else [])
    ensures AfterAll(g, w, [r]) == Next(g, w, r)
  {
    hide Sendable, Answer, Next, Ready, Uses, Catalog.Valid;
    assert [r][1..] == [];
    ReadyToReply(g, w, r, 0);
  }

  lemma GetUsesNone(id: Octets)
    requires |id| <= 255 && Sendable(GetRequest(id))
    ensures Uses(GetRequest(id)) == 0
  {
    hide StringBody, Argument;
  }

  /** How many ids the exchange uses up, and the world in which its GET is answered. */
  lemma ExchangeUses(g: Supply, w: World, name: Octets, data: Octets, rs: seq<Request>)
    requires IsName(name) && PutSize(name, data) < 0x1_0000_0000 && Ordinary(rs) && Ready(g, w, 1 + UsesAll(rs))
    ensures var put, get := PutRequest(name, data), GetRequest(g.Id(w.used));
            && Sendable(put) && Sendable(get) && Uses(put) == 1 && Uses(get) == 0
            && Ordinary([put]) && Ordinary([put] + rs) && Ordinary([get])
            && Ordinary(Exchange(name, data, rs, g.Id(w.used)))
            && UsesAll([put]) == 1 && UsesAll([put] + rs) == 1 + UsesAll(rs) && UsesAll([get]) == 0
            && UsesAll(Exchange(name, data, rs, g.Id(w.used))) == 1 + UsesAll(rs)
  {
    hide Ready, Sendable, Answer, Next, Uses, StringBody, PutBody, HearsId, Catalog.Valid, Print, PrintAll;
    var put, get := PutRequest(name, data), GetRequest(g.Id(w.used));
    ReadyForLess(g, w, 1 + UsesAll(rs), 0);
    PutIsHeard(g, w, name, data);
    StringRequestArrives(GET, g.Id(w.used), EXPECTED_ID);
    GetUsesNone(g.Id(w.used));
    PrintOne(put);
    PrintOne(get);
    UsesOne(put);
    UsesOne(get);
    UsesAllInTwo([put], rs);
    UsesAllInTwo([put] + rs, [get]);
  }

  lemma UsesOne(r: Request)
    requires Ordinary([r]) && Sendable(r)
    ensures UsesAll([r]) == Uses(r)
  {
    hide Sendable, Uses;
    assert [r][1..] == [];
  }

  lemma ExchangeAnswers(g: Supply, w: World, name: Octets, data: Octets, rs: seq<Request>)
    requires IsName(name) && PutSize(name, data) < 0x1_0000_0000 && data != []
    requires Ordinary(rs) && Spares(rs, g.Id(w.used)) && Ready(g, w, 1 + UsesAll(rs))
    ensures Ordinary(Exchange(name, data, rs, g.Id(w.used)))
    ensures UsesAll(Exchange(name, data, rs, g.Id(w.used))) == 1 + UsesAll(rs)
    ensures var frames := Answers(g, w, Exchange(name, data, rs, g.Id(w.used)));
            && |frames| == CountAnswered(rs) + 2
            && HearsId(frames[0], g.Id(w.used)) && HearsFile(frames[|frames| - 1], data)
  {
    hide Ready, Sendable, HearsId, HearsFile, HearsDescription, HearsIds, HearsError, Answer, Next, Spares, Uses;
    hide StringBody, PutBody, Catalog.Valid;
    hide Answers, AfterAll, UsesAll;
    var put, id := PutRequest(name, data), g.Id(w.used);
    var get := GetRequest(id);
    PutThenRead(g, w, name, data, rs);
    ExchangeUses(g, w, name, data, rs);
    ReadyForLess(g, w, 1 + UsesAll(rs), 1);
    AnswersOne(g, w, put);
    var v := Next(g, w, put);
    AfterAllInTwo(g, w, [put], rs, UsesAll(rs));
    AfterAllInTwo(g, w, [put] + rs, [get], 0);
    AnswersInTwo(g, w, [put], rs);
    AnswersInTwo(g, w, [put] + rs, [get]);
    AnswersOne(g, AfterAll(g, v, rs), get);
    AnswersCount(g, v, rs);
  }

  /**
   * The same over one byte stream: the octets of a PUT, of any other requests, and of a GET, as
   * the client writes them, go in; the octets that come out fall into one frame for each request
   * with a command from 1 to 5, the first of which tells the id and the last of which holds the data.
   */
  lemma AcrossTheWire(g: Supply, w: World, name: Octets, data: Octets, rs: seq<Request>, input: Octets)
    requires Small(w.st) && IsName(name) && PutSize(name, data) < 0x1_0000_0000 && data != []
    requires Ordinary(rs) && Spares(rs, g.Id(w.used)) && Ready(g, w, 1 + UsesAll(rs))
    requires Ordinary(Exchange(name, data, rs, g.Id(w.used)))
    requires AllCountable(g, w, Exchange(name, data, rs, g.Id(w.used)))
    requires input == C.PutRequest(name, data) + PrintAll(rs)
                    + C.StringRequest(GET, g.Id(w.used), |CString(g.Id(w.used))|)
    ensures Admissible(input, 0) && Storing(input, 0) == 1 + UsesAll(rs)
    ensures var frames := Unframe(Serve(g, input, 0, w).out);
            && |frames| == CountAnswered(rs) + 2
            && HearsId(frames[0], g.Id(w.used)) && HearsFile(frames[|frames| - 1], data)
  {
    hide Ready, Small, Sendable, Serve, Storing, Admissible, HearsId, HearsFile, Answer, Next, Spares, Exchange, Uses;
    hide PutRequest, GetRequest, UsesAll, Catalog.Valid;
    var id := g.Id(w.used);
    var all := Exchange(name, data, rs, id);
    ExchangeIsOrdinary(name, data, rs, id);
    ExchangeAnswers(g, w, name, data, rs);
    OneFrameEach(g, w, all, input);
  }
}
