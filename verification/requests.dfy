/** What each request means: the frame it is answered with, and what it does to the store. */
module Requests {
  import opened Bytes
  import opened Endian
  import opened Protocol
  import opened Messages
  import Posix
  import Catalog

  type Store = Catalog.Store

  const GET: u16 := 1
  const PUT: u16 := 2
  const DESC: u16 := 3
  const DEL: u16 := 4
  const LIST: u16 := 5
  const QUIT: u16 := 6

  const EXPECTED_ID: Octets := Ascii("Expected file id")
  const EXPECTED_NAME: Octets := Ascii("Expected file name")

  function Strerror(no: int): Octets {
    if no == Posix.ENOENT then Ascii("No such file or directory")
    else if no == Posix.EINVAL then Ascii("Invalid argument")
    else Ascii("Unknown error")
  }

  /** "No such file or directory" and "Invalid argument". */
  lemma SystemMessages()
    ensures Strerror(2) == [78, 111, 32, 115, 117, 99, 104, 32, 102, 105, 108, 101, 32, 111, 114, 32,
                            100, 105, 114, 101, 99, 116, 111, 114, 121]
    ensures Strerror(22) == [73, 110, 118, 97, 108, 105, 100, 32, 97, 114, 103, 117, 109, 101, 110, 116]
  {
  }

  // ---- parameters ----

  datatype Param = Rejected(msg: Octets) | Accepted(text: Octets, at: nat)

  /** The string parameter every request starts with; an empty one is refused with `empty`. */
  ghost function Argument(body: Octets, empty: Octets): Param
    requires Checkable(Default(String), body, 0)
  {
    var r := Check(Default(String), body, 0);
    if r.err.Fails() then Rejected(r.err.msg)
    else if r.f.text == [] then Rejected(empty)
    else Accepted(r.f.text, r.at)
  }

  datatype PutParams = PutRejected(msg: Octets) | PutAccepted(name: Octets, data: Octets)

  /** The two parameters of a PUT lie inside the body, the second one's payload and magic included. */
  ghost predicate PutReadable(body: Octets) {
    && Checkable(Default(String), body, 0)
    && match Argument(body, EXPECTED_NAME)
       case Rejected(_) => true
       case Accepted(_, at) =>
         && Checkable(Default(Bigdata), body, at)
         && var r := Check(Default(Bigdata), body, at);
            !r.err.Fails() ==> r.at + r.f.length < |body|
  }

  ghost function PutArguments(body: Octets): PutParams
    requires PutReadable(body)
  {
    match Argument(body, EXPECTED_NAME)
    case Rejected(msg) => PutRejected(msg)
    case Accepted(name, at) =>
      var r := Check(Default(Bigdata), body, at);
      if r.err.Fails() then PutRejected(r.err.msg)
      else if body[r.at + r.f.length] != MAGIC then PutRejected(BAD_FORMAT)
      else PutAccepted(name, body[r.at..r.at + r.f.length])
  }

  /** Declared lengths stay inside the body. */
  ghost predicate InBounds(command: u16, body: Octets) {
    if command == PUT then PutReadable(body)
    else GET <= command <= LIST ==> Checkable(Default(String), body, 0)
  }

  /** Names and ids that can stand as path components; names also as lines. */
  ghost predicate Legal(command: u16, body: Octets)
    requires InBounds(command, body)
  {
    if command == PUT then PutArguments(body).PutAccepted? ==> IsName(PutArguments(body).name)
    else GET <= command <= LIST ==>
      var p := Argument(body, EXPECTED_ID);
      p.Accepted? ==> IsComponent(p.text)
  }

  // ---- replies ----

  function Wrapped32(n: nat): u32 {
    n % 0x1_0000_0000
  }

  /** A success header for a body, its length cut to 32 bits, and the body. */
  ghost function Success(body: Octets): Octets {
    Encode(HeaderOf(SUCCESS, Wrapped32(|body|))) + body
  }

  /** The size is cut to 32 bits; nothing can be mapped from a file of size 0. */
  ghost function FileReply(data: Octets): Octets {
    var size := Wrapped32(|data|);
    if size == 0 then ErrorFrame(Strerror(Posix.EINVAL))
    else Encode(HeaderOf(SUCCESS, Wrapped32(HEADER_SIZE + size))) + Encode(BigdataOf(size)) + data[..size] + [MAGIC]
  }

  ghost function GetReply(st: Store, body: Octets): Octets
    requires InBounds(GET, body)
  {
    match Argument(body, EXPECTED_ID)
    case Rejected(msg) => ErrorFrame(msg)
    case Accepted(id, _) =>
      if id !in st.objs then ErrorFrame(Strerror(Posix.ENOENT)) else FileReply(st.objs[id].data)
  }

  ghost function PutReply(body: Octets, id: Octets): Octets
    requires InBounds(PUT, body) && |id| <= 255
  {
    match PutArguments(body)
    case PutRejected(msg) => ErrorFrame(msg)
    case PutAccepted(_, _) => Encode(HeaderOf(SUCCESS, HEADER_SIZE + |id|)) + Encode(StringOf(id))
  }

  /** A string built from a C string: nothing from the first NUL on. */
  ghost function CStringOf(s: Octets): Fields
    requires |s| <= 255
  {
    StringOf(CString(s))
  }

  ghost function DescReply(st: Store, body: Octets): Octets
    requires InBounds(DESC, body) && Catalog.Valid(st)
  {
    match Argument(body, EXPECTED_ID)
    case Rejected(msg) => ErrorFrame(msg)
    case Accepted(id, _) =>
      if id !in st.objs then ErrorFrame(Strerror(Posix.ENOENT))
      else Success(Encode(CStringOf(st.objs[id].name)) + Encode(IntegerOf(Wrapped32(|st.objs[id].data|))))
  }

  ghost function DelReply(st: Store, body: Octets): Octets
    requires InBounds(DEL, body)
  {
    match Argument(body, EXPECTED_ID)
    case Rejected(msg) => ErrorFrame(msg)
    case Accepted(id, _) =>
      if id !in st.objs then ErrorFrame(Strerror(Posix.ENOENT)) else Encode(HeaderOf(SUCCESS, 0))
  }

  ghost predicate AllShort(ids: seq<Octets>) {
    forall i :: 0 <= i < |ids| ==> |ids[i]| <= 255
  }

  ghost function EncodeStrings(ids: seq<Octets>): Octets
    requires AllShort(ids)
  {
    if ids == [] then [] else Encode(CStringOf(ids[0])) + EncodeStrings(ids[1..])
  }

  /** The count is cut to 16 bits; the strings all follow. */
  ghost function ListBody(ids: seq<Octets>): Octets
    requires AllShort(ids)
  {
    Encode(SmallintOf(|ids| % 0x1_0000)) + EncodeStrings(ids)
  }

  lemma ListedAreShort(st: Store, name: Octets)
    requires Catalog.Valid(st) && name in st.lists
    ensures AllShort(st.lists[name])
  {
    var ids := st.lists[name];
    forall i | 0 <= i < |ids| ensures |ids[i]| <= 255 {
      assert ids[i] in st.lists[name];
      assert IsName(ids[i]);
    }
  }

  ghost function ListReply(st: Store, body: Octets): Octets
    requires InBounds(LIST, body) && Catalog.Valid(st)
  {
    match Argument(body, EXPECTED_NAME)
    case Rejected(msg) => ErrorFrame(msg)
    case Accepted(name, _) =>
      if name !in st.lists then ErrorFrame(Strerror(Posix.ENOENT))
      else
        ListedAreShort(st, name);
        Success(ListBody(st.lists[name]))
  }

  // ---- whole requests ----

  /** The octets sent back. QUIT and unknown commands are not answered. */
  ghost function Reply(st: Store, command: u16, body: Octets, id: Octets): Octets
    requires InBounds(command, body) && Catalog.Valid(st) && |id| <= 255
  {
    if command == GET then GetReply(st, body)
    else if command == PUT then PutReply(body, id)
    else if command == DESC then DescReply(st, body)
    else if command == DEL then DelReply(st, body)
    else if command == LIST then ListReply(st, body)
    else []
  }

  /** The store afterwards; `id` is what the generator gives a PUT. */
  ghost function Effect(st: Store, command: u16, body: Octets, id: Octets): Store
    requires InBounds(command, body)
  {
    if command == PUT then
      match PutArguments(body)
      case PutRejected(_) => st
      case PutAccepted(name, data) => Catalog.Put(st, name, id, data)
    else if command == DEL then
      match Argument(body, EXPECTED_ID)
      case Rejected(_) => st
      case Accepted(x, _) => Catalog.Remove(st, x)
    else st
  }

  /** The request makes a new object, and so uses up an id. */
  ghost predicate Stores(command: u16, body: Octets)
    requires InBounds(command, body)
  {
    command == PUT && PutArguments(body).PutAccepted?
  }

  lemma EffectKeepsValid(st: Store, command: u16, body: Octets, id: Octets)
    requires InBounds(command, body) && Legal(command, body) && Catalog.Valid(st) && IsName(id)
    requires Stores(command, body) ==> id !in st.objs
    ensures Catalog.Valid(Effect(st, command, body, id))
  {
    if command == PUT && PutArguments(body).PutAccepted? {
      var p := PutArguments(body);
      Catalog.PutKeepsValid(st, p.name, id, p.data);
    } else if command == DEL && Argument(body, EXPECTED_ID).Accepted? {
      Catalog.RemoveKeepsValid(st, Argument(body, EXPECTED_ID).text);
    }
  }

  // ---- rejected parameters ----

  /** Why the first parameter is refused, read off the octets; type 0 included. */
  lemma ArgumentRejectedIff(body: Octets, empty: Octets)
    requires Checkable(Default(String), body, 0)
    ensures var t := At16(body, 0);
            var p := Argument(body, empty);
            && (p.Accepted? <==> t == 5 && 0 < At32(body, 2) && body[6 + At32(body, 2)] == MAGIC)
            && (p.Accepted? ==> p.text == body[6..6 + At32(body, 2)] && p.at == HEADER_SIZE + At32(body, 2))
            && (p.Rejected? ==> p.msg == if t == 0 then empty
                                         else if t != 5 then WRONG_TYPE
                                         else if body[6 + At32(body, 2)] != MAGIC then BAD_FORMAT
                                         else empty)
  {
  }

  /** Big data of wire type 0 reads as empty, and its own first octet is not magic. */
  lemma PutRejectedIff(body: Octets)
    requires PutReadable(body)
    ensures PutArguments(body).PutRejected? <==>
      var p := Argument(body, EXPECTED_NAME);
      p.Rejected? || At16(body, p.at) != 6 || body[p.at + 6 + At32(body, p.at + 2)] != MAGIC
  {
    hide Argument;
    var p := Argument(body, EXPECTED_NAME);
    if p.Accepted? && At16(body, p.at) == 0 {
      assert body[p.at..p.at + 2][0] == 0;
    }
  }

  ghost predicate Refused(command: u16, body: Octets)
    requires InBounds(command, body)
  {
    if command == PUT then PutArguments(body).PutRejected?
    else GET <= command <= LIST && Argument(body, EXPECTED_ID).Rejected?
  }

  /** What a refused request is told. */
  ghost function Complaint(command: u16, body: Octets): Octets
    requires InBounds(command, body) && Refused(command, body)
  {
    if command == PUT then PutArguments(body).msg
    else if command == LIST then Argument(body, EXPECTED_NAME).msg
    else Argument(body, EXPECTED_ID).msg
  }

  /** A refused request is answered with one error frame and changes nothing. */
  lemma RefusedIsHarmless(st: Store, command: u16, body: Octets, id: Octets)
    requires InBounds(command, body) && Catalog.Valid(st) && |id| <= 255 && Refused(command, body)
    ensures Effect(st, command, body, id) == st
    ensures Reply(st, command, body, id) == ErrorFrame(Complaint(command, body))
  {
    hide Check, Checkable, Encode, ErrorFrame, FileReply, Success, Catalog.Valid;
  }
}
