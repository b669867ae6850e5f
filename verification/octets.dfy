/**
 * What stands on the wire, octet by octet. The definitions here use only numbers; everything the
 * client writes and the server answers is proved to be one of these frames.
 */
module WireOctets {
  import opened Bytes
  import opened Endian
  import opened Connections
  import P = Protocol
  import opened Messages
  import opened Requests
  import opened Sessions
  import opened Framing
  import opened Uid
  import opened EndToEnd
  import C = Client
  import Posix
  import Catalog

  // ---- the format in numbers ----

  function Two(n: u16): Octets {
    [n / 256, n % 256]
  }

  function Four(n: u32): Octets {
    [n / 16777216, n / 65536 % 256, n / 256 % 256, n % 256]
  }

  /** A header, type 1, that announces a length cut to 32 bits and has a command or a status in octets 6 and 7. */
  function Head(length: nat, number: u16): (r: Octets)
    ensures |r| == 8
  {
    [0, 1] + Four(length % 4294967296) + Two(number)
  }

  /** A header, and what it announces. */
  function Frame(number: u16, body: Octets): Octets {
    Head(|body|, number) + body
  }

  function ErrorAs(msg: Octets): Octets
    requires |msg| <= 255
  {
    [0, 2] + Four(|msg|) + msg + [204]
  }

  function SmallintAs(n: u16): Octets {
    [0, 3] + Four(2) + Two(n) + [204]
  }

  function IntegerAs(n: u32): Octets {
    [0, 4] + Four(4) + Four(n) + [204]
  }

  function StringAs(s: Octets): (r: Octets)
    requires |s| < 4294967296
    ensures |r| == 7 + |s|
  {
    [0, 5] + Four(|s|) + s + [204]
  }

  function FileAs(data: Octets): (r: Octets)
    requires |data| < 4294967296
    ensures |r| == 7 + |data|
  {
    [0, 6] + Four(|data|) + data + [204]
  }

  ghost function StringsAs(ids: seq<Octets>): Octets
    requires AllShort(ids)
  {
    if ids == [] then [] else StringAs(ids[0]) + StringsAs(ids[1..])
  }

  /** What stands in two and in four octets. */
  function TwoAt(b: Octets, at: nat): nat
    requires at + 2 <= |b|
  {
    256 * b[at] as int + b[at + 1] as int
  }

  function FourAt(b: Octets, at: nat): nat
    requires at + 4 <= |b|
  {
    16777216 * b[at] as int + 65536 * b[at + 1] as int + 256 * b[at + 2] as int + b[at + 3] as int
  }

  // ---- every class prints so ----

  lemma NetsAreDigits(n: u16, m: u32)
    ensures Net16(n) == Two(n) && Net32(m) == Four(m)
  {
    HalvesDigits(m);
  }

  lemma HeaderPrints(n: u16, m: u32)
    ensures P.Encode(P.HeaderOf(n, m)) == Head(m, n)
  {
    NetsAreDigits(1, m);
    NetsAreDigits(n, m);
  }

  lemma NumbersPrint(n: u16, m: u32)
    ensures P.Encode(P.SmallintOf(n)) == SmallintAs(n) && P.Encode(P.IntegerOf(m)) == IntegerAs(m)
  {
    NetsAreDigits(3, 2);
    NetsAreDigits(4, 4);
    NetsAreDigits(n, m);
  }

  lemma StringPrints(text: Octets)
    requires |text| < 4294967296
    ensures P.Encode(P.StringOf(text)) == StringAs(text)
  {
    NetsAreDigits(5, |text|);
  }

  lemma FilePrints(data: Octets)
    requires |data| < 4294967296
    ensures P.Encode(P.BigdataOf(|data|)) == [0, 6] + Four(|data|)
    ensures P.Encode(P.BigdataOf(|data|)) + (data + [P.MAGIC]) == FileAs(data)
  {
    NetsAreDigits(6, |data|);
  }

  lemma ErrorPrints(msg: Octets)
    ensures P.Encode(P.ErrorOf(msg)) == ErrorAs(P.Cut(msg))
  {
    NetsAreDigits(2, |P.Cut(msg)|);
    assert P.Cut(msg) + P.Zeros(0) == P.Cut(msg);
  }

  /** A header and a body of the announced length. */
  lemma FramePrints(n: u16, body: Octets)
    requires |body| < 4294967296
    ensures P.Encode(P.HeaderOf(n, |body|)) + body == Frame(n, body)
  {
    hide P.Encode, Head;
    HeaderPrints(n, |body|);
  }

  /** A reply that announces its length. */
  lemma SuccessAs(body: Octets)
    ensures Success(body) == Frame(0, body)
  {
    hide P.Encode, Head;
    HeaderPrints(0, |body| % 4294967296);
    HeadCuts(|body|, 0);
  }

  lemma HeadCuts(length: nat, number: u16)
    ensures Head(length % 4294967296, number) == Head(length, number)
  {
  }

  /** An error message, whole: status 1, and the message cut to 255 octets. */
  lemma ErrorFrameAs(msg: Octets)
    ensures ErrorFrame(msg) == Frame(1, ErrorAs(P.Cut(msg)))
  {
    hide P.Encode;
    ErrorPrints(msg);
    P.EncodedSize(P.ErrorOf(msg));
    FramePrints(1, ErrorAs(P.Cut(msg)));
  }

  // ---- what the client writes ----

  /** get, list, desc and del: one string behind the number of the command. */
  lemma StringRequestAs(command: u16, text: Octets)
    requires IsComponent(text) && (command == 1 || command == 3 || command == 4 || command == 5)
    ensures CString(text) == text && Sendable(Request(command, StringAs(text)))
    ensures StringBody(text) == StringAs(text)
    ensures C.StringRequest(command, text, |text|) == Frame(command, StringAs(text))
    ensures Print(Request(command, StringAs(text))) == Frame(command, StringAs(text))
  {
    hide P.Encode, Sendable, P.Checkable, Argument, C.StringRequest, Frame, StringAs;
    StringRequestArrives(command, text, EXPECTED_ID);
    StringPrints(text);
    FramePrints(command, StringAs(text));
  }

  /** put: the name as a string and the file behind the number 2. */
  lemma PutRequestAs(name: Octets, data: Octets)
    requires IsName(name) && 14 + |name| + |data| < 4294967296
    ensures var body := StringAs(name) + FileAs(data);
            && |body| == 14 + |name| + |data| && PutBody(name, data) == body
            && Sendable(Request(2, body)) && C.PutRequest(name, data) == Frame(2, body)
            && Print(Request(2, body)) == Frame(2, body)
  {
    hide P.Encode, Sendable, C.PutRequest, PutArguments, Frame, StringAs;
    PutArrives(name, data);
    StringPrints(name);
    FilePrints(data);
    Regrouped(P.Encode(P.StringOf(name)), P.Encode(P.BigdataOf(|data|)), data, [P.MAGIC]);
    FramePrints(2, StringAs(name) + FileAs(data));
  }

  lemma Regrouped(a: Octets, b: Octets, c: Octets, d: Octets)
    ensures a + b + c + d == a + (b + (c + d))
  {
  }

  /** Whatever the argument: what is sent stops at its first NUL, and the length is announced as the code counts it. */
  lemma StringRequestInFull(command: u16, text: Octets, announced: nat)
    requires |CString(text)| < 4294967296
    ensures C.StringRequest(command, text, announced) == Head(7 + announced, command) + StringAs(CString(text))
  {
    hide P.Encode, StringAs, CString, Head;
    HeaderPrints(command, (7 + announced) % 4294967296);
    StringPrints(CString(text));
    HeadCuts(7 + announced, command);
  }

  /** Whatever the file: only what is left of its size in 32 bits is announced and sent. */
  lemma PutRequestInFull(name: Octets, content: Octets)
    requires |CString(name)| < 4294967296
    ensures var size := |content| % 4294967296;
            C.PutRequest(name, content)
            == Head(14 + |CString(name)| + |content|, 2) + (StringAs(CString(name)) + FileAs(content[..size]))
  {
    hide P.Encode, StringAs, CString, Head;
    var size := |content| % 4294967296;
    HeaderPrints(2, (14 + |CString(name)| + |content|) % 4294967296);
    HeadCuts(14 + |CString(name)| + |content|, 2);
    StringPrints(CString(name));
    FilePrints(content[..size]);
    hide FileAs;
    Regrouped5(Head(14 + |CString(name)| + |content|, 2), StringAs(CString(name)), P.Encode(P.BigdataOf(size)),
               content[..size], [P.MAGIC]);
  }

  lemma Regrouped5(a: Octets, b: Octets, c: Octets, d: Octets, e: Octets)
    ensures a + b + c + d + e == a + (b + (c + (d + e)))
  {
  }

  /** A file of any size is answered with what is left of its size in 32 bits, or with an error if that is nothing. */
  lemma FileReplyInFull(data: Octets)
    ensures var size := |data| % 4294967296;
            FileReply(data) ==
            if size == 0
            then Frame(1, ErrorAs([73, 110, 118, 97, 108, 105, 100, 32, 97, 114, 103, 117, 109, 101, 110, 116]))
            else Head(7 + size, 0) + FileAs(data[..size])
  {
    hide P.Encode, ErrorFrame, Head, Frame, ErrorAs;
    var size: u32 := |data| % 4294967296;
    if size == 0 {
      StrerrorIsShort(Posix.EINVAL);
      SystemMessages();
      ErrorFrameAs(Strerror(Posix.EINVAL));
    } else {
      HeaderPrints(0, (7 + size) % 4294967296);
      HeadCuts(7 + size, 0);
      FilePrints(data[..size]);
      hide FileAs;
      Regrouped(P.Encode(P.HeaderOf(0, (7 + size) % 4294967296)), P.Encode(P.BigdataOf(size)), data[..size], [P.MAGIC]);
    }
  }

  // ---- what the server makes of each number ----

  /**
   * Wherever the frame stands in what a connection receives, and whatever follows it: the server sends
   * `answer`, and then serves what follows in the world `v`; `n` ids are used up.
   */
  ghost predicate Does(g: Supply, w: World, number: u16, body: Octets, answer: Octets, v: World, n: nat) {
    forall input: Octets, at: nat ::
      var next := at + |Frame(number, body)|;
      P.StandsAt(Frame(number, body), input, at) && Admissible(input, next) && Ready(g, w, n + Storing(input, next)) ==>
        && Admissible(input, at) && Storing(input, at) == n + Storing(input, next)
        && Ready(g, v, Storing(input, next))
        && var rest := Serve(g, input, next, v);
           Serve(g, input, at, w) == Session(answer + rest.out, rest.w)
  }

  lemma DoesAsRequested(g: Supply, w: World, r: Request)
    requires Sendable(r) && Catalog.Valid(w.st) && r.command != 6 && Print(r) == Frame(r.command, r.body)
    ensures Does(g, w, r.command, r.body, Answer(g, w, r), Next(g, w, r), Uses(r))
  {
    hide Serve, Ready, Sendable, Next, Answer, Uses, Catalog.Valid, Admissible, Storing, P.StandsAt, Print, Frame;
    forall input: Octets, at: nat |
      && P.StandsAt(Frame(r.command, r.body), input, at)
      && Admissible(input, at + |Frame(r.command, r.body)|)
      && Ready(g, w, Uses(r) + Storing(input, at + |Frame(r.command, r.body)|))
      ensures var next := at + |Frame(r.command, r.body)|;
              && Admissible(input, at) && Storing(input, at) == Uses(r) + Storing(input, next)
              && Ready(g, Next(g, w, r), Storing(input, next))
              && var rest := Serve(g, input, next, Next(g, w, r));
                 Serve(g, input, at, w) == Session(Answer(g, w, r) + rest.out, rest.w)
    {
      ServesFirst(g, w, r, input, at);
    }
  }

  lemma StringRequestDoes(g: Supply, w: World, command: u16, text: Octets)
    requires Catalog.Valid(w.st) && IsComponent(text)
    requires command == 1 || command == 3 || command == 4 || command == 5
    ensures Sendable(Request(command, StringBody(text)))
    ensures var r := Request(command, StringBody(text));
            && Uses(r) == 0 && StringBody(text) == StringAs(text)
            && Does(g, w, command, StringAs(text), Answer(g, w, r), Next(g, w, r), 0)
  {
    hide Does, Sendable, Print, Answer, Next, StringBody, Argument, P.Checkable, Catalog.Valid;
    StringRequestAs(command, text);
    DoesAsRequested(g, w, Request(command, StringAs(text)));
  }

  /** 1: the file, unless it is empty. */
  lemma YieldsAtOne(g: Supply, w: World, id: Octets, obj: Catalog.Obj)
    requires Catalog.Valid(w.st) && IsName(id) && Holds(w.st, id, obj) && |obj.data| <= 4294967288
    ensures Does(g, w, 1, StringAs(id),
                 if obj.data != [] then Frame(0, FileAs(obj.data))
                 else Frame(1, ErrorAs([73, 110, 118, 97, 108, 105, 100, 32, 97, 114, 103, 117, 109, 101, 110, 116])),
                 w, 0)
  {
    hide Does, StringAs, Argument, Sendable, InBounds, StringBody, FileReply, ErrorFrame, Catalog.Valid, Frame, FileAs;
    hide ErrorAs;
    StringRequestDoes(g, w, 1, id);
    StringRequestArrives(1, id, EXPECTED_ID);
    assert Next(g, w, Request(1, StringBody(id))) == w;
    assert Answer(g, w, Request(1, StringBody(id))) == FileReply(obj.data);
    FileReplyAs(obj.data);
  }

  lemma FileReplyAs(data: Octets)
    requires |data| <= 4294967288
    ensures FileReply(data) ==
      if data != [] then Frame(0, FileAs(data))
      else Frame(1, ErrorAs([73, 110, 118, 97, 108, 105, 100, 32, 97, 114, 103, 117, 109, 101, 110, 116]))
  {
    hide P.Encode, Frame, ErrorFrame, ErrorAs;
    if data == [] {
      EmptyFileIsAnError();
      StrerrorIsShort(Posix.EINVAL);
      SystemMessages();
      ErrorFrameAs(Strerror(Posix.EINVAL));
    } else {
      FileReplyParts(data);
      FilePrints(data);
      FramePrints(0, FileAs(data));
    }
  }

  /** 2: the file is stored under a new id, which is the answer. */
  lemma StoresAtTwo(g: Supply, w: World, name: Octets, data: Octets)
    requires Catalog.Valid(w.st) && IsName(name) && 14 + |name| + |data| < 4294967296
    ensures |g.Id(w.used)| == 32
    ensures Does(g, w, 2, StringAs(name) + FileAs(data), Frame(0, StringAs(g.Id(w.used))),
                 World(Catalog.Put(w.st, name, g.Id(w.used), data), w.used + 1), 1)
  {
    hide Does, StringAs, FileAs, Sendable, InBounds, PutArguments, PutBody, Catalog.Valid, Frame, Print, HearsId;
    hide P.Encode, GetReply, DescReply, DelReply, ListReply;
    var r, id := Request(2, PutBody(name, data)), g.Id(w.used);
    PutRequestAs(name, data);
    PutArrives(name, data);
    PutIsHeard(g, w, name, data);
    assert InBounds(PUT, r.body) by { SendableIsInBounds(r); }
    assert Answer(g, w, r) == PutReply(r.body, id);
    StringPrints(id);
    P.EncodedSize(P.StringOf(id));
    FramePrints(0, StringAs(id));
    DoesAsRequested(g, w, r);
  }

  /** 3: name, and size cut to 32 bits. */
  lemma DescribesAtThree(g: Supply, w: World, id: Octets, obj: Catalog.Obj)
    requires Catalog.Valid(w.st) && IsName(id) && Holds(w.st, id, obj)
    ensures |obj.name| <= 255
    ensures Does(g, w, 3, StringAs(id), Frame(0, StringAs(obj.name) + IntegerAs(|obj.data| % 4294967296)), w, 0)
  {
    hide Does, StringAs, IntegerAs, Argument, Sendable, InBounds, StringBody, Success, Catalog.Valid, Frame, CString;
    hide P.Encode, Holds, GetReply, PutReply, DelReply, ListReply;
    var r := Request(3, StringBody(id));
    StringRequestDoes(g, w, 3, id);
    StringRequestArrives(3, id, EXPECTED_ID);
    assert Next(g, w, r) == w;
    assert InBounds(DESC, r.body) by { SendableIsInBounds(r); }
    assert Answer(g, w, r) == DescReply(w.st, r.body);
    DescReplyAs(w.st, r.body, id, obj);
  }

  lemma DescReplyAs(st: Store, body: Octets, id: Octets, obj: Catalog.Obj)
    requires Catalog.Valid(st) && Holds(st, id, obj)
    requires InBounds(DESC, body) && Argument(body, EXPECTED_ID).Accepted? && Argument(body, EXPECTED_ID).text == id
    ensures |obj.name| <= 255
    ensures DescReply(st, body) == Frame(0, StringAs(obj.name) + IntegerAs(|obj.data| % 4294967296))
  {
    hide Argument, P.Encode, Frame, CString, StringAs, IntegerAs, Success;
    DescBodyAs(obj.name, |obj.data| % 4294967296);
  }

  lemma DescBodyAs(name: Octets, size: u32)
    requires |name| <= 255 && Free(name, NUL)
    ensures Success(P.Encode(CStringOf(name)) + P.Encode(P.IntegerOf(size)))
         == Frame(0, StringAs(name) + IntegerAs(size))
  {
    hide P.Encode, Frame, CString, Success;
    CStringOfNulFree(name);
    assert CStringOf(name) == P.StringOf(name);
    StringPrints(name);
    NumbersPrint(0, size);
    SuccessAs(StringAs(name) + IntegerAs(size));
  }

  /** 4: an empty success, and the object is gone. */
  lemma RemovesAtFour(g: Supply, w: World, id: Octets)
    requires Catalog.Valid(w.st) && IsName(id) && id in w.st.objs
    ensures Does(g, w, 4, StringAs(id), Frame(0, []), World(Catalog.Remove(w.st, id), w.used), 0)
  {
    hide Does, StringAs, Argument, Sendable, InBounds, StringBody, Catalog.Valid, Frame, HearsDone, Catalog.Remove;
    hide P.Encode, GetReply, PutReply, DescReply, ListReply;
    var r := Request(4, StringBody(id));
    StringRequestDoes(g, w, 4, id);
    StringRequestArrives(4, id, EXPECTED_ID);
    DelIsHeard(g, w, id);
    assert InBounds(DEL, r.body) by { SendableIsInBounds(r); }
    assert Answer(g, w, r) == P.Encode(P.HeaderOf(0, 0));
    FramePrints(0, []);
    assert P.Encode(P.HeaderOf(0, 0)) + [] == P.Encode(P.HeaderOf(0, 0));
  }

  lemma {:induction false} StringsPrint(ids: seq<Octets>)
    requires AllNulFree(ids)
    ensures EncodeStrings(ids) == StringsAs(ids)
  {
    hide P.Encode, StringAs;
    if ids != [] {
      FirstString(ids);
      StringPrints(ids[0]);
      StringsPrint(ids[1..]);
    }
  }

  /** 5: how many ids the name has, cut to 16 bits, and then every one of them. */
  lemma ListsAtFive(g: Supply, w: World, name: Octets)
    requires Catalog.Valid(w.st) && IsName(name) && name in w.st.lists
    ensures var ids := w.st.lists[name];
            && AllShort(ids)
            && Does(g, w, 5, StringAs(name), Frame(0, SmallintAs(|ids| % 65536) + StringsAs(ids)), w, 0)
  {
    hide Does, StringAs, SmallintAs, Argument, Sendable, InBounds, StringBody, Catalog.Valid, Frame, StringsAs;
    hide P.Encode, Success, AllShort, AllNulFree, ListBody;
    var r, ids := Request(5, StringBody(name)), w.st.lists[name];
    StringRequestDoes(g, w, 5, name);
    StringRequestArrives(5, name, EXPECTED_NAME);
    ListedAreNulFree(w.st, name);
    ListedAreShort(w.st, name);
    assert Answer(g, w, r) == Success(ListBody(ids));
    ListBodyAs(ids);
  }

  lemma ListBodyAs(ids: seq<Octets>)
    requires AllNulFree(ids)
    ensures Success(ListBody(ids)) == Frame(0, SmallintAs(|ids| % 65536) + StringsAs(ids))
  {
    hide P.Encode, Frame, EncodeStrings, StringsAs, SmallintAs, Success;
    StringsPrint(ids);
    NumbersPrint(|ids| % 65536, 0);
    SuccessAs(ListBody(ids));
  }

  /** 6: the connection ends, and nothing behind it is served. */
  lemma EndsAtSix(g: Supply, w: World, body: Octets, input: Octets, at: nat)
    requires Catalog.Valid(w.st) && |body| < 4294967296 && P.StandsAt(Frame(6, body), input, at)
    ensures Admissible(input, at) && Storing(input, at) == 0 && Ready(g, w, 0)
    ensures Serve(g, input, at, w) == Session([], w)
  {
    hide Catalog.Valid, Serve, Frame, InBounds, Legal;
    assert InBounds(6, body) && Legal(6, body) by { QuitDoesNothing(Catalog.EMPTY, body, []); }
    var r := Request(6, body);
    FramePrints(6, body);
    ReadsItBack(r, input, at);
    QuitOrEnd(input, at);
    ServeEnds(g, input, at, w);
  }

  /** Any other number: no answer, and nothing changes. */
  lemma SilentElsewhere(g: Supply, w: World, number: u16, body: Octets)
    requires Catalog.Valid(w.st) && |body| < 4294967296 && (number == 0 || 6 < number)
    ensures Does(g, w, number, body, [], w, 0)
  {
    hide Does, Frame, P.Encode, Catalog.Valid;
    var r := Request(number, body);
    FramePrints(number, body);
    DoesAsRequested(g, w, r);
  }

  /** 1, 3 and 4 for an id, 5 for a name, that no object has: "No such file or directory". */
  lemma MissingByNumber(g: Supply, w: World, number: u16, text: Octets)
    requires Catalog.Valid(w.st) && IsComponent(text)
    requires if number == 5 then text !in w.st.lists
             else text !in w.st.objs && (number == 1 || number == 3 || number == 4)
    ensures Does(g, w, number, StringAs(text),
                 Frame(1, ErrorAs([78, 111, 32, 115, 117, 99, 104, 32, 102, 105, 108, 101, 32, 111, 114, 32,
                                   100, 105, 114, 101, 99, 116, 111, 114, 121])), w, 0)
  {
    hide Does, StringAs, Argument, Sendable, InBounds, StringBody, Catalog.Valid, ErrorFrame, Strerror, HearsError;
    hide Frame, ErrorAs;
    var r := Request(number, StringBody(text));
    StringRequestDoes(g, w, number, text);
    StringRequestArrives(number, text, EXPECTED_ID);
    StringRequestArrives(number, text, EXPECTED_NAME);
    MissingIsHeard(g, w, number, text);
    assert InBounds(number, r.body) by { SendableIsInBounds(r); }
    assert Answer(g, w, r) == ErrorFrame(Strerror(2));
    StrerrorIsShort(2);
    ErrorFrameAs(Strerror(2));
    SystemMessages();
  }

  /** A stream that ends inside a header, or inside what a header announces: nothing more is sent. */
  lemma EndsAtBreak(g: Supply, w: World, input: Octets, at: nat)
    requires Catalog.Valid(w.st)
    requires |input| < at + 8 || (input[at..at + 2] == [0, 1] && |input| < at + 8 + FourAt(input, at + 2))
    ensures Admissible(input, at) && Storing(input, at) == 0 && Ready(g, w, 0)
    ensures Serve(g, input, at, w) == Session([], w)
  {
    hide Catalog.Valid, Serve;
    if at + 8 <= |input| {
      At16Sum(input, at);
      At32Sum(input, at + 2);
      assert input[at..at + 2] == [input[at], input[at + 1]];
    }
    ServeEnds(g, input, at, w);
  }

  /** Eight octets that start with another type than 1 are no header: status 1, and the connection ends. */
  lemma EndsAtOtherTypes(g: Supply, w: World, input: Octets, at: nat)
    requires Catalog.Valid(w.st) && at + 8 <= |input| && input[at..at + 2] != [0, 0] && input[at..at + 2] != [0, 1]
    ensures Admissible(input, at) && Storing(input, at) == 0 && Ready(g, w, 0)
    ensures Serve(g, input, at, w) == Session(Frame(1, ErrorAs(
      [87, 114, 111, 110, 103, 32, 112, 97, 114, 97, 109, 101, 116, 101, 114, 32, 116, 121, 112, 101])), w)
  {
    hide Catalog.Valid, Serve, Frame, ErrorFrame, ErrorAs, Head, Storing, P.Cut;
    At16Sum(input, at);
    assert input[at..at + 2] == [input[at], input[at + 1]];
    ServeEnds(g, input, at, w);
    ParameterMessages();
    P.CutWhole(P.WRONG_TYPE);
    ErrorFrameAs(P.WRONG_TYPE);
  }

  // ---- refused parameters ----

  /** A non-empty string with its last octet, 204, starts the body. */
  ghost predicate StartsWithString(body: Octets) {
    && 6 <= |body| && TwoAt(body, 0) == 5 && 0 < FourAt(body, 2)
    && 6 + FourAt(body, 2) < |body| && body[6 + FourAt(body, 2)] == 204
  }

  /** Why a body that does not is refused; `empty` is said of an empty string, and of type 0. */
  ghost function WhyNotString(body: Octets, empty: Octets): (msg: Octets)
    requires 2 <= |body| && |empty| <= 255
    ensures |msg| <= 255
  {
    if TwoAt(body, 0) == 0 then empty
    else if TwoAt(body, 0) != 5
    then [87, 114, 111, 110, 103, 32, 112, 97, 114, 97, 109, 101, 116, 101, 114, 32, 116, 121, 112, 101]
    else if 6 <= |body| && 6 + FourAt(body, 2) < |body| && body[6 + FourAt(body, 2)] != 204
    then [73, 110, 118, 97, 108, 105, 100, 32, 100, 97, 116, 97, 32, 102, 111, 114, 109, 97, 116]
    else empty
  }

  /** "Expected file id", "Expected file name", "Wrong parameter type" and "Invalid data format". */
  lemma ParameterMessages()
    ensures EXPECTED_ID == [69, 120, 112, 101, 99, 116, 101, 100, 32, 102, 105, 108, 101, 32, 105, 100]
    ensures EXPECTED_NAME == [69, 120, 112, 101, 99, 116, 101, 100, 32, 102, 105, 108, 101, 32, 110, 97, 109, 101]
    ensures P.WRONG_TYPE
         == [87, 114, 111, 110, 103, 32, 112, 97, 114, 97, 109, 101, 116, 101, 114, 32, 116, 121, 112, 101]
    ensures P.BAD_FORMAT
         == [73, 110, 118, 97, 108, 105, 100, 32, 100, 97, 116, 97, 32, 102, 111, 114, 109, 97, 116]
  {
  }

  lemma ArgumentByOctets(body: Octets, empty: Octets)
    requires P.Checkable(P.Default(P.String), body, 0) && |empty| <= 255
    ensures Argument(body, empty).Accepted? <==> StartsWithString(body)
    ensures Argument(body, empty).Rejected? ==> Argument(body, empty).msg == WhyNotString(body, empty)
    ensures Argument(body, empty).Accepted? ==> Argument(body, empty).at == 7 + FourAt(body, 2)
  {
    hide Argument;
    ArgumentRejectedIff(body, empty);
    At16Sum(body, 0);
    if 6 <= |body| {
      At32Sum(body, 2);
    }
    ParameterMessages();
  }

  lemma RefusedDoes(g: Supply, w: World, r: Request, msg: Octets)
    requires Catalog.Valid(w.st) && |r.body| < 4294967296 && Sendable(r) && r.command != 6 && |msg| <= 255
    requires Refused(r.command, r.body) && P.Cut(Complaint(r.command, r.body)) == msg
    ensures Does(g, w, r.command, r.body, Frame(1, ErrorAs(msg)), w, 0)
  {
    hide Does, Frame, Sendable, Refused, Complaint, Catalog.Valid, HearsError, Print, Reply, Effect, InBounds, Legal;
    hide P.Encode, ErrorFrame, ErrorAs;
    SendableIsInBounds(r);
    PrintsAsFrame(r);
    RefusedIsHeard(g, w, r);
    RefusedStoresNothing(r);
    RefusedAnswer(g, w, r);
    ErrorFrameAs(Complaint(r.command, r.body));
    DoesAsRequested(g, w, r);
  }

  lemma PrintsAsFrame(r: Request)
    requires Sendable(r)
    ensures |r.body| < 4294967296 && Print(r) == Frame(r.command, r.body)
  {
    hide P.Encode, InBounds, Legal;
    FramePrints(r.command, r.body);
  }

  lemma RefusedAnswer(g: Supply, w: World, r: Request)
    requires Catalog.Valid(w.st) && Sendable(r) && Refused(r.command, r.body)
    ensures Answer(g, w, r) == ErrorFrame(Complaint(r.command, r.body)) && Uses(r) == 0
  {
    hide InBounds, Legal, Reply, Effect, ErrorFrame, Refused, Complaint, Catalog.Valid, Stores;
    IdIsShort(g, w.used);
    RefusedIsHarmless(w.st, r.command, r.body, g.Id(w.used));
    RefusedStoresNothing(r);
  }

  /**
   * 1 to 5 without the string they start with: status 1 and the reason. Number 5 and 2 expect a file
   * name, the others a file id.
   */
  lemma RefusedByNumber(g: Supply, w: World, number: u16, body: Octets)
    requires Catalog.Valid(w.st) && 1 <= number <= 5 && Sendable(Request(number, body)) && !StartsWithString(body)
    ensures 2 <= |body| < 4294967296
    ensures Does(g, w, number, body, Frame(1, ErrorAs(WhyNotString(body,
      if number == 2 || number == 5
      then [69, 120, 112, 101, 99, 116, 101, 100, 32, 102, 105, 108, 101, 32, 110, 97, 109, 101]
      else [69, 120, 112, 101, 99, 116, 101, 100, 32, 102, 105, 108, 101, 32, 105, 100]))), w, 0)
  {
    hide Does, Frame, ErrorAs, WhyNotString, StartsWithString, Catalog.Valid, Sendable, Argument, P.Check;
    var r := Request(number, body);
    assert InBounds(number, body) && |body| < 4294967296 by { SendableIsInBounds(r); PrintsAsFrame(r); }
    ParameterMessages();
    var empty := if number == 2 || number == 5 then EXPECTED_NAME else EXPECTED_ID;
    ArgumentByOctets(body, EXPECTED_ID);
    ArgumentByOctets(body, EXPECTED_NAME);
    assert Refused(number, body) && Complaint(number, body) == Argument(body, empty).msg;
    MessageIsWhole(body, empty);
    RefusedDoes(g, w, r, WhyNotString(body, empty));
  }

  lemma MessageIsWhole(body: Octets, empty: Octets)
    requires 2 <= |body| && |empty| <= 255 && Free(empty, NUL)
    ensures P.Cut(WhyNotString(body, empty)) == WhyNotString(body, empty)
  {
    P.CutWhole(WhyNotString(body, empty));
  }

  /** Behind the name stands a file with its last octet, 204. */
  ghost predicate FileStands(body: Octets, at: nat) {
    && at + 6 <= |body| && TwoAt(body, at) == 6
    && at + 6 + FourAt(body, at + 2) < |body| && body[at + 6 + FourAt(body, at + 2)] == 204
  }

  lemma PutByOctets(body: Octets, at: nat)
    requires PutReadable(body) && StartsWithString(body) && at == 7 + FourAt(body, 2)
    ensures at + 2 <= |body| && (PutArguments(body).PutAccepted? <==> FileStands(body, at))
    ensures PutArguments(body).PutRejected? ==>
      PutArguments(body).msg == if TwoAt(body, at) == 0 || TwoAt(body, at) == 6 then P.BAD_FORMAT else P.WRONG_TYPE
  {
    hide Argument, StartsWithString;
    ArgumentByOctets(body, EXPECTED_NAME);
    At16Sum(body, at);
    if at + 6 <= |body| {
      At32Sum(body, at + 2);
    }
    if At16(body, at) == 0 {
      assert body[at..at + 2][0] == 0;
    }
  }

  /** 2 with its name and no file behind it: status 1 and the reason; type 0 reads as a file without its last octet. */
  lemma RefusedFileByNumber(g: Supply, w: World, body: Octets, at: nat)
    requires Catalog.Valid(w.st) && Sendable(Request(2, body)) && StartsWithString(body)
    requires at == 7 + FourAt(body, 2) && !FileStands(body, at)
    ensures at + 2 <= |body| < 4294967296
    ensures Does(g, w, 2, body, Frame(1, ErrorAs(
      if TwoAt(body, at) == 0 || TwoAt(body, at) == 6
      then [73, 110, 118, 97, 108, 105, 100, 32, 100, 97, 116, 97, 32, 102, 111, 114, 109, 97, 116]
      else [87, 114, 111, 110, 103, 32, 112, 97, 114, 97, 109, 101, 116, 101, 114, 32, 116, 121, 112, 101])), w, 0)
  {
    hide Does, Frame, ErrorAs, StartsWithString, FileStands, Catalog.Valid, Sendable, PutArguments, PutReadable;
    var r := Request(2, body);
    assert PutReadable(body) && |body| < 4294967296 by { SendableIsInBounds(r); PrintsAsFrame(r); }
    PutByOctets(body, at);
    ParameterMessages();
    P.CutWhole(P.BAD_FORMAT);
    P.CutWhole(P.WRONG_TYPE);
    RefusedDoes(g, w, r, PutArguments(body).msg);
  }
}
