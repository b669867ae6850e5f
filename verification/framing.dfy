/** What crosses the connection: requests re-framed from the byte stream, one frame back for each. */
module Framing {
  import opened Bytes
  import opened Endian
  import opened Protocol
  import opened Messages
  import opened Connections
  import opened Requests
  import opened Sessions
  import opened Uid
  import Posix
  import Catalog

  // ---- single frames ----

  /** A header, and exactly the octets it announces. */
  ghost predicate IsFrame(b: Octets) {
    FRAME_HEAD <= |b| && At16(b, 0) == TypeId(Header) && At32(b, 2) == |b| - FRAME_HEAD
  }

  lemma HeaderFields(command: u16, length: u32, body: Octets)
    ensures var b := Encode(HeaderOf(command, length)) + body;
            && |b| == FRAME_HEAD + |body| && At16(b, 0) == TypeId(Header) && At32(b, 2) == length
            && At16(b, 6) == command && b[FRAME_HEAD..] == body
  {
    var f := HeaderOf(command, length);
    Layout([], f, body);
    Net16Value(command);
    var b := Encode(f) + body;
    assert [] + Encode(f) + body == b;
    var rest := b[6..];
    assert b[6..8] == rest[..2] && rest[..2] == Net16(command);
    assert b[8..] == rest[2..];
  }

  /** A body behind its header is a frame exactly when its length fits 32 bits. */
  lemma SuccessIsFrameIff(body: Octets)
    ensures IsFrame(Success(body)) <==> |body| < 0x1_0000_0000
  {
    hide Encode;
    HeaderFields(SUCCESS, Wrapped32(|body|), body);
  }

  lemma ErrorIsFrame(msg: Octets)
    ensures IsFrame(ErrorFrame(msg))
  {
    hide Encode;
    EncodedSize(ErrorOf(msg));
    HeaderFields(ERROR, HEADER_SIZE + |Cut(msg)|, Encode(ErrorOf(msg)));
  }

  /** With 1 to 2^32 - 1 octets in the file, the announced length wraps only for the last seven sizes. */
  lemma FileReplyIsFrameIff(data: Octets)
    requires |data| < 0x1_0000_0000
    ensures IsFrame(FileReply(data)) <==> |data| <= 0xffff_ffff - HEADER_SIZE
  {
    hide Encode, ErrorFrame;
    if data == [] {
      ErrorIsFrame(Strerror(Posix.EINVAL));
    } else {
      var n := |data|;
      EncodedSize(BigdataOf(n));
      var body := Encode(BigdataOf(n)) + data[..n] + [MAGIC];
      var head := Encode(HeaderOf(SUCCESS, Wrapped32(HEADER_SIZE + n)));
      HeaderFields(SUCCESS, Wrapped32(HEADER_SIZE + n), body);
      assert FileReply(data) == head + body;
    }
  }

  lemma {:induction false} StringsSize(ids: seq<Octets>)
    requires AllShort(ids)
    ensures |EncodeStrings(ids)| <= 262 * |ids|
  {
    if ids != [] {
      EncodedSize(CStringOf(ids[0]));
      StringsSize(ids[1..]);
    }
  }

  // ---- replies are frames ----

  /** Every file is small enough for its GET reply: true of whatever arrives in a PUT. */
  ghost predicate Small(st: Store) {
    forall id :: id in st.objs ==> |st.objs[id].data| <= 0xffff_ffff - HEADER_SIZE
  }

  /** A LIST finds at most as many ids as 16 bits can count. */
  ghost predicate Countable(st: Store, command: u16, body: Octets)
    requires InBounds(command, body)
  {
    command == LIST ==>
      var p := Argument(body, EXPECTED_NAME);
      p.Accepted? && p.text in st.lists ==> |st.lists[p.text]| < 0x1_0000
  }

  /** What a PUT stores is shorter than its body, by two type-length headings, two magic octets and the name. */
  lemma PutDataFits(body: Octets)
    requires PutReadable(body) && PutArguments(body).PutAccepted?
    ensures var p := PutArguments(body);
            HEADER_SIZE + |p.name| + HEADER_SIZE + |p.data| <= |body| && p.name != []
  {
    ArgumentRejectedIff(body, EXPECTED_NAME);
    PutRejectedIff(body);
    var at := Argument(body, EXPECTED_NAME).at;
    hide Argument;
    assert PutArguments(body).data == body[at + 6..at + 6 + At32(body, at + 2)];
  }

  lemma EffectKeepsSmall(st: Store, command: u16, body: Octets, id: Octets)
    requires InBounds(command, body) && |body| < 0x1_0000_0000 && Small(st)
    ensures Small(Effect(st, command, body, id))
  {
    hide Argument, PutArguments;
    if Stores(command, body) {
      PutDataFits(body);
    }
  }

  lemma ListReplyIsFrame(st: Store, body: Octets)
    requires InBounds(LIST, body) && Catalog.Valid(st) && Countable(st, LIST, body)
    ensures IsFrame(ListReply(st, body))
  {
    hide Argument, IsFrame, Encode, Success, ErrorFrame, Strerror, Catalog.Valid;
    match Argument(body, EXPECTED_NAME)
    case Rejected(msg) => ErrorIsFrame(msg);
    case Accepted(name, _) =>
      if name !in st.lists {
        ErrorIsFrame(Strerror(Posix.ENOENT));
      } else {
        var ids := st.lists[name];
        ListedAreShort(st, name);
        StringsSize(ids);
        EncodedSize(SmallintOf(|ids| % 0x1_0000));
        SuccessIsFrameIff(ListBody(ids));
      }
  }

  lemma DescReplyIsFrame(st: Store, body: Octets)
    requires InBounds(DESC, body) && Catalog.Valid(st)
    ensures IsFrame(DescReply(st, body))
  {
    hide Argument, IsFrame, Encode, Success, ErrorFrame, Strerror;
    match Argument(body, EXPECTED_ID)
    case Rejected(msg) => ErrorIsFrame(msg);
    case Accepted(id, _) =>
      if id !in st.objs {
        ErrorIsFrame(Strerror(Posix.ENOENT));
      } else {
        var name, size := CStringOf(st.objs[id].name), IntegerOf(Wrapped32(|st.objs[id].data|));
        EncodedSize(name);
        EncodedSize(size);
        SuccessIsFrameIff(Encode(name) + Encode(size));
      }
  }

  lemma GetReplyIsFrame(st: Store, body: Octets)
    requires InBounds(GET, body) && Small(st)
    ensures IsFrame(GetReply(st, body))
  {
    hide Argument, IsFrame, Encode, FileReply, ErrorFrame, Strerror;
    match Argument(body, EXPECTED_ID)
    case Rejected(msg) => ErrorIsFrame(msg);
    case Accepted(id, _) =>
      if id !in st.objs {
        ErrorIsFrame(Strerror(Posix.ENOENT));
      } else {
        FileReplyIsFrameIff(st.objs[id].data);
      }
  }

  lemma PutReplyIsFrame(body: Octets, id: Octets)
    requires InBounds(PUT, body) && |id| <= 255
    ensures IsFrame(PutReply(body, id))
  {
    hide PutArguments, Encode, ErrorFrame;
    match PutArguments(body)
    case PutRejected(msg) => ErrorIsFrame(msg);
    case PutAccepted(_, _) =>
      EncodedSize(StringOf(id));
      HeaderFields(SUCCESS, HEADER_SIZE + |id|, Encode(StringOf(id)));
  }

  lemma DelReplyIsFrame(st: Store, body: Octets)
    requires InBounds(DEL, body)
    ensures IsFrame(DelReply(st, body))
  {
    hide Argument, Encode, ErrorFrame, Strerror;
    match Argument(body, EXPECTED_ID)
    case Rejected(msg) => ErrorIsFrame(msg);
    case Accepted(id, _) =>
      ErrorIsFrame(Strerror(Posix.ENOENT));
      HeaderFields(SUCCESS, 0, []);
      assert Encode(HeaderOf(SUCCESS, 0)) + [] == Encode(HeaderOf(SUCCESS, 0));
  }

  /** Commands 1 to 5 are answered with exactly one frame, the others not at all. */
  lemma ReplyIsOneFrame(st: Store, command: u16, body: Octets, id: Octets)
    requires InBounds(command, body) && Catalog.Valid(st) && |id| <= 255
    requires Small(st) && Countable(st, command, body)
    ensures if GET <= command <= LIST then IsFrame(Reply(st, command, body, id)) else Reply(st, command, body, id) == []
  {
    hide IsFrame, GetReply, PutReply, DescReply, DelReply, ListReply, InBounds, Small, Countable, Catalog.Valid;
    if command == GET {
      assert InBounds(GET, body);
      GetReplyIsFrame(st, body);
    } else if command == PUT {
      assert InBounds(PUT, body);
      PutReplyIsFrame(body, id);
    } else if command == DESC {
      assert InBounds(DESC, body);
      DescReplyIsFrame(st, body);
    } else if command == DEL {
      assert InBounds(DEL, body);
      DelReplyIsFrame(st, body);
    } else if command == LIST {
      assert InBounds(LIST, body);
      ListReplyIsFrame(st, body);
    }
  }

  // ---- whole connections ----

  datatype Request = Request(command: u16, body: Octets)

  ghost predicate Sendable(r: Request) {
    |r.body| < 0x1_0000_0000 && InBounds(r.command, r.body) && Legal(r.command, r.body)
  }

  ghost function Print(r: Request): Octets
    requires Sendable(r)
  {
    Encode(HeaderOf(r.command, |r.body|)) + r.body
  }

  /** Well-formed requests, none of them a QUIT. */
  ghost predicate Ordinary(rs: seq<Request>) {
    forall i :: 0 <= i < |rs| ==> Sendable(rs[i]) && rs[i].command != QUIT
  }

  ghost function PrintAll(rs: seq<Request>): Octets
    requires Ordinary(rs)
  {
    if rs == [] then [] else Print(rs[0]) + PrintAll(rs[1..])
  }

  /** Ids that a request uses up, and that a sequence of them does. */
  ghost function Uses(r: Request): nat
    requires Sendable(r)
  {
    Takes(r.command, r.body)
  }

  ghost function UsesAll(rs: seq<Request>): nat
    requires Ordinary(rs)
  {
    if rs == [] then 0 else Uses(rs[0]) + UsesAll(rs[1..])
  }

  /** The world after a request, and after a sequence of them. */
  ghost function Next(g: Supply, w: World, r: Request): World
    requires Sendable(r)
  {
    After(g, w, r.command, r.body)
  }

  ghost function AfterAll(g: Supply, w: World, rs: seq<Request>): World
    requires Ordinary(rs)
    decreases |rs|
  {
    if rs == [] then w else AfterAll(g, Next(g, w, rs[0]), rs[1..])
  }

  ghost predicate Answered(r: Request) {
    GET <= r.command <= LIST
  }

  lemma ReadyToReply(g: Supply, w: World, r: Request, n: nat)
    requires Sendable(r) && Ready(g, w, Uses(r) + n)
    ensures Catalog.Valid(w.st) && |g.Id(w.used)| <= 255 && Ready(g, Next(g, w, r), n)
  {
    hide Legal, InBounds, After, Catalog.Valid;
    AfterKeepsReady(g, w, r.command, r.body, n);
    assert IsName(g.Id(w.used));
  }

  lemma IdIsShort(g: Supply, i: nat)
    ensures |g.Id(i)| <= 255
  {
    assert IsName(g.Id(i));
  }

  lemma ReadyForLess(g: Supply, w: World, n: nat, m: nat)
    requires Ready(g, w, n) && m <= n
    ensures Catalog.Valid(w.st) && Ready(g, w, m)
  {
    hide Catalog.Valid;
  }

  ghost function Answer(g: Supply, w: World, r: Request): Octets
    requires Catalog.Valid(w.st) && Sendable(r)
  {
    IdIsShort(g, w.used);
    Reply(w.st, r.command, r.body, g.Id(w.used))
  }

  /** One answer for each request with a command from 1 to 5, in order, each given in the world of its turn. */
  ghost function Answers(g: Supply, w: World, rs: seq<Request>): seq<Octets>
    requires Ordinary(rs) && Ready(g, w, UsesAll(rs))
    decreases |rs|
  {
    if rs == [] then []
    else
      ReadyToReply(g, w, rs[0], UsesAll(rs[1..]));
      var rest := Answers(g, Next(g, w, rs[0]), rs[1..]);
      if Answered(rs[0]) then [Answer(g, w, rs[0])] + rest else rest
  }

  lemma AnswersHead(g: Supply, w: World, rs: seq<Request>)
    requires Ordinary(rs) && rs != [] && Ready(g, w, UsesAll(rs))
    ensures Catalog.Valid(w.st) && Ready(g, Next(g, w, rs[0]), UsesAll(rs[1..]))
    ensures Answers(g, w, rs)
         == (if Answered(rs[0]) then [Answer(g, w, rs[0])] else []) + Answers(g, Next(g, w, rs[0]), rs[1..])
  {
    hide Ready, Next, Answer, Sendable, Uses, Catalog.Valid;
    ReadyToReply(g, w, rs[0], UsesAll(rs[1..]));
  }

  ghost function CountAnswered(rs: seq<Request>): nat {
    if rs == [] then 0 else (if Answered(rs[0]) then 1 else 0) + CountAnswered(rs[1..])
  }

  lemma PartOfPart(input: Octets, at: nat, part: Octets, i: nat, j: nat)
    requires i <= j <= |part| && StandsAt(part, input, at)
    ensures input[at + i..at + j] == part[i..j]
  {
    var a, b := input[at + i..at + j], part[i..j];
    forall k | 0 <= k < |b| ensures a[k] == b[k] {
      assert part[i + k] == input[at..at + |part|][i + k] == input[at + (i + k)];
    }
  }

  /** Where a request was printed, the connection reads exactly that request. */
  lemma ReadsItBack(r: Request, input: Octets, at: nat)
    requires Sendable(r) && StandsAt(Print(r), input, at)
    ensures Complete(input, at) && CommandAt(input, at) == r.command && BodyAt(input, at) == r.body
    ensures NextAt(input, at) == at + |Print(r)|
  {
    hide Encode, Sendable;
    HeaderFields(r.command, |r.body|, r.body);
    var b := Print(r);
    var part := input[at..at + |b|];
    assert part == b;
    PartOfPart(input, at, part, 0, 2);
    PartOfPart(input, at, part, 2, 6);
    PartOfPart(input, at, part, 6, 8);
    PartOfPart(input, at, part, 8, |b|);
  }

  /**
   * Requests printed one after the other are served one after the other, whatever follows them and
   * whether or not their parameters are refused.
   */
  lemma {:induction false} ServesEachRequest(g: Supply, w: World, rs: seq<Request>, input: Octets, at: nat)
    requires Ordinary(rs) && StandsAt(PrintAll(rs), input, at)
    requires Admissible(input, at + |PrintAll(rs)|)
    requires Ready(g, w, UsesAll(rs) + Storing(input, at + |PrintAll(rs)|))
    ensures var end := at + |PrintAll(rs)|;
            && Admissible(input, at) && Storing(input, at) == UsesAll(rs) + Storing(input, end)
            && Ready(g, w, UsesAll(rs)) && Ready(g, AfterAll(g, w, rs), Storing(input, end))
            && var rest := Serve(g, input, end, AfterAll(g, w, rs));
               Serve(g, input, at, w) == Session(Flat(Answers(g, w, rs)) + rest.out, rest.w)
    decreases |rs|
  {
    hide Serve, Storing, Ready, Sendable, StandsAt, Print, Next, Answer, Uses, Catalog.Valid;
    var left := Storing(input, at + |PrintAll(rs)|);
    ReadyForLess(g, w, UsesAll(rs) + left, UsesAll(rs));
    if rs == [] {
      assert forall b: Octets :: [] + b == b;
    } else {
      var r, rest := rs[0], rs[1..];
      StandsInTwo(Print(r), PrintAll(rest), input, at);
      ReadyToReply(g, w, r, UsesAll(rest) + left);
      ServesEachRequest(g, Next(g, w, r), rest, input, at + |Print(r)|);
      ServesFirst(g, w, r, input, at);
      AnswersFirst(g, w, rs, Serve(g, input, at + |PrintAll(rs)|, AfterAll(g, w, rs)).out);
    }
  }

  lemma ServesFirst(g: Supply, w: World, r: Request, input: Octets, at: nat)
    requires Sendable(r) && r.command != QUIT && StandsAt(Print(r), input, at)
    requires Admissible(input, at + |Print(r)|) && Ready(g, w, Uses(r) + Storing(input, at + |Print(r)|))
    ensures var next := at + |Print(r)|;
            && Admissible(input, at) && Storing(input, at) == Uses(r) + Storing(input, next)
            && Catalog.Valid(w.st) && Ready(g, Next(g, w, r), Storing(input, next))
            && var rest := Serve(g, input, next, Next(g, w, r));
               Serve(g, input, at, w) == Session(Answer(g, w, r) + rest.out, rest.w)
  {
    hide Serve, Ready, StandsAt, Print, InBounds, Legal, Catalog.Valid;
    ReadsItBack(r, input, at);
    assert Admissible(input, at);
    ReadyToReply(g, w, r, Storing(input, at + |Print(r)|));
    ServeContinues(g, input, at, w);
  }

  lemma AnswersFirst(g: Supply, w: World, rs: seq<Request>, tail: Octets)
    requires Ordinary(rs) && rs != [] && Ready(g, w, UsesAll(rs))
    ensures Catalog.Valid(w.st) && Ready(g, Next(g, w, rs[0]), UsesAll(rs[1..]))
    ensures Flat(Answers(g, w, rs)) + tail
         == Answer(g, w, rs[0]) + (Flat(Answers(g, Next(g, w, rs[0]), rs[1..])) + tail)
  {
    hide Ready, Next, Uses, Catalog.Valid, Answer, Answers, Sendable, Answered, Flat;
    AnswersHead(g, w, rs);
    var answer, rest := Answer(g, w, rs[0]), Answers(g, Next(g, w, rs[0]), rs[1..]);
    if Answered(rs[0]) {
      FlatCons(answer, rest, tail);
    } else {
      Unanswered(g, w, rs[0]);
      assert [] + rest == rest && [] + (Flat(rest) + tail) == Flat(rest) + tail;
    }
  }

  lemma FlatCons(b: Octets, bs: seq<Octets>, tail: Octets)
    ensures Flat([b] + bs) + tail == b + (Flat(bs) + tail)
  {
    assert ([b] + bs)[1..] == bs;
  }

  lemma Unanswered(g: Supply, w: World, r: Request)
    requires Catalog.Valid(w.st) && Sendable(r) && !Answered(r)
    ensures Answer(g, w, r) == []
  {
    hide Catalog.Valid, InBounds, Legal;
  }

  // ---- one frame for each ----

  /** Every LIST, in the world of its turn, is countable. */
  ghost predicate AllCountable(g: Supply, w: World, rs: seq<Request>)
    requires Ordinary(rs)
    decreases |rs|
  {
    rs != [] ==> Countable(w.st, rs[0].command, rs[0].body) && AllCountable(g, Next(g, w, rs[0]), rs[1..])
  }

  ghost predicate AllFrames(bs: seq<Octets>) {
    forall i :: 0 <= i < |bs| ==> IsFrame(bs[i])
  }

  lemma AnswerIsFrame(g: Supply, w: World, r: Request)
    requires Catalog.Valid(w.st) && Sendable(r) && Small(w.st) && Countable(w.st, r.command, r.body)
    ensures Small(Next(g, w, r).st) && (Answered(r) ==> IsFrame(Answer(g, w, r)))
  {
    hide Small, Countable, IsFrame, Reply, Effect, InBounds, Legal, Catalog.Valid;
    IdIsShort(g, w.used);
    EffectKeepsSmall(w.st, r.command, r.body, g.Id(w.used));
    ReplyIsOneFrame(w.st, r.command, r.body, g.Id(w.used));
  }

  lemma {:induction false} AnswersAreFrames(g: Supply, w: World, rs: seq<Request>)
    requires Ordinary(rs) && Ready(g, w, UsesAll(rs)) && Small(w.st) && AllCountable(g, w, rs)
    ensures AllFrames(Answers(g, w, rs))
    decreases |rs|
  {
    hide Ready, Small, Countable, IsFrame, Answer, Next, Sendable, Answered, Uses, Catalog.Valid;
    if rs != [] {
      ReadyToReply(g, w, rs[0], UsesAll(rs[1..]));
      AnswerIsFrame(g, w, rs[0]);
      AnswersAreFrames(g, Next(g, w, rs[0]), rs[1..]);
    }
  }

  lemma {:induction false} AnswersCount(g: Supply, w: World, rs: seq<Request>)
    requires Ordinary(rs) && Ready(g, w, UsesAll(rs))
    ensures |Answers(g, w, rs)| == CountAnswered(rs)
    decreases |rs|
  {
    hide Ready, Sendable, Next, Answer, Uses, Catalog.Valid;
    if rs != [] {
      ReadyToReply(g, w, rs[0], UsesAll(rs[1..]));
      AnswersCount(g, Next(g, w, rs[0]), rs[1..]);
    }
  }

  /** How a client cuts what it receives. */
  ghost function Unframe(b: Octets): seq<Octets>
    decreases |b|
  {
    if FRAME_HEAD <= |b| && FRAME_HEAD + At32(b, 2) <= |b| then
      var n := FRAME_HEAD + At32(b, 2);
      [b[..n]] + Unframe(b[n..])
    else []
  }

  lemma {:induction false} UnframeUndoesFlat(bs: seq<Octets>)
    requires AllFrames(bs)
    ensures Unframe(Flat(bs)) == bs
  {
    if bs != [] {
      var b, rest := bs[0], Flat(bs[1..]);
      assert IsFrame(b);
      assert (b + rest)[2..6] == b[2..6];
      assert (b + rest)[..|b|] == b && (b + rest)[|b|..] == rest;
      UnframeUndoesFlat(bs[1..]);
      assert [b] + bs[1..] == bs;
    }
  }

  lemma QuitOrEnd(input: Octets, at: nat)
    requires |input| < at + FRAME_HEAD || (Complete(input, at) && CommandAt(input, at) == QUIT)
    ensures Admissible(input, at) && Storing(input, at) == 0 && Ends(input, at)
    ensures at + FRAME_HEAD <= |input| ==> At16(input, at) == TypeId(Header)
  {
    if Complete(input, at) {
      QuitDoesNothing(Catalog.EMPTY, BodyAt(input, at), []);
    }
  }

  /**
   * A connection that carries these requests and then ends, breaks off or quits: what the server
   * sends is one frame for each of the commands 1 to 5, in order, and nothing else.
   */
  lemma OneFrameEach(g: Supply, w: World, rs: seq<Request>, input: Octets)
    requires Ordinary(rs) && Ready(g, w, UsesAll(rs)) && Small(w.st) && AllCountable(g, w, rs)
    requires StandsAt(PrintAll(rs), input, 0)
    requires var end := |PrintAll(rs)|;
             || |input| < end + FRAME_HEAD
             || (Complete(input, end) && CommandAt(input, end) == QUIT)
    ensures Admissible(input, 0) && Storing(input, 0) == UsesAll(rs)
    ensures Serve(g, input, 0, w) == Session(Flat(Answers(g, w, rs)), AfterAll(g, w, rs))
    ensures Unframe(Serve(g, input, 0, w).out) == Answers(g, w, rs)
    ensures |Answers(g, w, rs)| == CountAnswered(rs)
  {
    hide Serve, Ready, Small, Catalog.Valid, Flat, Answers, AfterAll, PrintAll, Storing, Admissible, IsFrame, Complete;
    var end := |PrintAll(rs)|;
    QuitOrEnd(input, end);
    ServesEachRequest(g, w, rs, input, 0);
    ReadyForLess(g, AfterAll(g, w, rs), 0, 0);
    ServeEnds(g, input, end, AfterAll(g, w, rs));
    assert Flat(Answers(g, w, rs)) + [] == Flat(Answers(g, w, rs));
    AnswersAreFrames(g, w, rs);
    AnswersCount(g, w, rs);
    UnframeUndoesFlat(Answers(g, w, rs));
  }
}
