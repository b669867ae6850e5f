/** The client's own methods, run on the octets that the server sends. */
module Conversation {
  import opened Bytes
  import opened Endian
  import opened Connections
  import P = Protocol
  import opened Requests
  import opened Sessions
  import opened Framing
  import opened Uid
  import opened EndToEnd
  import opened WireOctets
  import C = Client
  import Posix
  import Catalog

  // ---- one command ----

  /** What the server answers stands where the client reads next. */
  ghost predicate Awaits(stream: Stream, g: Supply, w: World, r: Request)
    reads stream
  {
    && stream.Valid() && stream.open && Catalog.Valid(w.st) && Sendable(r)
    && P.StandsAt(Answer(g, w, r), stream.input, stream.at)
  }

  /** put of a legal name and content: the id under which the object now is stored. */
  method PutObject(stream: Stream, host: Host, name: Octets, data: Octets, ghost g: Supply, ghost w: World)
    returns (r: C.Outcome<Octets>)
    requires IsName(name) && PutSize(name, data) < 0x1_0000_0000
    requires Awaits(stream, g, w, EndToEnd.PutRequest(name, data))
    modifies stream`at, stream`output
    ensures stream.Valid() && stream.output == old(stream.output) + Frame(2, StringAs(name) + FileAs(data))
    ensures stream.at == old(stream.at) + |Answer(g, w, EndToEnd.PutRequest(name, data))|
    ensures r == C.Received(g.Id(w.used))
  {
    hide Sendable, Answer, IsFrame, C.PutRequest, C.IdOutcome, P.Checkable, Complete, CommandAt, BodyAt, NextAt, Print;
    hide PutBody, Catalog.Valid, P.StandsAt, Frame, StringAs, FileAs;
    ghost var put := EndToEnd.PutRequest(name, data);
    PutRequestAs(name, data);
    PutArrives(name, data);
    PutIsHeard(g, w, name, data);
    FrameWhereItStands(Answer(g, w, put), stream.input, stream.at);
    TypeOfFrame(stream.input, stream.at);
    r := C.Put(stream, host, name, data);
  }

  lemma TypeOfFrame(input: Octets, at: nat)
    requires Complete(input, at)
    ensures at + FRAME_HEAD <= |input| && At16(input, at) != 0
  {
  }

  /** get of a live object: its content, or the complaint that an empty file cannot be mapped. */
  method GetObject(stream: Stream, host: Host, id: Octets, ghost g: Supply, ghost w: World, ghost obj: Catalog.Obj)
    returns (r: C.Outcome<Octets>)
    requires IsName(id) && Awaits(stream, g, w, GetRequest(id))
    requires Holds(w.st, id, obj) && |obj.data| <= 0xffff_ffff - P.HEADER_SIZE
    modifies stream`at, stream`output
    ensures stream.Valid() && stream.output == old(stream.output) + Frame(1, StringAs(id))
    ensures stream.at == old(stream.at) + |Answer(g, w, GetRequest(id))|
    ensures r == if obj.data == [] then C.ServerSays(Strerror(Posix.EINVAL)) else C.Received(obj.data)
  {
    hide Sendable, Answer, IsFrame, C.StringRequest, C.FileOutcome, C.FileReadable, P.Checkable, P.Check;
    hide Frame, StringAs, Complete, CommandAt, BodyAt, NextAt, Print, StringBody, Catalog.Valid, P.StandsAt, Holds;
    hide Strerror;
    StringRequestAs(1, id);
    StringRequestArrives(GET, id, EXPECTED_ID);
    GetIsHeard(g, w, id, obj);
    ghost var b := Answer(g, w, GetRequest(id));
    FrameWhereItStands(b, stream.input, stream.at);
    TypeOfFrame(stream.input, stream.at);
    r := C.Get(stream, host, id);
  }

  /** desc of a live object: its name and size. */
  method DescribeObject(stream: Stream, host: Host, id: Octets, ghost g: Supply, ghost w: World, ghost obj: Catalog.Obj)
    returns (r: C.Outcome<C.Description>)
    requires IsName(id) && Awaits(stream, g, w, DescRequest(id))
    requires Holds(w.st, id, obj) && |obj.data| < 0x1_0000_0000
    modifies stream`at, stream`output
    ensures stream.Valid() && stream.output == old(stream.output) + Frame(3, StringAs(id))
    ensures stream.at == old(stream.at) + |Answer(g, w, DescRequest(id))|
    ensures r == C.Received(C.Description(obj.name, |obj.data|))
  {
    hide Sendable, Answer, IsFrame, C.StringRequest, C.DescOutcome, C.DescReadable, P.Checkable, P.Check;
    hide Frame, StringAs, Complete, CommandAt, BodyAt, NextAt, Print, StringBody, Catalog.Valid, P.StandsAt, Holds;
    StringRequestAs(3, id);
    StringRequestArrives(DESC, id, EXPECTED_ID);
    DescIsHeard(g, w, id, obj);
    FrameWhereItStands(Answer(g, w, DescRequest(id)), stream.input, stream.at);
    TypeOfFrame(stream.input, stream.at);
    r := C.Desc(stream, host, id);
  }

  /** list of a name with at most 65535 ids: all of them, in order. */
  method ListObjects(stream: Stream, host: Host, name: Octets, ghost g: Supply, ghost w: World)
    returns (r: C.Outcome<seq<Octets>>)
    requires IsName(name) && Awaits(stream, g, w, ListRequest(name))
    requires name in w.st.lists && |w.st.lists[name]| < 0x1_0000
    modifies stream`at, stream`output
    ensures stream.Valid() && stream.output == old(stream.output) + Frame(5, StringAs(name))
    ensures stream.at == old(stream.at) + |Answer(g, w, ListRequest(name))|
    ensures r == C.Received(w.st.lists[name])
  {
    hide Sendable, Answer, IsFrame, C.StringRequest, C.ListOutcome, C.ListReadable, P.Checkable, P.Check;
    hide Frame, StringAs, Complete, CommandAt, BodyAt, NextAt, Print, StringBody, Catalog.Valid, P.StandsAt;
    StringRequestAs(5, name);
    StringRequestArrives(LIST, name, EXPECTED_NAME);
    ListIsHeard(g, w, name);
    FrameWhereItStands(Answer(g, w, ListRequest(name)), stream.input, stream.at);
    TypeOfFrame(stream.input, stream.at);
    r := C.List(stream, host, name);
  }

  /** del of a live object: done. */
  method DeleteObject(stream: Stream, host: Host, id: Octets, ghost g: Supply, ghost w: World)
    returns (r: C.Outcome<()>)
    requires IsName(id) && Awaits(stream, g, w, DelRequest(id)) && id in w.st.objs
    modifies stream`at, stream`output
    ensures stream.Valid() && stream.output == old(stream.output) + Frame(4, StringAs(id))
    ensures stream.at == old(stream.at) + |Answer(g, w, DelRequest(id))|
    ensures r == C.Received(())
  {
    hide Sendable, Answer, IsFrame, C.StringRequest, P.Checkable, P.Check;
    hide Print, Frame, StringAs, StringBody, Catalog.Valid, P.StandsAt;
    StringRequestAs(4, id);
    StringRequestArrives(DEL, id, EXPECTED_ID);
    DelIsHeard(g, w, id);
    FrameWhereItStands(Answer(g, w, DelRequest(id)), stream.input, stream.at);
    r := C.Del(stream, host, id);
  }

  // ---- a whole conversation ----

  /** What a client sends that puts a file and then asks for all there is to know about it. */
  ghost function Questions(name: Octets, data: Octets, id: Octets): seq<Request>
    requires |name| <= 255 && |data| < 0x1_0000_0000 && |id| <= 255
  {
    [EndToEnd.PutRequest(name, data), GetRequest(id), DescRequest(id), ListRequest(name)]
  }

  lemma {:induction false} OnlyPutsUseIds(rs: seq<Request>)
    requires Ordinary(rs) && forall i :: 0 <= i < |rs| ==> rs[i].command != PUT
    ensures UsesAll(rs) == 0
  {
    hide Sendable;
    if rs != [] {
      OnlyPutsUseIds(rs[1..]);
    }
  }

  lemma QuestionsAreOrdinary(name: Octets, data: Octets, id: Octets)
    requires IsName(name) && PutSize(name, data) < 0x1_0000_0000 && IsName(id)
    ensures var rs := Questions(name, data, id);
            Ordinary(rs) && Ordinary(rs[1..]) && Uses(rs[0]) == 1 && UsesAll(rs[1..]) == 0 && UsesAll(rs) == 1
  {
    hide Sendable, PutBody, StringBody, Print, Argument, P.Checkable, PutArguments;
    var rs := Questions(name, data, id);
    PutArrives(name, data);
    StringRequestArrives(GET, id, EXPECTED_ID);
    StringRequestArrives(DESC, id, EXPECTED_ID);
    StringRequestArrives(LIST, name, EXPECTED_NAME);
    assert Ordinary(rs);
    OnlyPutsUseIds(rs[1..]);
  }

  /** The world in which the questions behind the put are answered, others having been served in between. */
  ghost function Meanwhile(g: Supply, w: World, name: Octets, data: Octets, rs: seq<Request>): (v: World)
    requires IsName(name) && PutSize(name, data) < 0x1_0000_0000 && Ordinary(rs) && Ready(g, w, 1 + UsesAll(rs))
    ensures Catalog.Valid(w.st) && Catalog.Valid(v.st)
  {
    MeanwhileIsValid(g, w, name, data, rs);
    AfterAll(g, Next(g, w, EndToEnd.PutRequest(name, data)), rs)
  }

  lemma MeanwhileIsValid(g: Supply, w: World, name: Octets, data: Octets, rs: seq<Request>)
    requires IsName(name) && PutSize(name, data) < 0x1_0000_0000 && Ordinary(rs) && Ready(g, w, 1 + UsesAll(rs))
    ensures Catalog.Valid(w.st) && Sendable(EndToEnd.PutRequest(name, data))
    ensures Catalog.Valid(AfterAll(g, Next(g, w, EndToEnd.PutRequest(name, data)), rs).st)
  {
    hide Sendable, PutBody, Next, Ready, Catalog.Valid, Uses, Answer, HearsId, Print;
    ReadyForLess(g, w, 1 + UsesAll(rs), 0);
    PutIsHeard(g, w, name, data);
    ReadyToReply(g, w, EndToEnd.PutRequest(name, data), UsesAll(rs));
    AfterAllInTwo(g, Next(g, w, EndToEnd.PutRequest(name, data)), rs, [], 0);
    ReadyForLess(g, AfterAll(g, Next(g, w, EndToEnd.PutRequest(name, data)), rs), 0, 0);
  }

  /** The four answers: the first in the world `w`, the others in `v`. */
  ghost function Replies(g: Supply, w: World, v: World, name: Octets, data: Octets): seq<Octets>
    requires IsName(name) && PutSize(name, data) < 0x1_0000_0000 && Catalog.Valid(w.st) && Catalog.Valid(v.st)
  {
    var qs := Questions(name, data, g.Id(w.used));
    QuestionsAreOrdinary(name, data, g.Id(w.used));
    [Answer(g, w, qs[0]), Answer(g, v, qs[1]), Answer(g, v, qs[2]), Answer(g, v, qs[3])]
  }

  lemma FlatFour(a: Octets, b: Octets, c: Octets, d: Octets)
    ensures Flat([a, b, c, d]) == a + (b + (c + d))
  {
    assert [a, b, c, d][1..] == [b, c, d] && [b, c, d][1..] == [c, d] && [c, d][1..] == [d] && [d][1..] == [];
    assert Flat([d]) == d + Flat([]) == d;
    assert Flat([c, d]) == c + d;
    assert Flat([b, c, d]) == b + (c + d);
  }

  lemma StandsInFour(a: Octets, b: Octets, c: Octets, d: Octets, input: Octets, at: nat)
    requires P.StandsAt(Flat([a, b, c, d]), input, at)
    ensures P.StandsAt(a, input, at) && P.StandsAt(b, input, at + |a|)
    ensures |Flat([a, b, c, d])| == |a| + |b| + |c| + |d|
    ensures P.StandsAt(c, input, at + |a| + |b|) && P.StandsAt(d, input, at + |a| + |b| + |c|)
  {
    hide P.StandsAt, Flat;
    FlatFour(a, b, c, d);
    P.StandsInTwo(a, b + (c + d), input, at);
    P.StandsInTwo(b, c + d, input, at + |a|);
    P.StandsInTwo(c, d, input, at + |a| + |b|);
  }

  lemma PrintFour(rs: seq<Request>)
    requires |rs| == 4 && Ordinary(rs)
    ensures PrintAll(rs) == Print(rs[0]) + Print(rs[1]) + Print(rs[2]) + Print(rs[3])
  {
    hide Sendable, Print;
    var r1, r2, r3 := rs[1..], rs[2..], rs[3..];
    assert r1[1..] == r2 && r2[1..] == r3 && r3[1..] == [];
    assert PrintAll(r3) == Print(rs[3]) + [] == Print(rs[3]);
    assert PrintAll(r2) == Print(rs[2]) + PrintAll(r3);
    assert PrintAll(r1) == Print(rs[1]) + PrintAll(r2);
    Regroup(Print(rs[0]), Print(rs[1]), Print(rs[2]), Print(rs[3]));
  }

  lemma Regroup(a: Octets, b: Octets, c: Octets, d: Octets)
    ensures a + (b + (c + d)) == a + b + c + d
  {
  }

  /** The four requests on the wire. */
  lemma QuestionsAsFrames(name: Octets, data: Octets, id: Octets)
    requires IsName(name) && PutSize(name, data) < 0x1_0000_0000 && IsName(id) && Ordinary(Questions(name, data, id))
    ensures |StringAs(name) + FileAs(data)| < 0x1_0000_0000
    ensures PrintAll(Questions(name, data, id))
         == Frame(2, StringAs(name) + FileAs(data)) + Frame(1, StringAs(id)) + Frame(3, StringAs(id))
          + Frame(5, StringAs(name))
  {
    hide Sendable, Print, Frame, StringAs, FileAs, StringBody, PutBody, PrintAll;
    PrintFour(Questions(name, data, id));
    PutRequestAs(name, data);
    StringRequestAs(1, id);
    StringRequestAs(3, id);
    StringRequestAs(5, name);
  }

  datatype Learnt = Learnt(
    id: C.Outcome<Octets>, file: C.Outcome<Octets>, about: C.Outcome<C.Description>, ids: C.Outcome<seq<Octets>>)

  /**
   * A client puts a file; the server serves any other requests that do not delete it; then the client
   * gets, describes and lists it by the id it was told. It learns the id, the data unless they are
   * empty, name and size, and the whole list with its id in it.
   */
  method PutThenAsk(stream: Stream, host: Host, name: Octets, data: Octets,
                    ghost g: Supply, ghost w: World, ghost rs: seq<Request>, ghost v: World)
    returns (r: Learnt)
    requires stream.Valid() && stream.open && IsName(name) && PutSize(name, data) < 0x1_0000_0000
    requires Ordinary(rs) && Spares(rs, g.Id(w.used)) && Ready(g, w, 1 + UsesAll(rs))
    requires v == Meanwhile(g, w, name, data, rs) && |Catalog.ListOf(v.st, name)| < 0x1_0000
    requires P.StandsAt(Flat(Replies(g, w, v, name, data)), stream.input, stream.at)
    modifies stream`at, stream`output
    ensures stream.Valid() && Ordinary(Questions(name, data, g.Id(w.used)))
    ensures stream.output == old(stream.output) + PrintAll(Questions(name, data, g.Id(w.used)))
         == old(stream.output) + (Frame(2, StringAs(name) + FileAs(data)) + Frame(1, StringAs(g.Id(w.used)))
                                  + Frame(3, StringAs(g.Id(w.used))) + Frame(5, StringAs(name)))
    ensures stream.at == old(stream.at) + |Flat(Replies(g, w, v, name, data))|
    ensures r.id == C.Received(g.Id(w.used))
    ensures r.file == if data == [] then C.ServerSays(Strerror(Posix.EINVAL)) else C.Received(data)
    ensures r.about == C.Received(C.Description(name, |data|))
    ensures r.ids == C.Received(Catalog.ListOf(v.st, name)) && r.id.value in r.ids.value
  {
    hide Sendable, Answer, Print, PutBody, StringBody, Catalog.Valid, P.StandsAt, Strerror, Next, Ready, Uses, Spares;
    hide Frame, StringAs, FileAs, AfterAll, UsesAll, HearsId, HearsFile, HearsDescription, HearsIds, PrintAll;
    ghost var next, was := g.Id(w.used), stream.output;
    ghost var qs := Questions(name, data, next);
    QuestionsAreOrdinary(name, data, next);
    PutThenRead(g, w, name, data, rs);
    PutIsHeard(g, w, name, data);
    ReadyToReply(g, w, qs[0], UsesAll(rs));
    ObjectStays(g, Next(g, w, qs[0]), rs, next, Catalog.Obj(name, data), 0);
    StandsInFour(Answer(g, w, qs[0]), Answer(g, v, qs[1]), Answer(g, v, qs[2]), Answer(g, v, qs[3]),
                 stream.input, stream.at);
    QuestionsAsFrames(name, data, next);
    var id := PutObject(stream, host, name, data, g, w);
    var file := GetObject(stream, host, id.value, g, v, Catalog.Obj(name, data));
    var about := DescribeObject(stream, host, id.value, g, v, Catalog.Obj(name, data));
    var ids := ListObjects(stream, host, name, g, v);
    r := Learnt(id, file, about, ids);
    Gathered(was, Frame(2, StringAs(name) + FileAs(data)), Frame(1, StringAs(next)), Frame(3, StringAs(next)),
             Frame(5, StringAs(name)));
  }

  lemma Gathered(was: Octets, a: Octets, b: Octets, c: Octets, d: Octets)
    ensures was + a + b + c + d == was + (a + b + c + d)
  {
  }

  // ---- over one connection ----

  ghost predicate OnlyAsks(r: Request) {
    r.command == GET || r.command == DESC || r.command == LIST
  }

  lemma AskingChangesNothing(g: Supply, w: World, r: Request)
    requires Sendable(r) && OnlyAsks(r)
    ensures Next(g, w, r) == w
  {
    hide Argument, PutArguments;
  }

  /** Requests that only ask are all answered in the world they find. */
  lemma {:induction false} AskedInOneWorld(g: Supply, w: World, rs: seq<Request>)
    requires Ordinary(rs) && Ready(g, w, UsesAll(rs)) && Catalog.Valid(w.st)
    requires forall i :: 0 <= i < |rs| ==> OnlyAsks(rs[i])
    ensures |Answers(g, w, rs)| == |rs| && forall i :: 0 <= i < |rs| ==> Answers(g, w, rs)[i] == Answer(g, w, rs[i])
    decreases |rs|
  {
    hide Sendable, Ready, Next, Answer, Uses, Catalog.Valid;
    if rs != [] {
      AnswersHead(g, w, rs);
      AskingChangesNothing(g, w, rs[0]);
      AskedInOneWorld(g, w, rs[1..]);
    }
  }

  /** The world after the put. */
  ghost function Stored(g: Supply, w: World, name: Octets, data: Octets): World {
    World(Catalog.Put(w.st, name, g.Id(w.used), data), w.used + 1)
  }

  lemma StoredNext(g: Supply, w: World, name: Octets, data: Octets)
    requires IsName(name) && PutSize(name, data) < 0x1_0000_0000 && Ready(g, w, 1)
    ensures Catalog.Valid(w.st) && Catalog.Valid(Stored(g, w, name, data).st)
    ensures Sendable(EndToEnd.PutRequest(name, data))
    ensures Next(g, w, EndToEnd.PutRequest(name, data)) == Stored(g, w, name, data)
    ensures Ready(g, Stored(g, w, name, data), 0)
  {
    hide Ready, Sendable, Next, Answer, Uses, Catalog.Valid, PutBody, HearsId, Print;
    ReadyForLess(g, w, 1, 0);
    PutIsHeard(g, w, name, data);
    ReadyToReply(g, w, EndToEnd.PutRequest(name, data), 0);
    ReadyForLess(g, Stored(g, w, name, data), 0, 0);
  }

  lemma RepliesAre(g: Supply, w: World, name: Octets, data: Octets, v: World)
    requires IsName(name) && PutSize(name, data) < 0x1_0000_0000 && Ready(g, w, 1)
    requires v == Stored(g, w, name, data) && Catalog.Valid(w.st) && Catalog.Valid(v.st)
    ensures var qs := Questions(name, data, g.Id(w.used));
            && Ordinary(qs) && UsesAll(qs) == 1 && Ready(g, w, UsesAll(qs))
            && Answers(g, w, qs) == Replies(g, w, v, name, data)
  {
    hide Sendable, Ready, Next, Answer, Uses, Catalog.Valid, PutBody, StringBody, Answers, UsesAll;
    var qs := Questions(name, data, g.Id(w.used));
    QuestionsAreOrdinary(name, data, g.Id(w.used));
    StoredNext(g, w, name, data);
    AnswersHead(g, w, qs);
    var asks := qs[1..];
    AskedInOneWorld(g, v, asks);
    var got, said := Answers(g, w, qs), Replies(g, w, v, name, data);
    assert asks[0] == qs[1] && asks[1] == qs[2] && asks[2] == qs[3];
    assert |got| == |said|;
    assert got[0] == said[0] && got[1] == said[1] && got[2] == said[2] && got[3] == said[3];
  }

  /** Served one after the other, the questions get just these answers. */
  lemma QuestionsAreServed(g: Supply, w: World, name: Octets, data: Octets, sent: Octets, v: World)
    requires IsName(name) && PutSize(name, data) < 0x1_0000_0000 && Ready(g, w, 1)
    requires Ordinary(Questions(name, data, g.Id(w.used))) && sent == PrintAll(Questions(name, data, g.Id(w.used)))
    requires v == Stored(g, w, name, data) && Catalog.Valid(w.st) && Catalog.Valid(v.st)
    ensures Admissible(sent, 0) && Storing(sent, 0) == 1
    ensures Serve(g, sent, 0, w).out == Flat(Replies(g, w, v, name, data))
  {
    hide Serve, Storing, Ready, Sendable, Next, Answer, Uses, Catalog.Valid, PrintAll, Flat, Questions, Answers;
    hide Admissible, UsesAll, AfterAll, Replies, Stored;
    var qs := Questions(name, data, g.Id(w.used));
    RepliesAre(g, w, name, data, v);
    QuitOrEnd(sent, |sent|);
    ServesEachRequest(g, w, qs, sent, 0);
    ReadyForLess(g, AfterAll(g, w, qs), 0, 0);
    ServeEnds(g, sent, |sent|, AfterAll(g, w, qs));
    NothingBehind(Flat(Answers(g, w, qs)));
  }

  lemma NothingBehind(b: Octets)
    ensures b + [] == b
  {
  }

  /** What the server sends for the questions. */
  ghost function Served(g: Supply, w: World, name: Octets, data: Octets): Octets
    requires IsName(name) && PutSize(name, data) < 0x1_0000_0000 && Ready(g, w, 1)
  {
    QuestionsAreOrdinary(name, data, g.Id(w.used));
    StoredNext(g, w, name, data);
    var sent := PrintAll(Questions(name, data, g.Id(w.used)));
    QuestionsAreServed(g, w, name, data, sent, Stored(g, w, name, data));
    Serve(g, sent, 0, w).out
  }

  lemma LoopOpens(g: Supply, w: World, name: Octets, data: Octets, input: Octets, v: World)
    requires IsName(name) && PutSize(name, data) < 0x1_0000_0000 && Ready(g, w, 1) && input == Served(g, w, name, data)
    requires v == Stored(g, w, name, data)
    ensures Catalog.Valid(w.st) && Catalog.Valid(v.st)
    ensures input == Flat(Replies(g, w, v, name, data)) && P.StandsAt(input, input, 0)
  {
    hide Serve, Storing, Ready, Ordinary, PrintAll, Questions, Answers, Catalog.Valid, Admissible, Replies, Flat;
    hide Stored;
    QuestionsAreOrdinary(name, data, g.Id(w.used));
    StoredNext(g, w, name, data);
    QuestionsAreServed(g, w, name, data, PrintAll(Questions(name, data, g.Id(w.used))), v);
    StandsAlone(input);
  }

  lemma LoopCloses(g: Supply, w: World, name: Octets, data: Octets, input: Octets, output: Octets)
    requires IsName(name) && PutSize(name, data) < 0x1_0000_0000 && Ready(g, w, 1) && input == Served(g, w, name, data)
    requires Ordinary(Questions(name, data, g.Id(w.used)))
    requires output == [] + PrintAll(Questions(name, data, g.Id(w.used)))
    ensures Admissible(output, 0) && Storing(output, 0) == 1 && input == Serve(g, output, 0, w).out
  {
    hide Serve, Storing, Ready, Ordinary, PrintAll, Questions, Catalog.Valid, Admissible, Stored;
    StoredNext(g, w, name, data);
    assert output == PrintAll(Questions(name, data, g.Id(w.used)));
    QuestionsAreServed(g, w, name, data, output, Stored(g, w, name, data));
  }

  /** Nobody else is served between the put and the questions. */
  lemma NobodyElse(g: Supply, w: World, name: Octets, data: Octets, rs: seq<Request>)
    requires IsName(name) && PutSize(name, data) < 0x1_0000_0000 && Ready(g, w, 1) && rs == []
    ensures Ordinary(rs) && UsesAll(rs) == 0 && Spares(rs, g.Id(w.used)) && Ready(g, w, 1 + UsesAll(rs))
    ensures Meanwhile(g, w, name, data, rs) == Stored(g, w, name, data)
  {
    hide Ready, Sendable, Next, Catalog.Valid, PutBody, Stored;
    StoredNext(g, w, name, data);
  }

  /**
   * The loop closed: a client that hears what the server sends for exactly what this client sends
   * learns the id, the data unless they are empty, name and size, and the list.
   */
  method PutThenAskAlone(stream: Stream, host: Host, name: Octets, data: Octets, ghost g: Supply, ghost w: World)
    returns (r: Learnt)
    requires stream.Valid() && stream.open && stream.at == 0 && stream.output == []
    requires IsName(name) && PutSize(name, data) < 0x1_0000_0000 && Ready(g, w, 1)
    requires |Catalog.ListOf(w.st, name)| < 0xffff
    requires stream.input == Served(g, w, name, data)
    modifies stream`at, stream`output
    ensures Admissible(stream.output, 0) && Storing(stream.output, 0) == 1
    ensures stream.input == Serve(g, stream.output, 0, w).out && stream.at == |stream.input|
    ensures r.id == C.Received(g.Id(w.used))
    ensures r.file == if data == [] then C.ServerSays(Strerror(Posix.EINVAL)) else C.Received(data)
    ensures r.about == C.Received(C.Description(name, |data|))
    ensures r.ids == C.Received(Catalog.ListOf(w.st, name) + [g.Id(w.used)])
  {
    hide Serve, Served, Storing, Ready, Sendable, Answer, PrintAll, Questions, Answers, Strerror, Catalog.Valid;
    hide Admissible, Replies, Flat, UsesAll, Meanwhile, Spares, P.StandsAt, Ordinary;
    ghost var v := Stored(g, w, name, data);
    LoopOpens(g, w, name, data, stream.input, v);
    NobodyElse(g, w, name, data, []);
    r := PutThenAsk(stream, host, name, data, g, w, [], v);
    LoopCloses(g, w, name, data, stream.input, stream.output);
  }
}
