/** One connection: the request stream, cut into frames and answered in order. */
module Sessions {
  import opened Bytes
  import opened Endian
  import opened Protocol
  import opened Messages
  import opened Connections
  import opened Requests
  import opened Uid
  import Catalog

  /** The store, and how many ids the generator has given out. */
  datatype World = World(st: Store, used: nat)

  /** A valid store that holds none of the next `n` ids, which do not repeat: `n` more objects can be stored. */
  ghost predicate Ready(g: Supply, w: World, n: nat) {
    && Catalog.Valid(w.st) && Distinct(g, w.used, n)
    && forall i: nat :: w.used <= i < w.used + n ==> g.Id(i) !in w.st.objs
  }

  /** With an empty volume, some generator is ready for `n` objects exactly when there are `n` ids. */
  lemma ReadyAtFirst(h: Host, n: nat)
    ensures (exists g: Supply :: g.host == h && Ready(g, World(Catalog.EMPTY, 0), n)) <==> n <= IDS
  {
    var start := World(Catalog.EMPTY, 0);
    if n <= IDS {
      var g := DistinctExist(h, 0, n);
      assert Ready(g, start, n);
    } else {
      forall g: Supply | Ready(g, start, n) ensures false {
        DistinctAtMost(g, 0, n);
      }
    }
  }

  /** Ids that a request uses up. */
  ghost function Takes(command: u16, body: Octets): nat
    requires InBounds(command, body)
  {
    if Stores(command, body) then 1 else 0
  }

  ghost function After(g: Supply, w: World, command: u16, body: Octets): World
    requires InBounds(command, body)
  {
    World(Effect(w.st, command, body, g.Id(w.used)), w.used + Takes(command, body))
  }

  /** Every request leaves a valid store, and of the ids still to come as many unused as it did not take. */
  lemma AfterKeepsReady(g: Supply, w: World, command: u16, body: Octets, n: nat)
    requires InBounds(command, body) && Legal(command, body) && Ready(g, w, Takes(command, body) + n)
    ensures Ready(g, After(g, w, command, body), n)
  {
    hide Catalog.Valid, Argument, PutArguments, InBounds, Legal, IsName;
    EffectKeepsValid(w.st, command, body, g.Id(w.used));
    var t := After(g, w, command, body);
    forall i: nat | t.used <= i < t.used + n ensures g.Id(i) !in t.st.objs {
      assert g.Id(i) !in w.st.objs;
    }
  }

  // ---- the byte stream ----

  /** A whole request starts at `at`. */
  ghost predicate Complete(input: Octets, at: nat) {
    && at + FRAME_HEAD <= |input| && At16(input, at) == TypeId(Header)
    && at + FRAME_HEAD + At32(input, at + 2) <= |input|
  }

  ghost function CommandAt(input: Octets, at: nat): u16
    requires Complete(input, at)
  {
    At16(input, at + 6)
  }

  ghost function BodyAt(input: Octets, at: nat): Octets
    requires Complete(input, at)
  {
    input[at + FRAME_HEAD..NextAt(input, at)]
  }

  ghost function NextAt(input: Octets, at: nat): (n: nat)
    requires Complete(input, at)
    ensures at + FRAME_HEAD <= n <= |input|
  {
    at + FRAME_HEAD + At32(input, at + 2)
  }

  /** Header types are not 0, bodies hold what they declare, names and ids are legal, up to the first QUIT. */
  ghost predicate Admissible(input: Octets, at: nat)
    decreases |input| - at
  {
    && (at + FRAME_HEAD <= |input| ==> At16(input, at) != 0)
    && (Complete(input, at) ==>
          var command, body := CommandAt(input, at), BodyAt(input, at);
          && InBounds(command, body) && Legal(command, body)
          && (command != QUIT ==> Admissible(input, NextAt(input, at))))
  }

  /** Input that holds no further whole request, or a QUIT. */
  ghost predicate Ends(input: Octets, at: nat) {
    !Complete(input, at) || CommandAt(input, at) == QUIT
  }

  /** Ids that the requests use up, until the stream ends or a QUIT. */
  ghost function Storing(input: Octets, at: nat): nat
    requires Admissible(input, at)
    decreases |input| - at
  {
    if Ends(input, at) then 0
    else Takes(CommandAt(input, at), BodyAt(input, at)) + Storing(input, NextAt(input, at))
  }

  datatype Session = Session(out: Octets, w: World)

  /** What a connection sends for its input, and the world it leaves behind. */
  ghost function Serve(g: Supply, input: Octets, at: nat, w: World): Session
    requires Admissible(input, at) && Ready(g, w, Storing(input, at))
    decreases |input| - at
  {
    if |input| < at + FRAME_HEAD then Session([], w)
    else if At16(input, at) != TypeId(Header) then Session(ErrorFrame(WRONG_TYPE), w)
    else if !Complete(input, at) then Session([], w)
    else
      var command, body := CommandAt(input, at), BodyAt(input, at);
      if command == QUIT then Session([], w)
      else
        AfterKeepsReady(g, w, command, body, Storing(input, NextAt(input, at)));
        var rest := Serve(g, input, NextAt(input, at), After(g, w, command, body));
        Session(Reply(w.st, command, body, g.Id(w.used)) + rest.out, rest.w)
  }

  lemma ServeEnds(g: Supply, input: Octets, at: nat, w: World)
    requires Admissible(input, at) && Catalog.Valid(w.st) && Ends(input, at)
    ensures Storing(input, at) == 0 && Ready(g, w, 0)
    ensures Serve(g, input, at, w) ==
      Session(if at + FRAME_HEAD <= |input| && At16(input, at) != TypeId(Header) then ErrorFrame(WRONG_TYPE) else [], w)
  {
  }

  lemma ServeContinues(g: Supply, input: Octets, at: nat, w: World)
    requires Admissible(input, at) && !Ends(input, at) && Ready(g, w, Storing(input, at))
    ensures var command, body, next := CommandAt(input, at), BodyAt(input, at), NextAt(input, at);
            && InBounds(command, body) && Legal(command, body) && Catalog.Valid(w.st) && |g.Id(w.used)| <= 255
            && (Stores(command, body) ==> g.Id(w.used) !in w.st.objs)
            && Admissible(input, next) && Ready(g, After(g, w, command, body), Storing(input, next))
            && var rest := Serve(g, input, next, After(g, w, command, body));
               Serve(g, input, at, w) == Session(Reply(w.st, command, body, g.Id(w.used)) + rest.out, rest.w)
  {
    hide Reply, Legal, InBounds, Effect, Catalog.Valid, Stores;
    AfterKeepsReady(g, w, CommandAt(input, at), BodyAt(input, at), Storing(input, NextAt(input, at)));
  }

  /** A QUIT is read like any other request; nothing comes of it. */
  lemma QuitDoesNothing(st: Store, body: Octets, id: Octets)
    requires Catalog.Valid(st) && |id| <= 255
    ensures InBounds(QUIT, body) && Legal(QUIT, body) && !Stores(QUIT, body)
    ensures Reply(st, QUIT, body, id) == [] && Effect(st, QUIT, body, id) == st
  {
  }
}

module Server {
  import opened Bytes
  import opened Posix
  import opened Volume
  import opened Endian
  import P = Protocol
  import opened Messages
  import opened Requests
  import opened Connections
  import H = Handlers
  import opened Sessions
  import opened Uid
  import Catalog

  datatype Handler = InvalidHandler | GetHandler | PutHandler | DescHandler | DelHandler | ListHandler | QuitHandler

  const COMMANDS := [
    P.Command(P.INVALID, P.Some(InvalidHandler)),
    P.Command(1, P.Some(GetHandler)),
    P.Command(2, P.Some(PutHandler)),
    P.Command(3, P.Some(DescHandler)),
    P.Command(4, P.Some(DelHandler)),
    P.Command(5, P.Some(ListHandler)),
    P.Command(6, P.Some(QuitHandler))
  ]

  function HandlerFor(command: u16): Handler {
    match command
    case 1 => GetHandler
    case 2 => PutHandler
    case 3 => DescHandler
    case 4 => DelHandler
    case 5 => ListHandler
    case 6 => QuitHandler
    case _ => InvalidHandler
  }

  /** protocol::parse over the server's table finds the handler of each command. */
  method Parse(command: u16) returns (h: Handler)
    ensures h == HandlerFor(command)
    ensures (command == 1 <==> h.GetHandler?) && (command == 2 <==> h.PutHandler?)
    ensures (command == 3 <==> h.DescHandler?) && (command == 4 <==> h.DelHandler?)
    ensures (command == 5 <==> h.ListHandler?) && (command == 6 <==> h.QuitHandler?)
  {
    var found := P.Choose(COMMANDS, command);
    if 1 <= command <= 6 {
      assert P.First(COMMANDS, command, command);
    } else {
      assert P.Last(COMMANDS, P.INVALID, 0);
      assert command == P.INVALID ==> P.First(COMMANDS, command, 0);
    }
    h := found.value;
  }

  /** Runs the handler; whatever it does not send itself is in `res`. */
  method Handle(vol: VolumeType, g: Generator, stream: Stream, command: u16, body: Octets, res: Out) returns (code: int)
    requires vol.Valid() && stream.open && InBounds(command, body) && Legal(command, body)
    requires res.bytes == [] && (Stores(command, body) ==> g.Next() !in vol.store.objs)
    modifies vol, vol.k, g, stream`output, stream`open, res
    ensures vol.Valid() && vol.store == Effect(old(vol.store), command, body, old(g.Next()))
    ensures g.drawn == if Stores(command, body) then old(g.drawn) + 1 else old(g.drawn)
    ensures |old(g.Next())| <= 255
    ensures var reply := Reply(old(vol.store), command, body, old(g.Next()));
            if code == H.HANDLER_NO_SEND_RES then stream.output == old(stream.output) + reply
            else command != QUIT && res.bytes == reply && stream.output == old(stream.output)
    ensures stream.open <==> command != QUIT
  {
    hide Catalog.Valid, Catalog.Matches, Kernel.Valid, Linkage, GetReply, PutReply, DescReply, DelReply, ListReply;
    hide Argument, Legal, PutArguments;
    H.NameIsShort(g.Next());
    var h := Parse(command);
    var req := new Cursor(res.host, body);
    match h {
      case GetHandler => code := H.Get(vol, req, res, stream);
      case PutHandler => code := H.Put(vol, g, req, res);
      case DescHandler => code := H.Desc(vol, req, res);
      case DelHandler => code := H.Del(vol, req, res);
      case ListHandler => code := H.List(vol, req, res);
      case QuitHandler =>
        stream.Close();
        code := H.HANDLER_NO_SEND_RES;
      case InvalidHandler =>
        code := H.HANDLER_NO_SEND_RES;
    }
  }

  datatype Incoming = EndOfStream | BadHeader(msg: Octets) | Request(command: u16, body: Octets)

  /** A header, and as many octets as it announces. */
  method ReadRequest(stream: Stream, host: Host) returns (r: Incoming)
    requires stream.Valid() && (stream.open ==> Admissible(stream.input, stream.at))
    modifies stream`at
    ensures stream.Valid()
    ensures stream.open && Complete(stream.input, old(stream.at)) ==>
      && r == Request(CommandAt(stream.input, old(stream.at)), BodyAt(stream.input, old(stream.at)))
      && stream.at == NextAt(stream.input, old(stream.at))
    ensures stream.open && !Complete(stream.input, old(stream.at)) ==>
      r == if old(stream.at) + FRAME_HEAD <= |stream.input| && At16(stream.input, old(stream.at)) != P.TypeId(P.Header)
           then BadHeader(P.WRONG_TYPE) else EndOfStream
    ensures !stream.open ==> r == EndOfStream
  {
    ghost var at := stream.at;
    var head := new P.Data(P.Default(P.Header));
    var ok, err := ReadHeader(stream, host, head);
    if !ok {
      return EndOfStream;
    }
    if err.Fails() {
      return BadHeader(err.msg);
    }
    var body;
    body, ok := stream.Read(head.length);
    r := if ok then Request(head.num, body) else EndOfStream;
  }

  /** One turn of the loop in con_handler; `more` unless it is left. */
  method ServeNext(vol: VolumeType, g: Generator, stream: Stream) returns (more: bool)
    requires vol.Valid() && stream.Valid()
    requires stream.open ==>
      && Admissible(stream.input, stream.at)
      && Ready(g.supply, World(vol.store, g.drawn), Storing(stream.input, stream.at))
    modifies vol, vol.k, g, stream
    ensures vol.Valid() && stream.Valid()
    ensures !old(stream.open) ==>
      !more && stream.output == old(stream.output) && vol.store == old(vol.store) && g.drawn == old(g.drawn)
    ensures old(stream.open) && Ends(stream.input, old(stream.at)) ==>
      && !(more && stream.open) && vol.store == old(vol.store) && g.drawn == old(g.drawn)
      && Ready(g.supply, World(vol.store, g.drawn), Storing(stream.input, old(stream.at)))
      && stream.output
      == old(stream.output) + Serve(g.supply, stream.input, old(stream.at), World(vol.store, g.drawn)).out
    ensures old(stream.open) && !Ends(stream.input, old(stream.at)) ==>
      && more && stream.open && stream.at == NextAt(stream.input, old(stream.at))
      && var w := World(old(vol.store), old(g.drawn));
         var command, body := CommandAt(stream.input, old(stream.at)), BodyAt(stream.input, old(stream.at));
         && InBounds(command, body) && Catalog.Valid(w.st) && |g.supply.Id(w.used)| <= 255
         && World(vol.store, g.drawn) == After(g.supply, w, command, body)
         && stream.output == old(stream.output) + Reply(w.st, command, body, g.supply.Id(w.used))
  {
    hide Catalog.Valid, Catalog.Matches, Kernel.Valid, Linkage, Reply, Effect, ErrorFrame, Ready, Legal, InBounds;
    hide Serve, Storing;
    ghost var at, w := stream.at, World(vol.store, g.drawn);
    if stream.open && Ends(stream.input, at) {
      ReadyIsValid(g.supply, w, Storing(stream.input, at));
      ServeEnds(g.supply, stream.input, at, w);
    }
    var r := ReadRequest(stream, g.supply.host);
    match r {
      case EndOfStream =>
        return false;
      case BadHeader(msg) =>
        var tmp := new Out(g.supply.host);
        Complain(msg, tmp);
        stream.Write(tmp.bytes);
        return false;
      case Request(command, body) =>
        Prepared(g.supply, stream.input, at, w);
        QuitDoesNothing(w.st, body, g.supply.Id(w.used));
        var res := new Out(g.supply.host);
        var code := Handle(vol, g, stream, command, body, res);
        if code != H.HANDLER_NO_SEND_RES {
          stream.Write(res.bytes);
        }
        return true;
    }
  }

  lemma ReadyIsValid(g: Supply, w: World, n: nat)
    requires Ready(g, w, n)
    ensures Catalog.Valid(w.st)
  {
  }

  lemma Prepared(g: Supply, input: Octets, at: nat, w: World)
    requires Admissible(input, at) && Ready(g, w, Storing(input, at)) && Complete(input, at)
    ensures var command, body := CommandAt(input, at), BodyAt(input, at);
            && InBounds(command, body) && Legal(command, body) && Catalog.Valid(w.st) && |g.Id(w.used)| <= 255
            && (Stores(command, body) ==> g.Id(w.used) !in w.st.objs)
  {
    hide InBounds, Legal, Catalog.Valid, PutArguments;
    H.NameIsShort(g.Id(w.used));
  }

  /** Serving the rest of the input after what has been sent gives `total`. */
  ghost predicate LeadsTo(g: Supply, input: Octets, at: nat, w: World, sent: Octets, total: Session) {
    && Admissible(input, at) && Ready(g, w, Storing(input, at))
    && var rest := Serve(g, input, at, w);
       total == Session(sent + rest.out, rest.w)
  }

  /** One more request served, or the last octets sent, on the way to the same end. */
  lemma LeadsOn(g: Supply, input: Octets, at: nat, w: World, sent: Octets, total: Session)
    requires LeadsTo(g, input, at, w, sent, total)
    ensures Admissible(input, at) && Ready(g, w, Storing(input, at))
    ensures Ends(input, at) ==> total == Session(sent + Serve(g, input, at, w).out, w)
    ensures !Ends(input, at) ==>
      var command, body := CommandAt(input, at), BodyAt(input, at);
      && InBounds(command, body) && Catalog.Valid(w.st) && |g.Id(w.used)| <= 255
      && LeadsTo(g, input, NextAt(input, at), After(g, w, command, body),
                 sent + Reply(w.st, command, body, g.Id(w.used)), total)
  {
    hide Catalog.Valid, Reply, Ready, Legal, InBounds, Serve, Storing, After;
    if Ends(input, at) {
      ReadyIsValid(g, w, Storing(input, at));
      ServeEnds(g, input, at, w);
    } else {
      ServeContinues(g, input, at, w);
    }
  }

  /** con_handler: requests are read, handled and answered until the stream ends or is closed. */
  method ConHandler(vol: VolumeType, g: Generator, stream: Stream)
    requires vol.Valid() && stream.Valid() && stream.open && stream.at == 0 && stream.output == []
    requires Admissible(stream.input, 0)
    requires Ready(g.supply, World(vol.store, g.drawn), Storing(stream.input, 0))
    modifies vol, vol.k, g, stream
    ensures vol.Valid()
    ensures Session(stream.output, World(vol.store, g.drawn))
         == Serve(g.supply, stream.input, 0, World(old(vol.store), old(g.drawn)))
  {
    hide Catalog.Valid, Catalog.Matches, Kernel.Valid, Linkage, Reply, After, Ready, Legal, InBounds, Serve, Storing;
    ghost var total := Serve(g.supply, stream.input, 0, World(vol.store, g.drawn));
    assert [] + total.out == total.out;
    assert LeadsTo(g.supply, stream.input, 0, World(vol.store, g.drawn), [], total);
    hide LeadsTo;
    while true
      invariant vol.Valid() && stream.Valid()
      invariant stream.open ==>
        LeadsTo(g.supply, stream.input, stream.at, World(vol.store, g.drawn), stream.output, total)
      invariant !stream.open ==> total == Session(stream.output, World(vol.store, g.drawn))
      decreases stream.open, |stream.input| - stream.at
    {
      if stream.open {
        LeadsOn(g.supply, stream.input, stream.at, World(vol.store, g.drawn), stream.output, total);
      }
      var more := ServeNext(vol, g, stream);
      if !more {
        break;
      }
    }
  }
}
