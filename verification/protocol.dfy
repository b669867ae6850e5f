/** The wire format: typed values, each behind a type and a length, most with a magic octet at the end. */
module Protocol {
  import opened Bytes
  import opened Endian

  const MAGIC: byte := 0xcc

  /** Type, length and the magic octet. */
  const HEADER_SIZE := 7

  const SUCCESS: u16 := 0
  const ERROR: u16 := 1

  datatype Kind = Invalid | Header | Error | Smallint | Integer | String | Bigdata

  function TypeId(kind: Kind): u16 {
    match kind
    case Invalid => 0
    case Header => 1
    case Error => 2
    case Smallint => 3
    case Integer => 4
    case String => 5
    case Bigdata => 6
  }

  /**
   * One value: its class, and the fields a decode overwrites. `num` is a header's command or an
   * integer's value; `text` is a string, or an error message up to its NUL.
   */
  datatype Fields = Fields(kind: Kind, typ: u16, length: u32, num: u32, text: Octets)

  predicate HasNum(kind: Kind) {
    kind == Header || kind == Smallint || kind == Integer
  }

  predicate HasText(kind: Kind) {
    kind == Error || kind == String
  }

  /** The fields hold what their C++ types can; those the class lacks are blank. */
  ghost predicate Fit(f: Fields) {
    && (f.kind == Header || f.kind == Smallint ==> f.num < 0x1_0000)
    && (!HasNum(f.kind) ==> f.num == 0)
    && (!HasText(f.kind) ==> f.text == [])
    && (f.kind == Error ==> |f.text| <= 255 && Free(f.text, NUL))
  }

  // ---- values as their constructors make them ----

  function Default(kind: Kind): Fields {
    Fields(kind, TypeId(kind), 0, 0, [])
  }

  function HeaderOf(command: u16, length: u32): Fields {
    Fields(Header, 1, length, command, [])
  }

  /** The first 255 octets at most of a C string. */
  function Cut(msg: Octets): (r: Octets)
    ensures |r| <= 255 && Free(r, NUL) && r <= CString(msg)
  {
    var s := CString(msg);
    if |s| <= 255 then s else s[..255]
  }

  function ErrorOf(msg: Octets): Fields {
    Fields(Error, 2, |Cut(msg)|, 0, Cut(msg))
  }

  function SmallintOf(val: u16): Fields {
    Fields(Smallint, 3, 2, val, [])
  }

  function IntegerOf(val: u32): Fields {
    Fields(Integer, 4, 4, val, [])
  }

  function StringOf(str: Octets): Fields
    requires |str| < 0x1_0000_0000
  {
    Fields(String, 5, |str|, 0, str)
  }

  function BigdataOf(length: u32): Fields {
    Fields(Bigdata, 6, length, 0, [])
  }

  /** Type and length agree with the payload: what every value constructor establishes. */
  ghost predicate Proper(f: Fields) {
    && Fit(f) && f.typ == TypeId(f.kind)
    && match f.kind
       case Invalid => f.length == 0
       case Smallint => f.length == 2
       case Integer => f.length == 4
       case Error => f.length == |f.text|
       case String => f.length == |f.text|
       case _ => true
  }

  // ---- printing ----

  /** An error's buffer holds its text and zeros. */
  ghost predicate Printable(f: Fields) {
    Fit(f) && (f.kind == Error ==> |f.text| <= f.length <= 256)
  }

  function Zeros(n: nat): (r: Octets)
    ensures |r| == n
  {
    seq(n, _ => NUL)
  }

  ghost function Payload(f: Fields): Octets
    requires Printable(f)
  {
    match f.kind
    case Invalid => [MAGIC]
    case Header => Net16(f.num)
    case Error => f.text + Zeros(f.length - |f.text|) + [MAGIC]
    case Smallint => Net16(f.num) + [MAGIC]
    case Integer => Net32(f.num) + [MAGIC]
    case String => f.text + [MAGIC]
    case Bigdata => []
  }

  ghost function Encode(f: Fields): Octets
    requires Printable(f)
  {
    Net16(f.typ) + Net32(f.length) + Payload(f)
  }

  // ---- parsing ----

  datatype Decoded = Decoded(ok: bool, f: Fields, at: nat)

  /** How far past its start a payload of this class is read. */
  function Extent(kind: Kind, length: u32): nat {
    match kind
    case Invalid => 0
    case Header => 2
    case Error => length
    case Smallint => 2
    case Integer => 4
    case String => length
    case Bigdata => 0
  }

  /** Headers and big data carry no magic octet that is checked here. */
  predicate Unchecked(typ: u16) {
    typ == 1 || typ == 6
  }

  /** Every octet that decoding looks at lies inside the buffer. */
  ghost predicate Readable(kind: Kind, buf: Octets, at: nat) {
    && at + 6 <= |buf|
    && var typ, length := At16(buf, at), At32(buf, at + 2);
       && (!Unchecked(typ) ==> at + 6 + length < |buf|)
       && (Unchecked(typ) || buf[at + 6 + length] == MAGIC ==> at + 6 + Extent(kind, length) <= |buf|)
  }

  /** `g` with its payload taken from the buffer. */
  ghost function Taken(g: Fields, buf: Octets, at: nat): Fields
    requires at + Extent(g.kind, g.length) <= |buf|
  {
    match g.kind
    case Header => g.(num := At16(buf, at))
    case Error => g.(text := Cut(buf[at..at + g.length]))
    case Smallint => g.(num := At16(buf, at))
    case Integer => g.(num := At32(buf, at))
    case String => g.(text := buf[at..at + g.length])
    case _ => g
  }

  /** What decoding into an object with fields `g` leaves in it, and where the cursor ends up. */
  ghost function Decode(g: Fields, buf: Octets, at: nat): Decoded
    requires Readable(g.kind, buf, at)
  {
    var f := g.(typ := At16(buf, at), length := At32(buf, at + 2));
    var start := at + 6;
    if Unchecked(f.typ) then Decoded(true, Taken(f, buf, start), start + Extent(f.kind, f.length))
    else if buf[start + f.length] != MAGIC then Decoded(false, f, start)
    else Decoded(true, Taken(f, buf, start), start + Extent(f.kind, f.length) + 1)
  }

  // ---- decoding undoes encoding ----

  lemma EncodedSize(f: Fields)
    requires Proper(f)
    ensures |Encode(f)| == if f.kind == Header then 8 else if f.kind == Bigdata then 6 else HEADER_SIZE + f.length
  {
  }

  /** The prefix of a buffer: where each part of an encoded value lies. */
  lemma Layout(p: Octets, f: Fields, s: Octets)
    requires Printable(f)
    ensures var buf := p + Encode(f) + s;
            && |p| + 6 <= |buf| && At16(buf, |p|) == f.typ && At32(buf, |p| + 2) == f.length
            && buf[|p| + 6..] == Payload(f) + s
  {
    var buf := p + Encode(f) + s;
    assert buf[|p|..|p| + 2] == Net16(f.typ);
    assert buf[|p| + 2..|p| + 6] == Net32(f.length);
    Net16Value(f.typ);
    Net32Value(f.length);
  }

  lemma CutWhole(text: Octets)
    requires |text| <= 255 && Free(text, NUL)
    ensures Cut(text) == text
  {
    CStringOfNulFree(text);
  }

  /** The part of the payload that decoding takes, without the magic octet behind it. */
  ghost function Core(f: Fields): (b: Octets)
    requires Proper(f)
    ensures |b| == Extent(f.kind, f.length)
    ensures Payload(f) == if Unchecked(f.typ) then b else b + [MAGIC]
  {
    match f.kind
    case Header => Net16(f.num)
    case Smallint => Net16(f.num)
    case Integer => Net32(f.num)
    case _ => f.text
  }

  /** Taking the core of a value gives the value. */
  lemma TakesCore(f: Fields, g: Fields, buf: Octets, at: nat)
    requires Proper(f) && Fit(g) && g.kind == f.kind && g.typ == f.typ && g.length == f.length
    requires at + |Core(f)| <= |buf| && buf[at..at + |Core(f)|] == Core(f)
    ensures Taken(g, buf, at) == f
  {
    match f.kind {
      case Header => Net16Value(f.num);
      case Smallint => Net16Value(f.num);
      case Integer => Net32Value(f.num);
      case Error => CutWhole(f.text);
      case _ =>
    }
  }

  lemma CoreLies(p: Octets, f: Fields, s: Octets)
    requires Proper(f)
    ensures var buf := p + Encode(f) + s;
            var at, n := |p| + 6, Extent(f.kind, f.length);
            && at + n <= |buf| && buf[at..at + n] == Core(f)
            && (!Unchecked(f.typ) ==> f.length == n && at + n < |buf| && buf[at + n] == MAGIC)
            && |p| + |Encode(f)| == at + n + if Unchecked(f.typ) then 0 else 1
  {
    hide Core, Payload;
    Layout(p, f, s);
    var buf := p + Encode(f) + s;
    var at, n := |p| + 6, Extent(f.kind, f.length);
    var tail := if Unchecked(f.typ) then s else [MAGIC] + s;
    assert buf[at..] == Core(f) + tail;
    assert buf[at..at + n] == buf[at..][..n] == Core(f);
    assert !Unchecked(f.typ) ==> buf[at..][n] == MAGIC;
  }

  /** Where a proper value was printed, the object reads it back and the cursor stops right after it. */
  lemma DecodeUndoesEncode(p: Octets, f: Fields, s: Octets, g: Fields)
    requires Proper(f) && Fit(g) && g.kind == f.kind
    ensures var buf := p + Encode(f) + s;
            Readable(f.kind, buf, |p|) && Decode(g, buf, |p|) == Decoded(true, f, |p| + |Encode(f)|)
  {
    hide Core, Payload, Encode, Proper, Fit, Taken, Extent;
    ProperPrints(f);
    var buf := p + Encode(f) + s;
    Layout(p, f, s);
    CoreLies(p, f, s);
    var h := g.(typ := f.typ, length := f.length);
    StillFit(g, f.typ, f.length);
    TakesCore(f, h, buf, |p| + 6);
  }

  lemma StillFit(g: Fields, typ: u16, length: u32)
    requires Fit(g)
    ensures Fit(g.(typ := typ, length := length))
  {
  }

  lemma ProperPrints(f: Fields)
    requires Proper(f)
    ensures Fit(f) && Printable(f) && f.typ == TypeId(f.kind)
  {
  }

  // ---- sequences of values ----

  ghost predicate AllProper(fs: seq<Fields>) {
    forall i :: 0 <= i < |fs| ==> Proper(fs[i])
  }

  ghost function EncodeAll(fs: seq<Fields>): Octets
    requires AllProper(fs)
  {
    if fs == [] then [] else Encode(fs[0]) + EncodeAll(fs[1..])
  }

  datatype Values = Values(ok: bool, fs: seq<Fields>, at: nat)

  /** Objects of the given classes decoded one after the other, up to the first that is rejected. */
  ghost function DecodeAll(kinds: seq<Kind>, buf: Octets, at: nat): Values {
    if kinds == [] then Values(true, [], at)
    else if !Readable(kinds[0], buf, at) then Values(false, [], at)
    else
      var d := Decode(Default(kinds[0]), buf, at);
      if !d.ok then Values(false, [], d.at)
      else
        var rest := DecodeAll(kinds[1..], buf, d.at);
        Values(rest.ok, [d.f] + rest.fs, rest.at)
  }

  ghost function KindsOf(fs: seq<Fields>): seq<Kind> {
    if fs == [] then [] else [fs[0].kind] + KindsOf(fs[1..])
  }

  /** `part` stands in `buf` at `at`. */
  ghost predicate StandsAt(part: Octets, buf: Octets, at: nat) {
    at + |part| <= |buf| && buf[at..at + |part|] == part
  }

  lemma StandsInTwo(a: Octets, b: Octets, buf: Octets, at: nat)
    requires StandsAt(a + b, buf, at)
    ensures StandsAt(a, buf, at) && StandsAt(b, buf, at + |a|)
  {
    assert buf[at..at + |a|] == (a + b)[..|a|];
    assert buf[at + |a|..at + |a| + |b|] == (a + b)[|a|..];
  }

  lemma DecodesWhereItStands(f: Fields, buf: Octets, at: nat, g: Fields)
    requires Proper(f) && Fit(g) && g.kind == f.kind && StandsAt(Encode(f), buf, at)
    ensures Readable(f.kind, buf, at) && Decode(g, buf, at) == Decoded(true, f, at + |Encode(f)|)
  {
    hide Encode, Decode, Readable, Proper, Fit;
    ProperPrints(f);
    var n := |Encode(f)|;
    assert buf == buf[..at] + Encode(f) + buf[at + n..];
    DecodeUndoesEncode(buf[..at], f, buf[at + n..], g);
  }

  /** Any sequence of values, whatever stands before and after it in the buffer. */
  lemma {:induction false} SequenceReadsBack(fs: seq<Fields>, kinds: seq<Kind>, buf: Octets, at: nat)
    requires AllProper(fs) && StandsAt(EncodeAll(fs), buf, at) && kinds == KindsOf(fs)
    ensures DecodeAll(kinds, buf, at) == Values(true, fs, at + |EncodeAll(fs)|)
    decreases |fs|
  {
    if fs != [] {
      hide Encode, Decode, Readable, Proper, StandsAt;
      var f := fs[0];
      ProperPrints(f);
      StandsInTwo(Encode(f), EncodeAll(fs[1..]), buf, at);
      DecodesWhereItStands(f, buf, at, Default(f.kind));
      assert kinds[1..] == KindsOf(fs[1..]);
      var next := at + |Encode(f)|;
      SequenceReadsBack(fs[1..], kinds[1..], buf, next);
      assert kinds[0] == f.kind;
      assert Readable(kinds[0], buf, at);
      assert Decode(Default(kinds[0]), buf, at) == Decoded(true, f, next);
      var rest := DecodeAll(kinds[1..], buf, next);
      assert DecodeAll(kinds, buf, at) == Values(rest.ok, [f] + rest.fs, rest.at);
      assert rest.fs == fs[1..];
      assert [f] + fs[1..] == fs;
    }
  }

  /** Two sequences of values of the same classes print alike only when they are the same. */
  lemma EncodeAllInjective(fs: seq<Fields>, gs: seq<Fields>)
    requires AllProper(fs) && AllProper(gs) && KindsOf(fs) == KindsOf(gs) && EncodeAll(fs) == EncodeAll(gs)
    ensures fs == gs
  {
    var buf := EncodeAll(fs);
    assert StandsAt(buf, buf, 0);
    SequenceReadsBack(fs, KindsOf(fs), buf, 0);
    SequenceReadsBack(gs, KindsOf(gs), buf, 0);
  }

  // ---- integers assigned after construction keep length 0 ----

  /** smallint::operator= and integer::operator=: only the value changes. */
  function Assigned(f: Fields, val: u32): Fields {
    f.(num := val)
  }

  /** The first octet of the value stands where the magic octet is looked for. */
  lemma StaleSmallint(p: Octets, val: u16, s: Octets)
    ensures var f := Assigned(Default(Smallint), val);
            var buf := p + Encode(f) + s;
            && Readable(Smallint, buf, |p|)
            && (Decode(Default(Smallint), buf, |p|).ok <==> val / 0x100 == 0xcc)
            && (val / 0x100 == 0xcc ==>
                  var d := Decode(Default(Smallint), buf, |p|); d.f == f && d.at == |p| + |Encode(f)|)
  {
    var f := Assigned(Default(Smallint), val);
    var buf := p + Encode(f) + s;
    Layout(p, f, s);
    var rest := buf[|p| + 6..];
    assert rest[0] == val / 0x100 && rest[..2] == Net16(val);
    assert buf[|p| + 6] == rest[0] && buf[|p| + 6..|p| + 8] == rest[..2];
    Net16Value(val);
  }

  lemma StaleInteger(p: Octets, val: u32, s: Octets)
    ensures var f := Assigned(Default(Integer), val);
            var buf := p + Encode(f) + s;
            && Readable(Integer, buf, |p|)
            && (Decode(Default(Integer), buf, |p|).ok <==> val / 0x100_0000 == 0xcc)
            && (val / 0x100_0000 == 0xcc ==>
                  var d := Decode(Default(Integer), buf, |p|); d.f == f && d.at == |p| + |Encode(f)|)
  {
    var f := Assigned(Default(Integer), val);
    var buf := p + Encode(f) + s;
    Layout(p, f, s);
    var rest := buf[|p| + 6..];
    assert rest[0] == val / 0x100_0000 && rest[..4] == Net32(val);
    assert buf[|p| + 6] == rest[0] && buf[|p| + 6..|p| + 10] == rest[..4];
    Net32Value(val);
  }

  lemma FitTaken(g: Fields, buf: Octets, at: nat)
    requires Fit(g) && at + Extent(g.kind, g.length) <= |buf|
    ensures Fit(Taken(g, buf, at))
  {
  }

  // ---- the objects ----

  /** One protocol object: `kind` is its class, the rest what its methods update. */
  class Data {
    const kind: Kind
    var typ: u16
    var length: u32
    var num: u32
    var text: Octets

    ghost predicate Valid()
      reads this
    {
      Fit(Now())
    }

    function Now(): Fields
      reads this
    {
      Fields(kind, typ, length, num, text)
    }

    /** Every constructor: default, or with a value already converted by one of the functions above. */
    constructor (f: Fields)
      requires Fit(f)
      ensures Valid() && Now() == f
    {
      kind, typ, length, num, text := f.kind, f.typ, f.length, f.num, f.text;
    }

    /** operator= of the two integer classes. */
    method Assign(val: u32)
      requires Valid() && (kind == Integer || (kind == Smallint && val < 0x1_0000))
      modifies this
      ensures Valid() && Now() == Assigned(old(Now()), val)
    {
      num := val;
    }

    /** operator= of string: the length follows. */
    method AssignString(str: Octets)
      requires Valid() && kind == String && |str| < 0x1_0000_0000
      modifies this
      ensures Valid() && Now() == old(Now()).(text := str, length := |str|)
    {
      text, length := str, |str|;
    }

    method To(out: Out)
      requires Valid() && Printable(Now())
      modifies out
      ensures out.bytes == old(out.bytes) + Encode(Now())
    {
      hide Printable, Payload, Fit, Net16, Net32;
      ghost var was := out.bytes;
      out.ToNets(typ);
      out.ToNetl(length);
      PutPayload(out);
      assert was + Net16(typ) + Net32(length) + Payload(Now()) == was + Encode(Now());
    }

    /** The virtual part of To. */
    method PutPayload(out: Out)
      requires Printable(Now())
      modifies out
      ensures out.bytes == old(out.bytes) + Payload(Now())
    {
      hide Fit, Net16, Net32;
      ghost var was, payload := out.bytes, Payload(Now());
      match kind {
        case Invalid =>
        case Header => FitNum(); out.ToNets(num);
        case Error => out.Write(text + Zeros(length - |text|));
        case Smallint => FitNum(); out.ToNets(num);
        case Integer => out.ToNetl(num);
        case String => out.Write(text);
        case Bigdata =>
      }
      if kind != Header && kind != Bigdata {
        out.Write([MAGIC]);
      }
      assert out.bytes == was + payload;
    }

    lemma FitNum()
      requires Fit(Now()) && (kind == Header || kind == Smallint)
      ensures num < 0x1_0000
    {
    }

    method From(c: Cursor) returns (ok: bool)
      requires Valid() && Readable(kind, c.buf, c.at)
      modifies this, c
      ensures Valid() && Decoded(ok, Now(), c.at) == Decode(old(Now()), c.buf, old(c.at))
    {
      typ := c.ToHosts();
      length := c.ToHostl();
      if typ == TypeId(Header) || typ == TypeId(Bigdata) {
        TakePayload(c);
      } else {
        if c.buf[c.at + length] != MAGIC {
          return false;
        }
        TakePayload(c);
        c.at := c.at + 1;
      }
      ok := true;
    }

    /** The virtual part of From. */
    method TakePayload(c: Cursor)
      requires Valid() && c.at + Extent(kind, length) <= |c.buf|
      modifies this`num, this`text, c
      ensures Valid() && Now() == Taken(old(Now()), c.buf, old(c.at)) && c.at == old(c.at) + Extent(kind, length)
    {
      hide Fit, Value16, Value32, Cut;
      FitTaken(Now(), c.buf, c.at);
      match kind {
        case Header => num := c.ToHosts();
        case Smallint => num := c.ToHosts();
        case Integer => num := c.ToHostl();
        case Error =>
          text := Cut(c.buf[c.at..c.at + length]);
          c.at := c.at + length;
        case String =>
          text := c.buf[c.at..c.at + length];
          c.at := c.at + length;
        case _ =>
      }
    }
  }

  // ---- checking the type first ----

  /** What an error object holds; number 0 reads as success. */
  datatype Outcome = Outcome(no: int, msg: Octets) {
    predicate Fails() {
      no != 0
    }
  }

  const WRONG_TYPE: Octets := Ascii("Wrong parameter type")
  const BAD_FORMAT: Octets := Ascii("Invalid data format")

  datatype Checked = Checked(err: Outcome, f: Fields, at: nat)

  ghost predicate Checkable(g: Fields, buf: Octets, at: nat) {
    at + 2 <= |buf| && (At16(buf, at) == g.typ ==> Readable(g.kind, buf, at))
  }

  ghost function Check(g: Fields, buf: Octets, at: nat): Checked
    requires Checkable(g, buf, at)
  {
    var t := At16(buf, at);
    if t != g.typ then Checked(Outcome(t, WRONG_TYPE), g, at)
    else
      var d := Decode(g, buf, at);
      Checked(if d.ok then Outcome(0, []) else Outcome(-1, BAD_FORMAT), d.f, d.at)
  }

  method GetType(c: Cursor, expected: Data) returns (err: Outcome)
    requires expected.Valid() && Checkable(expected.Now(), c.buf, c.at)
    modifies c, expected
    ensures expected.Valid() && Checked(err, expected.Now(), c.at) == Check(old(expected.Now()), c.buf, old(c.at))
  {
    hide Decode;
    var next := c.PeekHosts();
    if next != expected.typ {
      return Outcome(next, WRONG_TYPE);
    }
    var ok := expected.From(c);
    if !ok {
      return Outcome(-1, BAD_FORMAT);
    }
    err := Outcome(0, []);
  }

  /**
   * When the check reads as success: either the value was decoded, or the type on the wire is 0,
   * another type was expected, and nothing was consumed.
   */
  lemma CheckSucceedsIff(g: Fields, buf: Octets, at: nat)
    requires Checkable(g, buf, at) && g.typ != 0
    ensures var r := Check(g, buf, at);
            && (!r.err.Fails() <==> At16(buf, at) == 0 || (At16(buf, at) == g.typ && Decode(g, buf, at).ok))
            && (At16(buf, at) != g.typ ==> r.f == g && r.at == at)
            && (r.err.Fails() ==> r.err.msg == if At16(buf, at) == g.typ then BAD_FORMAT else WRONG_TYPE)
  {
    hide Decode;
  }

  /** An accepted string, printed again, is exactly the octets that were consumed. */
  lemma StringPrintsBack(g: Fields, buf: Octets, at: nat)
    requires g.kind == String && Fit(g) && Readable(String, buf, at) && At16(buf, at) == TypeId(String)
    requires Decode(g, buf, at).ok
    ensures var d := Decode(g, buf, at);
            Proper(d.f) && d.at <= |buf| && Encode(d.f) == buf[at..d.at]
  {
    var d := Decode(g, buf, at);
    Value16Net(buf[at..at + 2]);
    Value32Net(buf[at + 2..at + 6]);
    assert buf[at..d.at] == buf[at..at + 2] + buf[at + 2..at + 6] + (buf[at + 6..at + 6 + d.f.length] + [MAGIC]);
  }

  // ---- choosing a handler ----

  datatype Option<+T> = None | Some(value: T)

  datatype Command<H> = Command(no: u16, handler: Option<H>)

  /** Runs for commands the table does not hold. */
  const INVALID: u16 := 0xfffe

  ghost predicate Serves<H>(c: Command<H>, command: u16) {
    c.no == command && c.handler.Some?
  }

  ghost predicate First<H>(table: seq<Command<H>>, command: u16, i: int) {
    0 <= i < |table| && Serves(table[i], command) && forall j :: 0 <= j < i ==> !Serves(table[j], command)
  }

  ghost predicate Last<H>(table: seq<Command<H>>, command: u16, i: int) {
    0 <= i < |table| && table[i].no == command && forall j :: i < j < |table| ==> table[j].no != command
  }

  /**
   * The handler that parse runs: the first non-null one under the command's number, or else the
   * one last listed as INVALID; none when there is no such entry or its handler is null.
   */
  method Choose<H>(table: seq<Command<H>>, command: u16) returns (h: Option<H>)
    ensures forall i :: First(table, command, i) ==> h == table[i].handler
    ensures (forall j :: 0 <= j < |table| ==> !Serves(table[j], command)) ==>
      && (forall i :: Last(table, INVALID, i) ==> h == table[i].handler)
      && ((forall j :: 0 <= j < |table| ==> table[j].no != INVALID) ==> h == None)
  {
    var invalid := None;
    for n := 0 to |table|
      invariant forall j :: 0 <= j < n ==> !Serves(table[j], command)
      invariant forall i :: Last(table[..n], INVALID, i) ==> invalid == table[i].handler
      invariant (forall j :: 0 <= j < n ==> table[j].no != INVALID) ==> invalid == None
    {
      var c := table[n];
      if c.no == INVALID {
        invalid := c.handler;
      }
      if c.no == command && c.handler.Some? {
        assert First(table, command, n);
        return c.handler;
      }
      forall i | Last(table[..n + 1], INVALID, i) ensures invalid == table[i].handler {
        assert table[..n + 1][n] == c;
        assert c.no == INVALID ==> i == n;
        assert i < n ==> Last(table[..n], INVALID, i) by {
          assert forall j :: 0 <= j < n ==> table[..n][j] == table[..n + 1][j];
        }
      }
    }
    assert table[..|table|] == table;
    h := invalid;
  }
}
