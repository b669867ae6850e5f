/** Network byte order, on hosts of either byte order, and the buffers it is read from and written to. */
module Endian {
  import opened Bytes

  type u16 = v: int | 0 <= v < 0x1_0000
  type u32 = v: int | 0 <= v < 0x1_0000_0000

  datatype Host = Little | Big

  // ---- network order: most significant octet first ----

  function Net16(v: u16): (b: Octets)
    ensures |b| == 2
  {
    [v / 0x100, v % 0x100]
  }

  function Net32(v: u32): (b: Octets)
    ensures |b| == 4
  {
    Net16(v / 0x1_0000) + Net16(v % 0x1_0000)
  }

  function Value16(b: Octets): u16
    requires |b| == 2
  {
    0x100 * b[0] as int + b[1] as int
  }

  function Value32(b: Octets): u32
    requires |b| == 4
  {
    0x1_0000 * Value16(b[..2]) as int + Value16(b[2..]) as int
  }

  lemma Net16Value(v: u16)
    ensures Value16(Net16(v)) == v
  {
  }

  lemma Net32Value(v: u32)
    ensures Value32(Net32(v)) == v
  {
    var high, low := v / 0x1_0000, v % 0x1_0000;
    assert Net32(v)[..2] == Net16(high) && Net32(v)[2..] == Net16(low);
    Net16Value(high);
    Net16Value(low);
  }

  lemma Value16Net(b: Octets)
    requires |b| == 2
    ensures Net16(Value16(b)) == b
  {
  }

  lemma Value32Net(b: Octets)
    requires |b| == 4
    ensures Net32(Value32(b)) == b
  {
    Value16Net(b[..2]);
    Value16Net(b[2..]);
    assert b[..2] + b[2..] == b;
  }

  /** In 256ths: an octet `k` places from the right of a number. */
  function Place(k: nat): nat {
    if k == 0 then 1 else 0x100 * Place(k - 1)
  }

  /** Each octet of the network order is the digit, to the base 256, of its place from the right. */
  lemma Net16Digits(v: u16, k: nat)
    requires k < 2
    ensures Place(0) == 1 && Place(1) == 0x100 && Net16(v)[k] == v / Place(1 - k) % 0x100
  {
  }

  lemma Net32Digits(v: u32, k: nat)
    requires k < 4
    ensures Place(2) == 0x1_0000 && Place(3) == 0x100_0000 && Net32(v)[k] == v / Place(3 - k) % 0x100
  {
    assert Place(1) == 0x100;
    HalvesDigits(v);
  }

  lemma HalvesDigits(v: u32)
    ensures v / 0x1_0000 / 0x100 == v / 0x100_0000 && v / 0x1_0000 % 0x100 == v / 0x1_0000 % 0x100
    ensures v % 0x1_0000 / 0x100 == v / 0x100 % 0x100 && v % 0x1_0000 % 0x100 == v % 0x100
  {
  }

  // ---- native values in memory ----

  function Reversed(b: Octets): (r: Octets)
    requires |b| == 2 || |b| == 4
    ensures |r| == |b|
  {
    if |b| == 2 then [b[1], b[0]] else [b[3], b[2], b[1], b[0]]
  }

  /** The octets of a native value in memory. */
  function Stored16(h: Host, v: u16): (b: Octets)
    ensures |b| == 2
  {
    if h.Big? then Net16(v) else Reversed(Net16(v))
  }

  function Stored32(h: Host, v: u32): (b: Octets)
    ensures |b| == 4
  {
    if h.Big? then Net32(v) else Reversed(Net32(v))
  }

  function Loaded16(h: Host, b: Octets): u16
    requires |b| == 2
  {
    Value16(if h.Big? then b else Reversed(b))
  }

  function Loaded32(h: Host, b: Octets): u32
    requires |b| == 4
  {
    Value32(if h.Big? then b else Reversed(b))
  }

  /** htons and ntohs. */
  function Swap16(h: Host, v: u16): u16 {
    if h.Big? then v else Value16(Reversed(Net16(v)))
  }

  /** htonl and ntohl. */
  function Swap32(h: Host, v: u32): u32 {
    if h.Big? then v else Value32(Reversed(Net32(v)))
  }

  /** On every host, converting and storing gives network order, and loading and converting undoes it. */
  lemma AnyHost16(h: Host, v: u16)
    ensures Stored16(h, Swap16(h, v)) == Net16(v) == [v / 0x100, v % 0x100]
    ensures Swap16(h, Loaded16(h, Net16(v))) == v
  {
    Value16Net(Reversed(Net16(v)));
  }

  lemma AnyHost32(h: Host, v: u32)
    ensures Stored32(h, Swap32(h, v)) == Net32(v)
         == [v / 0x100_0000, v / 0x1_0000 % 0x100, v / 0x100 % 0x100, v % 0x100]
    ensures Swap32(h, Loaded32(h, Net32(v))) == v
  {
    HalvesDigits(v);
    Value32Net(Reversed(Net32(v)));
    Net32Value(v);
  }

  // ---- buffers ----

  function At16(buf: Octets, at: nat): u16
    requires at + 2 <= |buf|
  {
    Value16(buf[at..at + 2])
  }

  function At32(buf: Octets, at: nat): u32
    requires at + 4 <= |buf|
  {
    Value32(buf[at..at + 4])
  }

  /** What stands in a buffer, read to the base 256 from left to right. */
  lemma At16Sum(buf: Octets, at: nat)
    requires at + 2 <= |buf|
    ensures At16(buf, at) == 0x100 * buf[at] as int + buf[at + 1] as int
  {
  }

  lemma At32Sum(buf: Octets, at: nat)
    requires at + 4 <= |buf|
    ensures At32(buf, at) == 0x100_0000 * buf[at] as int + 0x1_0000 * buf[at + 1] as int
                           + 0x100 * buf[at + 2] as int + buf[at + 3] as int
  {
    var b := buf[at..at + 4];
    assert b[..2] == [b[0], b[1]] && b[2..] == [b[2], b[3]];
  }

  /** A std::stringstream being written. */
  class Out {
    const host: Host
    var bytes: Octets

    constructor (host: Host)
      ensures bytes == [] && this.host == host
    {
      this.host, bytes := host, [];
    }

    method Write(data: Octets)
      modifies this
      ensures bytes == old(bytes) + data
    {
      bytes := bytes + data;
    }

    method ToNets(v: u16)
      modifies this
      ensures bytes == old(bytes) + Net16(v) == old(bytes) + [v / 0x100, v % 0x100]
    {
      AnyHost16(host, v);
      var tmp := Swap16(host, v);
      Write(Stored16(host, tmp));
    }

    method ToNetl(v: u32)
      modifies this
      ensures bytes == old(bytes) + Net32(v)
           == old(bytes) + [v / 0x100_0000, v / 0x1_0000 % 0x100, v / 0x100 % 0x100, v % 0x100]
    {
      AnyHost32(host, v);
      var tmp := Swap32(host, v);
      Write(Stored32(host, tmp));
    }
  }

  /** A `const char*&` that moves over a received buffer. */
  class Cursor {
    const host: Host
    const buf: Octets
    var at: nat

    constructor (host: Host, buf: Octets)
      ensures at == 0 && this.buf == buf && this.host == host
    {
      this.host, this.buf, at := host, buf, 0;
    }

    /** What lies under the cursor, without moving it. */
    method PeekHosts() returns (v: u16)
      requires at + 2 <= |buf|
      ensures v == At16(buf, at) == 0x100 * buf[at] as int + buf[at + 1] as int
    {
      AnyHost16(host, At16(buf, at));
      Value16Net(buf[at..at + 2]);
      v := Swap16(host, Loaded16(host, buf[at..at + 2]));
    }

    method ToHosts() returns (v: u16)
      requires at + 2 <= |buf|
      modifies this
      ensures v == At16(buf, old(at)) && at == old(at) + 2
      ensures v == 0x100 * buf[old(at)] as int + buf[old(at) + 1] as int
    {
      v := PeekHosts();
      at := at + 2;
    }

    method ToHostl() returns (v: u32)
      requires at + 4 <= |buf|
      modifies this
      ensures v == At32(buf, old(at)) && at == old(at) + 4
      ensures v == 0x100_0000 * buf[old(at)] as int + 0x1_0000 * buf[old(at) + 1] as int
                 + 0x100 * buf[old(at) + 2] as int + buf[old(at) + 3] as int
    {
      AnyHost32(host, At32(buf, at));
      Value32Net(buf[at..at + 4]);
      At32Sum(buf, at);
      v := Swap32(host, Loaded32(host, buf[at..at + 4]));
      at := at + 4;
    }
  }
}
