/** Identifiers: a time stamp and six random octets in fixed-width hexadecimal. */
module Uid {
  import opened Bytes
  import opened Endian

  const SEPARATOR: byte := 45

  const RDATA_LEN := 6
  const TOTAL_LEN := 32

  /** What the clock and the random device supply for one id. */
  datatype Sample = Sample(micros: nat, rdata: Octets)

  type Draw = d: Sample | |d.rdata| == RDATA_LEN witness Sample(0, [0, 0, 0, 0, 0, 0])

  predicate IsDigit(b: byte) {
    '0' as int <= b <= '9' as int || 'a' as int <= b <= 'f' as int
  }

  function Digit(d: nat): (b: byte)
    requires d < 16
    ensures IsDigit(b)
  {
    if d < 10 then 48 + d else 87 + d
  }

  /** The low `width` hexadecimal digits, as %0*x prints a number that has no more. */
  function Hex(v: nat, width: nat): (r: Octets)
    ensures |r| == width && forall i :: 0 <= i < |r| ==> IsDigit(r[i])
  {
    if width == 0 then [] else Hex(v / 16, width - 1) + [Digit(v % 16)]
  }

  /** What a reader makes of an octet that is a hexadecimal digit in ASCII. */
  function DigitValue(b: byte): (d: nat)
    requires 48 <= b <= 57 || 97 <= b <= 102
    ensures d < 16
  {
    if b <= 57 then b - 48 else b - 87
  }

  ghost predicate AllDigits(s: Octets) {
    forall i :: 0 <= i < |s| ==> 48 <= s[i] <= 57 || 97 <= s[i] <= 102
  }

  /** The number that digits stand for, read from left to right to the base 16, behind what has been read. */
  function ReadHex(s: Octets, read: nat): nat
    requires AllDigits(s)
  {
    if s == [] then read else ReadHex(s[1..], 16 * read + DigitValue(s[0]))
  }

  lemma {:induction false} ReadHexLast(s: Octets, b: byte, read: nat)
    requires AllDigits(s + [b]) && AllDigits(s) && (48 <= b <= 57 || 97 <= b <= 102)
    ensures ReadHex(s + [b], read) == 16 * ReadHex(s, read) + DigitValue(b)
  {
    if s == [] {
      assert s + [b] == [b] && [b][1..] == [];
    } else {
      assert (s + [b])[1..] == s[1..] + [b];
      ReadHexLast(s[1..], b, 16 * read + DigitValue(s[0]));
    }
  }

  /** What is printed in hexadecimal reads as the number that was printed, if the width suffices for it. */
  lemma {:induction false} HexReadsBack(v: nat, width: nat)
    requires v < Limit(width)
    ensures AllDigits(Hex(v, width)) && ReadHex(Hex(v, width), 0) == v
  {
    if width > 0 {
      HexReadsBack(v / 16, width - 1);
      ReadHexLast(Hex(v / 16, width - 1), Digit(v % 16), 0);
    }
  }

  function Limit(width: nat): nat {
    if width == 0 then 1 else 16 * Limit(width - 1)
  }

  lemma HexInjective(v: nat, w: nat, width: nat)
    requires v < Limit(width) && w < Limit(width) && Hex(v, width) == Hex(w, width)
    ensures v == w
  {
    HexReadsBack(v, width);
    HexReadsBack(w, width);
  }

  // ---- the five fields ----

  /** (uint32_t)(timestamp & 0x0000ffff) */
  function Low(micros: nat): u32 {
    micros % 0x1_0000
  }

  /** (uint16_t)(timestamp & 0x00ff0000) */
  function Middle(micros: nat): u16 {
    micros / 0x1_0000 % 0x100 * 0x1_0000 % 0x1_0000
  }

  /** (uint16_t)(timestamp & 0xff000000) */
  function High(micros: nat): u16 {
    micros / 0x100_0000 % 0x100 * 0x100_0000 % 0x1_0000
  }

  function Format(h: Host, d: Draw): (id: Octets)
    ensures |id| == TOTAL_LEN
  {
    Hex(Low(d.micros), 8) + [SEPARATOR] + Hex(Middle(d.micros), 4) + [SEPARATOR] + Hex(High(d.micros), 4) + [SEPARATOR]
    + Hex(Loaded16(h, d.rdata[..2]), 4) + [SEPARATOR] + Hex(Loaded32(h, d.rdata[2..]), 8)
  }

  /** The cast to 16 bits cuts off exactly the bits that were masked out: both fields are always zero. */
  lemma MiddleAndHighAreZero(micros: nat)
    ensures Middle(micros) == 0 && High(micros) == 0
  {
  }

  /** An id is a legal path component and a legal line. */
  lemma FormatIsName(h: Host, d: Draw)
    ensures IsName(Format(h, d))
  {
  }

  lemma LoadedInjective(h: Host, a: Octets, b: Octets)
    requires |a| == |b| && (|a| == 2 || |a| == 4)
    requires if |a| == 2 then Loaded16(h, a) == Loaded16(h, b) else Loaded32(h, a) == Loaded32(h, b)
    ensures a == b
  {
    var x, y := if h.Big? then a else Reversed(a), if h.Big? then b else Reversed(b);
    if |a| == 2 {
      Value16Net(x);
      Value16Net(y);
    } else {
      Value32Net(x);
      Value32Net(y);
    }
    assert x == y;
    assert a == Reversed(Reversed(a)) && b == Reversed(Reversed(b));
  }

  /** Two ids coincide exactly when the low 16 bits of the time and all 48 random bits do. */
  lemma FormatInjective(h: Host, d: Draw, e: Draw)
    ensures Format(h, d) == Format(h, e) <==> d.micros % 0x1_0000 == e.micros % 0x1_0000 && d.rdata == e.rdata
  {
    MiddleAndHighAreZero(d.micros);
    MiddleAndHighAreZero(e.micros);
    if Format(h, d) == Format(h, e) {
      Places(h, d);
      Places(h, e);
      HexInjective(Low(d.micros), Low(e.micros), 8);
      HexInjective(Loaded16(h, d.rdata[..2]), Loaded16(h, e.rdata[..2]), 4);
      HexInjective(Loaded32(h, d.rdata[2..]), Loaded32(h, e.rdata[2..]), 8);
      LoadedInjective(h, d.rdata[..2], e.rdata[..2]);
      LoadedInjective(h, d.rdata[2..], e.rdata[2..]);
      assert d.rdata == d.rdata[..2] + d.rdata[2..];
      assert e.rdata == e.rdata[..2] + e.rdata[2..];
    }
  }

  /** What the host makes of the two and the four random octets. */
  function RandomLow(h: Host, r: Octets): nat
    requires |r| == RDATA_LEN
  {
    match h
    case Big => 0x100 * r[0] as int + r[1] as int
    case Little => r[0] as int + 0x100 * r[1] as int
  }

  function RandomHigh(h: Host, r: Octets): nat
    requires |r| == RDATA_LEN
  {
    match h
    case Big => 0x100_0000 * r[2] as int + 0x1_0000 * r[3] as int + 0x100 * r[4] as int + r[5] as int
    case Little => r[2] as int + 0x100 * r[3] as int + 0x1_0000 * r[4] as int + 0x100_0000 * r[5] as int
  }

  /** A field of an id: digits of this number, read from left to right. */
  ghost predicate Shows(field: Octets, v: nat) {
    AllDigits(field) && ReadHex(field, 0) == v
  }

  lemma LoadedIs(h: Host, r: Octets)
    requires |r| == RDATA_LEN
    ensures Loaded16(h, r[..2]) == RandomLow(h, r) && Loaded32(h, r[2..]) == RandomHigh(h, r)
  {
    var b := if h.Big? then r[2..] else Reversed(r[2..]);
    assert b[..2] == [b[0], b[1]] && b[2..] == [b[2], b[3]];
  }

  lemma HexShows(v: nat, width: nat)
    requires v < Limit(width)
    ensures Shows(Hex(v, width), v)
  {
    HexReadsBack(v, width);
  }

  lemma Limits()
    ensures Limit(4) == 0x1_0000 && Limit(8) == 0x1_0000_0000
  {
    assert Limit(4) == 16 * Limit(3) && Limit(3) == 16 * Limit(2) && Limit(2) == 16 * Limit(1);
    assert Limit(8) == 16 * Limit(7) && Limit(7) == 16 * Limit(6) && Limit(6) == 16 * Limit(5);
    assert Limit(5) == 16 * Limit(4);
  }

  lemma Places(h: Host, d: Draw)
    ensures var id := Format(h, d);
            && id[..8] == Hex(Low(d.micros), 8) && id[9..13] == Hex(Middle(d.micros), 4)
            && id[14..18] == Hex(High(d.micros), 4)
            && id[19..23] == Hex(Loaded16(h, d.rdata[..2]), 4) && id[24..] == Hex(Loaded32(h, d.rdata[2..]), 8)
            && id[8] == 45 && id[13] == 45 && id[18] == 45 && id[23] == 45
  {
    hide Hex, Low, Middle, High, Loaded16, Loaded32;
  }

  /**
   * The five fields of an id, each read from left to right in base 16, with a hyphen between them: the
   * low 16 bits of the time, two zeros, and the random octets as the host loads them.
   */
  lemma IdShows(h: Host, d: Draw)
    ensures var id := Format(h, d);
            && |id| == 32 && id[8] == 45 && id[13] == 45 && id[18] == 45 && id[23] == 45
            && Shows(id[..8], d.micros % 0x1_0000) && Shows(id[9..13], 0) && Shows(id[14..18], 0)
            && Shows(id[19..23], RandomLow(h, d.rdata)) && Shows(id[24..], RandomHigh(h, d.rdata))
  {
    hide Hex, Shows, Loaded16, Loaded32, Limit, RandomLow, RandomHigh;
    Places(h, d);
    Limits();
    MiddleAndHighAreZero(d.micros);
    LoadedIs(h, d.rdata);
    HexShows(Low(d.micros), 8);
    HexShows(0, 4);
    HexShows(Loaded16(h, d.rdata[..2]), 4);
    HexShows(Loaded32(h, d.rdata[2..]), 8);
  }

  /** The host's byte order, and what clock and random device supply from now on: one draw for each id. */
  datatype Supply = Supply(host: Host, source: nat -> Draw) {
    function Id(i: nat): (id: Octets)
      ensures IsName(id) && |id| == TOTAL_LEN
    {
      FormatIsName(host, source(i));
      Format(host, source(i))
    }
  }

  // ---- how many ids there are ----

  /** 16 bits of the time and 48 random ones. */
  const IDS: nat := 0x1_0000_0000_0000_0000

  /** The next `n` ids are `n` different ones. */
  ghost predicate Distinct(g: Supply, used: nat, n: nat) {
    forall i: nat, j: nat :: used <= i < j < used + n ==> g.Id(i) != g.Id(j)
  }

  /** The number that the effective bits of a draw make up, and the draw for a number. */
  function Rank(d: Draw): (r: nat)
    ensures r < IDS
  {
    d.micros % 0x1_0000 + 0x1_0000 * Value16(d.rdata[..2]) + 0x1_0000_0000 * Value32(d.rdata[2..])
  }

  function DrawOf(r: nat): Draw {
    Sample(r % 0x1_0000, Net16(r / 0x1_0000 % 0x1_0000) + Net32(r / 0x1_0000_0000 % 0x1_0000_0000))
  }

  lemma PartsOfRank(a: u16, b: u16, c: u32, x: u16, y: u16, z: u32)
    requires a + 0x1_0000 * b + 0x1_0000_0000 * c == x + 0x1_0000 * y + 0x1_0000_0000 * z
    ensures a == x && b == y && c == z
  {
  }

  /** Two draws give the same id exactly when they amount to the same number. */
  lemma RankTellsIds(h: Host, d: Draw, e: Draw)
    ensures Format(h, d) == Format(h, e) <==> Rank(d) == Rank(e)
  {
    hide Format, Value16, Value32;
    FormatInjective(h, d, e);
    if Rank(d) == Rank(e) {
      var a, b := d.rdata, e.rdata;
      PartsOfRank(d.micros % 0x1_0000, Value16(a[..2]), Value32(a[2..]),
                  e.micros % 0x1_0000, Value16(b[..2]), Value32(b[2..]));
      Value16Net(a[..2]);
      Value16Net(b[..2]);
      Value32Net(a[2..]);
      Value32Net(b[2..]);
      assert a == a[..2] + a[2..] && b == b[..2] + b[2..];
    }
  }

  lemma PartsOfNumber(r: nat)
    requires r < IDS
    ensures r == r % 0x1_0000 + 0x1_0000 * (r / 0x1_0000 % 0x1_0000)
               + 0x1_0000_0000 * (r / 0x1_0000_0000 % 0x1_0000_0000)
  {
  }

  lemma RankOfDrawOf(r: nat)
    requires r < IDS
    ensures Rank(DrawOf(r)) == r
  {
    hide Net16, Net32, Value16, Value32;
    var d := DrawOf(r);
    var middle, high := r / 0x1_0000 % 0x1_0000, r / 0x1_0000_0000 % 0x1_0000_0000;
    assert d.rdata[..2] == Net16(middle) && d.rdata[2..] == Net32(high);
    Net16Value(middle);
    Net32Value(high);
    PartsOfNumber(r);
  }

  lemma {:induction false} Pigeonhole(s: seq<int>, m: nat)
    requires forall i :: 0 <= i < |s| ==> 0 <= s[i] < m
    requires forall i, j :: 0 <= i < j < |s| ==> s[i] != s[j]
    ensures |s| <= m
  {
    if s != [] {
      assert 0 <= s[0] < m;
      if k :| 0 <= k < |s| && s[k] == m - 1 {
        Pigeonhole(s[..k] + s[k + 1..], m - 1);
      } else {
        Pigeonhole(s, m - 1);
      }
    }
  }

  /** No clock and device can supply more than 2 to the 64th different ids in a row. */
  lemma DistinctAtMost(g: Supply, used: nat, n: nat)
    requires Distinct(g, used, n)
    ensures n <= IDS
  {
    hide Format;
    var ranks := seq(n, i requires 0 <= i < n => Rank(g.source(used + i)));
    forall i, j | 0 <= i < j < n ensures ranks[i] != ranks[j] {
      assert g.Id(used + i) != g.Id(used + j);
      assert ranks[i] == Rank(g.source(used + i)) && ranks[j] == Rank(g.source(used + j));
      RankTellsIds(g.host, g.source(used + i), g.source(used + j));
    }
    forall i | 0 <= i < n ensures 0 <= ranks[i] < IDS {
      assert ranks[i] == Rank(g.source(used + i));
    }
    Pigeonhole(ranks, IDS);
  }

  /** So many are possible, on every host and whatever has been drawn before. */
  lemma DistinctExist(h: Host, used: nat, n: nat) returns (g: Supply)
    requires n <= IDS
    ensures g.host == h && Distinct(g, used, n)
  {
    hide Format, Rank, DrawOf;
    g := Supply(h, i => DrawOf(i % IDS));
    forall i: nat, j: nat | used <= i < j < used + n ensures g.Id(i) != g.Id(j) {
      RankTellsIds(h, g.source(i), g.source(j));
      RankOfDrawOf(i % IDS);
      RankOfDrawOf(j % IDS);
      OneTurn(i, j);
    }
  }

  lemma OneTurn(i: nat, j: nat)
    requires i < j < i + IDS
    ensures i % IDS != j % IDS
  {
  }

  /** The generator: every id uses up one draw. */
  class Generator {
    const supply: Supply
    var drawn: nat

    constructor (supply: Supply)
      ensures this.supply == supply && drawn == 0
    {
      this.supply, drawn := supply, 0;
    }

    /** The id the next call returns. */
    function Next(): (id: Octets)
      reads this
      ensures IsName(id)
    {
      supply.Id(drawn)
    }

    method Get() returns (id: Octets)
      modifies this
      ensures id == old(Next()) && drawn == old(drawn) + 1
      ensures var d := supply.source(old(drawn));
              && |id| == 32 && id[8] == 45 && id[13] == 45 && id[18] == 45 && id[23] == 45
              && Shows(id[..8], d.micros % 0x1_0000) && Shows(id[9..13], 0) && Shows(id[14..18], 0)
              && Shows(id[19..23], RandomLow(supply.host, d.rdata)) && Shows(id[24..], RandomHigh(supply.host, d.rdata))
    {
      hide Shows, Hex;
      IdShows(supply.host, supply.source(drawn));
      id := Format(supply.host, supply.source(drawn));
      drawn := drawn + 1;
    }
  }
}
