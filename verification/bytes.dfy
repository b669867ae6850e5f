/** Octets, as the kernel, the files and the wire see them. */
module Bytes {
  type byte = b: int | 0 <= b < 0x100

  type Octets = seq<byte>

  const NUL: byte := 0
  const NEWLINE: byte := 10
  const DOT: byte := 46
  const SLASH: byte := 47

  ghost predicate Free(s: Octets, b: byte) {
    forall i :: 0 <= i < |s| ==> s[i] != b
  }

  /** The octets of an ASCII literal. */
  function Ascii(s: string): (r: Octets)
    requires forall i :: 0 <= i < |s| ==> 0 < s[i] as int < 0x80
    ensures |r| == |s|
    ensures Free(r, NUL)
  {
    seq(|s|, i requires 0 <= i < |s| => s[i] as int)
  }

  /** What a C function sees of a buffer: the octets before the first NUL. */
  function CString(s: Octets): (r: Octets)
    ensures r <= s && Free(r, NUL)
    ensures |r| < |s| ==> s[|r|] == NUL
  {
    if s == [] || s[0] == NUL then [] else [s[0]] + CString(s[1..])
  }

  lemma {:induction false} CStringOfNulFree(s: Octets)
    requires Free(s, NUL)
    ensures CString(s) == s
  {
    if s != [] {
      CStringOfNulFree(s[1..]);
    }
  }

  /**
   * A name that can stand as the last component of a path: non-empty, within the
   * file system's limit, no slash, no NUL, and neither of the two dot entries.
   */
  ghost predicate IsComponent(s: Octets) {
    && 0 < |s| <= 255
    && Free(s, SLASH) && Free(s, NUL)
    && s != [DOT] && s != [DOT, DOT]
  }

  /** A component that also survives being stored as one line of a file. */
  ghost predicate IsName(s: Octets) {
    IsComponent(s) && Free(s, NEWLINE)
  }

  /** Pieces put together in order. */
  function Flat(bs: seq<Octets>): Octets {
    if bs == [] then [] else bs[0] + Flat(bs[1..])
  }

  lemma {:induction false} FlatAppends(bs: seq<Octets>, b: Octets)
    ensures Flat(bs + [b]) == Flat(bs) + b
  {
    if bs == [] {
      assert bs + [b] == [b] && [b][1..] == [];
      assert b + [] == b;
    } else {
      assert (bs + [b])[1..] == bs[1..] + [b];
      FlatAppends(bs[1..], b);
    }
  }
}
