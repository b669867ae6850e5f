/** Delimited lines: the one-shot meaning of getline, and the id lists built from it. */
module Lines {
  import opened Bytes

  /** Terminates every id in a name file and the name in an id file. */
  const SEPARATOR: byte := NEWLINE

  /** First position at or after `from` holding `d`, or the length of `s`. */
  function IndexOf(s: Octets, d: byte, from: nat): (k: nat)
    requires from <= |s|
    ensures from <= k <= |s|
    ensures forall i :: from <= i < k ==> s[i] != d
    ensures k < |s| ==> s[k] == d
    decreases |s| - from
  {
    if from == |s| || s[from] == d then from else IndexOf(s, d, from + 1)
  }

  /** One line: its text, the cursor after it, and whether there was one. */
  datatype Line = Line(text: Octets, next: nat, got: bool)

  /** The line that starts at `pos`, without its delimiter. */
  function NextLine(s: Octets, pos: nat, d: byte): (l: Line)
    ensures l.got <==> pos < |s|
    ensures l.got ==> pos < l.next <= |s|
  {
    if |s| <= pos then Line([], pos, false)
    else
      var k := IndexOf(s, d, pos);
      Line(s[pos..k], if k < |s| then k + 1 else k, true)
  }

  /** All lines from `pos` on, as a loop over getline collects them. */
  function Drain(s: Octets, pos: nat, d: byte): seq<Octets>
    decreases |s| - pos
  {
    var l := NextLine(s, pos, d);
    if l.got then [l.text] + Drain(s, l.next, d) else []
  }

  /** Each entry followed by the delimiter. */
  function Join(ls: seq<Octets>, d: byte): Octets {
    if ls == [] then [] else ls[0] + [d] + Join(ls[1..], d)
  }

  ghost predicate AllFree(ls: seq<Octets>, d: byte) {
    forall i :: 0 <= i < |ls| ==> Free(ls[i], d)
  }

  lemma IndexOfUnique(s: Octets, d: byte, from: nat, k: nat)
    requires from <= k <= |s|
    requires forall i :: from <= i < k ==> s[i] != d
    requires k < |s| ==> s[k] == d
    ensures IndexOf(s, d, from) == k
  {
  }

  lemma NextLineSkips(p: Octets, s: Octets, pos: nat, d: byte)
    ensures NextLine(p + s, |p| + pos, d) == var l := NextLine(s, pos, d); l.(next := |p| + l.next)
  {
    if pos < |s| {
      var k := IndexOf(s, d, pos);
      var whole := p + s;
      forall i | |p| + pos <= i < |p| + k ensures whole[i] != d {
        assert whole[i] == s[i - |p|];
      }
      IndexOfUnique(whole, d, |p| + pos, |p| + k);
      assert whole[|p| + pos..|p| + k] == s[pos..k];
    }
  }

  /** A drain that starts after `p` does not see `p`. */
  lemma {:induction false} DrainSkips(p: Octets, s: Octets, pos: nat, d: byte)
    ensures Drain(p + s, |p| + pos, d) == Drain(s, pos, d)
    decreases |s| - pos
  {
    NextLineSkips(p, s, pos, d);
    if pos < |s| {
      DrainSkips(p, s, NextLine(s, pos, d).next, d);
    }
  }

  lemma {:induction false} JoinAppends(a: seq<Octets>, b: seq<Octets>, d: byte)
    ensures Join(a + b, d) == Join(a, d) + Join(b, d)
  {
    if a == [] {
      assert a + b == b;
    } else {
      assert (a + b)[1..] == a[1..] + b;
      JoinAppends(a[1..], b, d);
    }
  }

  lemma JoinOne(a: seq<Octets>, x: Octets, d: byte)
    ensures Join(a + [x], d) == Join(a, d) + x + [d]
  {
    JoinAppends(a, [x], d);
    assert [x][1..] == [];
    assert Join([x], d) == x + [d] + [];
  }

  lemma DrainCons(x: Octets, rest: Octets, d: byte)
    requires Free(x, d)
    ensures Drain(x + [d] + rest, 0, d) == [x] + Drain(rest, 0, d)
  {
    var s := x + [d] + rest;
    IndexOfUnique(s, d, 0, |x|);
    assert s[0..|x|] == x;
    DrainSkips(x + [d], rest, 0, d);
  }

  lemma DrainTail(tail: Octets, d: byte)
    requires Free(tail, d)
    ensures Drain(tail, 0, d) == if tail == [] then [] else [tail]
  {
    if tail != [] {
      IndexOfUnique(tail, d, 0, |tail|);
      assert tail[0..|tail|] == tail;
      assert Drain(tail, |tail|, d) == [];
    }
  }

  /** Printed entries, then an unterminated tail: the loop reads back exactly those. */
  lemma {:induction false} DrainUndoesJoin(ls: seq<Octets>, tail: Octets, d: byte)
    requires AllFree(ls, d) && Free(tail, d)
    ensures Drain(Join(ls, d) + tail, 0, d) == if tail == [] then ls else ls + [tail]
  {
    if ls == [] {
      assert Join(ls, d) + tail == tail;
      DrainTail(tail, d);
    } else {
      var x, rest := ls[0], Join(ls[1..], d) + tail;
      assert Free(x, d) && AllFree(ls[1..], d);
      hide Free, AllFree, NextLine;
      assert Join(ls, d) + tail == x + [d] + rest;
      DrainCons(x, rest, d);
      DrainUndoesJoin(ls[1..], tail, d);
      assert [x] + ls[1..] == ls;
      assert [x] + (ls[1..] + [tail]) == ls + [tail];
    }
  }

  lemma JoinCons(x: Octets, ls: seq<Octets>, d: byte)
    ensures Join([x] + ls, d) == x + [d] + Join(ls, d)
    ensures Free(x, d) && AllFree(ls, d) ==> AllFree([x] + ls, d)
  {
    assert ([x] + ls)[1..] == ls;
  }

  /** The other direction: a fully terminated file is the join of its lines. */
  lemma {:induction false} JoinUndoesDrain(s: Octets, d: byte)
    requires s == [] || s[|s| - 1] == d
    ensures Join(Drain(s, 0, d), d) == s
    ensures AllFree(Drain(s, 0, d), d)
    decreases |s|
  {
    if s != [] {
      var k := IndexOf(s, d, 0);
      assert k < |s| && Free(s[..k], d);
      hide Free, AllFree, NextLine;
      var x, rest := s[..k], s[k + 1..];
      assert s == x + [d] + rest;
      DrainCons(x, rest, d);
      JoinUndoesDrain(rest, d);
      JoinCons(x, Drain(rest, 0, d), d);
    }
  }

  /** Joined newline-free lists are equal only when the lists are. */
  lemma JoinInjective(a: seq<Octets>, b: seq<Octets>, d: byte)
    requires AllFree(a, d) && AllFree(b, d) && Join(a, d) == Join(b, d)
    ensures a == b
  {
    DrainUndoesJoin(a, [], d);
    DrainUndoesJoin(b, [], d);
    assert Join(a, d) + [] == Join(a, d);
    assert Join(b, d) + [] == Join(b, d);
  }

  /** The entries of `ls` other than `x`, in order. */
  function Without(ls: seq<Octets>, x: Octets): (r: seq<Octets>)
    ensures x !in r
    ensures forall y :: y in r <==> y in ls && y != x
    ensures |r| <= |ls|
    ensures |r| == |ls| <==> x !in ls
  {
    if ls == [] then []
    else if ls[0] == x then Without(ls[1..], x)
    else [ls[0]] + Without(ls[1..], x)
  }

  ghost predicate Distinct(ls: seq<Octets>) {
    forall i, j :: 0 <= i < j < |ls| ==> ls[i] != ls[j]
  }

  lemma {:induction false} WithoutKeepsDistinct(ls: seq<Octets>, x: Octets)
    requires Distinct(ls)
    ensures Distinct(Without(ls, x))
  {
    if ls != [] {
      WithoutKeepsDistinct(ls[1..], x);
      var rest := Without(ls[1..], x);
      assert ls[0] !in rest by {
        assert forall j :: 0 <= j < |ls[1..]| ==> ls[1..][j] == ls[j + 1];
      }
      if ls[0] != x {
        var r := Without(ls, x);
        assert forall j :: 1 <= j < |r| ==> r[j] == rest[j - 1];
      }
    }
  }

  lemma {:induction false} WithoutAppends(a: seq<Octets>, b: seq<Octets>, x: Octets)
    ensures Without(a + b, x) == Without(a, x) + Without(b, x)
  {
    if a == [] {
      assert a + b == b;
    } else {
      assert (a + b)[1..] == a[1..] + b;
      WithoutAppends(a[1..], b, x);
    }
  }

  lemma {:induction false} WithoutAbsent(ls: seq<Octets>, x: Octets)
    requires x !in ls
    ensures Without(ls, x) == ls
  {
    if ls != [] {
      WithoutAbsent(ls[1..], x);
    }
  }
}
