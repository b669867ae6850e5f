/** A connected socket as one process sees it. */
module Connections {
  import opened Bytes
  import opened Endian
  import P = Protocol

  /** Octets in a header, which has no magic octet. */
  const FRAME_HEAD := 8

  /** One end of a connection: what arrives at it, and what it has sent. */
  class Stream {
    const input: Octets
    var at: nat
    var output: Octets
    var open: bool

    ghost predicate Valid()
      reads this
    {
      at <= |input|
    }

    constructor (input: Octets)
      ensures Valid() && this.input == input && at == 0 && output == [] && open
    {
      this.input, at, output, open := input, 0, [], true;
    }

    /** MSG_WAITALL: all `n` octets, or an I/O error at the end of the stream. */
    method Read(n: nat) returns (buf: Octets, ok: bool)
      requires Valid()
      modifies this`at
      ensures Valid() && ok == (open && old(at) + n <= |input|)
      ensures ok ==> buf == input[old(at)..old(at) + n] && at == old(at) + n
    {
      if !open || |input| < at + n {
        at := |input|;
        return [], false;
      }
      buf, ok := input[at..at + n], true;
      at := at + n;
    }

    method Write(data: Octets)
      requires open
      modifies this`output
      ensures output == old(output) + data
    {
      output := output + data;
    }

    method Close()
      modifies this`open
      ensures !open
    {
      open := false;
    }
  }

  /** The header of the next frame, or an I/O error, or a header that is not one. */
  method ReadHeader(stream: Stream, host: Host, head: P.Data) returns (ok: bool, err: P.Outcome)
    requires stream.Valid() && head.Valid() && head.Now() == P.Default(P.Header)
    requires stream.open && stream.at + FRAME_HEAD <= |stream.input| ==> At16(stream.input, stream.at) != 0
    modifies stream`at, head
    ensures stream.Valid() && ok == (stream.open && old(stream.at) + FRAME_HEAD <= |stream.input|)
    ensures ok ==>
      var typ := At16(stream.input, old(stream.at));
      && stream.at == old(stream.at) + FRAME_HEAD
      && (err.Fails() <==> typ != P.TypeId(P.Header)) && (err.Fails() ==> err.msg == P.WRONG_TYPE)
      && (!err.Fails() ==>
            && head.length == At32(stream.input, old(stream.at) + 2)
            && head.num == At16(stream.input, old(stream.at) + 6) && head.num < 0x1_0000)
  {
    ghost var at := stream.at;
    var tmp;
    tmp, ok := stream.Read(FRAME_HEAD);
    if !ok {
      return false, P.Outcome(0, []);
    }
    assert tmp[0..2] == stream.input[at..at + 2];
    assert tmp[2..6] == stream.input[at + 2..at + 6];
    assert tmp[6..8] == stream.input[at + 6..at + 8];
    var c := new Cursor(host, tmp);
    err := P.GetType(c, head);
  }
}
