/** A header and an error, sent as one frame. */
module Messages {
  import opened Bytes
  import opened Endian
  import opened Protocol

  /** The frame that carries an error message. */
  ghost function ErrorFrame(msg: Octets): Octets {
    Encode(HeaderOf(ERROR, HEADER_SIZE + |Cut(msg)|)) + Encode(ErrorOf(msg))
  }

  class ErrorMessage {
    const head: Data
    const err: Data

    ghost predicate Valid()
      reads this, head, err
    {
      head != err && head.Valid() && err.Valid() && head.kind == Header && err.kind == Error
    }

    constructor (msg: Octets)
      ensures Valid() && fresh(head) && fresh(err)
      ensures head.Now() == HeaderOf(ERROR, HEADER_SIZE + |Cut(msg)|) && err.Now() == ErrorOf(msg)
    {
      var head := new Data(HeaderOf(ERROR, 0));
      var err := new Data(ErrorOf(msg));
      head.length := HEADER_SIZE + err.length;
      this.head, this.err := head, err;
    }

    method To(out: Out)
      requires Valid() && Printable(head.Now()) && Printable(err.Now())
      modifies out
      ensures out.bytes == old(out.bytes) + (Encode(head.Now()) + Encode(err.Now()))
    {
      hide Encode, Printable;
      ghost var was := out.bytes;
      head.To(out);
      err.To(out);
      assert was + Encode(head.Now()) + Encode(err.Now()) == was + (Encode(head.Now()) + Encode(err.Now()));
    }

    /** A header is never rejected; the error may be. */
    method From(c: Cursor) returns (ok: bool)
      requires Valid() && Readable(Header, c.buf, c.at) && Readable(Error, c.buf, Decode(head.Now(), c.buf, c.at).at)
      modifies head, err, c
      ensures Valid()
      ensures var h := Decode(old(head.Now()), c.buf, old(c.at));
              && head.Now() == h.f
              && if !h.ok then !ok && c.at == h.at && err.Now() == old(err.Now())
                 else Decoded(ok, err.Now(), c.at) == Decode(old(err.Now()), c.buf, h.at)
    {
      hide Decode, Readable;
      ok := head.From(c);
      if ok {
        ok := err.From(c);
      }
    }
  }

  /** messages::error(msg).to(out) */
  method Complain(msg: Octets, out: Out)
    modifies out
    ensures out.bytes == old(out.bytes) + ErrorFrame(msg)
  {
    var message := new ErrorMessage(msg);
    message.To(out);
  }

  /** Printed and read back: the message arrives, NUL-free and cut to 255 octets. */
  lemma ErrorFrameReadsBack(msg: Octets, s: Octets, g: Fields, h: Fields)
    requires Fit(g) && g.kind == Header && Fit(h) && h.kind == Error
    ensures var buf := ErrorFrame(msg) + s;
            && Readable(Header, buf, 0)
            && Decode(g, buf, 0) == Decoded(true, HeaderOf(ERROR, HEADER_SIZE + |Cut(msg)|), 8)
            && Readable(Error, buf, 8) && Decode(h, buf, 8) == Decoded(true, ErrorOf(msg), |ErrorFrame(msg)|)
    ensures |ErrorFrame(msg)| == 8 + HEADER_SIZE + |Cut(msg)|
  {
    hide Encode, Decode, Readable;
    var head, err := HeaderOf(ERROR, HEADER_SIZE + |Cut(msg)|), ErrorOf(msg);
    EncodedSize(head);
    EncodedSize(err);
    var buf := ErrorFrame(msg) + s;
    assert buf == [] + Encode(head) + (Encode(err) + s);
    DecodeUndoesEncode([], head, Encode(err) + s, g);
    DecodeUndoesEncode(Encode(head), err, s, h);
  }
}
