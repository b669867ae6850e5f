/**
 * The three directories of a volume. A path is a directory and one component;
 * for legal components the concatenated strings of the source are as distinct as
 * these values.
 */
module Paths {
  import opened Bytes

  datatype Path =
    | IdFile(id: Octets)      // map/by-id/<id>
    | NameFile(name: Octets)  // map/by-name/<name>
    | DataFile(id: Octets)    // data/<id>

  /** Content after a write of `data` at offset `pos`; a gap reads as zeros. */
  function WriteAt(content: Octets, pos: nat, data: Octets): (r: Octets)
    ensures pos <= |content| ==> |r| == if |content| < pos + |data| then pos + |data| else |content|
  {
    if data == [] then content
    else if |content| < pos then content + seq(pos - |content|, _ => NUL) + data
    else if |content| <= pos + |data| then content[..pos] + data
    else content[..pos] + data + content[pos + |data|..]
  }

  /** Octet by octet: the data where they were written, what was there before elsewhere, and zeros in a gap. */
  lemma WriteAtIs(content: Octets, pos: nat, data: Octets, i: nat)
    requires data != []
    ensures var r := WriteAt(content, pos, data);
            && |r| == (if pos + |data| < |content| then |content| else pos + |data|)
            && (i < |r| ==>
                  r[i] == if pos <= i < pos + |data| then data[i - pos] else if i < |content| then content[i] else 0)
  {
  }
}
