/** The locked file stream. */
module LockedStream {
  import opened Bytes
  import opened Lines
  import opened Paths
  import opened Posix

  class FlStream {
    var fd: int
    var ltype: LockType
    var err: int

    /** Default construction: no descriptor, and an error field nobody has set. */
    constructor Unopened()
      ensures fd == -1
    {
      fd, ltype, err := -1, NoLock, *;
    }

    constructor (k: Kernel, path: Path, mode: Mode)
      requires k.Valid()
      modifies k
      ensures k.Valid()
      ensures path !in old(k.links) && !mode.creat ==> fd == -1 && fd !in k.fds && err == ENOENT && unchanged(k)
      ensures path in old(k.links) || mode.creat ==>
        && err == 0 && fd !in old(k.fds) && LowestFree(old(k.fds), fd)
        && path in k.links && k.fds == old(k.fds)[fd := Desc(k.links[path], 0, mode)] && k.locks == old(k.locks)
      ensures path in old(k.links) ==> k.links == old(k.links)
      ensures path !in old(k.links) && mode.creat ==>
        && k.links == old(k.links)[path := k.links[path]]
        && forall p :: p in old(k.links) ==> old(k.links)[p] != k.links[path]
      ensures k.Disk() == if (path in old(k.links) && mode.trunc) || (path !in old(k.links) && mode.creat)
                          then old(k.Disk())[path := []] else old(k.Disk())
    {
      fd, ltype, err := -1, NoLock, 0;
      new;
      Open(k, path, mode);
    }

    predicate IsOpen(k: Kernel)
      reads this, k
    {
      fd in k.fds
    }

    predicate Fail()
      reads this
    {
      err != 0
    }

    method Open(k: Kernel, path: Path, mode: Mode)
      requires k.Valid() && !IsOpen(k)
      modifies this, k
      ensures k.Valid()
      ensures path !in old(k.links) && !mode.creat ==> fd == -1 && fd !in k.fds && err == ENOENT && unchanged(k)
      ensures path in old(k.links) || mode.creat ==>
        && err == 0 && fd !in old(k.fds) && LowestFree(old(k.fds), fd)
        && path in k.links && k.fds == old(k.fds)[fd := Desc(k.links[path], 0, mode)] && k.locks == old(k.locks)
      ensures path in old(k.links) ==> k.links == old(k.links)
      ensures path !in old(k.links) && mode.creat ==>
        && k.links == old(k.links)[path := k.links[path]]
        && forall p :: p in old(k.links) ==> old(k.links)[p] != k.links[path]
      ensures k.Disk() == if (path in old(k.links) && mode.trunc) || (path !in old(k.links) && mode.creat)
                          then old(k.Disk())[path := []] else old(k.Disk())
    {
      var errno;
      fd, errno := k.Open(path, mode);
      err := errno;
    }

    /**
     * Unlock, then close unless that failed. The number stays in `fd`; a second close finds it
     * free and does nothing, unless the number was given out again in between.
     */
    method Close(k: Kernel)
      requires k.Valid()
      modifies this, k`fds, k`locks
      ensures k.Valid() && fd == old(fd)
      ensures fd !in old(k.fds) ==> k.fds == old(k.fds) && k.locks == old(k.locks) && err == EBADF
      ensures fd in old(k.fds) ==>
        && err == 0 && k.fds == old(k.fds) - {fd}
        && k.locks == old(k.locks) - {old(k.fds)[fd].ino}
    {
      Unlock(k);
      if Fail() {
        return;
      }
      err := k.Close(fd);
    }

    /** Move assignment: close what is here, take over the descriptor, leave the other without one. */
    method MoveFrom(k: Kernel, other: FlStream)
      requires k.Valid() && other != this
      modifies this, other, k`fds, k`locks
      ensures k.Valid()
      ensures fd == old(other.fd) && err == old(other.err) && other.fd == -1
      ensures old(fd) !in old(k.fds) ==> k.fds == old(k.fds) && k.locks == old(k.locks)
      ensures old(fd) in old(k.fds) ==>
        k.fds == old(k.fds) - {old(fd)} && k.locks == old(k.locks) - {old(k.fds)[old(fd)].ino}
    {
      Close(k);
      fd, ltype, err := other.fd, other.ltype, other.err;
      other.fd := -1;
    }

    method Lock(k: Kernel, l: LockType)
      requires k.Valid() && fd in k.fds && l != NoLock
      requires (l == ReadLock ==> k.fds[fd].mode.read) && (l == WriteLock ==> k.fds[fd].mode.write)
      modifies this, k`locks
      ensures k.Valid() && fd == old(fd) && err == 0
      ensures k.locks == old(k.locks)[k.fds[fd].ino := l]
    {
      ltype := l;
      err := k.SetLock(fd, ltype);
    }

    method Unlock(k: Kernel)
      requires k.Valid()
      modifies this, k`locks
      ensures k.Valid() && fd == old(fd)
      ensures fd !in k.fds ==> err == EBADF && k.locks == old(k.locks)
      ensures fd in k.fds ==> err == 0 && k.locks == old(k.locks) - {k.fds[fd].ino}
    {
      ltype := NoLock;
      err := k.SetLock(fd, ltype);
    }

    /** operator<<: one write of the whole value. */
    method Put(k: Kernel, val: Octets)
      requires k.Valid() && fd in k.fds && k.fds[fd].mode.write
      modifies this, k`fds, k`bytes
      ensures k.Valid() && fd == old(fd) && err == 0
      ensures var d := old(k.fds)[fd];
              var at := if d.mode.append then |old(k.bytes)[d.ino]| else d.pos;
              && k.bytes == old(k.bytes)[d.ino := WriteAt(old(k.bytes)[d.ino], at, val)]
              && k.fds == old(k.fds)[fd := d.(pos := at + |val|)]
    {
      err := k.Write(fd, val);
    }

    method SeekToBegin(k: Kernel)
      requires k.Valid() && fd in k.fds
      modifies k`fds
      ensures k.Valid() && k.fds == old(k.fds)[fd := old(k.fds)[fd].(pos := 0)]
    {
      k.SeekTo(fd, 0);
    }

    /**
     * Reads chunk by chunk, over-reads, and seeks back to just after the delimiter. Whatever
     * the chunk size, the outcome is the one-shot meaning of a line.
     */
    method GetLine(k: Kernel, delim: byte, chunkSize: nat) returns (buf: Octets, got: bool)
      requires k.Valid() && fd in k.fds && k.fds[fd].mode.read && 0 < chunkSize
      modifies this, k`fds
      ensures k.Valid() && fd == old(fd) && err == 0
      ensures var d := old(k.fds)[fd];
              var l := NextLine(k.bytes[d.ino], d.pos, delim);
              && got == l.got && buf == l.text
              && k.fds == old(k.fds)[fd := d.(pos := l.next)]
    {
      hide IndexOf, NextLine, ReadSoFar, Free, Linkage;
      ghost var f := fd;
      ghost var d := k.fds[f];
      ghost var content := k.bytes[d.ino];
      ghost var start := d.pos;
      ghost var cur := start;
      buf := [];
      var passes := 0;
      while true
        invariant k.Valid() && fd == old(fd)
        invariant k.fds == old(k.fds)[fd := d.(pos := cur)]
        invariant passes != 0 ==> start < cur && ReadSoFar(content, delim, start, cur, buf)
        invariant passes == 0 ==> start == cur && buf == []
        decreases |content| - cur
      {
        var chunk, errno := k.Read(fd, chunkSize);
        err := errno;
        if Fail() {
          return buf, false;
        }
        if |chunk| == 0 {
          if passes != 0 {
            NothingMore(content, delim, start, cur, buf);
          } else {
            NothingAtAll(content, delim, start);
          }
          return buf, passes != 0;
        }
        if passes == 0 {
          NothingYet(content, delim, start);
        }
        var i := Scan(chunk, delim);
        if i < |chunk| {
          FoundInChunk(content, delim, start, cur, i, buf, chunk);
          buf := buf + chunk[..i];
          var fromStart := k.fds[fd].pos;
          k.SeekTo(fd, fromStart - |chunk| + i + 1);
          return buf, true;
        }
        GrowsByChunk(content, delim, start, cur, buf, chunk);
        buf := buf + chunk;
        cur := cur + |chunk|;
        if |chunk| < chunkSize {
          EndOfFile(content, delim, start, buf);
          return buf, true;
        }
        passes := passes + 1;
      }
    }
  }

  /** The inner loop: the first delimiter in the chunk, or its length. */
  method Scan(chunk: Octets, delim: byte) returns (i: nat)
    ensures i <= |chunk| && Free(chunk[..i], delim) && (i < |chunk| ==> chunk[i] == delim)
  {
    i := 0;
    while i < |chunk| && chunk[i] != delim
      invariant i <= |chunk| && Free(chunk[..i], delim)
    {
      i := i + 1;
    }
  }

  /** What has been read from `start` up to `cur`, without a delimiter so far. */
  ghost predicate ReadSoFar(content: Octets, delim: byte, start: nat, cur: nat, buf: Octets) {
    start <= cur <= |content| && buf == content[start..cur] && Free(buf, delim)
  }

  lemma NothingYet(content: Octets, delim: byte, start: nat)
    requires start <= |content|
    ensures ReadSoFar(content, delim, start, start, [])
  {
  }

  lemma NothingAtAll(content: Octets, delim: byte, start: nat)
    requires |content| <= start
    ensures NextLine(content, start, delim) == Line([], start, false)
  {
  }

  lemma NothingMore(content: Octets, delim: byte, start: nat, cur: nat, buf: Octets)
    requires ReadSoFar(content, delim, start, cur, buf) && start < cur && |content| <= cur
    ensures cur == |content| && NextLine(content, start, delim) == Line(buf, cur, true)
  {
    hide NextLine;
    EndOfFile(content, delim, start, buf);
  }

  lemma GrowsByChunk(content: Octets, delim: byte, start: nat, cur: nat, buf: Octets, chunk: Octets)
    requires ReadSoFar(content, delim, start, cur, buf)
    requires cur + |chunk| <= |content| && chunk == content[cur..cur + |chunk|] && Free(chunk, delim)
    ensures ReadSoFar(content, delim, start, cur + |chunk|, buf + chunk)
  {
  }

  lemma FoundInChunk(content: Octets, delim: byte, start: nat, cur: nat, i: nat, buf: Octets, chunk: Octets)
    requires ReadSoFar(content, delim, start, cur, buf)
    requires i < |chunk| && cur + |chunk| <= |content| && chunk == content[cur..cur + |chunk|]
    requires chunk[i] == delim && Free(chunk[..i], delim)
    ensures NextLine(content, start, delim) == Line(buf + chunk[..i], cur + i + 1, true)
  {
    assert chunk[..i] == content[cur..cur + i];
    GrowsByChunk(content, delim, start, cur, buf, chunk[..i]);
    var text := buf + chunk[..i];
    forall j | start <= j < cur + i ensures content[j] != delim {
      assert content[j] == text[j - start];
    }
    IndexOfUnique(content, delim, start, cur + i);
  }

  lemma EndOfFile(content: Octets, delim: byte, start: nat, buf: Octets)
    requires ReadSoFar(content, delim, start, |content|, buf) && start < |content|
    ensures NextLine(content, start, delim) == Line(buf, |content|, true)
  {
    forall j | start <= j < |content| ensures content[j] != delim {
      assert content[j] == buf[j - start];
    }
    IndexOfUnique(content, delim, start, |content|);
  }
}
