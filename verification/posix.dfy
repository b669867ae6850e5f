/**
 * The part of the kernel that one process sees: inodes, directory entries, its descriptor
 * table with lowest-free allocation, and its own advisory locks.
 */
module Posix {
  import opened Bytes
  import opened Paths

  type Ino = nat

  const ENOENT := 2
  const EBADF := 9
  const EINVAL := 22

  datatype Mode = Mode(read: bool, write: bool, append: bool, creat: bool, trunc: bool)

  const RDONLY := Mode(true, false, false, false, false)
  const WRONLY := Mode(false, true, false, false, false)
  const RDWR := Mode(true, true, false, false, false)

  /** An open file description. */
  datatype Desc = Desc(ino: Ino, pos: nat, mode: Mode)

  datatype LockType = ReadLock | WriteLock | NoLock

  ghost predicate LowestFree(fds: map<int, Desc>, fd: int) {
    0 <= fd && fd !in fds && forall g :: 0 <= g < fd ==> g in fds
  }

  ghost predicate Linkage(bytes: map<Ino, Octets>, links: map<Path, Ino>) {
    && (forall p :: p in links ==> links[p] in bytes)
    && (forall p, q :: p in links && q in links && links[p] == links[q] ==> p == q)
  }

  ghost function ImageOf(bytes: map<Ino, Octets>, links: map<Path, Ino>): map<Path, Octets>
    requires Linkage(bytes, links)
  {
    map p | p in links :: bytes[links[p]]
  }

  lemma ImageStored(bytes: map<Ino, Octets>, links: map<Path, Ino>, path: Path, content: Octets)
    requires Linkage(bytes, links) && path in links
    ensures Linkage(bytes[links[path] := content], links)
    ensures ImageOf(bytes[links[path] := content], links) == ImageOf(bytes, links)[path := content]
  {
  }

  lemma ImageLinked(bytes: map<Ino, Octets>, links: map<Path, Ino>, path: Path, i: Ino, content: Octets)
    requires Linkage(bytes, links) && path !in links && i !in bytes
    ensures Linkage(bytes[i := content], links[path := i])
    ensures ImageOf(bytes[i := content], links[path := i]) == ImageOf(bytes, links)[path := content]
  {
  }

  lemma ImageUnlinked(bytes: map<Ino, Octets>, links: map<Path, Ino>, path: Path)
    requires Linkage(bytes, links)
    ensures Linkage(bytes, links - {path})
    ensures ImageOf(bytes, links - {path}) == ImageOf(bytes, links) - {path}
  {
  }

  class Kernel {
    var bytes: map<Ino, Octets>
    var links: map<Path, Ino>
    var next: Ino
    var fds: map<int, Desc>
    var locks: map<Ino, LockType>

    ghost predicate Valid()
      reads this
      ensures Valid() ==> Linkage(bytes, links)
    {
      && (forall i :: i in bytes ==> i < next)
      && Linkage(bytes, links)
      && (forall f :: f in fds ==> 0 <= f && fds[f].ino in bytes)
    }

    /** What the directories and files hold. */
    ghost function Disk(): (d: map<Path, Octets>)
      reads `bytes, `links
      requires Linkage(bytes, links)
      ensures forall p :: p in d <==> p in links
    {
      ImageOf(bytes, links)
    }

    constructor ()
      ensures Valid() && links == map[] && fds == map[] && locks == map[] && Disk() == map[]
    {
      bytes, links, next, fds, locks := map[], map[], 0, map[], map[];
    }

    method FreeDescriptor() returns (fd: int)
      ensures LowestFree(fds, fd)
    {
      fd := 0;
      ghost var above := set f | f in fds && 0 <= f;
      while fd in fds
        invariant 0 <= fd && forall g :: 0 <= g < fd ==> g in fds
        invariant above == set f | f in fds && fd <= f
        decreases above
      {
        above := above - {fd};
        fd := fd + 1;
      }
    }

    method Open(path: Path, mode: Mode) returns (fd: int, errno: int)
      requires Valid()
      modifies this
      ensures Valid()
      ensures path !in old(links) && !mode.creat ==> fd == -1 && errno == ENOENT && unchanged(this)
      ensures path in old(links) || mode.creat ==>
        && errno == 0 && LowestFree(old(fds), fd)
        && path in links && fds == old(fds)[fd := Desc(links[path], 0, mode)] && locks == old(locks)
      ensures path in old(links) ==>
        && links == old(links) && next == old(next)
        && bytes == if mode.trunc then old(bytes)[links[path] := []] else old(bytes)
      ensures path !in old(links) && mode.creat ==>
        links == old(links)[path := old(next)] && next == old(next) + 1 && bytes == old(bytes)[old(next) := []]
      ensures Disk() == if (path in old(links) && mode.trunc) || (path !in old(links) && mode.creat)
                        then old(Disk())[path := []] else old(Disk())
    {
      if path !in links && !mode.creat {
        return -1, ENOENT;
      }
      if path !in links {
        ImageLinked(bytes, links, path, next, []);
        links, bytes, next := links[path := next], bytes[next := []], next + 1;
      } else if mode.trunc {
        ImageStored(bytes, links, path, []);
        bytes := bytes[links[path] := []];
      }
      fd := FreeDescriptor();
      fds := fds[fd := Desc(links[path], 0, mode)];
      errno := 0;
    }

    /** Closing any descriptor of a file gives up the process's locks on it. */
    method Close(fd: int) returns (errno: int)
      requires Valid()
      modifies this`fds, this`locks
      ensures Valid()
      ensures fd !in old(fds) ==> errno == EBADF && fds == old(fds) && locks == old(locks)
      ensures fd in old(fds) ==> errno == 0 && fds == old(fds) - {fd} && locks == old(locks) - {old(fds)[fd].ino}
    {
      if fd !in fds {
        return EBADF;
      }
      locks := locks - {fds[fd].ino};
      fds := fds - {fd};
      errno := 0;
    }

    /** Reads are short only at the end of the file. */
    method Read(fd: int, n: nat) returns (buf: Octets, errno: int)
      requires Valid()
      modifies this`fds
      ensures Valid()
      ensures fd !in old(fds) || !old(fds)[fd].mode.read ==> errno == EBADF && fds == old(fds)
      ensures fd in old(fds) && old(fds)[fd].mode.read ==>
        var d := old(fds)[fd];
        var content := bytes[d.ino];
        && errno == 0
        && buf == (if |content| <= d.pos then []
                   else if |content| < d.pos + n then content[d.pos..]
                   else content[d.pos..d.pos + n])
        && fds == old(fds)[fd := d.(pos := d.pos + |buf|)]
    {
      if fd !in fds || !fds[fd].mode.read {
        return [], EBADF;
      }
      var d := fds[fd];
      var content := bytes[d.ino];
      buf := if |content| <= d.pos then []
             else if |content| < d.pos + n then content[d.pos..]
             else content[d.pos..d.pos + n];
      fds := fds[fd := d.(pos := d.pos + |buf|)];
      errno := 0;
    }

    /** Writes are never short; in append mode they go to the end. */
    method Write(fd: int, buf: Octets) returns (errno: int)
      requires Valid()
      modifies this`fds, this`bytes
      ensures Valid()
      ensures fd !in old(fds) || !old(fds)[fd].mode.write ==> errno == EBADF && fds == old(fds) && bytes == old(bytes)
      ensures fd in old(fds) && old(fds)[fd].mode.write ==>
        var d := old(fds)[fd];
        var at := if d.mode.append then |old(bytes)[d.ino]| else d.pos;
        && errno == 0
        && bytes == old(bytes)[d.ino := WriteAt(old(bytes)[d.ino], at, buf)]
        && fds == old(fds)[fd := d.(pos := at + |buf|)]
    {
      if fd !in fds || !fds[fd].mode.write {
        return EBADF;
      }
      var d := fds[fd];
      var at := if d.mode.append then |bytes[d.ino]| else d.pos;
      bytes := bytes[d.ino := WriteAt(bytes[d.ino], at, buf)];
      fds := fds[fd := d.(pos := at + |buf|)];
      errno := 0;
    }

    /** lseek relative to the start. */
    method SeekTo(fd: int, pos: nat)
      requires Valid()
      modifies this`fds
      ensures Valid()
      ensures fds == if fd in old(fds) then old(fds)[fd := old(fds)[fd].(pos := pos)] else old(fds)
    {
      if fd in fds {
        fds := fds[fd := fds[fd].(pos := pos)];
      }
    }

    /** ftruncate to nothing. */
    method Truncate(fd: int)
      requires Valid()
      modifies this`bytes
      ensures Valid()
      ensures bytes == if fd in fds && fds[fd].mode.write then old(bytes)[fds[fd].ino := []] else old(bytes)
    {
      if fd in fds && fds[fd].mode.write {
        bytes := bytes[fds[fd].ino := []];
      }
    }

    /** std::filesystem::remove: a missing file is not an error. */
    method Unlink(path: Path)
      requires Valid()
      modifies this`links
      ensures Valid()
      ensures links == old(links) - {path} && Disk() == old(Disk()) - {path}
    {
      ImageUnlinked(bytes, links, path);
      links := links - {path};
    }

    method Stat(path: Path) returns (size: nat, errno: int)
      requires Valid()
      ensures errno == if path in links then 0 else ENOENT
      ensures path in links ==> size == |Disk()[path]|
    {
      if path in links {
        size, errno := |bytes[links[path]]|, 0;
      } else {
        size, errno := 0, ENOENT;
      }
    }

    /** F_SETLKW on the whole file; with one process there is nobody to wait for. */
    method SetLock(fd: int, l: LockType) returns (errno: int)
      requires Valid()
      modifies this`locks
      ensures Valid()
      ensures fd !in fds ==> errno == EBADF && locks == old(locks)
      ensures fd in fds && ((l == ReadLock && !fds[fd].mode.read) || (l == WriteLock && !fds[fd].mode.write)) ==>
        errno == EBADF && locks == old(locks)
      ensures fd in fds && (l == ReadLock ==> fds[fd].mode.read) && (l == WriteLock ==> fds[fd].mode.write) ==>
        && errno == 0
        && locks == if l == NoLock then old(locks) - {fds[fd].ino} else old(locks)[fds[fd].ino := l]
    {
      if fd !in fds || (l == ReadLock && !fds[fd].mode.read) || (l == WriteLock && !fds[fd].mode.write) {
        return EBADF;
      }
      locks := if l == NoLock then locks - {fds[fd].ino} else locks[fds[fd].ino := l];
      errno := 0;
    }
  }
}
