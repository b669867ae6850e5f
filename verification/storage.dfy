/** The two indexes and the data files, operation by operation. */
module Storage {
  import opened Bytes
  import opened Lines
  import opened Paths
  import opened Posix
  import opened LockedStream
  import Uid

  datatype Result<+T> = Ok(value: T) | Err(errno: int) {
    /** The error number, 0 when there is none. */
    function Errno(): int {
      match this
      case Ok(_) => 0
      case Err(e) => e
    }
  }

  datatype Object = Object(id: Octets, name: Octets)

  type Image = map<Path, Octets>

  const CHUNK: nat := 1024

  function OldContent(disk: Image, path: Path): Octets {
    if path in disk then disk[path] else []
  }

  /** The disk after a create. */
  function AfterCreate(disk: Image, name: Octets, id: Octets): Image {
    disk[NameFile(name) := OldContent(disk, NameFile(name)) + id + [SEPARATOR]]
        [IdFile(id) := name + [SEPARATOR]]
        [DataFile(id) := []]
  }

  /** The disk after an object's remove. */
  function AfterRemove(disk: Image, id: Octets, name: Octets): Image {
    var d := disk - {IdFile(id), DataFile(id)};
    if NameFile(name) !in d then d
    else
      var keep := Without(Drain(d[NameFile(name)], 0, SEPARATOR), id);
      if keep == [] then d - {NameFile(name)} else d[NameFile(name) := Join(keep, SEPARATOR)]
  }

  /** Between operations the process holds no lock. */
  ghost predicate Idle(k: Kernel)
    reads k
  {
    k.Valid() && k.locks == map[]
  }

  // ---- loops ----

  /** while (getline) ids.emplace_back */
  method DrainAll(k: Kernel, s: FlStream) returns (ids: seq<Octets>, ghost end: nat)
    requires k.Valid() && s.fd in k.fds && k.fds[s.fd].mode.read
    modifies s, k`fds
    ensures k.Valid() && s.fd == old(s.fd)
    ensures var d := old(k.fds)[s.fd];
            ids == Drain(k.bytes[d.ino], d.pos, SEPARATOR) && k.fds == old(k.fds)[s.fd := d.(pos := end)]
  {
    hide NextLine;
    ghost var f := s.fd;
    ghost var d := k.fds[f];
    ghost var content := k.bytes[d.ino];
    ids := [];
    end := d.pos;
    var line, got := s.GetLine(k, SEPARATOR, CHUNK);
    end := NextLine(content, end, SEPARATOR).next;
    ghost var before := d.pos;
    while got
      invariant k.Valid() && s.fd == f
      invariant k.fds == old(k.fds)[f := d.(pos := end)]
      invariant var l := NextLine(content, before, SEPARATOR);
                got == l.got && (got ==> line == l.text) && end == l.next
      invariant ids + Drain(content, before, SEPARATOR) == Drain(content, d.pos, SEPARATOR)
      decreases |content| - before
    {
      LineAdvances(content, before);
      assert ids + Drain(content, before, SEPARATOR) == (ids + [line]) + Drain(content, end, SEPARATOR);
      ids := ids + [line];
      before := end;
      line, got := s.GetLine(k, SEPARATOR, CHUNK);
      end := NextLine(content, end, SEPARATOR).next;
    }
    NoMoreLines(content, before);
    assert ids + [] == ids;
  }

  lemma LineAdvances(content: Octets, pos: nat)
    requires NextLine(content, pos, SEPARATOR).got
    ensures var l := NextLine(content, pos, SEPARATOR);
            && pos < l.next <= |content|
            && Drain(content, pos, SEPARATOR) == [l.text] + Drain(content, l.next, SEPARATOR)
  {
  }

  lemma NoMoreLines(content: Octets, pos: nat)
    requires !NextLine(content, pos, SEPARATOR).got
    ensures Drain(content, pos, SEPARATOR) == []
  {
  }

  /** The stream has this file open for writing. */
  ghost predicate Writes(k: Kernel, s: FlStream, path: Path)
    reads k, s
    requires k.Valid()
  {
    s.fd in k.fds && k.fds[s.fd].mode.write && path in k.links && k.links[path] == k.fds[s.fd].ino
  }

  lemma StoredContent(bytes: map<Ino, Octets>, links: map<Path, Ino>, path: Path)
    requires Linkage(bytes, links) && path in links
    ensures links[path] in bytes && ImageOf(bytes, links)[path] == bytes[links[path]]
  {
  }

  /** file << line << SEPARATOR, at the end of the file. */
  method PutLine(k: Kernel, s: FlStream, line: Octets, ghost path: Path)
    requires k.Valid() && Writes(k, s, path)
    requires k.fds[s.fd].mode.append || k.fds[s.fd].pos == |k.Disk()[path]|
    modifies s, k`fds, k`bytes
    ensures k.Valid() && s.fd == old(s.fd)
    ensures var content := old(k.Disk()[path]) + line + [SEPARATOR];
            && k.Disk() == old(k.Disk())[path := content]
            && k.fds == old(k.fds)[s.fd := old(k.fds)[s.fd].(pos := |content|)]
  {
    hide WriteAt, Linkage, ImageOf;
    ghost var f, i := s.fd, k.links[path];
    ghost var d, content := k.fds[f], k.Disk()[path];
    StoredContent(k.bytes, k.links, path);
    WriteAtEnd(content, line);
    s.Put(k, line);
    assert k.bytes == old(k.bytes)[i := content + line];
    assert k.fds == old(k.fds)[f := d.(pos := |content + line|)];
    WriteAtEnd(content + line, [SEPARATOR]);
    s.Put(k, [SEPARATOR]);
    assert k.bytes == old(k.bytes)[i := content + line + [SEPARATOR]];
    ImageStored(old(k.bytes), k.links, path, content + line + [SEPARATOR]);
  }

  /** for (fid : ids) if (fid != id) name_file << fid << SEPARATOR */
  method RewriteOthers(k: Kernel, s: FlStream, ids: seq<Octets>, id: Octets, ghost path: Path) returns (empty: bool)
    requires k.Valid() && Writes(k, s, path)
    requires !k.fds[s.fd].mode.append && k.fds[s.fd].pos == 0 && k.Disk()[path] == []
    modifies s, k`fds, k`bytes
    ensures k.Valid() && s.fd == old(s.fd)
    ensures var content := Join(Without(ids, id), SEPARATOR);
            && k.Disk() == old(k.Disk())[path := content]
            && k.fds == old(k.fds)[s.fd := old(k.fds)[s.fd].(pos := |content|)]
    ensures empty <==> Without(ids, id) == []
  {
    hide Without, Join, Linkage, ImageOf;
    ghost var f := s.fd;
    ghost var d := k.fds[f];
    ghost var content: Octets := [];
    empty := true;
    NoneYet(ids, id);
    for n := 0 to |ids|
      invariant k.Valid() && s.fd == f
      invariant content == Join(Without(ids[..n], id), SEPARATOR)
      invariant k.fds == old(k.fds)[f := d.(pos := |content|)]
      invariant k.Disk() == old(k.Disk())[path := content]
      invariant empty <==> Without(ids[..n], id) == []
    {
      OneMore(ids, n, id);
      if ids[n] != id {
        PutLine(k, s, ids[n], path);
        content := content + ids[n] + [SEPARATOR];
        empty := false;
      }
    }
    assert ids[..|ids|] == ids;
  }

  lemma NoneYet(ids: seq<Octets>, id: Octets)
    ensures Without(ids[..0], id) == [] && Join(Without(ids[..0], id), SEPARATOR) == []
  {
  }

  lemma OneMore(ids: seq<Octets>, n: nat, id: Octets)
    requires n < |ids|
    ensures var w := Without(ids[..n], id);
            && Without(ids[..n + 1], id) == (if ids[n] == id then w else w + [ids[n]])
            && Join(w + [ids[n]], SEPARATOR) == Join(w, SEPARATOR) + ids[n] + [SEPARATOR]
  {
    assert ids[..n + 1] == ids[..n] + [ids[n]];
    WithoutAppends(ids[..n], [ids[n]], id);
    assert Without([ids[n]], id) == if ids[n] == id then [] else [ids[n]];
    JoinOne(Without(ids[..n], id), ids[n], SEPARATOR);
  }

  lemma WriteAtEnd(content: Octets, data: Octets)
    ensures WriteAt(content, |content|, data) == content + data
  {
    assert content[..|content|] == content;
    assert content + [] == content;
  }

  // ---- operations ----

  /** object::by_id */
  method ById(k: Kernel, id: Octets) returns (r: Result<Object>)
    requires Idle(k)
    modifies k
    ensures Idle(k) && k.fds == old(k.fds) && k.links == old(k.links) && k.Disk() == old(k.Disk())
    ensures r == if IdFile(id) in k.Disk() then Ok(Object(id, NextLine(k.Disk()[IdFile(id)], 0, SEPARATOR).text))
                 else Err(ENOENT)
  {
    hide NextLine;
    var idFile := new FlStream(k, IdFile(id), RDONLY);
    if idFile.Fail() {
      r := Err(idFile.err);
      idFile.Close(k);
      return;
    }
    idFile.Lock(k, ReadLock);
    var name, got := idFile.GetLine(k, SEPARATOR, CHUNK);
    r := Ok(Object(id, name));
    idFile.Close(k);
  }

  /** object::by_name */
  method ByName(k: Kernel, name: Octets) returns (r: Result<seq<Octets>>)
    requires Idle(k)
    modifies k
    ensures Idle(k) && k.fds == old(k.fds) && k.links == old(k.links) && k.Disk() == old(k.Disk())
    ensures r == if NameFile(name) in k.Disk() then Ok(Drain(k.Disk()[NameFile(name)], 0, SEPARATOR)) else Err(ENOENT)
  {
    var nameFile := new FlStream(k, NameFile(name), RDONLY);
    if nameFile.Fail() {
      r := Err(nameFile.err);
      nameFile.Close(k);
      return;
    }
    nameFile.Lock(k, ReadLock);
    ghost var end;
    var ids;
    ids, end := DrainAll(k, nameFile);
    r := Ok(ids);
    nameFile.Close(k);
  }

  /** object::details, of which only the size is kept */
  method Details(k: Kernel, obj: Object) returns (r: Result<nat>)
    requires k.Valid()
    ensures r == if DataFile(obj.id) in k.Disk() then Ok(|k.Disk()[DataFile(obj.id)]|) else Err(ENOENT)
  {
    var size, errno := k.Stat(DataFile(obj.id));
    r := if errno != 0 then Err(errno) else Ok(size);
  }

  /** object::get: the stream is moved out, so the local one is closed without a descriptor. */
  method Get(k: Kernel, obj: Object, mode: Mode) returns (r: Result<FlStream>)
    requires Idle(k) && !mode.creat && !mode.trunc
    modifies k
    ensures Idle(k) && k.links == old(k.links) && k.Disk() == old(k.Disk())
    ensures DataFile(obj.id) !in k.links ==> r == Err(ENOENT) && k.fds == old(k.fds)
    ensures DataFile(obj.id) in k.links ==>
      && r.Ok? && fresh(r.value) && LowestFree(old(k.fds), r.value.fd)
      && k.fds == old(k.fds)[r.value.fd := Desc(k.links[DataFile(obj.id)], 0, mode)]
  {
    var dataFile := new FlStream(k, DataFile(obj.id), mode);
    if dataFile.Fail() {
      r := Err(dataFile.err);
      dataFile.Close(k);
      return;
    }
    var out := new FlStream.Unopened();
    out.MoveFrom(k, dataFile);
    dataFile.Close(k);
    r := Ok(out);
  }

  // Descriptor tables: a number that was free is free again after its close.

  lemma ClosedAgain(f: map<int, Desc>, a: int, d: Desc)
    requires a !in f
    ensures f[a := d] - {a} == f
  {
  }

  lemma CreatedImage(disk: Image, c: Octets, name: Octets, id: Octets)
    requires c == OldContent(disk, NameFile(name))
    ensures AfterCreate(disk, name, id) ==
      disk[NameFile(name) := c][IdFile(id) := []][NameFile(name) := c + id + [SEPARATOR]]
          [IdFile(id) := [] + name + [SEPARATOR]][DataFile(id) := []]
  {
    assert [] + name == name;
  }

  lemma OneLockLeft(i: Ino, j: Ino)
    requires i != j
    ensures map[i := WriteLock][j := WriteLock] - {i} == map[j := WriteLock]
  {
  }

  const CREATE_NAME := WRONLY.(append := true, creat := true)
  const CREATE_ID := WRONLY.(creat := true, trunc := true)

  /** Both index files of a new object, open and locked for writing. */
  ghost predicate Opened(k: Kernel, a: int, b: int, name: Octets, id: Octets)
    reads k
  {
    && k.Valid() && NameFile(name) in k.links && IdFile(id) in k.links
    && k.links[NameFile(name)] != k.links[IdFile(id)]
    && k.locks == map[k.links[NameFile(name)] := WriteLock][k.links[IdFile(id)] := WriteLock]
    && a in k.fds && k.fds[a] == Desc(k.links[NameFile(name)], 0, CREATE_NAME)
    && b in k.fds && k.fds[b] == Desc(k.links[IdFile(id)], 0, CREATE_ID)
  }

  method OpenIndexes(k: Kernel, name: Octets, id: Octets) returns (nameFile: FlStream, idFile: FlStream)
    requires Idle(k) && IdFile(id) !in k.links
    modifies k
    ensures fresh(nameFile) && fresh(idFile) && nameFile != idFile
    ensures Opened(k, nameFile.fd, idFile.fd, name, id)
    ensures nameFile.fd !in old(k.fds) && idFile.fd !in old(k.fds)[nameFile.fd := k.fds[nameFile.fd]]
    ensures k.fds == old(k.fds)[nameFile.fd := k.fds[nameFile.fd]][idFile.fd := k.fds[idFile.fd]]
    ensures k.Disk() == old(k.Disk())[NameFile(name) := OldContent(old(k.Disk()), NameFile(name))][IdFile(id) := []]
  {
    hide Linkage, ImageOf, LowestFree;
    nameFile := new FlStream(k, NameFile(name), CREATE_NAME);
    nameFile.Lock(k, WriteLock);
    idFile := new FlStream(k, IdFile(id), CREATE_ID);
    idFile.Lock(k, WriteLock);
  }

  /** The id goes into the name file, which is closed, and then the name into the id file. */
  method FillIndexes(k: Kernel, nameFile: FlStream, idFile: FlStream, name: Octets, id: Octets)
    requires nameFile != idFile && nameFile.fd != idFile.fd && Opened(k, nameFile.fd, idFile.fd, name, id)
    requires k.Disk()[IdFile(id)] == []
    modifies k`fds, k`locks, k`bytes, nameFile, idFile
    ensures k.Valid() && nameFile.fd == old(nameFile.fd) && idFile.fd == old(idFile.fd)
    ensures idFile.fd in k.fds && k.fds == (old(k.fds) - {nameFile.fd})[idFile.fd := k.fds[idFile.fd]]
    ensures k.fds[idFile.fd].ino == k.links[IdFile(id)] && k.locks == map[k.links[IdFile(id)] := WriteLock]
    ensures k.Disk() == old(k.Disk())[NameFile(name) := old(k.Disk())[NameFile(name)] + id + [SEPARATOR]]
                                     [IdFile(id) := [] + name + [SEPARATOR]]
  {
    hide Linkage, ImageOf;
    PutLine(k, nameFile, id, NameFile(name));
    nameFile.Close(k);
    OneLockLeft(k.links[NameFile(name)], k.links[IdFile(id)]);
    PutLine(k, idFile, name, IdFile(id));
  }

  /**
   * The data file is created, perhaps under the number the name file had; then the three
   * streams are destroyed, the last one opened first, so the stale number closes nothing.
   */
  method FinishCreate(k: Kernel, nameFile: FlStream, idFile: FlStream, id: Octets)
    requires k.Valid() && nameFile != idFile && nameFile.fd != idFile.fd
    requires nameFile.fd !in k.fds && idFile.fd in k.fds && k.locks == map[k.fds[idFile.fd].ino := WriteLock]
    modifies k, nameFile, idFile
    ensures Idle(k) && k.fds == old(k.fds) - {old(idFile.fd)}
    ensures k.Disk() == old(k.Disk())[DataFile(id) := []]
  {
    hide Linkage, ImageOf, LowestFree;
    var dataFile := new FlStream(k, DataFile(id), CREATE_ID);
    ClosedAgain(old(k.fds), dataFile.fd, k.fds[dataFile.fd]);
    dataFile.Close(k);
    idFile.Close(k);
    nameFile.Close(k);
  }

  lemma BothClosed(f: map<int, Desc>, a: int, d: Desc, b: int, e: Desc, e': Desc)
    requires a !in f && b !in f[a := d]
    ensures a != b && (f[a := d][b := e] - {a})[b := e'] - {b} == f
  {
  }

  /** storage::create; no object has the id that the generator returns. */
  method Create(k: Kernel, g: Uid.Generator, name: Octets) returns (r: Result<Octets>)
    requires Idle(k) && IdFile(g.Next()) !in k.links
    modifies k, g
    ensures Idle(k) && k.fds == old(k.fds) && r == Ok(old(g.Next())) && g.drawn == old(g.drawn) + 1
    ensures k.Disk() == AfterCreate(old(k.Disk()), name, old(g.Next()))
  {
    hide Linkage, ImageOf, LowestFree, AfterCreate, OldContent, Kernel.Valid;
    var id := g.Get();
    var nameFile, idFile := OpenIndexes(k, name, id);
    ghost var f, a, b := k.fds, nameFile.fd, idFile.fd;
    FillIndexes(k, nameFile, idFile, name, id);
    BothClosed(old(k.fds), a, f[a], b, f[b], k.fds[b]);
    FinishCreate(k, nameFile, idFile, id);
    CreatedImage(old(k.Disk()), OldContent(old(k.Disk()), NameFile(name)), name, id);
    r := Ok(id);
  }

  lemma RemovedImage(disk: Image, id: Octets, name: Octets)
    ensures var d := disk - {IdFile(id)} - {DataFile(id)};
            && (NameFile(name) in d <==> NameFile(name) in disk)
            && (NameFile(name) !in d ==> AfterRemove(disk, id, name) == d)
            && (NameFile(name) in d ==>
                  && d[NameFile(name)] == disk[NameFile(name)]
                  && var keep := Without(Drain(d[NameFile(name)], 0, SEPARATOR), id);
                     var e := d[NameFile(name) := Join(keep, SEPARATOR)];
                     AfterRemove(disk, id, name) == if keep == [] then e - {NameFile(name)} else e)
  {
    assert disk - {IdFile(id)} - {DataFile(id)} == disk - {IdFile(id), DataFile(id)};
  }

  /** Under the write lock: the lines are read, the file is cut to nothing, and the others are written back. */
  method RewriteName(k: Kernel, nameFile: FlStream, name: Octets, id: Octets) returns (empty: bool)
    requires k.Valid() && NameFile(name) in k.links && k.locks == map[k.links[NameFile(name)] := WriteLock]
    requires nameFile.fd in k.fds && k.fds[nameFile.fd] == Desc(k.links[NameFile(name)], 0, RDWR)
    modifies k`fds, k`bytes, nameFile
    ensures k.Valid() && nameFile.fd == old(nameFile.fd)
    ensures nameFile.fd in k.fds && k.fds == old(k.fds)[nameFile.fd := k.fds[nameFile.fd]]
    ensures k.fds[nameFile.fd].ino == k.links[NameFile(name)]
    ensures var keep := Without(Drain(old(k.Disk()[NameFile(name)]), 0, SEPARATOR), id);
            && k.Disk() == old(k.Disk())[NameFile(name) := Join(keep, SEPARATOR)]
            && (empty <==> keep == [])
  {
    hide Linkage, ImageOf, Without, Join, Drain, Kernel.Valid;
    ghost var path := NameFile(name);
    StoredContent(k.bytes, k.links, path);
    var ids, end := DrainAll(k, nameFile);
    nameFile.SeekToBegin(k);
    ImageStored(k.bytes, k.links, path, []);
    k.Truncate(nameFile.fd);
    empty := RewriteOthers(k, nameFile, ids, id, path);
  }

  /** The rest of remove: lock, rewrite, unlink the file if nothing is left in it, and close once. */
  method DropEntry(k: Kernel, nameFile: FlStream, name: Octets, id: Octets)
    requires Idle(k) && NameFile(name) in k.links
    requires nameFile.fd in k.fds && k.fds[nameFile.fd] == Desc(k.links[NameFile(name)], 0, RDWR)
    modifies k, nameFile
    ensures Idle(k) && k.fds == old(k.fds) - {old(nameFile.fd)}
    ensures var keep := Without(Drain(old(k.Disk()[NameFile(name)]), 0, SEPARATOR), id);
            var d := old(k.Disk())[NameFile(name) := Join(keep, SEPARATOR)];
            k.Disk() == if keep == [] then d - {NameFile(name)} else d
  {
    hide Linkage, ImageOf, Without, Join, Drain, Kernel.Valid;
    nameFile.Lock(k, WriteLock);
    var empty := RewriteName(k, nameFile, name, id);
    if empty {
      k.Unlink(NameFile(name));
      nameFile.Close(k);
    }
    nameFile.Close(k);
  }

  /** object::remove */
  method Remove(k: Kernel, obj: Object) returns (r: Result<()>)
    requires Idle(k)
    modifies k
    ensures Idle(k) && k.fds == old(k.fds)
    ensures r == if NameFile(obj.name) in old(k.Disk()) then Ok(()) else Err(ENOENT)
    ensures k.Disk() == AfterRemove(old(k.Disk()), obj.id, obj.name)
  {
    hide Linkage, ImageOf, LowestFree, AfterRemove, Without, Join, Drain, Kernel.Valid;
    RemovedImage(k.Disk(), obj.id, obj.name);
    k.Unlink(IdFile(obj.id));
    k.Unlink(DataFile(obj.id));
    var nameFile := new FlStream(k, NameFile(obj.name), RDWR);
    if nameFile.Fail() {
      r := Err(nameFile.err);
      nameFile.Close(k);
      return;
    }
    ClosedAgain(old(k.fds), nameFile.fd, k.fds[nameFile.fd]);
    DropEntry(k, nameFile, obj.name, obj.id);
    r := Ok(());
  }
}
