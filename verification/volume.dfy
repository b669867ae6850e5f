/** What the volume means: objects by id, and one insertion-ordered id list per name. */
module Catalog {
  import opened Bytes
  import opened Lines
  import opened Paths

  datatype Obj = Obj(name: Octets, data: Octets)

  datatype Store = Store(objs: map<Octets, Obj>, lists: map<Octets, seq<Octets>>)

  const EMPTY := Store(map[], map[])

  function ListOf(st: Store, name: Octets): seq<Octets> {
    if name in st.lists then st.lists[name] else []
  }

  /** The two indexes agree exactly: a list exists for a name just when a live object has it. */
  ghost predicate Valid(st: Store) {
    && (forall id :: id in st.objs ==> IsName(id) && IsName(st.objs[id].name) && id in ListOf(st, st.objs[id].name))
    && (forall n :: n in st.lists ==> st.lists[n] != [] && Distinct(st.lists[n]))
    && (forall n, id :: n in st.lists && id in st.lists[n] ==> id in st.objs && st.objs[id].name == n)
  }

  function Put(st: Store, name: Octets, id: Octets, data: Octets): Store {
    Store(st.objs[id := Obj(name, data)], st.lists[name := ListOf(st, name) + [id]])
  }

  function Remove(st: Store, id: Octets): Store {
    if id !in st.objs then st
    else
      var n := st.objs[id].name;
      var keep := Without(ListOf(st, n), id);
      Store(st.objs - {id}, if keep == [] then st.lists - {n} else st.lists[n := keep])
  }

  lemma PutKeepsValid(st: Store, name: Octets, id: Octets, data: Octets)
    requires Valid(st) && id !in st.objs && IsName(id) && IsName(name)
    ensures Valid(Put(st, name, id, data))
  {
    var t := Put(st, name, id, data);
    assert id !in ListOf(st, name);
    assert t.lists[name][|ListOf(st, name)|] == id;
    forall x | x in st.objs ensures x in t.objs && x in ListOf(t, st.objs[x].name) {
    }
  }

  lemma RemoveKeepsValid(st: Store, id: Octets)
    requires Valid(st)
    ensures Valid(Remove(st, id))
  {
    if id in st.objs {
      var n := st.objs[id].name;
      WithoutKeepsDistinct(ListOf(st, n), id);
      var t := Remove(st, id);
      forall x | x in t.objs ensures x in ListOf(t, t.objs[x].name) {
        if t.objs[x].name == n {
          assert x in Without(ListOf(st, n), id);
        }
      }
    }
  }

  /** Removing what was just put restores the store, lists and all. */
  lemma RemoveUndoesPut(st: Store, name: Octets, id: Octets, data: Octets)
    requires Valid(st) && id !in st.objs && IsName(id) && IsName(name)
    ensures Remove(Put(st, name, id, data), id) == st
  {
    var ids := ListOf(st, name);
    WithoutAppends(ids, [id], id);
    WithoutAbsent(ids, id);
    assert Without([id], id) == [];
    assert ids + [] == ids;
    var t := Put(st, name, id, data);
    assert t.objs - {id} == st.objs;
    if ids == [] {
      assert name !in st.lists;
      assert t.lists - {name} == st.lists;
    } else {
      assert t.lists[name := ids] == st.lists;
    }
  }

  /** A name has a list exactly when some live object has that name. */
  lemma ListedIffLive(st: Store, name: Octets)
    requires Valid(st)
    ensures name in st.lists <==> exists id :: id in st.objs && st.objs[id].name == name
  {
    if name in st.lists {
      var id := st.lists[name][0];
      assert id in st.lists[name];
      assert id in st.objs && st.objs[id].name == name;
    }
  }

  /** x is listed before y. */
  ghost predicate Before(ids: seq<Octets>, x: Octets, y: Octets) {
    exists i, j :: 0 <= i < j < |ids| && ids[i] == x && ids[j] == y
  }

  /** A remove keeps the order of the others: x stays before y exactly when it was. */
  lemma {:induction false} WithoutKeepsOrder(ids: seq<Octets>, id: Octets, x: Octets, y: Octets)
    requires x != id && y != id
    ensures Before(Without(ids, id), x, y) <==> Before(ids, x, y)
  {
    if ids != [] {
      var h, rest := ids[0], ids[1..];
      WithoutKeepsOrder(rest, id, x, y);
      BeforeInCons(h, rest, x, y);
      assert ids == [h] + rest;
      if h != id {
        BeforeInCons(h, Without(rest, id), x, y);
      }
    }
  }

  lemma BeforeInCons(h: Octets, rest: seq<Octets>, x: Octets, y: Octets)
    ensures Before([h] + rest, x, y) <==> (h == x && y in rest) || Before(rest, x, y)
  {
    var ids := [h] + rest;
    if h == x && y in rest {
      var j :| 0 <= j < |rest| && rest[j] == y;
      assert ids[0] == x && ids[j + 1] == y;
    }
    if Before(rest, x, y) {
      var i, j :| 0 <= i < j < |rest| && rest[i] == x && rest[j] == y;
      assert ids[i + 1] == x && ids[j + 1] == y;
    }
    if Before(ids, x, y) {
      var i, j :| 0 <= i < j < |ids| && ids[i] == x && ids[j] == y;
      assert rest[j - 1] == y;
      if i > 0 {
        assert rest[i - 1] == x;
      }
    }
  }

  // ---- the files that stand for a store ----

  ghost predicate HasFile(st: Store, p: Path) {
    match p
    case IdFile(id) => id in st.objs
    case DataFile(id) => id in st.objs
    case NameFile(n) => n in st.lists
  }

  ghost function FileIn(st: Store, p: Path): Octets
    requires HasFile(st, p)
  {
    match p
    case IdFile(id) => st.objs[id].name + [SEPARATOR]
    case DataFile(id) => st.objs[id].data
    case NameFile(n) => Join(st.lists[n], SEPARATOR)
  }

  /** Byte for byte, and no other file. */
  ghost predicate Matches(disk: map<Path, Octets>, st: Store) {
    forall p :: (p in disk <==> HasFile(st, p)) && (p in disk ==> disk[p] == FileIn(st, p))
  }
}

/** The volume: storage operations composed, each a whole request's worth of work. */
module Volume {
  import opened Bytes
  import opened Lines
  import opened Paths
  import opened Posix
  import opened LockedStream
  import opened Storage
  import Uid
  import Catalog

  type Store = Catalog.Store

  /** A create makes the files of the object with no data yet. */
  lemma CreateMatches(disk: Image, st: Store, name: Octets, id: Octets)
    requires Catalog.Matches(disk, st) && id !in st.objs
    ensures Catalog.Matches(AfterCreate(disk, name, id), Catalog.Put(st, name, id, []))
  {
    var ids := Catalog.ListOf(st, name);
    assert NameFile(name) in disk <==> name in st.lists;
    assert Join([], SEPARATOR) == [];
    JoinOne(ids, id, SEPARATOR);
    assert OldContent(disk, NameFile(name)) == Join(ids, SEPARATOR);
  }

  /** The object is complete once its data has been written from the start of its empty file. */
  lemma FillMatches(disk: Image, st: Store, name: Octets, id: Octets, data: Octets)
    requires Catalog.Matches(disk, Catalog.Put(st, name, id, []))
    ensures IdFile(id) in disk && DataFile(id) in disk
    ensures Catalog.Matches(disk[DataFile(id) := WriteAt(disk[DataFile(id)], 0, data)], Catalog.Put(st, name, id, data))
  {
    hide Join;
    var t := Catalog.Put(st, name, id, []);
    assert Catalog.HasFile(t, IdFile(id)) && Catalog.HasFile(t, DataFile(id));
    WriteAtEnd([], data);
    assert [] + data == data;
  }

  /** What the two halves of a store leave in the three files. */
  lemma StoredFiles(disk: Image, name: Octets, id: Octets, data: Octets)
    ensures var made := AfterCreate(disk, name, id);
            && DataFile(id) in made && made[DataFile(id)] == []
            && var d := made[DataFile(id) := WriteAt([], 0, data)];
               && IdFile(id) in d && d[IdFile(id)] == name + [10] && DataFile(id) in d && d[DataFile(id)] == data
               && NameFile(name) in d && d[NameFile(name)] == OldContent(disk, NameFile(name)) + id + [10]
  {
    WriteAtEnd([], data);
    assert [] + data == data;
  }

  lemma RemoveMatches(disk: Image, st: Store, id: Octets)
    requires Catalog.Matches(disk, st) && Catalog.Valid(st) && id in st.objs
    ensures NameFile(st.objs[id].name) in disk
    ensures Catalog.Matches(AfterRemove(disk, id, st.objs[id].name), Catalog.Remove(st, id))
  {
    hide Join, Without, Drain, Catalog.Valid;
    var name := st.objs[id].name;
    NameListed(st, id);
    ListReadsBack(disk, st, name);
    var d, t := AfterRemove(disk, id, name), Catalog.Remove(st, id);
    assert d == AfterRemove(disk, id, name) && t == Catalog.Remove(st, id);
    var keep := Without(st.lists[name], id);
    RemovedImage(disk, id, name);
    forall p ensures (p in d <==> Catalog.HasFile(t, p)) && (p in d ==> d[p] == Catalog.FileIn(t, p)) {
      assert p in disk <==> Catalog.HasFile(st, p);
    }
  }

  lemma NameListed(st: Store, id: Octets)
    requires Catalog.Valid(st) && id in st.objs
    ensures st.objs[id].name in st.lists
  {
    assert id in Catalog.ListOf(st, st.objs[id].name);
  }

  /** The lines of a name file are the list it stands for. */
  lemma ListReadsBack(disk: Image, st: Store, name: Octets)
    requires Catalog.Matches(disk, st) && Catalog.Valid(st) && name in st.lists
    ensures NameFile(name) in disk && Drain(disk[NameFile(name)], 0, SEPARATOR) == st.lists[name]
  {
    hide Join, Drain;
    assert Catalog.HasFile(st, NameFile(name));
    var ids := st.lists[name];
    forall i | 0 <= i < |ids| ensures Free(ids[i], SEPARATOR) {
      assert ids[i] in st.lists[name];
      assert IsName(ids[i]);
    }
    DrainUndoesJoin(ids, [], SEPARATOR);
    assert Join(ids, SEPARATOR) + [] == Join(ids, SEPARATOR);
  }

  /** The first line of an id file is the object's name. */
  lemma NameReadsBack(disk: Image, st: Store, id: Octets)
    requires Catalog.Matches(disk, st) && Catalog.Valid(st)
    ensures IdFile(id) in disk <==> id in st.objs
    ensures id in st.objs ==> NextLine(disk[IdFile(id)], 0, SEPARATOR).text == st.objs[id].name
  {
    assert IdFile(id) in disk <==> Catalog.HasFile(st, IdFile(id));
    if id in st.objs {
      var name := st.objs[id].name;
      var line := name + [SEPARATOR];
      assert disk[IdFile(id)] == line;
      IndexOfUnique(line, SEPARATOR, 0, |name|);
      assert line[0..|name|] == name;
    }
  }

  lemma DataReadsBack(disk: Image, st: Store, id: Octets)
    requires Catalog.Matches(disk, st)
    ensures DataFile(id) in disk <==> id in st.objs
    ensures id in st.objs ==> disk[DataFile(id)] == st.objs[id].data
  {
    assert DataFile(id) in disk <==> Catalog.HasFile(st, DataFile(id));
  }

  class VolumeType {
    const k: Kernel
    ghost var store: Store

    /** The process is idle and its files are, byte for byte, those of a valid store. */
    ghost predicate Valid()
      reads this, k
    {
      Idle(k) && Catalog.Valid(store) && Catalog.Matches(k.Disk(), store)
    }

    constructor (k: Kernel)
      requires Idle(k) && k.Disk() == map[]
      ensures Valid() && this.k == k && store == Catalog.EMPTY
    {
      this.k, store := k, Catalog.EMPTY;
    }

    /** volume::store; no object has the id that the generator returns. */
    method Store(g: Uid.Generator, name: Octets, data: Octets) returns (r: Result<Octets>)
      requires Valid() && IsName(name) && g.Next() !in store.objs
      modifies this, k, g
      ensures Valid() && k.fds == old(k.fds) && g.drawn == old(g.drawn) + 1
      ensures r == Ok(old(g.Next())) && store == Catalog.Put(old(store), name, old(g.Next()), data)
      ensures var id, disk := old(g.Next()), old(k.Disk());
              && IdFile(id) in k.Disk() && k.Disk()[IdFile(id)] == name + [10]
              && DataFile(id) in k.Disk() && k.Disk()[DataFile(id)] == data
              && NameFile(name) in k.Disk()
              && k.Disk()[NameFile(name)] == OldContent(disk, NameFile(name)) + id + [10]
    {
      hide AfterCreate, OldContent, NextLine, WriteAt, Linkage, ImageOf, IsName;
      hide Kernel.Valid, Catalog.Valid, Catalog.Matches, Catalog.Put;
      ghost var next := g.Next();
      NameReadsBack(k.Disk(), store, next);
      CreateMatches(k.Disk(), store, name, next);
      Catalog.PutKeepsValid(store, name, next, []);
      Catalog.PutKeepsValid(store, name, next, data);
      var created := Create(k, g, name);
      if created.Err? {
        return Err(created.Errno());
      }
      var id := created.value;
      StoredFiles(old(k.Disk()), name, id, data);
      FillMatches(k.Disk(), store, name, id, data);
      store := Catalog.Put(store, name, id, data);
      var errno := Fill(k, id, data);
      r := if errno != 0 then Err(errno) else Ok(id);
    }

    /** volume::remove */
    method Remove(id: Octets) returns (r: Result<()>)
      requires Valid()
      modifies this, k
      ensures Valid() && k.fds == old(k.fds) && store == Catalog.Remove(old(store), id)
      ensures r == if id in old(store).objs then Ok(()) else Err(ENOENT)
    {
      hide AfterRemove, NextLine, Linkage, ImageOf, Kernel.Valid, Catalog.Valid, Catalog.Matches;
      NameReadsBack(k.Disk(), store, id);
      var found := ById(k, id);
      if found.Err? {
        return Err(found.Errno());
      }
      RemoveMatches(k.Disk(), store, id);
      Catalog.RemoveKeepsValid(store, id);
      var removed := Storage.Remove(k, found.value);
      store := Catalog.Remove(store, id);
      if removed.Err? {
        return Err(removed.Errno());
      }
      r := Ok(());
    }

    /** volume::get_name */
    method GetName(name: Octets) returns (r: Result<seq<Octets>>)
      requires Valid()
      modifies k
      ensures Valid() && k.fds == old(k.fds)
      ensures r == if name in store.lists then Ok(store.lists[name]) else Err(ENOENT)
    {
      hide Drain, Linkage, ImageOf, Kernel.Valid, Catalog.Valid;
      assert NameFile(name) in k.Disk() <==> Catalog.HasFile(store, NameFile(name));
      if name in store.lists {
        ListReadsBack(k.Disk(), store, name);
      }
      r := ByName(k, name);
    }

    /** volume::get_id: by_id, and once it succeeded, by_id again. */
    method GetId(id: Octets) returns (r: Result<Object>)
      requires Valid()
      modifies k
      ensures Valid() && k.fds == old(k.fds)
      ensures r == if id in store.objs then Ok(Object(id, store.objs[id].name)) else Err(ENOENT)
    {
      hide NextLine, Linkage, ImageOf, Kernel.Valid, Catalog.Valid, Catalog.Matches;
      NameReadsBack(k.Disk(), store, id);
      var first := ById(k, id);
      if first.Err? {
        return Err(first.Errno());
      }
      r := ById(k, id);
    }

    /** object::details of an object this volume returned: its size. */
    method Details(obj: Object) returns (r: Result<nat>)
      requires Valid()
      ensures r == if obj.id in store.objs then Ok(|store.objs[obj.id].data|) else Err(ENOENT)
    {
      hide Linkage, ImageOf, Kernel.Valid, Catalog.Valid, Catalog.Matches;
      DataReadsBack(k.Disk(), store, obj.id);
      r := Storage.Details(k, obj);
    }
  }

  /** The second half of volume::store: the object is looked up, and its data file written. */
  method Fill(k: Kernel, id: Octets, data: Octets) returns (errno: int)
    requires Idle(k)
    modifies k
    ensures Idle(k) && k.fds == old(k.fds)
    ensures !(IdFile(id) in old(k.Disk()) && DataFile(id) in old(k.Disk())) ==>
      errno == ENOENT && k.Disk() == old(k.Disk())
    ensures IdFile(id) in old(k.Disk()) && DataFile(id) in old(k.Disk()) ==>
      && errno == 0
      && k.Disk() == old(k.Disk())[DataFile(id) := WriteAt(old(k.Disk())[DataFile(id)], 0, data)]
  {
    hide NextLine, WriteAt, Linkage, ImageOf, Kernel.Valid;
    var found := ById(k, id);
    if found.Err? {
      return found.errno;
    }
    errno := WriteData(k, found.value, data);
  }

  /** Open the object's data file, move the stream out of the result, write from the start, close. */
  method WriteData(k: Kernel, obj: Object, data: Octets) returns (errno: int)
    requires Idle(k)
    modifies k
    ensures Idle(k) && k.fds == old(k.fds)
    ensures DataFile(obj.id) !in old(k.Disk()) ==> errno == ENOENT && k.Disk() == old(k.Disk())
    ensures DataFile(obj.id) in old(k.Disk()) ==>
      && errno == 0
      && k.Disk() == old(k.Disk())[DataFile(obj.id) := WriteAt(old(k.Disk())[DataFile(obj.id)], 0, data)]
  {
    hide Linkage, ImageOf, LowestFree, WriteAt, Kernel.Valid;
    var stream := new FlStream.Unopened();
    var got := Get(k, obj, WRONLY);
    NoDescriptor(k);
    if got.Err? {
      stream.Close(k);
      return got.Errno();
    }
    stream.MoveFrom(k, got.value);
    StoredContent(k.bytes, k.links, DataFile(obj.id));
    ImageStored(k.bytes, k.links, DataFile(obj.id), WriteAt(k.Disk()[DataFile(obj.id)], 0, data));
    stream.Put(k, data);
    ClosedAgain(old(k.fds), stream.fd, k.fds[stream.fd]);
    stream.Close(k);
    NoDescriptor(k);
    got.value.Close(k);
    errno := 0;
  }

  /** The number of a stream that has none is never open. */
  lemma NoDescriptor(k: Kernel)
    requires k.Valid()
    ensures -1 !in k.fds
  {
  }
}
