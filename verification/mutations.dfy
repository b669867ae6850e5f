/** The steps that change files or history, against the shared facts and the other processes. */
module Mutations {
  import opened Bytes
  import opened Lines
  import opened Paths
  import opened Processes
  import opened Invariants
  import opened Frames
  import opened Effects

  /** What all of these steps have in common for the process that makes them. */
  ghost predicate Advances(s: State, t: State, p: Pid) {
    && p in s.procs && OthersSame(s, t, p) && Locks(t)
    && CreatorKept(s, t, p) && CreatorAdvances(s, t, p) && UnlisterKept(s, t, p)
  }

  lemma GotoAdvances(s: State, t: State, p: Pid)
    requires Locks(s) && p in s.procs && p in t.procs && OthersSame(s, t, p)
    requires t.writer == s.writer && t.readers == s.readers
    requires Follows(s.procs[p], t.procs[p]) && SameHolds(s.procs[p], t.procs[p])
    ensures Advances(s, t, p)
  {
    hide HoldsWrite, HoldsRead, Follows, CreatorKept, CreatorAdvances, UnlisterKept;
    FollowingKeepsRoles(s, t, p);
    LocksChange(s, t, p);
  }

  /** Nobody but `p` relies on the content of `i`. */
  ghost predicate Exclusive(s: State, p: Pid, i: Ino) {
    forall q :: q in s.procs && q != p ==>
      !Holds(s.procs[q], i) && (s.procs[q].Creating? && HasIdFile(s.procs[q].cat) ==> s.procs[q].idIno != i)
  }

  lemma SameListsGrow(s: State, t: State)
    requires t.home == s.home && t.lists == s.lists && t.born == s.born && t.created == s.created
    requires (forall i :: i in s.bytes ==> i in t.bytes) && (forall id :: id in s.doomed ==> id in t.doomed)
    requires forall id :: id in s.used ==> id in t.used && t.used[id] == s.used[id]
    ensures Grows(s, t)
  {
  }

  // ---- writing to an inode ----

  ghost predicate OnlyStores(s: State, t: State, i: Ino) {
    && t.links == s.links && t.next == s.next && t.home == s.home && t.lists == s.lists && SameHistory(s, t)
    && t.writer == s.writer && t.readers == s.readers
    && (forall j :: j in t.bytes <==> j in s.bytes)
    && (forall j :: j != i ==> Content(t, j) == Content(s, j))
  }

  /** One write to `i` by `p`, which then stands at `d`. */
  function Wrote(s: State, p: Pid, i: Ino, content: Octets, d: Proc): State {
    Goto(Store(s, i, content), p, d)
  }

  lemma WroteFacts(s: State, p: Pid, i: Ino, content: Octets, d: Proc)
    requires p in s.procs && i in s.bytes
    ensures var t := Wrote(s, p, i, content, d);
            && OnlyStores(s, t, i) && Content(t, i) == content && OthersSame(s, t, p)
            && p in t.procs && t.procs[p] == d && t.writer == s.writer && t.readers == s.readers
  {
  }

  lemma StoreRespects(s: State, t: State, p: Pid, i: Ino)
    requires OnlyStores(s, t, i) && Exclusive(s, p, i) && OthersSame(s, t, p)
    ensures forall q :: q in s.procs && q != p ==> Respects(s, t, q)
  {
  }

  lemma StoreSound(s: State, t: State, p: Pid)
    requires Sound(s) && OthersSame(s, t, p) && UnlisterKept(s, t, p)
    requires t.lists == s.lists && t.links == s.links && t.home == s.home && t.doomed == s.doomed
    ensures Sound(t)
  {
    forall i, id | i in t.lists && id in t.lists[i] && id in t.doomed && Linked(t, i)
      ensures WillUnlist(t, t.doomed[id], id, i)
    {
      assert Linked(s, i);
      assert WillUnlist(s, s.doomed[id], id, i);
    }
  }

  lemma StoreGood(s: State, t: State, p: Pid, i: Ino)
    requires Shared(s) && Advances(s, t, p) && OnlyStores(s, t, i) && Exclusive(s, p, i)
    requires i in s.home && (i in s.lists ==> i in s.writer)
    requires s.home[i].IdFile? ==> s.home[i].id !in s.created
    requires Owns(s, p, s.home[i])
    ensures Good(s, t, p)
  {
    hide Shape, Locks, Ids, ListsOk, Quiet, Inodes, Lives, Sound, Complete, Unorphaned;
    hide OthersSame, CreatorKept, CreatorAdvances, UnlisterKept, WillUnlist, Respects, Exclusive, Owns, Spares, Grows;
    SameListsGrow(s, t);
    StoreSpares(s, t, p, i);
    ShapeSame(s, t);
    IdsSame(s, t, p);
    ListsSame(s, t);
    QuietChange(s, t);
    InodesChange(s, t, p);
    LivesSame(s, t);
    CompleteSame(s, t);
    UnorphanedSame(s, t);
    StoreSound(s, t, p);
    StoreRespects(s, t, p, i);
  }

  /** A writer of `i` shares it with nobody. */
  lemma WriterIsExclusive(s: State, p: Pid, i: Ino)
    requires Locks(s) && Procs(s) && Writing(s, p, i)
    requires i in s.lists && Shape(s)
    ensures Exclusive(s, p, i)
  {
    forall q | q in s.procs && q != p
      ensures !Holds(s.procs[q], i) && (s.procs[q].Creating? && HasIdFile(s.procs[q].cat) ==> s.procs[q].idIno != i)
    {
      assert WriterIs(s, p, i);
      assert !WriterIs(s, q, i);
      assert !Writing(s, q, i) && !Reading(s, q, i);
      assert ProcOk(s, q, s.procs[q]);
    }
  }

  // ---- a new directory entry ----

  /** `t` is `s` after open created `path`; only history and the process may differ besides. */
  ghost predicate OnlyAllocates(s: State, t: State, path: Path) {
    && path !in s.links
    && var u := Allocate(s, path);
    && t.bytes == u.bytes && t.links == u.links && t.next == u.next && t.home == u.home && t.lists == u.lists
    && t.writer == s.writer && t.readers == s.readers
    && t.used == s.used && t.created == s.created && t.doomed == s.doomed && t.emptied == s.emptied
  }

  /** Every inode another process refers to is allocated. */
  ghost predicate Bound(s: State, p: Pid) {
    forall q :: q in s.procs && q != p ==>
      && (forall i :: Holds(s.procs[q], i) ==> i in s.bytes)
      && (s.procs[q].Creating? && HasIdFile(s.procs[q].cat) ==> s.procs[q].idIno in s.bytes)
  }

  lemma ProcsAreBound(s: State, p: Pid)
    requires Shape(s) && Procs(s)
    ensures Bound(s, p)
  {
    forall q | q in s.procs && q != p
      ensures (forall i :: Holds(s.procs[q], i) ==> i in s.bytes)
      ensures s.procs[q].Creating? && HasIdFile(s.procs[q].cat) ==> s.procs[q].idIno in s.bytes
    {
      assert ProcOk(s, q, s.procs[q]);
    }
  }

  lemma AllocateKeepsLocked(s: State, t: State, path: Path, c: Proc)
    requires Shape(s) && OnlyAllocates(s, t, path)
    requires forall i :: Holds(c, i) ==> i in s.bytes
    ensures LocksHold(s, t, c)
  {
    hide Holds;
  }

  lemma AllocateRespects(s: State, t: State, p: Pid, path: Path)
    requires Shape(s) && OnlyAllocates(s, t, path) && OthersSame(s, t, p) && Bound(s, p)
    requires forall q :: q in s.procs && q != p && s.procs[q].Creating? ==>
      (s.procs[q].id in t.born ==> s.procs[q].id in s.born)
    ensures forall q :: q in s.procs && q != p ==> Respects(s, t, q)
  {
    forall q | q in s.procs && q != p ensures Respects(s, t, q) {
      var c := s.procs[q];
      AllocateKeepsLocked(s, t, path, c);
      assert c.Creating? ==> OwnIdHolds(s, t, c);
    }
  }

  lemma AllocateOffers(s: State, t: State, path: Path)
    requires Shape(s) && OnlyAllocates(s, t, path)
    requires forall id :: id in s.born ==> id in t.born && t.born[id] == s.born[id]
    ensures forall id :: Offered(s, id) ==> Offered(t, id)
  {
    forall id | Offered(s, id) ensures Offered(t, id) {
      assert id in s.created || s.born[id] in s.home;
    }
  }

  lemma AllocateGrows(s: State, t: State, path: Path)
    requires Shape(s) && OnlyAllocates(s, t, path)
    requires forall id :: id in s.born ==> id in t.born && t.born[id] == s.born[id]
    ensures Grows(s, t)
  {
    hide Offered;
    AllocateOffers(s, t, path);
  }

  lemma AllocateShape(s: State, t: State, path: Path)
    requires Shape(s) && OnlyAllocates(s, t, path)
    ensures Shape(t)
  {
    ShapeAllocate(s, path);
  }

  lemma AllocateSound(s: State, t: State, p: Pid, path: Path)
    requires Shape(s) && Sound(s) && OnlyAllocates(s, t, path) && OthersSame(s, t, p) && UnlisterKept(s, t, p)
    ensures Sound(t)
  {
    forall i, id | i in t.lists && id in t.lists[i] && id in t.doomed && Linked(t, i)
      ensures WillUnlist(t, t.doomed[id], id, i)
    {
      assert i != s.next;
      assert Linked(s, i);
      assert WillUnlist(s, s.doomed[id], id, i);
    }
  }

  lemma AllocateUnorphaned(s: State, t: State, path: Path)
    requires Shape(s) && Unorphaned(s) && OnlyAllocates(s, t, path)
    ensures Unorphaned(t)
  {
    forall i, n | IsNameInode(t, i, n) && n !in t.emptied ensures Linked(t, i) {
      if i != s.next {
        assert IsNameInode(s, i, n);
      }
    }
  }

  lemma AllocateLists(s: State, t: State, path: Path)
    requires Shape(s) && ListsOk(s) && Quiet(s) && Complete(s) && OnlyAllocates(s, t, path) && Grows(s, t)
    ensures ListsOk(t) && Quiet(t) && Complete(t)
  {
    hide ListsOk, Quiet, Complete, Grows;
    ListsSame(s, t);
    QuietChange(s, t);
    CompleteSame(s, t);
  }

  lemma AllocateLives(s: State, t: State, path: Path)
    requires Lives(s) && OnlyAllocates(s, t, path)
    requires path.IdFile? ==> path.id !in s.doomed
    ensures Lives(t)
  {
    hide Lives;
    LivesSame(s, t);
  }

  lemma AllocateInodes(s: State, t: State, p: Pid, path: Path)
    requires Shape(s) && Ids(s) && Inodes(s) && OnlyAllocates(s, t, path) && Grows(s, t)
    requires OthersSame(s, t, p) && CreatorKept(s, t, p) && CreatorAdvances(s, t, p)
    requires path.IdFile? ==> s.next in t.home && t.home[s.next] == path && IdInode(t, s.next)
    requires path.DataFile? ==> s.next in t.home && t.home[s.next] == path && DataInode(t, s.next)
    ensures Inodes(t)
  {
    hide Ids, Inodes, Grows, OthersSame, CreatorKept, CreatorAdvances, IdInode, DataInode;
    InodesChange(s, t, p);
  }

  lemma AllocateGood(s: State, t: State, p: Pid, path: Path)
    requires Shared(s) && Bound(s, p) && Advances(s, t, p) && OnlyAllocates(s, t, path)
    requires Grows(s, t) && Ids(t)
    requires forall q :: q in s.procs && q != p && s.procs[q].Creating? ==>
      (s.procs[q].id in t.born ==> s.procs[q].id in s.born)
    requires path.IdFile? ==> s.next in t.home && t.home[s.next] == path && IdInode(t, s.next) && path.id !in s.doomed
    requires path.DataFile? ==> s.next in t.home && t.home[s.next] == path && DataInode(t, s.next)
    requires Owns(s, p, path)
    ensures Good(s, t, p)
  {
    hide Shape, Locks, Ids, ListsOk, Quiet, Inodes, Lives, Sound, Complete, Unorphaned, OthersSame, OnlyAllocates;
    hide Grows, Bound, CreatorKept, CreatorAdvances, UnlisterKept, WillUnlist, Respects, IdInode, DataInode;
    hide Owns, Spares;
    AllocateShape(s, t, path);
    AllocateLists(s, t, path);
    AllocateInodes(s, t, p, path);
    AllocateLives(s, t, path);
    AllocateUnorphaned(s, t, path);
    AllocateSound(s, t, p, path);
    AllocateRespects(s, t, p, path);
    AllocateSpares(s, t, p, path);
  }

  lemma AllocateSpares(s: State, t: State, p: Pid, path: Path)
    requires Shape(s) && OnlyAllocates(s, t, path) && Owns(s, p, path)
    ensures Spares(s, t, p)
  {
    RelinkSpares(s, t, p, path);
  }

  // ---- the list of a name file changes ----

  /** `p` holds `i`, rewrites it, and its list becomes `list`. */
  ghost predicate OnlyRelists(s: State, t: State, i: Ino, list: seq<Id>) {
    && i in s.lists && t.lists == s.lists[i := list]
    && t.links == s.links && t.next == s.next && t.home == s.home && SameHistory(s, t)
    && t.writer == s.writer && t.readers == s.readers
    && (forall j :: j in t.bytes <==> j in s.bytes)
    && (forall j :: j != i ==> Content(t, j) == Content(s, j))
  }

  lemma RelistRespects(s: State, t: State, p: Pid, i: Ino, list: seq<Id>)
    requires OnlyRelists(s, t, i, list) && Exclusive(s, p, i) && OthersSame(s, t, p)
    requires forall q :: q in s.procs && q != p && s.procs[q].Creating? ==>
      (s.procs[q].id in list <==> s.procs[q].id in s.lists[i])
    ensures forall q :: q in s.procs && q != p ==> Respects(s, t, q)
  {
  }

  lemma RelistInodes(s: State, t: State, p: Pid, i: Ino, list: seq<Id>)
    requires Shape(s) && Ids(s) && Inodes(s) && OnlyRelists(s, t, i, list) && Grows(s, t)
    requires OthersSame(s, t, p) && CreatorKept(s, t, p) && CreatorAdvances(s, t, p)
    ensures Inodes(t)
  {
    hide Ids, Inodes, Grows, OthersSame, CreatorKept, CreatorAdvances, IdInode, DataInode;
    InodesChange(s, t, p);
  }

  lemma RelistGrows(s: State, t: State, i: Ino, list: seq<Id>)
    requires Ids(s) && OnlyRelists(s, t, i, list)
    requires forall id :: id in s.lists[i] && id !in list ==> id in s.doomed
    ensures Grows(s, t)
  {
    forall id | Offered(s, id) ensures Offered(t, id) {
      if id !in s.created && s.born[id] == i {
        assert id !in s.doomed;
      }
    }
  }

  lemma RelistFiles(s: State, t: State, i: Ino, list: seq<Id>)
    requires Shape(s) && Lives(s) && Unorphaned(s) && OnlyRelists(s, t, i, list)
    ensures Shape(t) && Lives(t) && Unorphaned(t)
  {
    hide Shape, Lives, Unorphaned;
    ShapeSame(s, t);
    LivesSame(s, t);
    UnorphanedSame(s, t);
  }

  lemma RelistLists(s: State, t: State, i: Ino, list: seq<Id>)
    requires ListsOk(s) && Quiet(s) && Complete(s) && OnlyRelists(s, t, i, list) && i in s.writer
    requires Distinct(list) && forall id :: id in list ==> id in s.born && s.born[id] == i
    requires forall id :: id in s.lists[i] && id !in list ==> id in s.doomed
    ensures ListsOk(t) && Quiet(t) && Complete(t)
  {
  }

  lemma RelistSpares(s: State, t: State, p: Pid, i: Ino, list: seq<Id>)
    requires Shape(s) && OnlyRelists(s, t, i, list)
    ensures Spares(s, t, p)
  {
    StoreSpares(s, t, p, i);
  }

  lemma RelistGood(s: State, t: State, p: Pid, i: Ino, list: seq<Id>)
    requires Shared(s) && p in s.procs && OthersSame(s, t, p) && OnlyRelists(s, t, i, list) && Exclusive(s, p, i)
    requires Locks(t) && Sound(t) && CreatorKept(s, t, p) && CreatorAdvances(s, t, p)
    requires i in s.writer
    requires Distinct(list) && forall id :: id in list ==> id in s.born && s.born[id] == i
    requires forall id :: id in s.lists[i] && id !in list ==> id in s.doomed
    requires forall q :: q in s.procs && q != p && s.procs[q].Creating? ==>
      (s.procs[q].id in list <==> s.procs[q].id in s.lists[i])
    ensures Good(s, t, p)
  {
    hide Shape, Locks, Ids, ListsOk, Quiet, Inodes, Lives, Sound, Complete, Unorphaned, OthersSame;
    hide Grows, Exclusive, CreatorKept, CreatorAdvances, Respects, Distinct, Spares;
    RelistSpares(s, t, p, i, list);
    RelistGrows(s, t, i, list);
    RelistFiles(s, t, i, list);
    assert Ids(t) by { IdsSame(s, t, p); }
    RelistInodes(s, t, p, i, list);
    RelistLists(s, t, i, list);
    RelistRespects(s, t, p, i, list);
  }

  // ---- a directory entry goes away ----

  /** `path` is unlinked; an id file's id becomes doomed, a name file's name emptied. */
  ghost predicate OnlyUnlinks(s: State, t: State, path: Path, p: Pid) {
    && t.bytes == s.bytes && t.next == s.next && t.home == s.home && t.lists == s.lists
    && t.links == s.links - {path}
    && t.writer == s.writer && t.readers == s.readers
    && t.used == s.used && t.born == s.born && t.created == s.created
    && t.doomed == (if path.IdFile? then s.doomed[path.id := p] else s.doomed)
    && t.emptied == (if path.NameFile? then s.emptied + {path.name} else s.emptied)
  }

  /** The ids whose files go away are ids that some create has returned. */
  ghost predicate Removable(s: State, path: Path) {
    match path
    case IdFile(id) => id in s.created
    case DataFile(id) => id in s.doomed
    case NameFile(_) => true
  }

  lemma UnlinkRespects(s: State, t: State, path: Path, p: Pid)
    requires OnlyUnlinks(s, t, path, p) && Removable(s, path) && OthersSame(s, t, p)
    requires forall id :: id in s.doomed ==> id in s.created
    requires forall q :: q in s.procs && s.procs[q].Creating? ==> s.procs[q].id !in s.created
    ensures forall q :: q in s.procs && q != p ==> Respects(s, t, q)
  {
  }

  lemma CreatorsAreAtWork(s: State)
    requires Ids(s) && Procs(s)
    ensures forall id :: id in s.doomed ==> id in s.created
    ensures forall q :: q in s.procs && s.procs[q].Creating? ==> s.procs[q].id !in s.created
  {
    forall q | q in s.procs && s.procs[q].Creating? ensures s.procs[q].id !in s.created {
      assert ProcOk(s, q, s.procs[q]);
    }
  }

  lemma UnlinkShape(s: State, t: State, path: Path, p: Pid)
    requires Shape(s) && OnlyUnlinks(s, t, path, p)
    ensures Shape(t) && Grows(s, t)
  {
    hide Shape, Grows;
    ShapeSame(s, t);
    SameListsGrow(s, t);
  }

  lemma UnlinkLives(s: State, t: State, path: Path, p: Pid)
    requires Lives(s) && OnlyUnlinks(s, t, path, p) && Removable(s, path)
    ensures Lives(t)
  {
    forall id | id in t.created && id !in t.doomed ensures Present(t, id) {
      assert Present(s, id);
    }
  }

  lemma UnlinkUnorphaned(s: State, t: State, path: Path, p: Pid)
    requires Unorphaned(s) && OnlyUnlinks(s, t, path, p)
    ensures Unorphaned(t)
  {
    forall i, n | IsNameInode(t, i, n) && n !in t.emptied ensures Linked(t, i) {
      assert IsNameInode(s, i, n);
      assert Linked(s, i);
    }
  }

  lemma UnlinkIds(s: State, t: State, path: Path, p: Pid)
    requires Shape(s) && Ids(s) && OnlyUnlinks(s, t, path, p) && Removable(s, path)
    requires OthersSame(s, t, p) && CreatorKept(s, t, p)
    ensures Ids(t)
  {
    hide Offered, NameOf, IsName;
    assert Grows(s, t) by { SameListsGrow(s, t); }
    NamesStay(s, t);
    forall id | id in t.used && id !in t.created ensures CreatorAtWork(t, id) {
      CreatorStays(s, t, p, id);
    }
  }

  lemma UnlinkInodes(s: State, t: State, path: Path, p: Pid)
    requires Shape(s) && Ids(s) && Inodes(s) && OnlyUnlinks(s, t, path, p) && Grows(s, t)
    requires OthersSame(s, t, p) && CreatorKept(s, t, p) && CreatorAdvances(s, t, p)
    ensures Inodes(t)
  {
    hide Ids, Inodes, Grows, OthersSame, CreatorKept, CreatorAdvances, IdInode, DataInode;
    InodesChange(s, t, p);
  }

  lemma UnlinkLists(s: State, t: State, path: Path, p: Pid)
    requires ListsOk(s) && Quiet(s) && Complete(s) && OnlyUnlinks(s, t, path, p)
    ensures ListsOk(t) && Quiet(t) && Complete(t)
  {
  }

  lemma UnlinkSound(s: State, t: State, path: Path, p: Pid)
    requires Shape(s) && Sound(s) && OnlyUnlinks(s, t, path, p) && OthersSame(s, t, p) && UnlisterKept(s, t, p)
    requires path.IdFile? ==> forall i :: WillUnlist(t, p, path.id, i)
    ensures Sound(t)
  {
    forall i, id | i in t.lists && id in t.lists[i] && id in t.doomed && Linked(t, i)
      ensures WillUnlist(t, t.doomed[id], id, i)
    {
      if path != IdFile(id) {
        assert Linked(s, i);
        assert WillUnlist(s, s.doomed[id], id, i);
      }
    }
  }

  lemma UnlinkSpares(s: State, t: State, path: Path, p: Pid)
    requires Shape(s) && OnlyUnlinks(s, t, path, p) && Owns(s, p, path)
    ensures Spares(s, t, p)
  {
    RelinkSpares(s, t, p, path);
  }

  lemma UnlinkGood(s: State, t: State, path: Path, p: Pid)
    requires Inv(s) && Advances(s, t, p) && OnlyUnlinks(s, t, path, p) && Removable(s, path)
    requires path.IdFile? ==> forall i :: WillUnlist(t, p, path.id, i)
    requires Owns(s, p, path)
    ensures Good(s, t, p)
  {
    hide Shape, Locks, Ids, ListsOk, Quiet, Inodes, Lives, Sound, Complete, Unorphaned, OthersSame, OnlyUnlinks;
    hide Grows, CreatorKept, CreatorAdvances, UnlisterKept, WillUnlist, Respects, Procs, Removable, Owns, Spares;
    UnlinkSpares(s, t, path, p);
    UnlinkShape(s, t, path, p);
    UnlinkLives(s, t, path, p);
    UnlinkIds(s, t, path, p);
    UnlinkInodes(s, t, path, p);
    UnlinkLists(s, t, path, p);
    UnlinkUnorphaned(s, t, path, p);
    UnlinkSound(s, t, path, p);
    CreatorsAreAtWork(s);
    UnlinkRespects(s, t, path, p);
  }
}
