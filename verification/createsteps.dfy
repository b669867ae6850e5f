/** Every system call of create keeps the invariant. */
module CreateSteps {
  import opened Bytes
  import opened Lines
  import opened Paths
  import opened Processes
  import opened Invariants
  import opened Frames
  import opened Effects
  import opened Mutations
  import opened ReadSteps
  import opened RemoveSteps

  /** Two creates never share an id. */
  lemma CreatorsDiffer(s: State, p: Pid)
    requires Procs(s) && p in s.procs && s.procs[p].Creating?
    ensures forall q :: q in s.procs && q != p && s.procs[q].Creating? ==> s.procs[q].id != s.procs[p].id
  {
    assert ProcOk(s, p, s.procs[p]);
    forall q | q in s.procs && q != p && s.procs[q].Creating? ensures s.procs[q].id != s.procs[p].id {
      assert ProcOk(s, q, s.procs[q]);
    }
  }

  // ---- the name file is opened: the id gets the inode it will be listed in ----

  lemma BornIds(s: State, t: State, p: Pid, id: Id, i: Ino)
    requires Shape(s) && Ids(s) && Grows(s, t) && OthersSame(s, t, p) && CreatorKept(s, t, p)
    requires t.used == s.used && t.created == s.created && t.doomed == s.doomed
    requires id in s.used && t.born == s.born[id := i] && i in t.lists && IsName(NameOf(t, id))
    ensures Ids(t)
  {
    NamesStay(s, t);
    forall x | x in t.used && x !in t.created ensures CreatorAtWork(t, x) {
      CreatorStays(s, t, p, x);
    }
    forall x | x in t.born ensures t.born[x] in t.lists && IsName(NameOf(t, x)) {
      assert x != id ==> s.born[x] in s.lists && IsName(NameOf(s, x));
    }
    hide NameOf, IsName, CreatorAtWork, CreatorKept, OthersSame, Shape;
  }

  ghost predicate OnlyBears(s: State, t: State, id: Id, i: Ino) {
    && SameFiles(s, t) && t.writer == s.writer && t.readers == s.readers
    && t.used == s.used && t.created == s.created && t.doomed == s.doomed && t.emptied == s.emptied
    && t.born == s.born[id := i] && id !in s.born
  }

  lemma BearFiles(s: State, t: State, id: Id, i: Ino)
    requires Shape(s) && Lives(s) && Unorphaned(s) && Quiet(s) && OnlyBears(s, t, id, i)
    ensures Shape(t) && Lives(t) && Unorphaned(t) && Quiet(t) && Grows(s, t)
  {
    hide Shape, Lives, Unorphaned, Quiet;
    ShapeSame(s, t);
    LivesSame(s, t);
    UnorphanedSame(s, t);
    QuietChange(s, t);
  }

  lemma BearInodes(s: State, t: State, p: Pid, id: Id, i: Ino)
    requires Shape(s) && Ids(s) && Inodes(s) && OnlyBears(s, t, id, i) && Grows(s, t)
    requires OthersSame(s, t, p) && CreatorKept(s, t, p) && CreatorAdvances(s, t, p)
    ensures Inodes(t)
  {
    hide Ids, Inodes, Grows, OthersSame, CreatorKept, CreatorAdvances, IdInode, DataInode;
    InodesChange(s, t, p);
  }

  lemma BearRespects(s: State, t: State, p: Pid, id: Id, i: Ino)
    requires OnlyBears(s, t, id, i) && OthersSame(s, t, p)
    requires forall q :: q in s.procs && q != p && s.procs[q].Creating? ==> s.procs[q].id != id
    ensures forall q :: q in s.procs && q != p ==> Respects(s, t, q)
  {
  }

  lemma BearGood(s: State, t: State, p: Pid, id: Id, i: Ino)
    requires Shared(s) && Advances(s, t, p) && OnlyBears(s, t, id, i)
    requires id in s.used && i in s.lists && IsName(NameOf(t, id))
    requires forall q :: q in s.procs && q != p && s.procs[q].Creating? ==> s.procs[q].id != id
    ensures Good(s, t, p)
  {
    hide Shape, Locks, Ids, ListsOk, Quiet, Inodes, Lives, Sound, Complete, Unorphaned, OthersSame;
    hide CreatorKept, CreatorAdvances, UnlisterKept, Respects, NameOf, IsName, Spares;
    SameFilesSpare(s, t, p);
    BearFiles(s, t, id, i);
    hide Grows;
    BornIds(s, t, p, id, i);
    ListsSame(s, t);
    BearInodes(s, t, p, id, i);
    CompleteSame(s, t);
    StoreSound(s, t, p);
    BearRespects(s, t, p, id, i);
  }

  lemma UnbornUnlisted(s: State, id: Id, i: Ino)
    requires ListsOk(s) && id !in s.born
    ensures id !in ListOf(s, i)
  {
  }

  /** Opening a name file that exists only gives the id its birth place. */
  lemma OldNameIs(s: State, p: Pid, c: Proc)
    requires c.Creating? && c.cat == OpenName && NameFile(c.name) in s.links && p in s.procs && c.id !in s.born
    ensures var t, i := CreateStep(s, p, c), s.links[NameFile(c.name)];
            && OnlyBears(s, t, c.id, i) && OthersSame(s, t, p)
            && p in t.procs && t.procs[p] == c.(cat := LockName, ino := i)
  {
  }

  lemma NewNameIs(s: State, p: Pid, c: Proc)
    requires c.Creating? && c.cat == OpenName && NameFile(c.name) !in s.links && p in s.procs
    ensures var t := CreateStep(s, p, c);
            && OnlyAllocates(s, t, NameFile(c.name)) && t.born == s.born[c.id := s.next] && OthersSame(s, t, p)
            && p in t.procs && t.procs[p] == c.(cat := LockName, ino := s.next)
  {
  }

  lemma OpeningFollows(c: Proc, d: Proc)
    requires c.Creating? && c.cat == OpenName && d.Creating? && d.cat == LockName && d.id == c.id
    ensures Follows(c, d) && SameHolds(c, d)
  {
  }

  lemma OpenedNameOk(s: State, t: State, p: Pid, c: Proc, d: Proc)
    requires c.Creating? && c.cat == OpenName && CreatingOk(s, p, c) && d.Creating?
    requires t.used == s.used && t.created == s.created && t.born == s.born[c.id := d.ino]
    requires d == c.(cat := LockName, ino := d.ino) && IsNameInode(t, d.ino, c.name) && c.id !in ListOf(t, d.ino)
    ensures ProcOk(t, p, d)
  {
  }

  lemma OpensOldName(s: State, p: Pid, c: Proc)
    requires AtWork(s, p, c) && c.Creating? && c.cat == OpenName && NameFile(c.name) in s.links
    ensures Kept(s, CreateStep(s, p, c), p)
  {
    hide Shape, Locks, Ids, ListsOk, Quiet, Inodes, Lives, Sound, Complete, Unorphaned, Procs, Good, Advances;
    hide CreateStep, Follows, SameHolds, OthersSame;
    OwnFacts(s, p);
    CreatorsDiffer(s, p);
    var t := CreateStep(s, p, c);
    var i := s.links[NameFile(c.name)];
    OldNameIs(s, p, c);
    NameIsLinked(s, NameFile(c.name));
    UnbornUnlisted(s, c.id, i);
    OpeningFollows(c, t.procs[p]);
    GotoAdvances(s, t, p);
    OpenedNameOk(s, t, p, c, t.procs[p]);
    hide CreatingOk, ProcOk;
    BearGood(s, t, p, c.id, i);
    GoodStep(s, t, p);
  }

  lemma NameIsLinked(s: State, path: Path)
    requires Shape(s) && path.NameFile? && path in s.links
    ensures IsNameInode(s, s.links[path], path.name)
  {
  }

  lemma OpensNewName(s: State, p: Pid, c: Proc)
    requires AtWork(s, p, c) && c.Creating? && c.cat == OpenName && NameFile(c.name) !in s.links
    ensures Kept(s, CreateStep(s, p, c), p)
  {
    hide Shape, Locks, Ids, ListsOk, Quiet, Inodes, Lives, Sound, Complete, Unorphaned, Procs, Good, Advances;
    hide Bound, Grows, CreateStep, Follows, SameHolds, OthersSame;
    OwnFacts(s, p);
    CreatorsDiffer(s, p);
    ProcsAreBound(s, p);
    var t := CreateStep(s, p, c);
    var path := NameFile(c.name);
    NewNameIs(s, p, c);
    AllocateGrows(s, t, path);
    OpeningFollows(c, t.procs[p]);
    GotoAdvances(s, t, p);
    AdvancesParts(s, t, p);
    BornIds(s, t, p, c.id, s.next);
    OpenedNameOk(s, t, p, c, t.procs[p]);
    hide CreatingOk, ProcOk;
    AllocateGood(s, t, p, path);
    GoodStep(s, t, p);
  }

  lemma AdvancesParts(s: State, t: State, p: Pid)
    requires Advances(s, t, p)
    ensures p in s.procs && OthersSame(s, t, p) && Locks(t) && CreatorKept(s, t, p) && CreatorAdvances(s, t, p)
  {
  }

  // ---- the id file and the data file ----

  /** Before its creator opens them, an id has no files. */
  lemma NoFilesYet(s: State, p: Pid, c: Proc)
    requires Shape(s) && Inodes(s) && Procs(s) && p in s.procs && s.procs[p] == c && c.Creating?
    ensures !HasIdFile(c.cat) ==> IdFile(c.id) !in s.links
    ensures c.cat != Return ==> DataFile(c.id) !in s.links
    ensures CreatorAtWork(s, c.id) && c.id !in s.created
  {
    assert ProcOk(s, p, c);
    if IdFile(c.id) in s.links {
      assert IdInode(s, s.links[IdFile(c.id)]);
    }
    if DataFile(c.id) in s.links {
      assert DataInode(s, s.links[DataFile(c.id)]);
    }
  }

  lemma NotDoomed(s: State, id: Id)
    requires Ids(s) && id !in s.created
    ensures id !in s.doomed
  {
  }

  /** What opening one of an id's own files does. */
  ghost predicate OpensFile(s: State, t: State, p: Pid, c: Proc, path: Path) {
    && c.Creating? && OnlyAllocates(s, t, path) && t.born == s.born
    && ((c.cat == OpenId && path == IdFile(c.id) && t.procs == s.procs[p := c.(cat := LockId, idIno := s.next)])
        || (c.cat == OpenData && path == DataFile(c.id) && t.procs == s.procs[p := c.(cat := Return)]))
  }

  lemma OpenStepOpens(s: State, p: Pid, c: Proc, path: Path)
    requires c.Creating? && path !in s.links
    requires (c.cat == OpenId && path == IdFile(c.id)) || (c.cat == OpenData && path == DataFile(c.id))
    ensures OpensFile(s, CreateStep(s, p, c), p, c, path)
  {
  }

  /** The id file just opened is the one the create goes on with. */
  lemma OpenedIdOk(s: State, t: State, p: Pid, c: Proc, path: Path)
    requires Shape(s) && OpensFile(s, t, p, c, path) && c.cat == OpenId && CreatingOk(s, p, c)
    ensures CreatingOk(t, p, t.procs[p])
  {
    hide Join, IsName;
  }

  lemma OpenedFrame(s: State, t: State, p: Pid, c: Proc, path: Path, j: Ino)
    requires Shape(s) && OpensFile(s, t, p, c, path) && j in s.home
    ensures j in t.home && t.home[j] == s.home[j] && Content(t, j) == Content(s, j)
    ensures ListOf(t, j) == ListOf(s, j) && (j in s.lists ==> j in t.lists)
  {
  }

  lemma OpenedLinks(s: State, t: State, p: Pid, c: Proc, path: Path)
    requires OpensFile(s, t, p, c, path)
    ensures path in t.links && forall other :: other in s.links ==> other in t.links && t.links[other] == s.links[other]
    ensures t.used == s.used && t.created == s.created && t.born == s.born
  {
  }

  lemma OpenedDataOk(s: State, t: State, p: Pid, c: Proc, path: Path)
    requires Shape(s) && OpensFile(s, t, p, c, path) && c.cat == OpenData && CreatingOk(s, p, c)
    ensures CreatingOk(t, p, t.procs[p])
  {
    NameInodesInHome(s, p, c);
    OpenedFrame(s, t, p, c, path, c.ino);
    OpenedFrame(s, t, p, c, path, c.idIno);
    OpenedLinks(s, t, p, c, path);
    hide Join, IsName, Content, ListOf, OnlyAllocates, Shape, Allocate, SameHistory;
  }

  lemma NameInodesInHome(s: State, p: Pid, c: Proc)
    requires Shape(s) && c.Creating? && CreatingOk(s, p, c) && c.cat == OpenData
    ensures c.ino in s.home && c.ino in s.lists && c.idIno in s.home
  {
  }

  lemma OpenedInode(s: State, t: State, p: Pid, c: Proc, path: Path)
    requires Shape(s) && OpensFile(s, t, p, c, path) && CreatingOk(t, p, t.procs[p])
    ensures s.next in t.home && t.home[s.next] == path
    ensures path.IdFile? ==> IdInode(t, s.next)
    ensures path.DataFile? ==> DataInode(t, s.next)
  {
  }

  lemma FileIsOwned(s: State, t: State, p: Pid, c: Proc, path: Path)
    requires OpensFile(s, t, p, c, path) && p in s.procs && s.procs[p] == c
    ensures Owns(s, p, path) && OthersSame(s, t, p) && SameHistory(s, t)
    ensures p in t.procs && Follows(c, t.procs[p]) && SameHolds(c, t.procs[p])
  {
    hide OnlyAllocates, Allocate;
    assert SameHistory(s, t) by { AllocatesNoHistory(s, t, p, c, path); }
  }

  lemma AllocatesNoHistory(s: State, t: State, p: Pid, c: Proc, path: Path)
    requires OpensFile(s, t, p, c, path)
    ensures SameHistory(s, t)
  {
  }

  lemma OpensOwnFile(s: State, t: State, p: Pid, c: Proc, path: Path)
    requires AtWork(s, p, c) && OpensFile(s, t, p, c, path) && CreatingOk(t, p, t.procs[p])
    ensures Kept(s, t, p)
  {
    hide Shape, Locks, Ids, ListsOk, Quiet, Inodes, Lives, Sound, Complete, Unorphaned, Procs, Good, Advances;
    hide Bound, Grows, CreatingOk, IdInode, DataInode, Owns, OthersSame, Follows, SameHolds;
    OwnFacts(s, p);
    CreatorsDiffer(s, p);
    ProcsAreBound(s, p);
    NoFilesYet(s, p, c);
    NotDoomed(s, c.id);
    OpenedInode(s, t, p, c, path);
    FileIsOwned(s, t, p, c, path);
    AllocateGrows(s, t, path);
    GotoAdvances(s, t, p);
    AdvancesParts(s, t, p);
    IdsSame(s, t, p);
    AllocateGood(s, t, p, path);
    GoodStep(s, t, p);
  }

  lemma OpensId(s: State, p: Pid, c: Proc)
    requires AtWork(s, p, c) && c.Creating? && c.cat == OpenId
    ensures Kept(s, CreateStep(s, p, c), p)
  {
    hide Shape, Locks, Ids, ListsOk, Quiet, Inodes, Lives, Sound, Complete, Unorphaned, Procs, Kept, OpensFile;
    hide CreatingOk;
    OwnFacts(s, p);
    NoFilesYet(s, p, c);
    OpenStepOpens(s, p, c, IdFile(c.id));
    hide CreateStep;
    OpenedIdOk(s, CreateStep(s, p, c), p, c, IdFile(c.id));
    OpensOwnFile(s, CreateStep(s, p, c), p, c, IdFile(c.id));
  }

  lemma OpensData(s: State, p: Pid, c: Proc)
    requires AtWork(s, p, c) && c.Creating? && c.cat == OpenData
    ensures Kept(s, CreateStep(s, p, c), p)
  {
    hide Shape, Locks, Ids, ListsOk, Quiet, Inodes, Lives, Sound, Complete, Unorphaned, Procs, Kept, OpensFile;
    hide CreatingOk;
    OwnFacts(s, p);
    NoFilesYet(s, p, c);
    OpenStepOpens(s, p, c, DataFile(c.id));
    hide CreateStep;
    OpenedDataOk(s, CreateStep(s, p, c), p, c, DataFile(c.id));
    OpensOwnFile(s, CreateStep(s, p, c), p, c, DataFile(c.id));
  }

  // ---- locks ----

  lemma LocksName(s: State, p: Pid, c: Proc)
    requires AtWork(s, p, c) && c.Creating? && c.cat == LockName
    ensures Kept(s, CreateStep(s, p, c), p)
  {
    hide Shape, Locks, Ids, ListsOk, Quiet, Inodes, Lives, Sound, Complete, Unorphaned, Procs;
    OwnFacts(s, p);
    ReaderSeesList(s, p, c.ino);
    TakeWriteStep(s, p, c.ino, c.(cat := OpenId));
  }

  lemma LocksId(s: State, p: Pid, c: Proc)
    requires AtWork(s, p, c) && c.Creating? && c.cat == LockId
    ensures Kept(s, CreateStep(s, p, c), p)
  {
    hide Shape, Locks, Ids, ListsOk, Quiet, Inodes, Lives, Sound, Complete, Unorphaned, Procs;
    OwnFacts(s, p);
    TakeWriteStep(s, p, c.idIno, c.(cat := PutId));
  }

  lemma ClosesName(s: State, p: Pid, c: Proc)
    requires AtWork(s, p, c) && c.Creating? && c.cat == CloseName
    ensures Kept(s, CreateStep(s, p, c), p)
  {
    hide Shape, Locks, Ids, ListsOk, Quiet, Inodes, Lives, Sound, Complete, Unorphaned, Procs;
    OwnFacts(s, p);
    DropWriteStep(s, CreateStep(s, p, c), p, c.ino);
  }

  // ---- the two-write append ----

  lemma PutIdIs(s: State, p: Pid, c: Proc)
    requires c.Creating? && c.cat == PutId
    ensures CreateStep(s, p, c) == Wrote(s, p, c.ino, Content(s, c.ino) + c.id, c.(cat := PutSep))
  {
    hide Content;
  }

  lemma WritingFollows(c: Proc, d: Proc)
    requires c.Creating? && d.Creating? && d.id == c.id && d.ino == c.ino && d.idIno == c.idIno
    requires (c.cat == PutId && d.cat == PutSep) || (c.cat == PutName && d.cat == PutEnd)
          || (c.cat == PutEnd && d.cat == OpenData)
    ensures Follows(c, d) && SameHolds(c, d)
  {
  }

  lemma CreatingProcOk(s: State, p: Pid, d: Proc)
    requires d.Creating? && CreatingOk(s, p, d)
    ensures ProcOk(s, p, d)
  {
  }

  lemma IdWritten(s: State, t: State, p: Pid, c: Proc)
    requires c.Creating? && c.cat == PutId && CreatingOk(s, p, c) && Shape(s)
    requires OnlyStores(s, t, c.ino) && Content(t, c.ino) == Content(s, c.ino) + c.id
    ensures CreatingOk(t, p, c.(cat := PutSep))
  {
    StoreKeepsLists(s, t, c.ino);
    NothingPending(Join(ListOf(s, c.ino), SEPARATOR), c.id);
    hide Join, IsName, ListOf, Content;
  }

  lemma StoreKeepsLists(s: State, t: State, i: Ino)
    requires OnlyStores(s, t, i)
    ensures forall j :: ListOf(t, j) == ListOf(s, j)
  {
  }

  lemma NothingPending(b: Octets, id: Id)
    ensures b + [] + id == b + id
  {
  }

  lemma AppenderFacts(s: State, p: Pid, c: Proc)
    requires AtWork(s, p, c) && c.Creating? && c.cat == PutId
    ensures CreatingOk(s, p, c) && Shape(s) && c.ino in s.lists && c.ino in s.bytes && Writing(s, p, c.ino)
  {
    hide Locks, Ids, ListsOk, Quiet, Inodes, Lives, Sound, Complete, Unorphaned, Procs;
    OwnFacts(s, p);
  }

  lemma PutsId(s: State, p: Pid, c: Proc)
    requires AtWork(s, p, c) && c.Creating? && c.cat == PutId
    ensures Kept(s, CreateStep(s, p, c), p)
  {
    AppenderFacts(s, p, c);
    hide Inv, Shape, Kept, CreatingOk, CreateStep, Wrote, Content, AtWork, ProcOk, Follows, SameHolds, OnlyStores;
    hide Writing, OthersSame;
    PutIdIs(s, p, c);
    var content, d := Content(s, c.ino) + c.id, c.(cat := PutSep);
    WroteFacts(s, p, c.ino, content, d);
    IdWritten(s, Wrote(s, p, c.ino, content, d), p, c);
    WritingFollows(c, d);
    CreatingProcOk(Wrote(s, p, c.ino, content, d), p, d);
    HolderWrites(s, p, c, c.ino, content, d);
  }

  lemma PutSepSound(s: State, t: State, p: Pid, i: Ino, id: Id)
    requires Sound(s) && OthersSame(s, t, p) && UnlisterKept(s, t, p)
    requires OnlyRelists(s, t, i, ListOf(s, i) + [id]) && id !in s.doomed
    ensures Sound(t)
  {
    forall j, x | j in t.lists && x in t.lists[j] && x in t.doomed && Linked(t, j)
      ensures WillUnlist(t, t.doomed[x], x, j)
    {
      assert Linked(s, j);
      assert WillUnlist(s, s.doomed[x], x, j);
    }
  }

  lemma AppendedList(s: State, i: Ino, id: Id)
    requires ListsOk(s) && i in s.lists && id !in s.lists[i] && id in s.born && s.born[id] == i
    ensures var list := s.lists[i] + [id];
            Distinct(list) && forall x :: x in list ==> x in s.born && s.born[x] == i
  {
  }

  lemma AppendedOk(s: State, t: State, p: Pid, c: Proc)
    requires c.Creating? && c.cat == PutSep && CreatingOk(s, p, c)
    requires OnlyRelists(s, t, c.ino, ListOf(s, c.ino) + [c.id])
    requires Content(t, c.ino) == Content(s, c.ino) + [SEPARATOR]
    ensures CreatingOk(t, p, c.(cat := CloseName))
  {
    JoinOne(ListOf(s, c.ino), c.id, SEPARATOR);
  }

  lemma PutSepIs(s: State, p: Pid, c: Proc)
    requires c.Creating? && c.cat == PutSep && c.ino in s.lists && c.ino in s.bytes && p in s.procs
    ensures var t := CreateStep(s, p, c);
            && OnlyRelists(s, t, c.ino, ListOf(s, c.ino) + [c.id])
            && Content(t, c.ino) == Content(s, c.ino) + [SEPARATOR]
            && OthersSame(s, t, p) && p in t.procs && t.procs[p] == c.(cat := CloseName)
  {
  }

  lemma SepFollows(c: Proc)
    requires c.Creating? && c.cat == PutSep
    ensures Follows(c, c.(cat := CloseName)) && SameHolds(c, c.(cat := CloseName))
  {
  }

  lemma PutsSep(s: State, p: Pid, c: Proc)
    requires AtWork(s, p, c) && c.Creating? && c.cat == PutSep
    ensures Kept(s, CreateStep(s, p, c), p)
  {
    hide Shape, Locks, Ids, ListsOk, Quiet, Inodes, Lives, Sound, Complete, Unorphaned, Procs, Good, Advances;
    hide Distinct, Exclusive, CreateStep, Follows, SameHolds, OthersSame;
    OwnFacts(s, p);
    InodeOfList(s, c.ino);
    var t := CreateStep(s, p, c);
    var list := ListOf(s, c.ino) + [c.id];
    PutSepIs(s, p, c);
    AppendedOk(s, t, p, c);
    CreatingProcOk(t, p, t.procs[p]);
    AppendedList(s, c.ino, c.id);
    CreatorsDiffer(s, p);
    NotDoomed(s, c.id);
    WriterIsExclusive(s, p, c.ino);
    WriterListed(s, p, c.ino);
    hide CreatingOk, ProcOk;
    SepFollows(c);
    GotoAdvances(s, t, p);
    AdvancesParts(s, t, p);
    PutSepSound(s, t, p, c.ino, c.id) by { AdvancesUnlister(s, t, p); }
    RelistGood(s, t, p, c.ino, list);
    GoodStep(s, t, p);
  }

  lemma AdvancesUnlister(s: State, t: State, p: Pid)
    requires Advances(s, t, p)
    ensures UnlisterKept(s, t, p)
  {
  }

  // ---- the id file's content ----

  lemma IdInodeIsExclusive(s: State, p: Pid, c: Proc)
    requires Shape(s) && Locks(s) && Procs(s) && p in s.procs && s.procs[p] == c && c.Creating? && HoldsIdLock(c.cat)
    ensures Exclusive(s, p, c.idIno) && c.idIno !in s.lists && c.idIno in s.bytes
  {
    assert ProcOk(s, p, c);
    assert Writing(s, p, c.idIno);
    assert WriterIs(s, p, c.idIno);
    CreatorsDiffer(s, p);
    forall q | q in s.procs && q != p
      ensures !Holds(s.procs[q], c.idIno)
      ensures s.procs[q].Creating? && HasIdFile(s.procs[q].cat) ==> s.procs[q].idIno != c.idIno
    {
      assert !WriterIs(s, q, c.idIno);
      assert !Writing(s, q, c.idIno) && !Reading(s, q, c.idIno);
      assert ProcOk(s, q, s.procs[q]);
    }
  }

  lemma NameWritten(s: State, t: State, p: Pid, c: Proc)
    requires c.Creating? && (c.cat == PutName || c.cat == PutEnd) && CreatingOk(s, p, c)
    requires OnlyStores(s, t, c.idIno)
    requires c.cat == PutName ==> Content(t, c.idIno) == WriteAt(Content(s, c.idIno), 0, c.name)
    requires c.cat == PutEnd ==> Content(t, c.idIno) == WriteAt(Content(s, c.idIno), |c.name|, [SEPARATOR])
    ensures CreatingOk(t, p, c.(cat := if c.cat == PutName then PutEnd else OpenData))
  {
    assert c.name[..|c.name|] == c.name;
    assert [] + c.name == c.name;
  }

  lemma IdInodeStores(s: State, t: State, p: Pid, c: Proc)
    requires AtWork(s, p, c) && c.Creating? && HoldsIdLock(c.cat) && Advances(s, t, p) && OnlyStores(s, t, c.idIno)
    requires p in t.procs && ProcOk(t, p, t.procs[p])
    ensures Kept(s, t, p)
  {
    hide Shape, Locks, Ids, ListsOk, Quiet, Inodes, Lives, Sound, Complete, Unorphaned, Procs, Good, Exclusive;
    hide Advances, OnlyStores;
    OwnFacts(s, p);
    IdInodeIsExclusive(s, p, c);
    assert c.idIno in s.home && s.home[c.idIno] == IdFile(c.id) && c.id !in s.created;
    hide ProcOk, CreatingOk;
    StoreGood(s, t, p, c.idIno);
    GoodStep(s, t, p);
  }

  lemma NamerFacts(s: State, p: Pid, c: Proc)
    requires AtWork(s, p, c) && c.Creating? && (c.cat == PutName || c.cat == PutEnd)
    ensures CreatingOk(s, p, c) && c.idIno in s.bytes && HoldsIdLock(c.cat) && Locks(s)
  {
    hide Ids, ListsOk, Quiet, Inodes, Lives, Sound, Complete, Unorphaned, Procs;
    OwnFacts(s, p);
  }

  lemma NamerWrites(s: State, p: Pid, c: Proc, content: Octets, d: Proc)
    requires AtWork(s, p, c) && c.Creating? && (c.cat == PutName || c.cat == PutEnd) && Follows(c, d) && SameHolds(c, d)
    requires ProcOk(Wrote(s, p, c.idIno, content, d), p, d)
    ensures Kept(s, Wrote(s, p, c.idIno, content, d), p)
  {
    NamerFacts(s, p, c);
    hide Inv, Kept, Wrote, Follows, SameHolds, OthersSame, OnlyStores, CreatingOk, Advances, ProcOk;
    WroteFacts(s, p, c.idIno, content, d);
    GotoAdvances(s, Wrote(s, p, c.idIno, content, d), p);
    IdInodeStores(s, Wrote(s, p, c.idIno, content, d), p, c);
  }

  lemma PutNameIs(s: State, p: Pid, c: Proc)
    requires c.Creating?
    ensures c.cat == PutName ==>
      CreateStep(s, p, c) == Wrote(s, p, c.idIno, WriteAt(Content(s, c.idIno), 0, c.name), c.(cat := PutEnd))
    ensures c.cat == PutEnd ==>
      CreateStep(s, p, c)
      == Wrote(s, p, c.idIno, WriteAt(Content(s, c.idIno), |c.name|, [SEPARATOR]), c.(cat := OpenData))
  {
    hide WriteAt, Content;
  }

  lemma PutsName(s: State, p: Pid, c: Proc)
    requires AtWork(s, p, c) && c.Creating? && (c.cat == PutName || c.cat == PutEnd)
    ensures Kept(s, CreateStep(s, p, c), p)
  {
    NamerFacts(s, p, c);
    hide Inv, Kept, CreatingOk, CreateStep, Wrote, WriteAt, Content, AtWork, ProcOk, Follows, SameHolds;
    hide OnlyStores, OthersSame;
    PutNameIs(s, p, c);
    var content := if c.cat == PutName then WriteAt(Content(s, c.idIno), 0, c.name)
                   else WriteAt(Content(s, c.idIno), |c.name|, [SEPARATOR]);
    var d := c.(cat := if c.cat == PutName then PutEnd else OpenData);
    WroteFacts(s, p, c.idIno, content, d);
    NameWritten(s, Wrote(s, p, c.idIno, content, d), p, c);
    WritingFollows(c, d);
    CreatingProcOk(Wrote(s, p, c.idIno, content, d), p, d);
    NamerWrites(s, p, c, content, d);
  }

  // ---- the create returns ----

  ghost predicate OnlyReturns(s: State, t: State, p: Pid, c: Proc) {
    && c.Creating? && p in s.procs && s.procs[p] == c && OthersSame(s, t, p) && p !in t.procs && SameFiles(s, t)
    && t.writer == s.writer - {c.idIno} && t.readers == s.readers
    && t.used == s.used && t.born == s.born && t.doomed == s.doomed && t.emptied == s.emptied
    && t.created == s.created + {c.id}
  }

  /** What the create leaves behind when it returns. */
  ghost predicate Complements(s: State, p: Pid, c: Proc)
    requires c.Creating?
  {
    && c.id in s.used && s.used[c.id] == p && c.id in s.born
    && c.idIno !in s.lists && Content(s, c.idIno) == NameOf(s, c.id) + [SEPARATOR]
    && Present(s, c.id) && c.id in ListOf(s, s.born[c.id])
  }

  lemma ReturnFacts(s: State, p: Pid, c: Proc)
    requires Shape(s) && c.Creating? && c.cat == Return && CreatingOk(s, p, c)
    ensures Complements(s, p, c)
  {
  }

  lemma ReturnGrows(s: State, t: State, p: Pid, c: Proc)
    requires OnlyReturns(s, t, p, c)
    ensures Grows(s, t)
  {
  }

  lemma ReturnIds(s: State, t: State, p: Pid, c: Proc)
    requires Shape(s) && Ids(s) && OnlyReturns(s, t, p, c) && Complements(s, p, c) && Grows(s, t)
    ensures Ids(t)
  {
    NamesStay(s, t);
    ReturnBorn(s, p, c);
    ReturnCreators(s, t, p, c);
    forall id | id in t.born ensures t.born[id] in t.lists && IsName(NameOf(t, id)) {
      assert s.born[id] in s.lists && IsName(NameOf(s, id));
    }
    hide Complements, Grows, NameOf, IsName, CreatorAtWork, OthersSame, Shape;
  }

  lemma ReturnCreators(s: State, t: State, p: Pid, c: Proc)
    requires Ids(s) && OnlyReturns(s, t, p, c) && Complements(s, p, c)
    ensures forall id :: id in t.used && id !in t.created ==> CreatorAtWork(t, id)
  {
    hide NameOf, IsName;
    forall id | id in t.used && id !in t.created ensures CreatorAtWork(t, id) {
      assert CreatorAtWork(s, id);
    }
  }

  lemma ReturnBorn(s: State, p: Pid, c: Proc)
    requires c.Creating? && Complements(s, p, c)
    ensures c.id in s.born
  {
  }

  lemma ReturnIdInode(s: State, t: State, p: Pid, c: Proc, j: Ino)
    requires OnlyReturns(s, t, p, c) && Complements(s, p, c) && NameOf(t, c.id) == NameOf(s, c.id)
    requires j in s.home && s.home[j].IdFile? && IdInode(s, j)
    requires NameOf(t, s.home[j].id) == NameOf(s, s.home[j].id)
    ensures IdInode(t, j)
  {
  }

  lemma ReturnDataInode(s: State, t: State, p: Pid, c: Proc, j: Ino)
    requires OnlyReturns(s, t, p, c) && Complements(s, p, c)
    requires j in s.home && s.home[j].DataFile? && DataInode(s, j)
    ensures DataInode(t, j)
  {
  }

  lemma ReturnInodes(s: State, t: State, p: Pid, c: Proc)
    requires Inodes(s) && OnlyReturns(s, t, p, c) && Complements(s, p, c)
    ensures Inodes(t)
  {
    forall j | j in t.home && t.home[j].IdFile? ensures IdInode(t, j) {
      ReturnIdInode(s, t, p, c, j);
    }
    forall j | j in t.home && t.home[j].DataFile? ensures DataInode(t, j) {
      ReturnDataInode(s, t, p, c, j);
    }
  }

  lemma ReturnFiles(s: State, t: State, p: Pid, c: Proc)
    requires Shape(s) && Lives(s) && Unorphaned(s) && OnlyReturns(s, t, p, c) && Complements(s, p, c)
    ensures Shape(t) && Lives(t) && Unorphaned(t)
  {
    hide Shape, Unorphaned;
    ShapeSame(s, t);
    UnorphanedSame(s, t);
    forall id | id in t.created && id !in t.doomed ensures Present(t, id) {
      assert Present(s, id);
    }
  }

  lemma ReturnLists(s: State, t: State, p: Pid, c: Proc)
    requires ListsOk(s) && Quiet(s) && Complete(s) && OnlyReturns(s, t, p, c) && Complements(s, p, c)
    ensures ListsOk(t) && Quiet(t) && Complete(t)
  {
  }

  /** Its own id file is locked by the create itself. */
  lemma IdFileIsOwn(s: State, p: Pid, c: Proc)
    requires Locks(s) && Inodes(s) && p in s.procs && s.procs[p] == c && c.Creating? && c.cat == Return
    requires c.id in s.used && s.used[c.id] == p && c.id !in s.created
    ensures forall i, q :: i in s.home && s.home[i] == IdFile(c.id) && q in s.procs && q != p ==> !Holds(s.procs[q], i)
  {
    forall i, q | i in s.home && s.home[i] == IdFile(c.id) && q in s.procs && q != p ensures !Holds(s.procs[q], i) {
      assert CreatorAtWork(s, c.id);
      assert IdInode(s, i);
      assert Writing(s, p, i);
      assert WriterIs(s, p, i);
      assert !WriterIs(s, q, i);
      assert !Writing(s, q, i) && !Reading(s, q, i);
    }
  }

  lemma ReturnRespects(s: State, t: State, p: Pid, c: Proc)
    requires OnlyReturns(s, t, p, c)
    requires forall i, q :: i in s.home && s.home[i] == IdFile(c.id) && q in s.procs && q != p ==> !Holds(s.procs[q], i)
    requires forall q :: q in s.procs && q != p && s.procs[q].Creating? ==> s.procs[q].id != c.id
    ensures forall q :: q in s.procs && q != p ==> Respects(s, t, q)
  {
  }

  lemma ReturnSound(s: State, t: State, p: Pid, c: Proc)
    requires Sound(s) && OnlyReturns(s, t, p, c)
    ensures Sound(t)
  {
    forall i, id | i in t.lists && id in t.lists[i] && id in t.doomed && Linked(t, i)
      ensures WillUnlist(t, t.doomed[id], id, i)
    {
      assert Linked(s, i);
      assert WillUnlist(s, s.doomed[id], id, i);
    }
  }

  lemma ReturnLocks(s: State, t: State, p: Pid, c: Proc)
    requires Locks(s) && OnlyReturns(s, t, p, c) && c.cat == Return
    ensures Locks(t)
  {
    assert Writing(s, p, c.idIno);
    assert WriterIs(s, p, c.idIno);
    LocksChange(s, t, p);
  }

  lemma CreatorOwnsId(s: State, p: Pid, c: Proc)
    requires c.Creating? && CreatingOk(s, p, c)
    ensures c.id in s.used && s.used[c.id] == p && c.id !in s.created
  {
  }

  lemma Returns(s: State, p: Pid, c: Proc)
    requires AtWork(s, p, c) && c.Creating? && c.cat == Return
    ensures Kept(s, CreateStep(s, p, c), p)
  {
    hide Shape, Locks, Ids, ListsOk, Quiet, Inodes, Lives, Sound, Complete, Unorphaned, Procs, CreatingOk, Grows;
    hide Respects;
    hide Complements, Spares;
    OwnFacts(s, p);
    CreatorsDiffer(s, p);
    var t := CreateStep(s, p, c);
    assert OnlyReturns(s, t, p, c);
    ReturnFacts(s, p, c);
    ReturnGrows(s, t, p, c);
    SameFilesSpare(s, t, p);
    ReturnIds(s, t, p, c);
    ReturnInodes(s, t, p, c);
    ReturnFiles(s, t, p, c);
    ReturnLists(s, t, p, c);
    assert c.id in s.used && s.used[c.id] == p && c.id !in s.created by { CreatorOwnsId(s, p, c); }
    IdFileIsOwn(s, p, c);
    ReturnRespects(s, t, p, c);
    ReturnSound(s, t, p, c);
    ReturnLocks(s, t, p, c);
    GoodStep(s, t, p);
  }

  lemma CreateKeepsInv(s: State, p: Pid, c: Proc)
    requires AtWork(s, p, c) && c.Creating?
    ensures Kept(s, CreateStep(s, p, c), p)
  {
    hide Inv, Kept, CreateStep;
    match c.cat
    case OpenName => if NameFile(c.name) in s.links { OpensOldName(s, p, c); } else { OpensNewName(s, p, c); }
    case LockName => LocksName(s, p, c);
    case OpenId => OpensId(s, p, c);
    case LockId => LocksId(s, p, c);
    case PutId => PutsId(s, p, c);
    case PutSep => PutsSep(s, p, c);
    case CloseName => ClosesName(s, p, c);
    case PutName => PutsName(s, p, c);
    case PutEnd => PutsName(s, p, c);
    case OpenData => OpensData(s, p, c);
    case Return => Returns(s, p, c);
  }
}
