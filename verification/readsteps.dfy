/** The lookups, and the write into a data file, keep the invariant. */
module ReadSteps {
  import opened Bytes
  import opened Lines
  import opened Paths
  import opened Processes
  import opened Invariants
  import opened Frames
  import opened Effects
  import opened Mutations

  /** Process `p` is in operation `c` and is not waiting. */
  ghost predicate AtWork(s: State, p: Pid, c: Proc) {
    Inv(s) && p in s.procs && s.procs[p] == c && CanStep(s, p)
  }

  lemma OwnFacts(s: State, p: Pid)
    requires Procs(s) && p in s.procs
    ensures ProcOk(s, p, s.procs[p])
  {
  }

  /** What an open file of the directory is. */
  lemma LinkedPath(s: State, path: Path)
    requires Shape(s) && path in s.links
    ensures s.links[path] in s.home && s.home[s.links[path]] == path && s.links[path] in s.bytes
    ensures path.NameFile? ==> IsNameInode(s, s.links[path], path.name)
  {
  }

  /** A reader of a name file sees the whole list of its inode. */
  lemma ReaderSeesList(s: State, p: Pid, i: Ino)
    requires Locks(s) && Quiet(s) && i in s.lists && (Reading(s, p, i) || ReadFree(s, i))
    ensures Content(s, i) == Join(s.lists[i], SEPARATOR)
  {
    if i in s.writer {
      assert WriterIs(s, s.writer[i], i);
    }
  }

  /** Reading a joined list from its start yields the list. */
  lemma WholeListAhead(s: State, i: Ino)
    requires ListsOk(s) && Ids(s) && i in s.lists && Content(s, i) == Join(s.lists[i], SEPARATOR)
    ensures Drain(Content(s, i), 0, SEPARATOR) == s.lists[i]
  {
    forall k | 0 <= k < |s.lists[i]| ensures Free(s.lists[i][k], SEPARATOR) {
      assert s.lists[i][k] in s.lists[i];
      assert IsName(s.lists[i][k]);
    }
    DrainUndoesJoin(s.lists[i], [], SEPARATOR);
    assert Join(s.lists[i], SEPARATOR) + [] == Join(s.lists[i], SEPARATOR);
  }

  lemma ListOpens(s: State, p: Pid, c: Proc)
    requires AtWork(s, p, c) && c.Listing? && c.lat == OpenList
    ensures Kept(s, ListStep(s, p, c), p)
  {
    hide Locks, Ids, ListsOk, Quiet, Inodes, Lives, Sound, Complete, Unorphaned, Procs;
    if NameFile(c.name) in s.links {
      LinkedPath(s, NameFile(c.name));
      LocalStep(s, p, c.(lat := LockList, ino := s.links[NameFile(c.name)]));
    } else {
      EndStep(s, p);
    }
  }

  lemma ListLocks(s: State, p: Pid, c: Proc)
    requires AtWork(s, p, c) && c.Listing? && c.lat == LockList
    ensures Kept(s, ListStep(s, p, c), p)
  {
    hide Shape, Locks, Ids, ListsOk, Quiet, Inodes, Lives, Sound, Complete, Unorphaned, Procs;
    OwnFacts(s, p);
    ReaderSeesList(s, p, c.ino);
    WholeListAhead(s, c.ino);
    var d := c.(lat := ReadLines, at := 0, got := [], granted := ListOf(s, c.ino));
    assert [] + s.lists[c.ino] == s.lists[c.ino];
    TakeReadStep(s, p, c.ino, d);
  }

  lemma ReadStepIs(s: State, p: Pid, c: Proc)
    requires c.Listing? && c.lat == ReadLines
    ensures var l := NextLine(Content(s, c.ino), c.at, SEPARATOR);
            ListStep(s, p, c)
            == Goto(s, p, if l.got then c.(at := l.next, got := c.got + [l.text]) else c.(lat := CloseList))
  {
    hide NextLine, Content;
  }

  lemma ListReads(s: State, p: Pid, c: Proc)
    requires AtWork(s, p, c) && c.Listing? && c.lat == ReadLines
    ensures Kept(s, ListStep(s, p, c), p)
  {
    hide Shape, Locks, Ids, ListsOk, Quiet, Inodes, Lives, Sound, Complete, Unorphaned, Procs;
    OwnFacts(s, p);
    var content := Content(s, c.ino);
    var l := NextLine(content, c.at, SEPARATOR);
    if l.got {
      assert c.got + Drain(content, c.at, SEPARATOR) == (c.got + [l.text]) + Drain(content, l.next, SEPARATOR);
      LocalStep(s, p, c.(at := l.next, got := c.got + [l.text]));
    } else {
      assert c.got + [] == c.got;
      LocalStep(s, p, c.(lat := CloseList));
    }
  }

  lemma ListCloses(s: State, p: Pid, c: Proc)
    requires AtWork(s, p, c) && c.Listing? && c.lat == CloseList
    ensures Kept(s, ListStep(s, p, c), p)
  {
    hide Shape, Locks, Ids, ListsOk, Quiet, Inodes, Lives, Sound, Complete, Unorphaned, Procs;
    DropReadStep(s, ListStep(s, p, c), p, c.ino);
  }

  /** What opening does: it finds the inode that the directory links, or ends. */
  lemma OpenFinds(s: State, p: Pid, c: Proc)
    requires c.Listing? && c.lat == OpenList
    ensures var t, path := ListStep(s, p, c), NameFile(c.name);
            if path in s.links then p in t.procs && t.procs[p] == c.(lat := LockList, ino := s.links[path])
            else p !in t.procs
  {
  }

  lemma LockingStays(s: State, p: Pid, c: Proc)
    requires c.Listing? && c.lat == LockList
    ensures p in ListStep(s, p, c).procs
  {
  }

  lemma ClosingEnds(s: State, p: Pid, c: Proc)
    requires c.Listing? && c.lat == CloseList
    ensures p !in ListStep(s, p, c).procs
  {
  }

  /** A by_name ends with its next step just when that is a missed open, or its close. */
  lemma ListEndsIff(s: State, p: Pid, c: Proc)
    requires c.Listing?
    ensures p !in ListStep(s, p, c).procs <==>
      c.lat == CloseList || (c.lat == OpenList && NameFile(c.name) !in s.links)
  {
    hide NextLine, ListStep;
    match c.lat {
      case OpenList => OpenFinds(s, p, c);
      case LockList => LockingStays(s, p, c);
      case ReadLines => ReadStepIs(s, p, c);
      case CloseList => ClosingEnds(s, p, c);
    }
  }

  lemma ListKeepsInv(s: State, p: Pid, c: Proc)
    requires AtWork(s, p, c) && c.Listing?
    ensures Kept(s, ListStep(s, p, c), p)
    ensures p !in ListStep(s, p, c).procs <==>
      c.lat == CloseList || (c.lat == OpenList && NameFile(c.name) !in s.links)
  {
    hide Inv, Kept, ListStep;
    ListEndsIff(s, p, c);
    match c.lat
    case OpenList => ListOpens(s, p, c);
    case LockList => ListLocks(s, p, c);
    case ReadLines => ListReads(s, p, c);
    case CloseList => ListCloses(s, p, c);
  }

  lemma LookOpens(s: State, p: Pid, c: Proc)
    requires AtWork(s, p, c) && c.Looking? && c.kat == OpenLook
    ensures Kept(s, LookStep(s, p, c), p)
  {
    hide Locks, Ids, ListsOk, Quiet, Inodes, Lives, Sound, Complete, Unorphaned, Procs;
    OwnFacts(s, p);
    if IdFile(c.id) in s.links {
      LinkedPath(s, IdFile(c.id));
      LocalStep(s, p, c.(kat := LockLook, ino := s.links[IdFile(c.id)]));
    } else {
      EndStep(s, p);
    }
  }

  /** A create that has put its id into the list holds the lock on the id file until it returns. */
  lemma CreatorHoldsIdFile(s: State, j: Ino, id: Id)
    requires Inv(s) && Offered(s, id) && id !in s.created && j in s.home && s.home[j] == IdFile(id)
    ensures j in s.writer
  {
    hide Shape, ListsOk, Quiet, Lives, Sound, Complete, Unorphaned;
    assert CreatorAtWork(s, id);
    var p := s.used[id];
    OwnFacts(s, p);
    assert Appended(s.procs[p].cat);
    assert IdInode(s, j);
    assert Writing(s, p, j);
    assert WriterIs(s, p, j);
  }

  /** So who gets a lock on the file of a listed id finds that the create has returned. */
  lemma UnlockedIsCreated(s: State, j: Ino, id: Id)
    requires Inv(s) && Offered(s, id) && j in s.home && s.home[j] == IdFile(id) && ReadFree(s, j)
    ensures id in s.created
  {
    hide Inv, Offered;
    if id !in s.created {
      CreatorHoldsIdFile(s, j, id);
    }
  }

  lemma LookLocks(s: State, p: Pid, c: Proc)
    requires AtWork(s, p, c) && c.Looking? && c.kat == LockLook
    ensures Kept(s, LookStep(s, p, c), p)
  {
    hide Shape, Locks, Ids, ListsOk, Quiet, Inodes, Lives, Sound, Complete, Unorphaned, Procs;
    OwnFacts(s, p);
    if c.removing {
      UnlockedIsCreated(s, c.ino, c.id);
    }
    TakeReadStep(s, p, c.ino, c.(kat := ReadName));
  }

  /** The id file of a created id holds the name under which it was created. */
  lemma FirstLineIsName(s: State, j: Ino, id: Id)
    requires Ids(s) && Inodes(s) && j in s.home && s.home[j] == IdFile(id) && id in s.created
    ensures NextLine(Content(s, j), 0, SEPARATOR).text == NameOf(s, id)
  {
    var name := NameOf(s, id);
    assert IdInode(s, j);
    assert Content(s, j) == name + [SEPARATOR];
    IndexOfUnique(name + [SEPARATOR], SEPARATOR, 0, |name|);
    assert (name + [SEPARATOR])[0..|name|] == name;
  }

  /** The lookup of an id whose create has not got the lock on the id file reads an empty file. */
  lemma UncreatedIsEmpty(s: State, p: Pid, c: Proc)
    requires Inv(s) && p in s.procs && s.procs[p] == c && c.Looking? && Reading(s, p, c.ino) && c.id !in s.created
    requires c.ino in s.home && s.home[c.ino] == IdFile(c.id)
    ensures Content(s, c.ino) == [] && CreatorAtWork(s, c.id) && s.procs[s.used[c.id]].cat == LockId
  {
    hide Shape, ListsOk, Quiet, Lives, Sound, Complete, Unorphaned;
    assert IdInode(s, c.ino);
    assert CreatorAtWork(s, c.id);
    var q := s.used[c.id];
    OwnFacts(s, q);
    assert (c.ino, p) in s.readers;
    assert !WriterIs(s, q, c.ino);
    assert !Writing(s, q, c.ino);
  }

  lemma ReaderReadsName(s: State, p: Pid, c: Proc)
    requires Inv(s) && p in s.procs && s.procs[p] == c && c.Looking? && c.kat == ReadName
    ensures NextLine(Content(s, c.ino), 0, SEPARATOR).text == if c.id in s.created then NameOf(s, c.id) else []
  {
    hide Shape, Locks, Ids, ListsOk, Quiet, Inodes, Lives, Sound, Complete, Unorphaned, Procs;
    OwnFacts(s, p);
    if c.id in s.created {
      FirstLineIsName(s, c.ino, c.id);
    } else {
      UncreatedIsEmpty(s, p, c);
    }
  }

  lemma LookReads(s: State, p: Pid, c: Proc)
    requires AtWork(s, p, c) && c.Looking? && c.kat == ReadName
    ensures Kept(s, LookStep(s, p, c), p)
  {
    hide Shape, Locks, Ids, ListsOk, Quiet, Inodes, Lives, Sound, Complete, Unorphaned, Procs;
    OwnFacts(s, p);
    ReaderReadsName(s, p, c);
    hide NextLine;
    LocalStep(s, p, c.(kat := CloseLook, name := NextLine(Content(s, c.ino), 0, SEPARATOR).text));
  }

  lemma LookEnds(s: State, p: Pid, c: Proc)
    requires AtWork(s, p, c) && c.Looking? && c.kat == CloseLook && !c.removing
    ensures Kept(s, LookStep(s, p, c), p)
  {
    hide Shape, Locks, Ids, ListsOk, Quiet, Inodes, Lives, Sound, Complete, Unorphaned, Procs;
    DropReadStep(s, LookStep(s, p, c), p, c.ino);
  }

  lemma LookTurnsToRemove(s: State, p: Pid, c: Proc)
    requires AtWork(s, p, c) && c.Looking? && c.kat == CloseLook && c.removing
    ensures Kept(s, LookStep(s, p, c), p)
  {
    hide Shape, Locks, Ids, ListsOk, Quiet, Inodes, Lives, Sound, Complete, Unorphaned, Procs;
    OwnFacts(s, p);
    var t := LookStep(s, p, c);
    assert t.procs[p] == Removing(UnlinkId, c.id, c.name, 0, 0, []);
    assert RemovingOk(t, t.procs[p]);
    hide RemovingOk, ProcOk;
    DropReadStep(s, t, p, c.ino);
  }

  lemma LookOpenIs(s: State, p: Pid, c: Proc)
    requires c.Looking? && c.kat == OpenLook
    ensures var t, path := LookStep(s, p, c), IdFile(c.id);
            if path in s.links then p in t.procs && t.procs[p] == c.(kat := LockLook, ino := s.links[path])
            else p !in t.procs
  {
  }

  lemma LookLockIs(s: State, p: Pid, c: Proc)
    requires c.Looking? && c.kat == LockLook
    ensures p in LookStep(s, p, c).procs && LookStep(s, p, c).procs[p] == c.(kat := ReadName)
  {
  }

  lemma LookReadIs(s: State, p: Pid, c: Proc)
    requires c.Looking? && c.kat == ReadName
    ensures var t := LookStep(s, p, c);
            p in t.procs && t.procs[p] == c.(kat := CloseLook, name := NextLine(Content(s, c.ino), 0, SEPARATOR).text)
  {
    hide NextLine;
  }

  lemma LookCloseIs(s: State, p: Pid, c: Proc)
    requires c.Looking? && c.kat == CloseLook
    ensures var t := LookStep(s, p, c);
            if c.removing then p in t.procs && t.procs[p] == Removing(UnlinkId, c.id, c.name, 0, 0, [])
            else p !in t.procs
  {
  }

  /** A lookup ends with its next step just when that is a missed open, or its close with no remove to follow. */
  lemma LookGoesOrEnds(s: State, p: Pid, c: Proc)
    requires c.Looking?
    ensures var t := LookStep(s, p, c);
            && (p !in t.procs <==>
                  (c.kat == CloseLook && !c.removing) || (c.kat == OpenLook && IdFile(c.id) !in s.links))
            && (p in t.procs && !c.removing ==> t.procs[p].Looking? && t.procs[p].id == c.id && !t.procs[p].removing)
  {
    hide LookStep, NextLine;
    match c.kat {
      case OpenLook => LookOpenIs(s, p, c);
      case LockLook => LookLockIs(s, p, c);
      case ReadName => LookReadIs(s, p, c);
      case CloseLook => LookCloseIs(s, p, c);
    }
  }

  lemma NameThatIsRead(s: State, p: Pid, c: Proc)
    requires AtWork(s, p, c) && c.Looking? && c.kat == ReadName
    ensures var t := LookStep(s, p, c);
            p in t.procs && t.procs[p].Looking? && t.procs[p].name == if c.id in s.created then NameOf(s, c.id) else []
  {
    hide Inv, LookStep, NextLine, NameOf;
    LookReadIs(s, p, c);
    ReaderReadsName(s, p, c);
  }

  lemma LookKeepsInv(s: State, p: Pid, c: Proc)
    requires AtWork(s, p, c) && c.Looking?
    ensures Kept(s, LookStep(s, p, c), p)
    ensures p !in LookStep(s, p, c).procs <==>
      (c.kat == CloseLook && !c.removing) || (c.kat == OpenLook && IdFile(c.id) !in s.links)
    ensures c.kat == ReadName ==>
      var t := LookStep(s, p, c);
      p in t.procs && t.procs[p].Looking? && t.procs[p].name == if c.id in s.created then NameOf(s, c.id) else []
  {
    hide Inv, Kept, LookStep, NameOf;
    LookGoesOrEnds(s, p, c);
    if c.kat == ReadName {
      NameThatIsRead(s, p, c);
    }
    match c.kat
    case OpenLook => LookOpens(s, p, c);
    case LockLook => LookLocks(s, p, c);
    case ReadName => LookReads(s, p, c);
    case CloseLook => if c.removing { LookTurnsToRemove(s, p, c); } else { LookEnds(s, p, c); }
  }

  lemma DataInodeIsExclusive(s: State, p: Pid, i: Ino)
    requires Procs(s) && i in s.home && s.home[i].DataFile?
    ensures Exclusive(s, p, i)
  {
    forall q | q in s.procs && q != p
      ensures !Holds(s.procs[q], i) && (s.procs[q].Creating? && HasIdFile(s.procs[q].cat) ==> s.procs[q].idIno != i)
    {
      assert ProcOk(s, q, s.procs[q]);
    }
  }

  lemma DataInodeHasNoList(s: State, i: Ino)
    requires Shape(s) && i in s.home && s.home[i].DataFile?
    ensures i !in s.lists && i in s.bytes
  {
  }

  lemma FillEnds(s: State, t: State, p: Pid)
    requires Locks(s) && p in s.procs && s.procs[p].Filling? && p !in t.procs && OthersSame(s, t, p)
    requires t.writer == s.writer && t.readers == s.readers
    ensures Advances(s, t, p)
  {
    LocksChange(s, t, p);
  }

  lemma FillWrites(s: State, p: Pid, c: Proc)
    requires AtWork(s, p, c) && c.Filling? && c.fat == WriteFill
    ensures Kept(s, FillStep(s, p, c), p)
  {
    hide Shape, Ids, ListsOk, Quiet, Inodes, Lives, Sound, Complete, Unorphaned, Procs, Exclusive, Good;
    hide CreatorKept, CreatorAdvances, UnlisterKept, HoldsWrite, HoldsRead;
    OwnFacts(s, p);
    var t := FillStep(s, p, c);
    FillEnds(s, t, p);
    DataInodeIsExclusive(s, p, c.ino);
    DataInodeHasNoList(s, c.ino);
    StoreGood(s, t, p, c.ino);
    GoodStep(s, t, p);
  }

  lemma FillOpens(s: State, p: Pid, c: Proc)
    requires AtWork(s, p, c) && c.Filling? && c.fat == OpenFill
    ensures Kept(s, FillStep(s, p, c), p)
  {
    hide Locks, Ids, ListsOk, Quiet, Inodes, Lives, Sound, Complete, Unorphaned, Procs;
    OwnFacts(s, p);
    if DataFile(c.id) in s.links {
      LinkedPath(s, DataFile(c.id));
      LocalStep(s, p, c.(fat := WriteFill, ino := s.links[DataFile(c.id)]));
    } else {
      EndStep(s, p);
    }
  }

  lemma FillKeepsInv(s: State, p: Pid, c: Proc)
    requires AtWork(s, p, c) && c.Filling?
    ensures Kept(s, FillStep(s, p, c), p)
  {
    hide Inv, Kept, FillStep;
    match c.fat
    case OpenFill => FillOpens(s, p, c);
    case WriteFill => FillWrites(s, p, c);
  }
}
