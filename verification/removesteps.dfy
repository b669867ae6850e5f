/** Every system call of object::remove keeps the invariant. */
module RemoveSteps {
  import opened Bytes
  import opened Lines
  import opened Paths
  import opened Processes
  import opened Invariants
  import opened Frames
  import opened Effects
  import opened Mutations
  import opened ReadSteps

  lemma InodeOfList(s: State, i: Ino)
    requires Shape(s) && i in s.lists
    ensures i in s.home && s.home[i].NameFile? && i in s.bytes
  {
  }

  lemma UnlinksIdFile(s: State, p: Pid, c: Proc)
    requires AtWork(s, p, c) && c.Removing? && c.rat == UnlinkId
    ensures Kept(s, RemoveStep(s, p, c), p)
  {
    hide Shape, Locks, Ids, ListsOk, Quiet, Inodes, Lives, Sound, Complete, Unorphaned, Procs, Good, Advances;
    OwnFacts(s, p);
    var t := RemoveStep(s, p, c);
    GotoAdvances(s, t, p);
    UnlinkGood(s, t, IdFile(c.id), p);
    GoodStep(s, t, p);
  }

  lemma UnlinksDataFile(s: State, p: Pid, c: Proc)
    requires AtWork(s, p, c) && c.Removing? && c.rat == UnlinkData
    ensures Kept(s, RemoveStep(s, p, c), p)
  {
    hide Shape, Locks, Ids, ListsOk, Quiet, Inodes, Lives, Sound, Complete, Unorphaned, Procs, Good, Advances;
    OwnFacts(s, p);
    var t := RemoveStep(s, p, c);
    GotoAdvances(s, t, p);
    UnlinkGood(s, t, DataFile(c.id), p);
    GoodStep(s, t, p);
  }

  /** Opening the name file settles which inode is filtered: the linked one, where the id must be. */
  lemma ReopenSound(s: State, t: State, p: Pid, c: Proc)
    requires Shape(s) && ListsOk(s) && Sound(s) && SameFiles(s, t) && SameHistory(s, t) && OthersSame(s, t, p)
    requires p in s.procs && s.procs[p] == c && c.Removing? && c.rat == ReopenName && c.name == NameOf(s, c.id)
    requires NameFile(c.name) in s.links ==>
      p in t.procs && t.procs[p] == c.(rat := RelockName, ino := s.links[NameFile(c.name)])
    ensures Sound(t)
  {
    forall i, id | i in t.lists && id in t.lists[i] && id in t.doomed && Linked(t, i)
      ensures WillUnlist(t, t.doomed[id], id, i)
    {
      assert Linked(s, i);
      assert WillUnlist(s, s.doomed[id], id, i);
      if s.doomed[id] == p {
        assert s.born[id] == i;
        assert s.home[i] == NameFile(c.name);
      }
    }
  }

  /** A remove opens the name file that stands under the path, or gives up. */
  ghost predicate Reopened(s: State, t: State, p: Pid, c: Proc)
    requires c.Removing?
  {
    && SameFiles(s, t) && SameHistory(s, t) && OthersSame(s, t, p) && t.writer == s.writer && t.readers == s.readers
    && (NameFile(c.name) in s.links ==>
          p in t.procs && t.procs[p] == c.(rat := RelockName, ino := s.links[NameFile(c.name)]))
    && (NameFile(c.name) !in s.links ==> p !in t.procs)
  }

  lemma ReopenFinds(s: State, p: Pid, c: Proc)
    requires p in s.procs && s.procs[p] == c && c.Removing? && c.rat == ReopenName && NameFile(c.name) in s.links
    ensures Reopened(s, RemoveStep(s, p, c), p, c)
  {
  }

  lemma ReopenMisses(s: State, p: Pid, c: Proc)
    requires p in s.procs && s.procs[p] == c && c.Removing? && c.rat == ReopenName && NameFile(c.name) !in s.links
    ensures Reopened(s, RemoveStep(s, p, c), p, c)
  {
  }

  lemma ReopenStepIs(s: State, p: Pid, c: Proc)
    requires p in s.procs && s.procs[p] == c && c.Removing? && c.rat == ReopenName
    ensures Reopened(s, RemoveStep(s, p, c), p, c)
  {
    hide RemoveStep, Reopened;
    if NameFile(c.name) in s.links {
      ReopenFinds(s, p, c);
    } else {
      ReopenMisses(s, p, c);
    }
  }

  lemma ReopenLocks(s: State, t: State, p: Pid, c: Proc)
    requires Locks(s) && p in s.procs && s.procs[p] == c && c.Removing? && c.rat == ReopenName && Reopened(s, t, p, c)
    ensures Locks(t)
  {
    LocksChange(s, t, p);
  }

  lemma ReopenRoles(s: State, t: State, p: Pid, c: Proc)
    requires p in s.procs && s.procs[p] == c && c.Removing? && c.rat == ReopenName && Reopened(s, t, p, c)
    ensures CreatorKept(s, t, p) && CreatorAdvances(s, t, p)
  {
  }

  lemma ReopenedOk(s: State, t: State, p: Pid, c: Proc)
    requires Shape(s) && c.Removing? && c.rat == ReopenName && RemovingOk(s, c) && Reopened(s, t, p, c)
    ensures p in t.procs ==> ProcOk(t, p, t.procs[p])
  {
    if NameFile(c.name) in s.links {
      LinkedPath(s, NameFile(c.name));
    }
  }

  lemma Reopens(s: State, p: Pid, c: Proc)
    requires AtWork(s, p, c) && c.Removing? && c.rat == ReopenName
    ensures Kept(s, RemoveStep(s, p, c), p)
  {
    hide Shape, Locks, Ids, ListsOk, Quiet, Inodes, Lives, Sound, Complete, Unorphaned, Procs, Good;
    hide RemoveStep, CreatorKept, CreatorAdvances, OthersSame;
    OwnFacts(s, p);
    var t := RemoveStep(s, p, c);
    ReopenStepIs(s, p, c);
    ReopenLocks(s, t, p, c);
    ReopenRoles(s, t, p, c);
    ReopenedOk(s, t, p, c);
    ReopenSound(s, t, p, c);
    hide RemovingOk, ProcOk;
    Bystander(s, t, p);
    GoodStep(s, t, p);
  }

  lemma Relocks(s: State, p: Pid, c: Proc)
    requires AtWork(s, p, c) && c.Removing? && c.rat == RelockName
    ensures Kept(s, RemoveStep(s, p, c), p)
  {
    hide Shape, Locks, Ids, ListsOk, Quiet, Inodes, Lives, Sound, Complete, Unorphaned, Procs;
    OwnFacts(s, p);
    ReaderSeesList(s, p, c.ino);
    WholeListAhead(s, c.ino);
    assert [] + s.lists[c.ino] == s.lists[c.ino];
    TakeWriteStep(s, p, c.ino, c.(rat := Collect, pos := 0, ids := []));
  }

  lemma CollectedOk(s: State, c: Proc, l: Line)
    requires c.Removing? && c.rat == Collect && RemovingOk(s, c)
    requires l == NextLine(Content(s, c.ino), c.pos, SEPARATOR)
    ensures l.got ==> RemovingOk(s, c.(pos := l.next, ids := c.ids + [l.text]))
    ensures !l.got ==> RemovingOk(s, c.(rat := Truncate))
  {
    var content := Content(s, c.ino);
    if l.got {
      assert c.ids + Drain(content, c.pos, SEPARATOR) == (c.ids + [l.text]) + Drain(content, l.next, SEPARATOR);
    } else {
      assert c.ids + [] == c.ids;
    }
  }

  /** A move of one process changes nothing that the facts about a remove mention. */
  lemma RemovingMoves(s: State, p: Pid, d: Proc)
    requires d.Removing? && RemovingOk(s, d)
    ensures RemovingOk(Goto(s, p, d), d)
  {
  }

  lemma Collects(s: State, p: Pid, c: Proc)
    requires AtWork(s, p, c) && c.Removing? && c.rat == Collect
    ensures Kept(s, RemoveStep(s, p, c), p)
  {
    hide Shape, Locks, Ids, ListsOk, Quiet, Inodes, Lives, Sound, Complete, Unorphaned, Procs, RemovingOk;
    OwnFacts(s, p);
    var l := NextLine(Content(s, c.ino), c.pos, SEPARATOR);
    CollectedOk(s, c, l);
    var d := if l.got then c.(pos := l.next, ids := c.ids + [l.text]) else c.(rat := Truncate);
    RemovingMoves(s, p, d);
    LocalStep(s, p, d);
  }

  /** After the filter the id is in no list that still waits for it. */
  lemma TruncateSound(s: State, t: State, p: Pid, c: Proc)
    requires p in s.procs && s.procs[p] == c && c.Removing? && c.rat == Truncate
    requires Sound(s) && OthersSame(s, t, p) && OnlyRelists(s, t, c.ino, Without(ListOf(s, c.ino), c.id))
    ensures Sound(t)
  {
    forall i, id | i in t.lists && id in t.lists[i] && id in t.doomed && Linked(t, i)
      ensures WillUnlist(t, t.doomed[id], id, i)
    {
      assert Linked(s, i);
      assert WillUnlist(s, s.doomed[id], id, i);
    }
  }

  lemma CreatorsAreElsewhere(s: State, p: Pid, id: Id)
    requires Procs(s) && id in s.created
    ensures forall q :: q in s.procs && s.procs[q].Creating? ==> s.procs[q].id != id
  {
    forall q | q in s.procs && s.procs[q].Creating? ensures s.procs[q].id != id {
      assert ProcOk(s, q, s.procs[q]);
    }
  }

  lemma FilteredList(s: State, i: Ino, id: Id)
    requires ListsOk(s) && i in s.lists
    ensures var list := Without(s.lists[i], id);
            Distinct(list) && forall x :: x in list ==> x in s.born && s.born[x] == i
  {
    WithoutKeepsDistinct(s.lists[i], id);
  }

  lemma WriterListed(s: State, p: Pid, i: Ino)
    requires Locks(s) && Writing(s, p, i)
    ensures i in s.writer
  {
    assert WriterIs(s, p, i);
  }

  lemma TruncatedOk(s: State, t: State, c: Proc, d: Proc)
    requires c.Removing? && c.rat == Truncate && RemovingOk(s, c) && NameOf(t, c.id) == NameOf(s, c.id)
    requires OnlyRelists(s, t, c.ino, Without(ListOf(s, c.ino), c.id)) && Content(t, c.ino) == []
    requires var keep := Without(c.ids, c.id);
             d == c.(rat := if keep == [] then UnlinkName else RewriteId, pos := 0, ids := keep)
    ensures RemovingOk(t, d)
  {
    var list := ListOf(t, c.ino);
    assert d.ids == list;
    assert list[|list| - |d.ids|..] == list;
    assert list[..0] == [];
  }

  lemma TruncateStepIs(s: State, p: Pid, c: Proc)
    requires p in s.procs && s.procs[p] == c && c.Removing? && c.rat == Truncate && c.ino in s.lists && c.ino in s.bytes
    ensures var t, keep := RemoveStep(s, p, c), Without(c.ids, c.id);
            && OnlyRelists(s, t, c.ino, Without(ListOf(s, c.ino), c.id)) && Content(t, c.ino) == []
            && OthersSame(s, t, p) && NameOf(t, c.id) == NameOf(s, c.id) && p in t.procs
            && t.procs[p] == c.(rat := if keep == [] then UnlinkName else RewriteId, pos := 0, ids := keep)
  {
    hide Without;
  }

  lemma TruncateLocks(s: State, t: State, p: Pid, c: Proc)
    requires Locks(s) && p in s.procs && s.procs[p] == c && c.Removing? && c.rat == Truncate && OthersSame(s, t, p)
    requires t.writer == s.writer && t.readers == s.readers && p in t.procs
    requires t.procs[p].Removing? && t.procs[p].ino == c.ino
    requires t.procs[p].rat == UnlinkName || t.procs[p].rat == RewriteId
    ensures Locks(t) && CreatorKept(s, t, p) && CreatorAdvances(s, t, p) && Writing(s, p, c.ino)
  {
    LocksChange(s, t, p);
  }

  lemma Truncates(s: State, p: Pid, c: Proc)
    requires AtWork(s, p, c) && c.Removing? && c.rat == Truncate
    ensures Kept(s, RemoveStep(s, p, c), p)
  {
    hide Shape, Locks, Ids, ListsOk, Quiet, Inodes, Lives, Sound, Complete, Unorphaned, Procs, Good, Exclusive;
    hide RemoveStep, NameOf, OthersSame, CreatorKept, CreatorAdvances, Writing, Distinct;
    OwnFacts(s, p);
    InodeOfList(s, c.ino);
    var t := RemoveStep(s, p, c);
    var list := Without(ListOf(s, c.ino), c.id);
    TruncateStepIs(s, p, c);
    TruncateLocks(s, t, p, c);
    WriterIsExclusive(s, p, c.ino);
    WriterListed(s, p, c.ino);
    FilteredList(s, c.ino, c.id);
    TruncateSound(s, t, p, c);
    CreatorsAreElsewhere(s, p, c.id);
    TruncatedOk(s, t, c, t.procs[p]);
    hide RemovingOk;
    RelistGood(s, t, p, c.ino, list);
    RemovingProcOk(t, p, t.procs[p]);
    hide OnlyRelists;
    GoodStep(s, t, p);
  }

  lemma RewroteId(s: State, t: State, c: Proc, d: Proc)
    requires c.Removing? && c.rat == RewriteId && RemovingOk(s, c) && NameOf(t, c.id) == NameOf(s, c.id)
    requires OnlyStores(s, t, c.ino) && Content(t, c.ino) == WriteAt(Content(s, c.ino), c.pos, c.ids[0])
    requires d == c.(rat := RewriteSep, pos := c.pos + |c.ids[0]|)
    ensures RemovingOk(t, d)
  {
    assert Content(s, c.ino)[..c.pos] == Content(s, c.ino);
    assert Content(t, c.ino) == Content(s, c.ino) + c.ids[0];
  }

  lemma OneMoreLine(s: State, t: State, c: Proc)
    requires c.Removing? && c.rat == RewriteSep && RewriteOk(s, c)
    requires OnlyStores(s, t, c.ino) && Content(t, c.ino) == WriteAt(Content(s, c.ino), c.pos, [SEPARATOR])
    ensures var list := ListOf(s, c.ino);
            var k := |list| - |c.ids|;
            && ListOf(t, c.ino) == list && c.ids[1..] == list[k + 1..]
            && Content(t, c.ino) == Join(list[..k + 1], SEPARATOR) && |Content(t, c.ino)| == c.pos + 1
  {
    var list := ListOf(s, c.ino);
    var k := |list| - |c.ids|;
    assert Content(s, c.ino)[..c.pos] == Content(s, c.ino);
    assert Content(t, c.ino) == Content(s, c.ino) + [SEPARATOR];
    JoinOne(list[..k], list[k], SEPARATOR);
    assert list[..k] + [list[k]] == list[..k + 1];
    assert c.ids[1..] == list[k + 1..];
  }

  lemma RewroteSep(s: State, t: State, c: Proc, d: Proc)
    requires c.Removing? && c.rat == RewriteSep && RemovingOk(s, c) && NameOf(t, c.id) == NameOf(s, c.id)
    requires OnlyStores(s, t, c.ino) && Content(t, c.ino) == WriteAt(Content(s, c.ino), c.pos, [SEPARATOR])
    requires var rest := c.ids[1..];
             d == c.(rat := if rest == [] then Done else RewriteId, pos := c.pos + 1, ids := rest)
    ensures RemovingOk(t, d)
  {
    OneMoreLine(s, t, c);
    var list := ListOf(t, c.ino);
    assert list[..|list|] == list;
    hide Content, ListOf, NameOf, Join, WriteAt, RewriteOk;
    if d.rat == RewriteId {
      MoreToRewrite(t, d, |ListOf(s, c.ino)| - |c.ids| + 1);
    }
  }

  lemma MoreToRewrite(t: State, d: Proc, k: nat)
    requires d.Removing? && d.rat == RewriteId && d.ids != []
    requires k <= |ListOf(t, d.ino)| && d.ids == ListOf(t, d.ino)[k..]
    requires Content(t, d.ino) == Join(ListOf(t, d.ino)[..k], SEPARATOR) && d.pos == |Content(t, d.ino)|
    ensures RewriteOk(t, d)
  {
    hide Content, ListOf, Join;
  }

  lemma HolderStores(s: State, t: State, p: Pid, i: Ino)
    requires Inv(s) && Writing(s, p, i) && i in s.lists && Advances(s, t, p) && OnlyStores(s, t, i)
    requires p in t.procs ==> ProcOk(t, p, t.procs[p])
    ensures Kept(s, t, p)
  {
    hide Shape, Locks, Ids, ListsOk, Quiet, Inodes, Lives, Sound, Complete, Unorphaned, Procs, ProcOk, Good, Exclusive;
    hide Advances, OnlyStores, Writing;
    WriterIsExclusive(s, p, i);
    WriterListed(s, p, i);
    InodeOfList(s, i);
    StoreGood(s, t, p, i);
    GoodStep(s, t, p);
  }

  lemma HolderWrites(s: State, p: Pid, c: Proc, i: Ino, content: Octets, d: Proc)
    requires AtWork(s, p, c) && Writing(s, p, i) && i in s.lists && Follows(c, d) && SameHolds(c, d)
    requires ProcOk(Wrote(s, p, i, content, d), p, d)
    ensures Kept(s, Wrote(s, p, i, content, d), p)
  {
    hide Shape, Locks, Ids, ListsOk, Quiet, Inodes, Lives, Sound, Complete, Unorphaned, Procs, Advances, ProcOk, Kept;
    hide Wrote, Follows, SameHolds, Writing, OthersSame, OnlyStores;
    InodeOfList(s, i);
    WroteFacts(s, p, i, content, d);
    GotoAdvances(s, Wrote(s, p, i, content, d), p);
    HolderStores(s, Wrote(s, p, i, content, d), p, i);
  }

  lemma RewriteIdIs(s: State, p: Pid, c: Proc)
    requires c.Removing? && c.rat == RewriteId && c.ids != []
    ensures RemoveStep(s, p, c)
         == Wrote(s, p, c.ino, WriteAt(Content(s, c.ino), c.pos, c.ids[0]),
                  c.(rat := RewriteSep, pos := c.pos + |c.ids[0]|))
  {
    hide WriteAt, Content;
  }

  lemma RewriteSepIs(s: State, p: Pid, c: Proc)
    requires c.Removing? && c.rat == RewriteSep && c.ids != []
    ensures RemoveStep(s, p, c)
         == Wrote(s, p, c.ino, WriteAt(Content(s, c.ino), c.pos, [SEPARATOR]),
                  c.(rat := if c.ids[1..] == [] then Done else RewriteId, pos := c.pos + 1, ids := c.ids[1..]))
  {
    hide WriteAt, Content;
  }

  lemma RewriterFacts(s: State, p: Pid, c: Proc)
    requires AtWork(s, p, c) && c.Removing? && (c.rat == RewriteId || c.rat == RewriteSep)
    ensures RemovingOk(s, c) && c.ids != [] && c.ino in s.lists && c.ino in s.bytes && Writing(s, p, c.ino)
    ensures c.id in s.born
  {
    hide Locks, ListsOk, Quiet, Inodes, Lives, Sound, Complete, Unorphaned, Procs;
    OwnFacts(s, p);
  }

  lemma RewritingFollows(c: Proc, d: Proc)
    requires c.Removing? && (c.rat == RewriteId || c.rat == RewriteSep)
    requires d.Removing? && d.id == c.id && d.ino == c.ino
    requires d.rat == RewriteId || d.rat == RewriteSep || d.rat == Done
    ensures Follows(c, d) && SameHolds(c, d)
  {
  }

  lemma RemovingProcOk(s: State, p: Pid, d: Proc)
    requires d.Removing? && RemovingOk(s, d)
    ensures ProcOk(s, p, d)
  {
  }

  /** A write of bytes changes no name. */
  lemma WroteNames(s: State, p: Pid, i: Ino, content: Octets, d: Proc, id: Id)
    ensures NameOf(Wrote(s, p, i, content, d), id) == NameOf(s, id)
  {
  }

  lemma RewritesId(s: State, p: Pid, c: Proc)
    requires AtWork(s, p, c) && c.Removing? && c.rat == RewriteId
    ensures Kept(s, RemoveStep(s, p, c), p)
  {
    RewriterFacts(s, p, c);
    hide Inv, Kept, RemovingOk, RemoveStep, Wrote, WriteAt, Content, NameOf, AtWork, ProcOk, Follows, SameHolds;
    hide OnlyStores;
    hide Writing, OthersSame;
    RewriteIdIs(s, p, c);
    var content, d := WriteAt(Content(s, c.ino), c.pos, c.ids[0]), c.(rat := RewriteSep, pos := c.pos + |c.ids[0]|);
    WroteFacts(s, p, c.ino, content, d);
    WroteNames(s, p, c.ino, content, d, c.id);
    RewroteId(s, Wrote(s, p, c.ino, content, d), c, d);
    RewritingFollows(c, d);
    RemovingProcOk(Wrote(s, p, c.ino, content, d), p, d);
    HolderWrites(s, p, c, c.ino, content, d);
  }

  lemma RewritesSep(s: State, p: Pid, c: Proc)
    requires AtWork(s, p, c) && c.Removing? && c.rat == RewriteSep
    ensures Kept(s, RemoveStep(s, p, c), p)
  {
    RewriterFacts(s, p, c);
    hide Inv, Kept, RemovingOk, RemoveStep, Wrote, WriteAt, Content, NameOf, AtWork, ProcOk, Follows, SameHolds;
    hide OnlyStores;
    hide Writing, OthersSame;
    RewriteSepIs(s, p, c);
    var content := WriteAt(Content(s, c.ino), c.pos, [SEPARATOR]);
    var d := c.(rat := if c.ids[1..] == [] then Done else RewriteId, pos := c.pos + 1, ids := c.ids[1..]);
    WroteFacts(s, p, c.ino, content, d);
    WroteNames(s, p, c.ino, content, d, c.id);
    RewroteSep(s, Wrote(s, p, c.ino, content, d), c, d);
    RewritingFollows(c, d);
    RemovingProcOk(Wrote(s, p, c.ino, content, d), p, d);
    HolderWrites(s, p, c, c.ino, content, d);
  }

  lemma UnlinksNameFile(s: State, p: Pid, c: Proc)
    requires AtWork(s, p, c) && c.Removing? && c.rat == UnlinkName
    ensures Kept(s, RemoveStep(s, p, c), p)
  {
    hide Shape, Locks, Ids, ListsOk, Quiet, Inodes, Lives, Sound, Complete, Unorphaned, Procs, Good, Advances;
    OwnFacts(s, p);
    var t := RemoveStep(s, p, c);
    GotoAdvances(s, t, p);
    UnlinkGood(s, t, NameFile(c.name), p);
    GoodStep(s, t, p);
  }

  lemma DoneStepIs(s: State, p: Pid, c: Proc)
    requires p in s.procs && s.procs[p] == c && c.Removing? && c.rat == Done
    ensures var t := RemoveStep(s, p, c);
            && SameFiles(s, t) && SameHistory(s, t) && OthersSame(s, t, p) && p !in t.procs
            && t.writer == s.writer - {c.ino} && t.readers == s.readers
            && CreatorKept(s, t, p) && CreatorAdvances(s, t, p) && UnlisterKept(s, t, p)
            && Writing(s, p, c.ino) && (forall i: Ino :: Writing(s, p, i) ==> i == c.ino)
            && (forall i: Ino :: !Reading(s, p, i))
  {
  }

  lemma Finishes(s: State, p: Pid, c: Proc)
    requires AtWork(s, p, c) && c.Removing? && c.rat == Done
    ensures Kept(s, RemoveStep(s, p, c), p)
  {
    hide Shape, Locks, Ids, ListsOk, Quiet, Inodes, Lives, Sound, Complete, Unorphaned, Procs;
    hide RemoveStep, CreatorKept, CreatorAdvances, UnlisterKept, OthersSame, SameFiles, SameHistory, Kept;
    OwnFacts(s, p);
    DoneStepIs(s, p, c);
    DropWriteStep(s, RemoveStep(s, p, c), p, c.ino);
  }

  lemma RemoveKeepsInv(s: State, p: Pid, c: Proc)
    requires AtWork(s, p, c) && c.Removing?
    ensures Kept(s, RemoveStep(s, p, c), p)
  {
    hide Inv, Kept, RemoveStep;
    match c.rat
    case UnlinkId => UnlinksIdFile(s, p, c);
    case UnlinkData => UnlinksDataFile(s, p, c);
    case ReopenName => Reopens(s, p, c);
    case RelockName => Relocks(s, p, c);
    case Collect => Collects(s, p, c);
    case Truncate => Truncates(s, p, c);
    case RewriteId => RewritesId(s, p, c);
    case RewriteSep => RewritesSep(s, p, c);
    case UnlinkName => UnlinksNameFile(s, p, c);
    case Done => Finishes(s, p, c);
  }
}
