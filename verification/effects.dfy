/** The kinds of step, and that each keeps every shared fact and respects every other process. */
module Effects {
  import opened Bytes
  import opened Lines
  import opened Paths
  import opened Processes
  import opened Invariants
  import opened Frames

  /** The id an operation works on. */
  predicate Concerns(c: Proc, id: Id) {
    !c.Listing? && c.id == id
  }

  /** `path` exists in both states or in neither, with the same content. */
  ghost predicate SameFile(s: State, t: State, path: Path) {
    && (path in t.links <==> path in s.links)
    && (path in s.links && path in t.links ==> Content(t, t.links[path]) == Content(s, s.links[path]))
  }

  /** Whether `p` is at work on the id file or data file `path`. */
  predicate Owns(s: State, p: Pid, path: Path) {
    path.NameFile? || (p in s.procs && Concerns(s.procs[p], path.id))
  }

  /** The files of every id that `p` is not at work on stay as they are. */
  ghost predicate Spares(s: State, t: State, p: Pid) {
    forall path :: !Owns(s, p, path) ==> SameFile(s, t, path)
  }

  /** What a step of `p` owes the rest of the system; `p` itself is looked at separately. */
  ghost predicate Good(s: State, t: State, p: Pid) {
    && Shared(t) && Grows(s, t) && OthersSame(s, t, p) && Spares(s, t, p)
    && forall q :: q in s.procs && q != p ==> Respects(s, t, q)
  }

  ghost predicate Kept(s: State, t: State, p: Pid) {
    Inv(t) && Good(s, t, p)
  }

  lemma StoreSpares(s: State, t: State, p: Pid, i: Ino)
    requires Shape(s) && t.links == s.links && (forall j :: j != i ==> Content(t, j) == Content(s, j))
    requires i in s.home && Owns(s, p, s.home[i])
    ensures Spares(s, t, p)
  {
  }

  lemma RelinkSpares(s: State, t: State, p: Pid, path: Path)
    requires Shape(s) && Owns(s, p, path)
    requires forall x :: x != path ==> (x in t.links <==> x in s.links)
    requires forall x :: x != path && x in s.links && x in t.links ==> t.links[x] == s.links[x]
    requires forall j :: j in s.bytes ==> Content(t, j) == Content(s, j)
    ensures Spares(s, t, p)
  {
  }

  lemma SameFilesSpare(s: State, t: State, p: Pid)
    requires t.links == s.links && t.bytes == s.bytes
    ensures Spares(s, t, p)
  {
  }

  lemma GoodStep(s: State, t: State, p: Pid)
    requires Inv(s) && Good(s, t, p)
    requires p in t.procs ==> ProcOk(t, p, t.procs[p])
    ensures Kept(s, t, p)
  {
    hide Shape, Locks, Ids, ListsOk, Quiet, Inodes, Lives, Sound, Complete, Unorphaned, Grows, OthersSame, Spares;
    ProcsChange(s, t, p);
  }

  ghost predicate UnlisterKept(s: State, t: State, p: Pid) {
    forall id, i :: WillUnlist(s, p, id, i) ==> WillUnlist(t, p, id, i)
  }

  // ---- steps that touch neither files nor history: opening, locking, reading, closing ----

  lemma SoundBystander(s: State, t: State, p: Pid)
    requires Sound(s) && SameFiles(s, t) && SameHistory(s, t) && OthersSame(s, t, p) && UnlisterKept(s, t, p)
    ensures Sound(t)
  {
    forall i, id | i in t.lists && id in t.lists[i] && id in t.doomed && Linked(t, i)
      ensures WillUnlist(t, t.doomed[id], id, i)
    {
      assert Linked(s, i);
      assert WillUnlist(s, s.doomed[id], id, i);
    }
  }

  lemma RespectsBystander(s: State, t: State, p: Pid)
    requires SameFiles(s, t) && SameHistory(s, t) && OthersSame(s, t, p)
    ensures forall q :: q in s.procs && q != p ==> Respects(s, t, q)
  {
  }

  lemma GrowsBystander(s: State, t: State)
    requires SameFiles(s, t) && SameHistory(s, t)
    ensures Grows(s, t)
  {
  }

  lemma Bystander(s: State, t: State, p: Pid)
    requires Shared(s) && SameFiles(s, t) && SameHistory(s, t) && OthersSame(s, t, p)
    requires Locks(t) && Sound(t) && CreatorKept(s, t, p) && CreatorAdvances(s, t, p)
    requires forall i :: i in s.lists && i in s.writer && i !in t.writer ==>
      Content(s, i) == Join(s.lists[i], SEPARATOR)
    ensures Good(s, t, p)
  {
    hide Shape, Locks, Ids, ListsOk, Quiet, Inodes, Lives, Sound, Complete, Unorphaned;
    hide OthersSame, CreatorKept, CreatorAdvances, WillUnlist, Respects, Grows, Spares;
    SameFilesSpare(s, t, p);
    GrowsBystander(s, t);
    ShapeSame(s, t);
    IdsSame(s, t, p);
    ListsSame(s, t);
    QuietChange(s, t);
    InodesChange(s, t, p);
    LivesSame(s, t);
    CompleteSame(s, t);
    UnorphanedSame(s, t);
    RespectsBystander(s, t, p);
  }

  /** The new stage of `p` is compatible with what the shared facts say about the old one. */
  ghost predicate Follows(c: Proc, d: Proc) {
    && (c.Creating? ==> d.Creating? && d.id == c.id)
    && (c.Creating? && HasIdFile(c.cat) ==> HasIdFile(d.cat) && d.idIno == c.idIno)
    && (c.Creating? && c.cat == Return ==> d.cat == Return)
    && (c.Removing? ==> d.Removing? && d.id == c.id)
    && (c.Removing? ==> forall i :: StillLists(c, i) ==> StillLists(d, i))
  }

  /** This remove has its filtering of inode `i` ahead of it. */
  predicate StillLists(c: Proc, i: Ino)
    requires c.Removing?
  {
    c.rat == UnlinkData || c.rat == ReopenName
    || ((c.rat == RelockName || c.rat == Collect || c.rat == Truncate) && c.ino == i)
  }

  lemma FollowingKeepsRoles(s: State, t: State, p: Pid)
    requires p in s.procs && p in t.procs && Follows(s.procs[p], t.procs[p])
    ensures CreatorKept(s, t, p) && CreatorAdvances(s, t, p) && UnlisterKept(s, t, p)
  {
    forall id, i | WillUnlist(s, p, id, i) ensures WillUnlist(t, p, id, i) {
      assert StillLists(s.procs[p], i);
      assert StillLists(t.procs[p], i);
    }
  }

  ghost predicate SameHolds(c: Proc, d: Proc) {
    forall i: Ino :: (HoldsWrite(d, i) <==> HoldsWrite(c, i)) && (HoldsRead(d, i) <==> HoldsRead(c, i))
  }

  // ---- whole steps of that kind ----

  lemma LocalStep(s: State, p: Pid, d: Proc)
    requires Inv(s) && p in s.procs && Follows(s.procs[p], d) && SameHolds(s.procs[p], d)
    requires ProcOk(Goto(s, p, d), p, d)
    ensures Kept(s, Goto(s, p, d), p)
  {
    hide Shape, Ids, ListsOk, Quiet, Inodes, Lives, Sound, Complete, Unorphaned, Procs, ProcOk, Good;
    hide HoldsWrite, HoldsRead, Follows, CreatorKept, CreatorAdvances, UnlisterKept;
    var t := Goto(s, p, d);
    FollowingKeepsRoles(s, t, p);
    LocksChange(s, t, p);
    SoundBystander(s, t, p);
    Bystander(s, t, p);
    GoodStep(s, t, p);
  }

  /** The operation ends without having held anything. */
  lemma EndStep(s: State, p: Pid)
    requires Inv(s) && p in s.procs && !s.procs[p].Creating?
    requires forall i: Ino :: !Holds(s.procs[p], i)
    requires UnlisterKept(s, Finish(s, p), p)
    ensures Kept(s, Finish(s, p), p)
  {
    hide Shape, Ids, ListsOk, Quiet, Inodes, Lives, Sound, Complete, Unorphaned, Procs, ProcOk, Good;
    hide HoldsWrite, HoldsRead, UnlisterKept;
    var t := Finish(s, p);
    forall i: Ino ensures !Writing(s, p, i) && !Reading(s, p, i) {
      assert !Holds(s.procs[p], i);
    }
    LocksChange(s, t, p);
    SoundBystander(s, t, p);
    Bystander(s, t, p);
    GoodStep(s, t, p);
  }

  lemma TakeWriteStep(s: State, p: Pid, l: Ino, d: Proc)
    requires Inv(s) && p in s.procs && WriteFree(s, l) && Follows(s.procs[p], d)
    requires forall i: Ino :: HoldsWrite(d, i) <==> HoldsWrite(s.procs[p], i) || i == l
    requires forall i: Ino :: !HoldsRead(d, i) && !HoldsRead(s.procs[p], i)
    requires ProcOk(Goto(s.(writer := s.writer[l := p]), p, d), p, d)
    ensures Kept(s, Goto(s.(writer := s.writer[l := p]), p, d), p)
  {
    hide Shape, Ids, ListsOk, Quiet, Inodes, Lives, Sound, Complete, Unorphaned, Procs, ProcOk, Good;
    hide HoldsWrite, HoldsRead, Follows, CreatorKept, CreatorAdvances, UnlisterKept;
    var t := Goto(s.(writer := s.writer[l := p]), p, d);
    FollowingKeepsRoles(s, t, p);
    LocksChange(s, t, p);
    SoundBystander(s, t, p);
    Bystander(s, t, p);
    GoodStep(s, t, p);
  }

  lemma TakeReadStep(s: State, p: Pid, l: Ino, d: Proc)
    requires Inv(s) && p in s.procs && ReadFree(s, l) && Follows(s.procs[p], d)
    requires forall i: Ino :: !HoldsWrite(d, i) && !HoldsWrite(s.procs[p], i)
    requires forall i: Ino :: HoldsRead(d, i) <==> HoldsRead(s.procs[p], i) || i == l
    requires ProcOk(Goto(s.(readers := s.readers + {(l, p)}), p, d), p, d)
    ensures Kept(s, Goto(s.(readers := s.readers + {(l, p)}), p, d), p)
  {
    hide Shape, Ids, ListsOk, Quiet, Inodes, Lives, Sound, Complete, Unorphaned, Procs, ProcOk, Good;
    hide HoldsWrite, HoldsRead, Follows, CreatorKept, CreatorAdvances, UnlisterKept;
    var t := Goto(s.(readers := s.readers + {(l, p)}), p, d);
    FollowingKeepsRoles(s, t, p);
    LocksChange(s, t, p);
    SoundBystander(s, t, p);
    Bystander(s, t, p);
    GoodStep(s, t, p);
  }

  /** Releasing an exclusive lock, when bytes and list agree there; the operation may end with it. */
  lemma DropWriteStep(s: State, t: State, p: Pid, l: Ino)
    requires Inv(s) && p in s.procs && Writing(s, p, l)
    requires SameFiles(s, t) && SameHistory(s, t) && OthersSame(s, t, p)
    requires t.writer == s.writer - {l} && t.readers == s.readers
    requires forall i: Ino :: Writing(t, p, i) <==> Writing(s, p, i) && i != l
    requires forall i: Ino :: !Reading(t, p, i) && !Reading(s, p, i)
    requires CreatorKept(s, t, p) && CreatorAdvances(s, t, p) && UnlisterKept(s, t, p)
    requires l in s.lists ==> Content(s, l) == Join(s.lists[l], SEPARATOR)
    requires p in t.procs ==> ProcOk(t, p, t.procs[p])
    ensures Kept(s, t, p)
  {
    hide Shape, Ids, ListsOk, Quiet, Inodes, Lives, Sound, Complete, Unorphaned, Procs, ProcOk, Good;
    hide HoldsWrite, HoldsRead, CreatorKept, CreatorAdvances, UnlisterKept;
    LocksChange(s, t, p);
    SoundBystander(s, t, p);
    Bystander(s, t, p);
    GoodStep(s, t, p);
  }

  lemma DropReadStep(s: State, t: State, p: Pid, l: Ino)
    requires Inv(s) && p in s.procs && !s.procs[p].Creating? && !s.procs[p].Removing?
    requires SameFiles(s, t) && SameHistory(s, t) && OthersSame(s, t, p)
    requires t.writer == s.writer && t.readers == s.readers - {(l, p)}
    requires forall i: Ino :: !Writing(t, p, i) && !Writing(s, p, i)
    requires forall i: Ino :: Reading(t, p, i) <==> Reading(s, p, i) && i != l
    requires p in t.procs ==> ProcOk(t, p, t.procs[p])
    ensures Kept(s, t, p)
  {
    hide Shape, Ids, ListsOk, Quiet, Inodes, Lives, Sound, Complete, Unorphaned, Procs, ProcOk, Good;
    hide HoldsWrite, HoldsRead;
    LocksChange(s, t, p);
    SoundBystander(s, t, p);
    Bystander(s, t, p);
    GoodStep(s, t, p);
  }
}
