/** When a change to the state keeps each shared fact: one lemma for a fact and a kind of change. */
module Frames {
  import opened Bytes
  import opened Lines
  import opened Paths
  import opened Processes
  import opened Invariants

  ghost predicate OthersSame(s: State, t: State, p: Pid) {
    && (forall q :: q in s.procs && q != p ==> q in t.procs && t.procs[q] == s.procs[q])
    && (forall q :: q in t.procs && q != p ==> q in s.procs)
  }

  ghost predicate SameFiles(s: State, t: State) {
    t.bytes == s.bytes && t.links == s.links && t.next == s.next && t.home == s.home && t.lists == s.lists
  }

  ghost predicate SameHistory(s: State, t: State) {
    t.used == s.used && t.born == s.born && t.created == s.created && t.doomed == s.doomed && t.emptied == s.emptied
  }

  // ---- Shape ----

  lemma ShapeSame(s: State, t: State)
    requires Shape(s) && t.home == s.home && t.next == s.next
    requires forall i :: i in t.bytes <==> i in s.bytes
    requires forall i :: i in t.lists <==> i in s.lists
    requires forall path :: path in t.links ==> path in s.links && t.links[path] == s.links[path]
    ensures Shape(t)
  {
  }

  lemma ShapeAllocate(s: State, path: Path)
    requires Shape(s)
    ensures Shape(Allocate(s, path))
  {
  }

  // ---- Locks ----

  /** Only `p` changes its locks, the tables follow, and what it takes was free. */
  lemma LocksChange(s: State, t: State, p: Pid)
    requires Locks(s) && OthersSame(s, t, p)
    requires forall q: Pid, i: Ino :: q != p ==> (WriterIs(t, q, i) <==> WriterIs(s, q, i))
    requires forall q: Pid, i: Ino :: q != p ==> ((i, q) in t.readers <==> (i, q) in s.readers)
    requires forall i: Ino :: (WriterIs(s, p, i) <==> Writing(s, p, i)) ==> (WriterIs(t, p, i) <==> Writing(t, p, i))
    requires forall i: Ino ::
      ((i, p) in s.readers <==> Reading(s, p, i)) ==> ((i, p) in t.readers <==> Reading(t, p, i))
    requires forall i: Ino :: Writing(t, p, i) && !Writing(s, p, i) ==> WriteFree(s, i)
    requires forall i: Ino :: Reading(t, p, i) ==> Reading(s, p, i) || ReadFree(s, i)
    requires forall i: Ino :: !(Writing(t, p, i) && Reading(t, p, i))
    ensures Locks(t)
  {
    forall q: Pid, i: Ino ensures WriterIs(t, q, i) <==> Writing(t, q, i) {
      assert q != p ==> (Writing(t, q, i) <==> Writing(s, q, i));
    }
    forall q: Pid, i: Ino ensures (i, q) in t.readers <==> Reading(t, q, i) {
      assert q != p ==> (Reading(t, q, i) <==> Reading(s, q, i));
    }
    forall w: Pid, q: Pid, i: Ino | WriterIs(t, w, i) ensures (i, q) !in t.readers {
      assert Writing(t, w, i);
      assert w != p ==> WriterIs(s, w, i);
      assert w == p && !Writing(s, p, i) ==> (i, q) !in s.readers;
    }
  }

  // ---- Ids ----

  /** `p` does not stop being the creator of an id. */
  ghost predicate CreatorKept(s: State, t: State, p: Pid) {
    p in s.procs && s.procs[p].Creating? ==>
      p in t.procs && t.procs[p].Creating? && t.procs[p].id == s.procs[p].id
  }

  lemma CreatorStays(s: State, t: State, p: Pid, id: Id)
    requires OthersSame(s, t, p) && CreatorKept(s, t, p)
    requires CreatorAtWork(s, id) && id in t.used && t.used[id] == s.used[id]
    ensures CreatorAtWork(t, id)
  {
  }

  lemma NamesStay(s: State, t: State)
    requires Shape(s) && Ids(s) && Grows(s, t)
    ensures forall id :: id in s.born ==> NameOf(t, id) == NameOf(s, id)
  {
  }

  lemma IdsSame(s: State, t: State, p: Pid)
    requires Shape(s) && Ids(s) && Grows(s, t) && OthersSame(s, t, p) && CreatorKept(s, t, p)
    requires SameHistory(s, t)
    ensures Ids(t)
  {
    NamesStay(s, t);
    forall id | id in t.used && id !in t.created ensures CreatorAtWork(t, id) {
      CreatorStays(s, t, p, id);
    }
  }

  // ---- ListsOk ----

  lemma ListsSame(s: State, t: State)
    requires ListsOk(s) && Grows(s, t)
    requires forall i :: i in t.lists ==> t.lists[i] == [] || (i in s.lists && t.lists[i] == s.lists[i])
    ensures ListsOk(t)
  {
  }

  // ---- Quiet ----

  lemma QuietChange(s: State, t: State)
    requires Quiet(s)
    requires forall i :: i in t.lists && i !in t.writer ==>
      (i in s.lists && i !in s.writer && t.lists[i] == s.lists[i] && Content(t, i) == Content(s, i))
      || Content(t, i) == Join(t.lists[i], SEPARATOR)
    ensures Quiet(t)
  {
  }

  // ---- Inodes ----

  /** `p` keeps its id file and never goes back to before it had one. */
  ghost predicate CreatorAdvances(s: State, t: State, p: Pid) {
    p in s.procs && s.procs[p].Creating? && p in t.procs && t.procs[p].Creating? ==>
      && (HasIdFile(s.procs[p].cat) ==> HasIdFile(t.procs[p].cat) && t.procs[p].idIno == s.procs[p].idIno)
      && (s.procs[p].cat == Return ==> t.procs[p].cat == Return)
  }

  lemma IdInodeStays(s: State, t: State, p: Pid, j: Ino)
    requires j in s.home && s.home[j].IdFile? && IdInode(s, j) && j in t.home && t.home[j] == s.home[j]
    requires OthersSame(s, t, p) && CreatorKept(s, t, p) && CreatorAdvances(s, t, p)
    requires t.created == s.created && t.used == s.used
    requires s.home[j].id !in s.created ==> CreatorAtWork(s, s.home[j].id)
    requires s.home[j].id in s.created ==>
      Content(t, j) == Content(s, j) && NameOf(t, s.home[j].id) == NameOf(s, s.home[j].id)
    ensures IdInode(t, j)
  {
  }

  lemma DataInodeStays(s: State, t: State, p: Pid, j: Ino)
    requires j in s.home && s.home[j].DataFile? && DataInode(s, j) && j in t.home && t.home[j] == s.home[j]
    requires OthersSame(s, t, p) && CreatorKept(s, t, p) && CreatorAdvances(s, t, p)
    requires t.created == s.created && t.used == s.used
    requires s.home[j].id !in s.created ==> CreatorAtWork(s, s.home[j].id)
    ensures DataInode(t, j)
  {
  }

  lemma InodesChange(s: State, t: State, p: Pid)
    requires Shape(s) && Ids(s) && Inodes(s) && Grows(s, t) && OthersSame(s, t, p)
    requires CreatorKept(s, t, p) && CreatorAdvances(s, t, p)
    requires t.created == s.created && t.used == s.used
    requires forall j :: j in s.home && s.home[j].IdFile? && s.home[j].id in s.created ==>
      Content(t, j) == Content(s, j)
    requires forall j :: j in t.home && j !in s.home && t.home[j].IdFile? ==> IdInode(t, j)
    requires forall j :: j in t.home && j !in s.home && t.home[j].DataFile? ==> DataInode(t, j)
    ensures Inodes(t)
  {
    hide OthersSame, CreatorKept, CreatorAdvances, IdInode, DataInode, CreatorAtWork;
    NamesStay(s, t);
    forall j | j in t.home && t.home[j].IdFile? ensures IdInode(t, j) {
      if j in s.home {
        assert s.home[j].id in s.used by { IdInodeUsed(s, j); }
        IdInodeStays(s, t, p, j);
      }
    }
    forall j | j in t.home && t.home[j].DataFile? ensures DataInode(t, j) {
      if j in s.home {
        assert s.home[j].id in s.used by { DataInodeUsed(s, j); }
        DataInodeStays(s, t, p, j);
      }
    }
  }

  lemma IdInodeUsed(s: State, j: Ino)
    requires j in s.home && s.home[j].IdFile? && IdInode(s, j)
    ensures s.home[j].id in s.used
  {
  }

  lemma DataInodeUsed(s: State, j: Ino)
    requires j in s.home && s.home[j].DataFile? && DataInode(s, j)
    ensures s.home[j].id in s.used
  {
  }

  // ---- Lives, Complete, Unorphaned ----

  lemma LivesSame(s: State, t: State)
    requires Lives(s) && t.created == s.created && t.doomed == s.doomed
    requires forall id :: id in s.created && id !in s.doomed && Present(s, id) ==> Present(t, id)
    requires forall id :: id in s.doomed && IdFile(id) in t.links ==> IdFile(id) in s.links
    ensures Lives(t)
  {
  }

  lemma CompleteSame(s: State, t: State)
    requires Complete(s) && Grows(s, t)
    requires t.created == s.created && (forall id :: id in t.doomed <==> id in s.doomed)
    requires forall i, id :: id in s.created && id !in s.doomed && id in ListOf(s, i) ==> id in ListOf(t, i)
    ensures Complete(t)
  {
  }

  lemma UnorphanedSame(s: State, t: State)
    requires Unorphaned(s)
    requires forall n :: n in s.emptied ==> n in t.emptied
    requires forall i, n :: IsNameInode(t, i, n) && n !in t.emptied ==> IsNameInode(s, i, n) || Linked(t, i)
    requires forall i, n :: IsNameInode(s, i, n) && n !in t.emptied && Linked(s, i) ==> Linked(t, i)
    ensures Unorphaned(t)
  {
  }

  // ---- Procs ----

  /** If a step of `p` respects every other process, all that is left is `p` itself. */
  lemma ProcsChange(s: State, t: State, p: Pid)
    requires Shape(s) && Ids(s) && Procs(s) && Grows(s, t) && OthersSame(s, t, p)
    requires forall q :: q in s.procs && q != p ==> Respects(s, t, q)
    requires p in t.procs ==> ProcOk(t, p, t.procs[p])
    ensures Procs(t)
  {
    forall q | q in t.procs ensures ProcOk(t, q, t.procs[q]) {
      if q != p {
        ProcOkIsStable(s, t, q);
      }
    }
  }
}
