/** What holds in every state the processes can reach. */
module Invariants {
  import opened Bytes
  import opened Lines
  import opened Paths
  import opened Processes

  // ---- which locks an operation holds ----

  predicate HoldsNameLock(at: CreateAt) {
    at == OpenId || at == LockId || at == PutId || at == PutSep || at == CloseName
  }

  predicate HasIdFile(at: CreateAt) {
    at != OpenName && at != LockName && at != OpenId
  }

  predicate HoldsIdLock(at: CreateAt) {
    HasIdFile(at) && at != LockId
  }

  /** The new id has become part of the list. */
  predicate Appended(at: CreateAt) {
    at == CloseName || at == PutName || at == PutEnd || at == OpenData || at == Return
  }

  predicate HoldsWrite(c: Proc, i: Ino) {
    match c
    case Creating(at, _, _, ino, idIno) => (HoldsNameLock(at) && i == ino) || (HoldsIdLock(at) && i == idIno)
    case Removing(at, _, _, ino, _, _) =>
      i == ino && at != UnlinkId && at != UnlinkData && at != ReopenName && at != RelockName
    case _ => false
  }

  predicate HoldsRead(c: Proc, i: Ino) {
    match c
    case Listing(at, _, ino, _, _, _) => i == ino && (at == ReadLines || at == CloseList)
    case Looking(at, _, _, ino, _) => i == ino && (at == ReadName || at == CloseLook)
    case _ => false
  }

  predicate Holds(c: Proc, i: Ino) {
    HoldsWrite(c, i) || HoldsRead(c, i)
  }

  // ---- shared facts ----

  ghost predicate IsNameInode(s: State, i: Ino, n: Name) {
    i in s.lists && i in s.home && s.home[i] == NameFile(n)
  }

  ghost predicate Shape(s: State) {
    && (forall i: Ino :: i in s.home <==> i < s.next)
    && (forall i: Ino :: i in s.bytes <==> i in s.home)
    && (forall path :: path in s.links ==> s.links[path] in s.home && s.home[s.links[path]] == path)
    && (forall i: Ino :: i in s.lists <==> i in s.home && s.home[i].NameFile?)
  }

  predicate Writing(s: State, p: Pid, i: Ino) {
    p in s.procs && HoldsWrite(s.procs[p], i)
  }

  predicate Reading(s: State, p: Pid, i: Ino) {
    p in s.procs && HoldsRead(s.procs[p], i)
  }

  predicate WriterIs(s: State, p: Pid, i: Ino) {
    i in s.writer && s.writer[i] == p
  }

  /** The lock tables say exactly what the operations hold, and no lock is both exclusive and shared. */
  ghost predicate Locks(s: State) {
    && (forall p: Pid, i: Ino :: WriterIs(s, p, i) <==> Writing(s, p, i))
    && (forall p: Pid, i: Ino :: (i, p) in s.readers <==> Reading(s, p, i))
    && (forall p: Pid, q: Pid, i: Ino :: WriterIs(s, p, i) ==> (i, q) !in s.readers)
  }

  /** The name under which an id was created. */
  function NameOf(s: State, id: Id): Name {
    if id in s.born && s.born[id] in s.home && s.home[s.born[id]].NameFile? then s.home[s.born[id]].name else []
  }

  ghost predicate CreatorAtWork(s: State, id: Id) {
    id in s.used && s.used[id] in s.procs && s.procs[s.used[id]].Creating? && s.procs[s.used[id]].id == id
  }

  ghost predicate Ids(s: State) {
    && (forall id :: id in s.used ==> IsName(id))
    && (forall id :: id in s.born ==> id in s.used)
    && (forall id :: id in s.born ==> s.born[id] in s.lists && IsName(NameOf(s, id)))
    && (forall id :: id in s.created ==> id in s.born)
    && (forall id :: id in s.doomed ==> id in s.created)
    && (forall id :: id in s.used && id !in s.created ==> CreatorAtWork(s, id))
  }

  /** Every list is free of repetitions and holds only ids created through its own inode. */
  ghost predicate ListsOk(s: State) {
    && (forall i :: i in s.lists ==> Distinct(s.lists[i]))
    && (forall i, id :: i in s.lists && id in s.lists[i] ==> id in s.born && s.born[id] == i)
  }

  /** Bytes and list agree wherever nobody holds the inode exclusively. */
  ghost predicate Quiet(s: State) {
    forall i :: i in s.lists && i !in s.writer ==> Content(s, i) == Join(s.lists[i], SEPARATOR)
  }

  ghost predicate IdInode(s: State, j: Ino)
    requires j in s.home && s.home[j].IdFile?
  {
    var id := s.home[j].id;
    && id in s.used
    && (id in s.created ==> Content(s, j) == NameOf(s, id) + [SEPARATOR])
    && (id !in s.created && CreatorAtWork(s, id) ==>
          HasIdFile(s.procs[s.used[id]].cat) && s.procs[s.used[id]].idIno == j)
  }

  ghost predicate DataInode(s: State, j: Ino)
    requires j in s.home && s.home[j].DataFile?
  {
    var id := s.home[j].id;
    id in s.used && (id !in s.created && CreatorAtWork(s, id) ==> s.procs[s.used[id]].cat == Return)
  }

  ghost predicate Inodes(s: State) {
    && (forall j :: j in s.home && s.home[j].IdFile? ==> IdInode(s, j))
    && (forall j :: j in s.home && s.home[j].DataFile? ==> DataInode(s, j))
  }

  /** The id file and the data file exist. */
  ghost predicate Present(s: State, id: Id) {
    IdFile(id) in s.links && DataFile(id) in s.links
  }

  ghost predicate Lives(s: State) {
    && (forall id :: id in s.created && id !in s.doomed ==> Present(s, id))
    && (forall id :: id in s.doomed ==> IdFile(id) !in s.links)
  }

  /** A remove of `id` still has to take it out of the name file. */
  ghost predicate WillUnlist(s: State, p: Pid, id: Id, i: Ino) {
    && p in s.procs
    && s.procs[p].Removing?
    && s.procs[p].id == id
    && var at := s.procs[p].rat;
       || at == UnlinkData
       || at == ReopenName
       || ((at == RelockName || at == Collect || at == Truncate) && s.procs[p].ino == i)
  }

  ghost predicate Linked(s: State, i: Ino) {
    i in s.home && s.home[i] in s.links && s.links[s.home[i]] == i
  }

  /** A dead id in a linked list is there only until the remove at work gets to it. */
  ghost predicate Sound(s: State) {
    forall i, id :: i in s.lists && id in s.lists[i] && id in s.doomed && Linked(s, i) ==>
      WillUnlist(s, s.doomed[id], id, i)
  }

  ghost predicate Complete(s: State) {
    forall id :: id in s.created && id !in s.doomed ==> id in s.born && id in ListOf(s, s.born[id])
  }

  ghost predicate Unorphaned(s: State) {
    forall i, n :: IsNameInode(s, i, n) && n !in s.emptied ==> Linked(s, i)
  }

  // ---- facts about one operation ----

  ghost predicate CreatingOk(s: State, p: Pid, c: Proc)
    requires c.Creating?
  {
    && c.id in s.used && s.used[c.id] == p && c.id !in s.created && IsName(c.name)
    && (c.cat == OpenName ==> c.id !in s.born)
    && (c.cat != OpenName ==>
          && IsNameInode(s, c.ino, c.name)
          && c.id in s.born && s.born[c.id] == c.ino
          && (c.id in ListOf(s, c.ino) <==> Appended(c.cat)))
    && (HoldsNameLock(c.cat) ==>
          Content(s, c.ino) == Join(ListOf(s, c.ino), SEPARATOR) + if c.cat == PutSep then c.id else [])
    && (HasIdFile(c.cat) ==>
          && c.idIno in s.home && s.home[c.idIno] == IdFile(c.id)
          && IdFile(c.id) in s.links && s.links[IdFile(c.id)] == c.idIno
          && Content(s, c.idIno) == (if c.cat == PutEnd then c.name
                                     else if c.cat == OpenData || c.cat == Return then c.name + [SEPARATOR]
                                     else []))
    && (c.cat == Return ==> DataFile(c.id) in s.links)
  }

  ghost predicate ListingOk(s: State, c: Proc)
    requires c.Listing?
  {
    && (c.lat != OpenList ==> IsNameInode(s, c.ino, c.name))
    && (c.lat == ReadLines || c.lat == CloseList ==> c.granted == ListOf(s, c.ino))
    && (c.lat == ReadLines ==> c.got + Drain(Content(s, c.ino), c.at, SEPARATOR) == c.granted)
    && (c.lat == CloseList ==> c.got == c.granted)
  }

  /** The id is created, or listed where it was born. */
  ghost predicate Offered(s: State, id: Id) {
    id in s.created || (id in s.born && id in ListOf(s, s.born[id]))
  }

  ghost predicate LookingOk(s: State, c: Proc)
    requires c.Looking?
  {
    && (c.removing ==> Offered(s, c.id))
    && (c.removing && HoldsRead(c, c.ino) ==> c.id in s.created)
    && (c.kat != OpenLook ==> c.ino in s.home && s.home[c.ino] == IdFile(c.id))
    && (c.kat == CloseLook ==> c.name == if c.id in s.created then NameOf(s, c.id) else [])
  }

  ghost predicate RewriteOk(s: State, c: Proc)
    requires c.Removing?
  {
    var list := ListOf(s, c.ino);
    && 0 < |c.ids| <= |list|
    && c.ids == list[|list| - |c.ids|..]
    && c.pos == |Content(s, c.ino)|
    && Content(s, c.ino) ==
         Join(list[..|list| - |c.ids|], SEPARATOR) + if c.rat == RewriteSep then c.ids[0] else []
  }

  ghost predicate RemovingOk(s: State, c: Proc)
    requires c.Removing?
  {
    && c.id in s.created && c.name == NameOf(s, c.id)
    && (c.rat != UnlinkId ==> c.id in s.doomed)
    && (c.rat != UnlinkId && c.rat != UnlinkData && c.rat != ReopenName ==>
          IsNameInode(s, c.ino, c.name))
    && (c.rat == Collect || c.rat == Truncate || c.rat == UnlinkName || c.rat == Done ==>
          Content(s, c.ino) == Join(ListOf(s, c.ino), SEPARATOR))
    && (c.rat == Collect ==> c.ids + Drain(Content(s, c.ino), c.pos, SEPARATOR) == ListOf(s, c.ino))
    && (c.rat == Truncate ==> c.ids == ListOf(s, c.ino))
    && (c.rat == RewriteId || c.rat == RewriteSep ==> RewriteOk(s, c))
    && (c.rat == UnlinkName ==> ListOf(s, c.ino) == [])
  }

  ghost predicate FillingOk(s: State, c: Proc)
    requires c.Filling?
  {
    c.id in s.created && (c.fat == WriteFill ==> c.ino in s.home && s.home[c.ino] == DataFile(c.id))
  }

  ghost predicate ProcOk(s: State, p: Pid, c: Proc) {
    match c
    case Creating(_, _, _, _, _) => CreatingOk(s, p, c)
    case Listing(_, _, _, _, _, _) => ListingOk(s, c)
    case Looking(_, _, _, _, _) => LookingOk(s, c)
    case Removing(_, _, _, _, _, _) => RemovingOk(s, c)
    case Filling(_, _, _, _) => FillingOk(s, c)
  }

  ghost predicate Procs(s: State) {
    forall p :: p in s.procs ==> ProcOk(s, p, s.procs[p])
  }

  ghost predicate Shared(s: State) {
    && Shape(s) && Locks(s) && Ids(s) && ListsOk(s) && Quiet(s)
    && Inodes(s) && Lives(s) && Sound(s) && Complete(s) && Unorphaned(s)
  }

  ghost predicate Inv(s: State) {
    Shared(s) && Procs(s)
  }

  // ---- what a step leaves alone, as another process sees it ----

  /** Nothing is forgotten: allocations and history only grow. */
  ghost predicate Grows(s: State, t: State) {
    && (forall i :: i in s.home ==> i in t.home && t.home[i] == s.home[i])
    && (forall i :: i in s.bytes ==> i in t.bytes)
    && (forall i :: i in s.lists ==> i in t.lists)
    && (forall id :: id in s.used ==> id in t.used && t.used[id] == s.used[id])
    && (forall id :: id in s.born ==> id in t.born && t.born[id] == s.born[id])
    && (forall id :: id in s.created ==> id in t.created)
    && (forall id :: id in s.doomed ==> id in t.doomed)
    && (forall id :: Offered(s, id) ==> Offered(t, id))
  }

  /** An inode that `c` has locked keeps its bytes and its list; if it is an id file, its create does not return. */
  ghost predicate LocksHold(s: State, t: State, c: Proc) {
    forall i :: Holds(c, i) ==>
      && Content(t, i) == Content(s, i) && ListOf(t, i) == ListOf(s, i)
      && (i in s.home && s.home[i].IdFile? && s.home[i].id in t.created ==> s.home[i].id in s.created)
  }

  /** An id under creation belongs to its creator alone. */
  ghost predicate OwnIdHolds(s: State, t: State, c: Proc)
    requires c.Creating?
  {
    && (HasIdFile(c.cat) ==> Content(t, c.idIno) == Content(s, c.idIno))
    && (forall i :: i in s.lists && i in t.lists ==> (c.id in t.lists[i] <==> c.id in s.lists[i]))
    && (c.id in t.created ==> c.id in s.created)
    && (c.id in t.born ==> c.id in s.born)
    && (IdFile(c.id) in s.links ==> IdFile(c.id) in t.links && t.links[IdFile(c.id)] == s.links[IdFile(c.id)])
    && (DataFile(c.id) in s.links ==> DataFile(c.id) in t.links)
  }

  ghost predicate Respects(s: State, t: State, p: Pid) {
    && p in s.procs && p in t.procs && t.procs[p] == s.procs[p]
    && LocksHold(s, t, s.procs[p])
    && (s.procs[p].Creating? ==> OwnIdHolds(s, t, s.procs[p]))
  }

  lemma ProcOkIsStable(s: State, t: State, p: Pid)
    requires p in s.procs && ProcOk(s, p, s.procs[p])
    requires Shape(s) && Ids(s)
    requires Grows(s, t) && Respects(s, t, p)
    ensures ProcOk(t, p, t.procs[p])
  {
    var c := s.procs[p];
    match c
    case Creating(_, _, _, _, _) => CreatingIsStable(s, t, p, c);
    case Listing(_, _, _, _, _, _) => ListingIsStable(s, t, c);
    case Looking(_, _, _, _, _) =>
      LookingIsStable(s, t, c);
    case Removing(_, _, _, _, _, _) =>
      NameIsStable(s, t, c.id);
      RemovingIsStable(s, t, c);
    case Filling(_, _, _, _) =>
  }

  lemma CreatingIsStable(s: State, t: State, p: Pid, c: Proc)
    requires c.Creating? && CreatingOk(s, p, c) && Shape(s)
    requires Grows(s, t) && LocksHold(s, t, c) && OwnIdHolds(s, t, c)
    ensures CreatingOk(t, p, c)
  {
    if HoldsNameLock(c.cat) {
      assert Holds(c, c.ino);
    }
  }

  lemma ListingIsStable(s: State, t: State, c: Proc)
    requires c.Listing? && ListingOk(s, c)
    requires Grows(s, t) && LocksHold(s, t, c)
    ensures ListingOk(t, c)
  {
    if c.lat == ReadLines || c.lat == CloseList {
      assert Holds(c, c.ino);
    }
  }

  lemma LookingIsStable(s: State, t: State, c: Proc)
    requires c.Looking? && LookingOk(s, c) && Shape(s) && Ids(s)
    requires Grows(s, t) && LocksHold(s, t, c)
    ensures LookingOk(t, c)
  {
    if c.kat == CloseLook {
      assert Holds(c, c.ino);
      if c.id in s.created {
        NameIsStable(s, t, c.id);
      }
    }
  }

  lemma RewriteIsStable(s: State, t: State, c: Proc)
    requires c.Removing? && RewriteOk(s, c)
    requires Content(t, c.ino) == Content(s, c.ino) && ListOf(t, c.ino) == ListOf(s, c.ino)
    ensures RewriteOk(t, c)
  {
    hide Content, ListOf, Join;
  }

  lemma HeldIsStable(s: State, t: State, c: Proc)
    requires HoldsWrite(c, c.ino) && LocksHold(s, t, c) && c.Removing?
    ensures Content(t, c.ino) == Content(s, c.ino) && ListOf(t, c.ino) == ListOf(s, c.ino)
  {
    assert Holds(c, c.ino);
  }

  lemma RemovingIsStable(s: State, t: State, c: Proc)
    requires c.Removing? && RemovingOk(s, c) && NameOf(t, c.id) == NameOf(s, c.id)
    requires Grows(s, t) && LocksHold(s, t, c)
    ensures RemovingOk(t, c)
  {
    hide Content, ListOf, NameOf, Join, Drain, LocksHold, RewriteOk;
    if HoldsWrite(c, c.ino) {
      HeldIsStable(s, t, c);
      if c.rat == RewriteId || c.rat == RewriteSep {
        RewriteIsStable(s, t, c);
      }
    }
  }

  lemma NameIsStable(s: State, t: State, id: Id)
    requires Shape(s) && Ids(s) && Grows(s, t) && id in s.born
    ensures NameOf(t, id) == NameOf(s, id)
  {
  }
}
