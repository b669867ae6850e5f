/** Runs of the processes: snapshots, progress and isolation. */
module Interleavings {
  import opened Bytes
  import opened Lines
  import opened Paths
  import opened Processes
  import opened Invariants
  import opened Frames
  import opened Effects
  import opened Mutations
  import opened ReadSteps
  import opened RemoveSteps
  import opened CreateSteps
  import opened Consistency

  // ---- by_name returns a snapshot ----

  /** `p` is in flight after every one of the events. */
  ghost predicate Remains(s: State, es: seq<Event>, p: Pid)
    requires CanRun(s, es)
    decreases |es|
  {
    es != [] ==> p in Apply(s, es[0]).procs && Remains(Apply(s, es[0]), es[1..], p)
  }

  predicate IsGranted(s: State, p: Pid, granted: seq<Id>) {
    && p in s.procs && s.procs[p].Listing?
    && (s.procs[p].lat == ReadLines || s.procs[p].lat == CloseList)
    && s.procs[p].granted == granted
  }

  lemma ReadingGrantPersists(s: State, p: Pid, granted: seq<Id>)
    requires IsGranted(s, p, granted) && s.procs[p].lat == ReadLines
    ensures IsGranted(ListStep(s, p, s.procs[p]), p, granted)
  {
    hide ListStep;
    ReadStepIs(s, p, s.procs[p]);
  }

  lemma GrantPersists(s: State, e: Event, p: Pid, granted: seq<Id>)
    requires Inv(s) && IsGranted(s, p, granted) && Enabled(s, e) && p in Apply(s, e).procs
    ensures IsGranted(Apply(s, e), p, granted)
  {
    EventKeepsAll(s, e);
    hide Inv, Shared, Grows, Respects, Spares, CreateStep, RemoveStep, ListStep, LookStep, FillStep, BeginStep;
    if e == Continue(p) {
      if s.procs[p].lat == ReadLines {
        ReadingGrantPersists(s, p, granted);
      } else {
        ClosingEnds(s, p, s.procs[p]);
      }
    }
  }

  lemma {:induction false} GrantPersistsInRun(s: State, es: seq<Event>, p: Pid, granted: seq<Id>)
    requires Inv(s) && IsGranted(s, p, granted) && CanRun(s, es) && Remains(s, es, p)
    ensures IsGranted(Run(s, es), p, granted)
    decreases |es|
  {
    hide Inv, IsGranted;
    if es != [] {
      EventKeepsInv(s, es[0]);
      GrantPersists(s, es[0], p, granted);
      GrantPersistsInRun(Apply(s, es[0]), es[1..], p, granted);
    }
  }

  /**
   * A by_name that was granted its lock in state `s` and, after any events of any processes,
   * is about to return, returns exactly the ids that the inode held in `s`: never a truncated
   * list, never a half-rewritten one, never half an append.
   */
  lemma ByNameReturnsSnapshot(s: State, p: Pid, es: seq<Event>)
    requires Reachable(s) && p in s.procs && s.procs[p].Listing? && s.procs[p].lat == LockList && CanStep(s, p)
    requires CanRun(ProcStep(s, p), es) && Remains(ProcStep(s, p), es, p)
    requires var t := Run(ProcStep(s, p), es); p in t.procs && t.procs[p].Listing? && t.procs[p].lat == CloseList
    ensures Run(ProcStep(s, p), es).procs[p].got == Drain(Content(s, s.procs[p].ino), 0, SEPARATOR)
  {
    hide Inv, ProcOk;
    ReachableInv(s);
    EventKeepsInv(s, Continue(p));
    var u := ProcStep(s, p);
    var t := Run(u, es);
    var i := s.procs[p].ino;
    assert IsGranted(u, p, ListOf(s, i));
    GrantPersistsInRun(u, es, p, ListOf(s, i));
    RunKeepsInv(u, es);
    AtLockList(s, p);
    ReadsAsList(s, i);
    AtCloseList(t, p);
  }

  lemma AtLockList(s: State, p: Pid)
    requires Inv(s) && p in s.procs && s.procs[p].Listing? && s.procs[p].lat == LockList
    ensures s.procs[p].ino in s.lists
  {
    hide Shape, Locks, Ids, ListsOk, Quiet, Inodes, Lives, Sound, Complete, Unorphaned;
    assert ProcOk(s, p, s.procs[p]);
  }

  lemma AtCloseList(s: State, p: Pid)
    requires Inv(s) && p in s.procs && s.procs[p].Listing? && s.procs[p].lat == CloseList
    ensures s.procs[p].got == s.procs[p].granted
  {
    hide Shape, Locks, Ids, ListsOk, Quiet, Inodes, Lives, Sound, Complete, Unorphaned;
    assert ProcOk(s, p, s.procs[p]);
  }

  /** The state in which `p` makes the step that opens the name file. */
  ghost function Opening(s: State, es: seq<Event>, p: Pid): State
    requires CanRun(s, es)
    decreases |es|
  {
    if es == [] || (es[0] == Continue(p) && p in s.procs && s.procs[p].Listing? && s.procs[p].lat == OpenList) then s
    else Opening(Apply(s, es[0]), es[1..], p)
  }

  /** The state in which it makes the one that is granted the lock. */
  ghost function Grant(s: State, es: seq<Event>, p: Pid): State
    requires CanRun(s, es)
    decreases |es|
  {
    if es == [] || (es[0] == Continue(p) && p in s.procs && s.procs[p].Listing? && s.procs[p].lat == LockList) then s
    else Grant(Apply(s, es[0]), es[1..], p)
  }

  ghost predicate ListingAt(s: State, p: Pid, n: Name, at: ListAt) {
    p in s.procs && s.procs[p].Listing? && s.procs[p].name == n && s.procs[p].lat == at
  }

  /** Others leave the stage of `p` alone. */
  lemma StaysInPlace(s: State, e: Event, p: Pid)
    requires Inv(s) && Enabled(s, e) && p in s.procs && e.p != p
    ensures Inv(Apply(s, e)) && p in Apply(s, e).procs && Apply(s, e).procs[p] == s.procs[p]
  {
    EventKeepsAll(s, e);
    hide Inv, Shared, Grows, Respects, Spares;
  }

  lemma OnlyContinues(s: State, e: Event, p: Pid)
    requires Enabled(s, e) && p in s.procs && e.p == p
    ensures e == Continue(p)
  {
  }

  lemma ListersStep(s: State, p: Pid)
    requires p in s.procs && s.procs[p].Listing?
    ensures ProcStep(s, p) == ListStep(s, p, s.procs[p])
  {
  }

  /** From the lock on: what it has when it closes is what the inode held at the grant. */
  lemma {:induction false} FromTheLock(s: State, p: Pid, n: Name, es: seq<Event>)
    requires Reachable(s) && Inv(s) && ListingAt(s, p, n, LockList) && CanRun(s, es) && Remains(s, es, p)
    ensures p in Run(s, es).procs && Run(s, es).procs[p].Listing? && Run(s, es).procs[p].lat != OpenList
    ensures Run(s, es).procs[p].lat == CloseList ==>
      Run(s, es).procs[p].got == Drain(Content(Grant(s, es, p), s.procs[p].ino), 0, SEPARATOR)
    decreases |es|
  {
    hide Inv, Reachable, ProcStep, CanStep, MayBegin, BeginStep, Drain, ListStep;
    if es != [] {
      ReachableGoesOn(s, es[0]);
      if es[0].p != p {
        StaysInPlace(s, es[0], p);
        FromTheLock(Apply(s, es[0]), p, n, es[1..]);
      } else {
        OnlyContinues(s, es[0], p);
        StaysLocked(s, p, es[1..]);
        if Run(s, es).procs[p].lat == CloseList {
          ByNameReturnsSnapshot(s, p, es[1..]);
        }
      }
    }
  }

  lemma StaysLocked(s: State, p: Pid, es: seq<Event>)
    requires Inv(s) && p in s.procs && s.procs[p].Listing? && s.procs[p].lat == LockList && CanStep(s, p)
    requires CanRun(ProcStep(s, p), es) && Remains(ProcStep(s, p), es, p)
    ensures var t := Run(ProcStep(s, p), es); p in t.procs && t.procs[p].Listing? && t.procs[p].lat != OpenList
  {
    hide Inv;
    EventKeepsInv(s, Continue(p));
    assert IsGranted(ProcStep(s, p), p, ListOf(s, s.procs[p].ino));
    GrantPersistsInRun(ProcStep(s, p), es, p, ListOf(s, s.procs[p].ino));
  }

  /** From the open on. */
  lemma {:induction false} FromTheOpen(s: State, p: Pid, n: Name, es: seq<Event>)
    requires Reachable(s) && Inv(s) && ListingAt(s, p, n, OpenList) && CanRun(s, es) && Remains(s, es, p)
    ensures p in Run(s, es).procs && Run(s, es).procs[p].Listing?
    ensures Run(s, es).procs[p].lat == OpenList ==> ListingAt(Run(s, es), p, n, OpenList)
    ensures Run(s, es).procs[p].lat == CloseList ==>
      var u := Opening(s, es, p);
      && NameFile(n) in u.links
      && Run(s, es).procs[p].got == Drain(Content(Grant(s, es, p), u.links[NameFile(n)]), 0, SEPARATOR)
    decreases |es|
  {
    hide Inv, Reachable, ProcStep, CanStep, MayBegin, BeginStep, Drain, ListStep;
    if es != [] {
      ReachableGoesOn(s, es[0]);
      EventKeepsInv(s, es[0]);
      if es[0].p != p {
        StaysInPlace(s, es[0], p);
        FromTheOpen(Apply(s, es[0]), p, n, es[1..]);
      } else {
        OnlyContinues(s, es[0], p);
        ListersStep(s, p);
        OpenFinds(s, p, s.procs[p]);
        FromTheLock(ProcStep(s, p), p, n, es[1..]);
      }
    }
  }

  /**
   * A whole by_name among any operations of others, from its begin in `s` to the state `t` before its
   * last step: either no name file is linked at its open, and it ends there; or it returns exactly the
   * lines that the inode linked at its open held when the lock was granted.
   */
  lemma ByNameAnswers(s: State, p: Pid, n: Name, es: seq<Event>)
    requires Reachable(s) && p !in s.procs
    requires var u := BeginStep(s, p, OpList(n));
             && CanRun(u, es) && Remains(u, es, p)
             && var t := Run(u, es);
                p in t.procs && CanStep(t, p) && p !in ProcStep(t, p).procs
    ensures Enabled(s, Begin(p, OpList(n)))
    ensures var u := BeginStep(s, p, OpList(n));
            var t := Run(u, es);
            && t.procs[p].Listing?
            && ((t.procs[p].lat == OpenList && NameFile(n) !in t.links)
                || (t.procs[p].lat == CloseList
                    && var o := Opening(u, es, p);
                       && NameFile(n) in o.links
                       && t.procs[p].got == Drain(Content(Grant(u, es, p), o.links[NameFile(n)]), 0, SEPARATOR)))
  {
    hide Reachable, Inv, ProcStep, CanStep, Remains, CanRun, Run, Drain, Opening, Grant, ListStep;
    var u := BeginStep(s, p, OpList(n));
    ReachableInv(s);
    ReachableGoesOn(s, Begin(p, OpList(n)));
    EventKeepsInv(s, Begin(p, OpList(n)));
    assert ListingAt(u, p, n, OpenList);
    FromTheOpen(u, p, n, es);
    ListersStep(Run(u, es), p);
    ListEndsIff(Run(u, es), p, Run(u, es).procs[p]);
  }

  // ---- by_id tells the name ----

  ghost predicate LooksUp(s: State, p: Pid, id: Id) {
    p in s.procs && s.procs[p].Looking? && s.procs[p].id == id && !s.procs[p].removing
  }

  lemma LookStepIs(s: State, p: Pid, id: Id)
    requires LooksUp(s, p, id)
    ensures var t, at := ProcStep(s, p), s.procs[p].kat;
            && (p in t.procs ==> LooksUp(t, p, id))
            && (p !in t.procs <==> at == CloseLook || (at == OpenLook && IdFile(id) !in s.links))
  {
    hide LookStep;
    LookGoesOrEnds(s, p, s.procs[p]);
  }

  lemma {:induction false} LooksOn(s: State, p: Pid, id: Id, es: seq<Event>)
    requires Inv(s) && LooksUp(s, p, id) && CanRun(s, es) && Remains(s, es, p)
    ensures Inv(Run(s, es)) && LooksUp(Run(s, es), p, id)
    decreases |es|
  {
    hide Inv, ProcStep, CanStep, MayBegin, BeginStep;
    if es != [] {
      EventKeepsInv(s, es[0]);
      if es[0].p != p {
        StaysInPlace(s, es[0], p);
      } else {
        OnlyContinues(s, es[0], p);
        LookStepIs(s, p, id);
      }
      LooksOn(Apply(s, es[0]), p, id, es[1..]);
    }
  }

  lemma CloserHasName(s: State, p: Pid, id: Id)
    requires Inv(s) && LooksUp(s, p, id) && s.procs[p].kat == CloseLook
    ensures s.procs[p].name == (if id in s.created then NameOf(s, id) else [])
    ensures s.procs[p].name == NameOf(s, id) && IsName(NameOf(s, id)) <==> id in s.created
  {
    hide Shape, Locks, ListsOk, Quiet, Inodes, Lives, Sound, Complete, Unorphaned, Procs, IsName, NameOf;
    OwnFacts(s, p);
    assert !IsName([]) by { EmptyIsNoName(); }
  }

  lemma EmptyIsNoName()
    ensures !IsName([])
  {
  }

  /** An empty name is read only between the two steps of a create that make and that lock the id file. */
  lemma EmptyNameMeansUnlocked(s: State, p: Pid, id: Id)
    requires Inv(s) && LooksUp(s, p, id) && s.procs[p].kat == CloseLook && id !in s.created
    ensures CreatorAtWork(s, id) && s.procs[s.used[id]].cat == LockId
  {
    hide Shape, Locks, Ids, ListsOk, Quiet, Inodes, Lives, Sound, Complete, Unorphaned, Procs;
    OwnFacts(s, p);
    UncreatedIsEmpty(s, p, s.procs[p]);
  }

  /**
   * A whole by_id among any operations of others, `t` being the state before its last step: either no
   * id file is linked at its open, and it ends there; or it returns the name under which the id was
   * created, just when its create has returned, and otherwise, the create having made the id file and
   * waiting for its lock, an empty one.
   */
  lemma ByIdAnswers(s: State, p: Pid, id: Id, es: seq<Event>)
    requires Reachable(s) && p !in s.procs
    requires var u := BeginStep(s, p, OpLook(id));
             && CanRun(u, es) && Remains(u, es, p)
             && var t := Run(u, es);
                p in t.procs && CanStep(t, p) && p !in ProcStep(t, p).procs
    ensures Enabled(s, Begin(p, OpLook(id)))
    ensures var t := Run(BeginStep(s, p, OpLook(id)), es);
            && LooksUp(t, p, id)
            && var c := t.procs[p];
               || (c.kat == OpenLook && IdFile(id) !in t.links)
               || (c.kat == CloseLook && id in t.created && c.name == NameOf(t, id) && IsName(c.name))
               || (c.kat == CloseLook && id !in t.created && c.name == []
                   && CreatorAtWork(t, id) && t.procs[t.used[id]].cat == LockId)
  {
    hide Reachable, Inv, ProcStep, CanStep, Remains, CanRun, Run, NameOf, IsName, CreatorAtWork;
    var u := BeginStep(s, p, OpLook(id));
    ReachableInv(s);
    EventKeepsInv(s, Begin(p, OpLook(id)));
    LooksOn(u, p, id, es);
    var t := Run(u, es);
    LookStepIs(t, p, id);
    if t.procs[p].kat == CloseLook {
      CloserHasName(t, p, id);
      if id !in t.created {
        EmptyNameMeansUnlocked(t, p, id);
      }
    }
  }

  // ---- no deadlock ----

  /** An inode that is not free is held by somebody in flight. */
  lemma LockHasHolder(s: State, i: Ino) returns (q: Pid)
    requires Locks(s) && !WriteFree(s, i)
    ensures q in s.procs && Holds(s.procs[q], i)
    ensures i in s.writer ==> HoldsWrite(s.procs[q], i)
  {
    if i in s.writer {
      q := s.writer[i];
      assert WriterIs(s, q, i);
      assert Writing(s, q, i);
    } else {
      var r :| r in s.readers && r.0 == i;
      q := r.1;
      assert (i, q) in s.readers;
      assert Reading(s, q, i);
    }
  }

  /** The holder of an id file, other than its creator, is a reader that can always go on. */
  lemma IdHolderCanStep(s: State, p: Pid, q: Pid)
    requires Procs(s) && p in s.procs && q in s.procs
    requires s.procs[p].Creating? && s.procs[p].cat == LockId && Holds(s.procs[q], s.procs[p].idIno)
    ensures CanStep(s, q)
  {
    assert ProcOk(s, p, s.procs[p]);
    assert ProcOk(s, q, s.procs[q]);
  }

  /** The holder of any inode is at most waiting for the lock of its own new id file. */
  lemma HolderWaitsOnlyForId(s: State, q: Pid, i: Ino)
    requires q in s.procs && Holds(s.procs[q], i)
    ensures CanStep(s, q) || (s.procs[q].Creating? && s.procs[q].cat == LockId)
  {
  }

  lemma WaiterOnIdUnblocks(s: State, p: Pid)
    requires Locks(s) && Procs(s) && p in s.procs && s.procs[p].Creating? && s.procs[p].cat == LockId
    ensures exists q :: q in s.procs && CanStep(s, q)
  {
    if !CanStep(s, p) {
      var q := LockHasHolder(s, s.procs[p].idIno);
      IdHolderCanStep(s, p, q);
    }
  }

  /** What a waiting operation waits for. */
  function Awaited(c: Proc): Ino {
    match c
    case Creating(at, _, _, ino, idIno) => if at == LockId then idIno else ino
    case Listing(_, _, ino, _, _, _) => ino
    case Looking(_, _, _, ino, _) => ino
    case Removing(_, _, _, ino, _, _) => ino
    case Filling(_, _, ino, _) => ino
  }

  lemma WaiterAwaits(s: State, p: Pid)
    requires p in s.procs && !CanStep(s, p)
    ensures !WriteFree(s, Awaited(s.procs[p]))
  {
  }

  /** The operation is about to ask for a lock; lookups ask for a shared one. */
  predicate AtALock(c: Proc) {
    match c
    case Creating(at, _, _, _, _) => at == LockName || at == LockId
    case Listing(at, _, _, _, _, _) => at == LockList
    case Looking(at, _, _, _, _) => at == LockLook
    case Removing(at, _, _, _, _, _) => at == RelockName
    case Filling(_, _, _, _) => false
  }

  /** Lookups share their locks. */
  predicate Blocks(d: Proc, c: Proc) {
    if c.Listing? || c.Looking? then HoldsWrite(d, Awaited(c)) else Holds(d, Awaited(c))
  }

  lemma WriterHasHolder(s: State, i: Ino)
    requires Locks(s)
    ensures i in s.writer <==> exists q :: q in s.procs && HoldsWrite(s.procs[q], i)
    ensures !WriteFree(s, i) <==> exists q :: q in s.procs && Holds(s.procs[q], i)
  {
    if !WriteFree(s, i) {
      var q := LockHasHolder(s, i);
    }
    forall q | q in s.procs && Holds(s.procs[q], i) ensures !WriteFree(s, i) {
      assert Writing(s, q, i) || Reading(s, q, i);
      assert WriterIs(s, q, i) || (i, q) in s.readers;
    }
    forall q | q in s.procs && HoldsWrite(s.procs[q], i) ensures i in s.writer {
      assert Writing(s, q, i);
      assert WriterIs(s, q, i);
    }
  }

  /**
   * An operation waits exactly when it is about to ask for a lock and an operation in flight holds that
   * inode: lookups wait only for a writer, the others for anybody.
   */
  lemma WaitsIff(s: State, p: Pid)
    requires Reachable(s) && p in s.procs
    ensures var c := s.procs[p];
            !CanStep(s, p) <==> AtALock(c) && exists q :: q in s.procs && Blocks(s.procs[q], c)
  {
    hide Inv, Reachable, Locks, HoldsWrite, HoldsRead, WriteFree;
    ReachableInv(s);
    InvLocks(s);
    WriterHasHolder(s, Awaited(s.procs[p]));
  }

  lemma InvLocks(s: State)
    requires Inv(s)
    ensures Locks(s)
  {
  }

  /** Whatever the others do, an idle process may begin any lookup, creates of fresh ids, and the rest of known ids. */
  lemma IdleMayBegin(s: State, p: Pid, n: Name, id: Id, data: Octets)
    requires p !in s.procs
    ensures Enabled(s, Begin(p, OpList(n))) && Enabled(s, Begin(p, OpLook(id)))
    ensures IsName(n) && IsName(id) && id !in s.used ==> Enabled(s, Begin(p, OpCreate(n, id)))
    ensures id in s.created ==> Enabled(s, Begin(p, OpFill(id, data)))
    ensures id in s.created || (exists i: Ino :: i in s.lists && id in s.lists[i]) ==>
      Enabled(s, Begin(p, OpRemove(id)))
  {
  }

  /** In every reachable state with operations in flight, one of them can make its next system call. */
  lemma NoDeadlock(s: State)
    requires Reachable(s) && !Quiescent(s)
    ensures exists q :: q in s.procs && CanStep(s, q)
  {
    ReachableInv(s);
    hide Shape, Locks, Ids, ListsOk, Quiet, Inodes, Lives, Sound, Complete, Unorphaned, Procs, Holds;
    var p :| p in s.procs;
    if !CanStep(s, p) {
      WaiterAwaits(s, p);
      var q := LockHasHolder(s, Awaited(s.procs[p]));
      HolderWaitsOnlyForId(s, q, Awaited(s.procs[p]));
      if !CanStep(s, q) {
        WaiterOnIdUnblocks(s, q);
      }
    }
  }

  // ---- isolation ----

  /**
   * At every step of any operation on another id, an object keeps its name, its size and its
   * contents; in particular a remove that rewrites or unlinks a name file touches no other object.
   */
  lemma OtherObjectsUntouched(s: State, e: Event, id: Id)
    requires Reachable(s) && Enabled(s, e)
    requires e.Continue? ==> !Concerns(s.procs[e.p], id)
    ensures SameFile(s, Apply(s, e), IdFile(id)) && SameFile(s, Apply(s, e), DataFile(id))
  {
    ReachableInv(s);
    EventKeepsAll(s, e);
    hide Inv, Shared, Grows, Respects, SameFile, OthersSame;
    assert !Owns(s, e.p, IdFile(id)) && !Owns(s, e.p, DataFile(id));
  }

  /** No event is a step of an operation on `id`. */
  ghost predicate Elsewhere(s: State, es: seq<Event>, id: Id)
    requires CanRun(s, es)
    decreases |es|
  {
    es != [] ==>
      (es[0].Continue? ==> !Concerns(s.procs[es[0].p], id)) && Elsewhere(Apply(s, es[0]), es[1..], id)
  }

  lemma SameFileOn(s: State, u: State, t: State, path: Path)
    requires SameFile(s, u, path) && SameFile(u, t, path)
    ensures SameFile(s, t, path)
  {
  }

  /** Whatever any number of processes do to other ids, for however long: the object stays as it is. */
  lemma {:induction false} OtherRunsTouchNothing(s: State, es: seq<Event>, id: Id)
    requires Reachable(s) && CanRun(s, es) && Elsewhere(s, es, id)
    ensures SameFile(s, Run(s, es), IdFile(id)) && SameFile(s, Run(s, es), DataFile(id))
    decreases |es|
  {
    if es != [] {
      hide Reachable, SameFile, Concerns;
      var u := Apply(s, es[0]);
      OtherObjectsUntouched(s, es[0], id);
      ReachableGoesOn(s, es[0]);
      OtherRunsTouchNothing(u, es[1..], id);
      SameFileOn(s, u, Run(s, es), IdFile(id));
      SameFileOn(s, u, Run(s, es), DataFile(id));
    }
  }
}
