/** What every interleaving of the operations guarantees. */
module Consistency {
  import opened Bytes
  import opened Lines
  import opened Paths
  import opened Processes
  import opened Invariants
  import opened Frames
  import opened Effects
  import opened Mutations
  import opened ReadSteps
  import opened RemoveSteps
  import opened CreateSteps

  // ---- the invariant holds in every reachable state ----

  lemma InitInv()
    ensures Inv(Init)
  {
  }

  ghost predicate OnlyUses(s: State, t: State, p: Pid, id: Id, name: Name) {
    && p !in s.procs && id !in s.used && IsName(id) && IsName(name)
    && t == Goto(s.(used := s.used[id := p]), p, Creating(OpenName, id, name, 0, 0))
  }

  lemma CreatorUnmoved(s: State, t: State, p: Pid, id: Id, name: Name, x: Id)
    requires OnlyUses(s, t, p, id, name) && CreatorAtWork(s, x)
    ensures CreatorAtWork(t, x)
  {
  }

  lemma CreatorStarts(s: State, t: State, p: Pid, id: Id, name: Name)
    requires OnlyUses(s, t, p, id, name)
    ensures CreatorAtWork(t, id)
  {
  }

  lemma UseIds(s: State, t: State, p: Pid, id: Id, name: Name)
    requires Shape(s) && Ids(s) && OnlyUses(s, t, p, id, name) && Grows(s, t)
    ensures Ids(t)
  {
    NamesStay(s, t);
    hide Grows, NameOf, IsName, Shape, CreatorAtWork;
    forall x | x in t.used && x !in t.created ensures CreatorAtWork(t, x) {
      if x != id {
        assert CreatorAtWork(s, x);
        CreatorUnmoved(s, t, p, id, name, x);
      } else {
        CreatorStarts(s, t, p, id, name);
      }
    }
  }

  lemma UseInodes(s: State, t: State, p: Pid, id: Id, name: Name)
    requires Shape(s) && Inodes(s) && OnlyUses(s, t, p, id, name)
    ensures Inodes(t)
  {
    forall j | j in t.home && t.home[j].IdFile? ensures IdInode(t, j) {
      assert IdInode(s, j);
    }
    forall j | j in t.home && t.home[j].DataFile? ensures DataInode(t, j) {
      assert DataInode(s, j);
    }
  }

  lemma UseRest(s: State, t: State, p: Pid, id: Id, name: Name)
    requires Shared(s) && OnlyUses(s, t, p, id, name) && Grows(s, t)
    ensures Shape(t) && ListsOk(t) && Quiet(t) && Lives(t) && Complete(t) && Unorphaned(t)
  {
    hide Shape, Locks, Ids, ListsOk, Quiet, Inodes, Lives, Sound, Complete, Unorphaned, Grows;
    ShapeSame(s, t);
    ListsSame(s, t);
    QuietChange(s, t);
    LivesSame(s, t);
    CompleteSame(s, t);
    UnorphanedSame(s, t);
  }

  lemma UseRespects(s: State, t: State, p: Pid, id: Id, name: Name)
    requires OnlyUses(s, t, p, id, name)
    ensures OthersSame(s, t, p) && forall q :: q in s.procs && q != p ==> Respects(s, t, q)
  {
  }

  lemma BeginCreate(s: State, p: Pid, name: Name, id: Id)
    requires Inv(s) && MayBegin(s, p, OpCreate(name, id))
    ensures Kept(s, BeginStep(s, p, OpCreate(name, id)), p)
  {
    hide Shape, Ids, ListsOk, Quiet, Inodes, Lives, Sound, Complete, Unorphaned, Procs, Respects, OthersSame, Grows;
    hide Spares;
    var t := BeginStep(s, p, OpCreate(name, id));
    SameListsGrow(s, t);
    UseIds(s, t, p, id, name);
    UseInodes(s, t, p, id, name);
    UseRest(s, t, p, id, name);
    UseRespects(s, t, p, id, name);
    SameFilesSpare(s, t, p);
    LocksChange(s, t, p);
    StoreSound(s, t, p);
    assert CreatingOk(t, p, t.procs[p]) by { UnusedUnborn(s, id); }
    GoodStep(s, t, p);
  }

  lemma UnusedUnborn(s: State, id: Id)
    requires Ids(s) && id !in s.used
    ensures id !in s.born && id !in s.created
  {
  }

  lemma BeginOther(s: State, p: Pid, op: Op)
    requires Inv(s) && MayBegin(s, p, op) && !op.OpCreate?
    ensures Kept(s, BeginStep(s, p, op), p)
  {
    hide Shape, Ids, ListsOk, Quiet, Inodes, Lives, Sound, Complete, Unorphaned, Procs, Good;
    var t := BeginStep(s, p, op);
    if op.OpRemove? {
      KnownIsOffered(s, op.id);
    }
    LocksChange(s, t, p);
    SoundBystander(s, t, p);
    Bystander(s, t, p);
    GoodStep(s, t, p);
  }

  lemma KnownIsOffered(s: State, id: Id)
    requires Inv(s)
    ensures Known(s, id) <==> Offered(s, id)
  {
    hide Shape, Locks, Quiet, Inodes, Lives, Sound, Complete, Unorphaned, Procs;
  }

  lemma EventKeepsAll(s: State, e: Event)
    requires Inv(s) && Enabled(s, e)
    ensures Kept(s, Apply(s, e), e.p)
  {
    hide Inv, Kept, CreateStep, ListStep, LookStep, RemoveStep, FillStep, BeginStep;
    match e
    case Begin(p, op) =>
      if op.OpCreate? { BeginCreate(s, p, op.name, op.id); } else { BeginOther(s, p, op); }
    case Continue(p) =>
      var c := s.procs[p];
      match c {
        case Creating(_, _, _, _, _) => CreateKeepsInv(s, p, c);
        case Listing(_, _, _, _, _, _) => ListKeepsInv(s, p, c);
        case Looking(_, _, _, _, _) => LookKeepsInv(s, p, c);
        case Removing(_, _, _, _, _, _) => RemoveKeepsInv(s, p, c);
        case Filling(_, _, _, _) => FillKeepsInv(s, p, c);
      }
  }

  lemma EventKeepsInv(s: State, e: Event)
    requires Inv(s) && Enabled(s, e)
    ensures Inv(Apply(s, e))
  {
    hide Inv, Good;
    EventKeepsAll(s, e);
  }

  lemma {:induction false} RunKeepsInv(s: State, es: seq<Event>)
    requires Inv(s) && CanRun(s, es)
    ensures Inv(Run(s, es))
    decreases |es|
  {
    hide Inv;
    if es != [] {
      EventKeepsInv(s, es[0]);
      RunKeepsInv(Apply(s, es[0]), es[1..]);
    }
  }

  lemma ReachableInv(s: State)
    requires Reachable(s)
    ensures Inv(s)
  {
    hide Inv;
    var es :| CanRun(Init, es) && Run(Init, es) == s;
    InitInv();
    RunKeepsInv(Init, es);
  }

  lemma {:induction false} RunGoesOn(s: State, es: seq<Event>, e: Event)
    requires CanRun(s, es) && Enabled(Run(s, es), e)
    ensures CanRun(s, es + [e]) && Run(s, es + [e]) == Apply(Run(s, es), e)
    decreases |es|
  {
    if es == [] {
      assert [e][1..] == [];
      assert es + [e] == [e];
    } else {
      assert (es + [e])[1..] == es[1..] + [e];
      RunGoesOn(Apply(s, es[0]), es[1..], e);
    }
  }

  lemma ReachableGoesOn(s: State, e: Event)
    requires Reachable(s) && Enabled(s, e)
    ensures Reachable(Apply(s, e))
  {
    var es :| CanRun(Init, es) && Run(Init, es) == s;
    RunGoesOn(Init, es, e);
    assert CanRun(Init, es + [e]);
  }

  // ---- what the files say ----

  /** The ids that reading the name file of `n` yields now. */
  function Listed(s: State, n: Name): seq<Id> {
    if NameFile(n) in s.links then Drain(Content(s, s.links[NameFile(n)]), 0, SEPARATOR) else []
  }

  /** The id file exists and holds `n`. */
  predicate FileSays(s: State, id: Id, n: Name) {
    IdFile(id) in s.links && Content(s, s.links[IdFile(id)]) == n + [SEPARATOR]
  }

  /** Some create or remove of `id` has not returned. */
  ghost predicate InFlight(s: State, id: Id) {
    exists p :: p in s.procs && (s.procs[p].Creating? || s.procs[p].Removing?) && s.procs[p].id == id
  }

  lemma {:induction false} FreeLists(s: State, i: Ino)
    requires Ids(s) && ListsOk(s) && i in s.lists
    ensures AllFree(s.lists[i], SEPARATOR)
  {
    forall k | 0 <= k < |s.lists[i]| ensures Free(s.lists[i][k], SEPARATOR) {
      assert s.lists[i][k] in s.lists[i];
      assert IsName(s.lists[i][k]);
    }
  }

  /** A name file nobody is writing reads as its list. */
  lemma ReadsAsList(s: State, i: Ino)
    requires Inv(s) && i in s.lists && i !in s.writer
    ensures Drain(Content(s, i), 0, SEPARATOR) == s.lists[i]
  {
    hide Shape, Locks, Inodes, Lives, Sound, Complete, Unorphaned, Procs;
    WholeListAhead(s, i);
  }

  /** Even in the middle of a write, a name file reads as a part of its list, or shows the id being added. */
  lemma ReadsWithinList(s: State, i: Ino, id: Id)
    requires Inv(s) && i in s.lists && id in Drain(Content(s, i), 0, SEPARATOR)
    ensures id in s.lists[i] || InFlight(s, id)
  {
    hide Shape, ListsOk, Inodes, Lives, Sound, Complete, Unorphaned, Procs, InFlight, Ids;
    if i !in s.writer {
      ReadsAsList(s, i);
    } else {
      var p := s.writer[i];
      assert WriterIs(s, p, i);
      assert Writing(s, p, i);
      hide Locks, Quiet;
      OwnFacts(s, p);
      FreeLists(s, i);
      InodeOfList(s, i);
      var c := s.procs[p];
      if c.Creating? {
        AppendReads(s, p, c, i, id);
      } else {
        RewriteReads(s, c, i, id);
      }
    }
  }

  lemma AppendReads(s: State, p: Pid, c: Proc, i: Ino, id: Id)
    requires p in s.procs && s.procs[p] == c && c.Creating? && CreatingOk(s, p, c) && HoldsWrite(c, i)
    requires i in s.lists && i in s.home && s.home[i].NameFile? && Ids(s) && AllFree(s.lists[i], SEPARATOR)
    requires id in Drain(Content(s, i), 0, SEPARATOR)
    ensures id in s.lists[i] || InFlight(s, id)
  {
    assert i == c.ino && HoldsNameLock(c.cat);
    var tail := if c.cat == PutSep then c.id else [];
    assert IsName(c.id);
    DrainUndoesJoin(s.lists[i], tail, SEPARATOR);
  }

  lemma RewriteReads(s: State, c: Proc, i: Ino, id: Id)
    requires c.Removing? && RemovingOk(s, c) && HoldsWrite(c, i)
    requires i in s.lists && AllFree(s.lists[i], SEPARATOR)
    requires id in Drain(Content(s, i), 0, SEPARATOR)
    ensures id in s.lists[i]
  {
    if c.rat == RewriteId || c.rat == RewriteSep {
      PartReads(s, c, i, id);
    } else {
      var list := s.lists[i];
      assert Content(s, i) == Join(list, SEPARATOR);
      hide Drain, Join;
      DrainUndoesJoin(list, [], SEPARATOR);
      assert Join(list, SEPARATOR) + [] == Join(list, SEPARATOR);
    }
  }

  lemma PartReads(s: State, c: Proc, i: Ino, id: Id)
    requires c.Removing? && RewriteOk(s, c) && i == c.ino
    requires i in s.lists && AllFree(s.lists[i], SEPARATOR)
    requires id in Drain(Content(s, i), 0, SEPARATOR)
    ensures id in s.lists[i]
  {
    hide Drain, Join;
    var list := s.lists[i];
    var k := |list| - |c.ids|;
    var tail := if c.rat == RewriteSep then c.ids[0] else [];
    assert c.ids[0] == list[k];
    DrainUndoesJoin(list[..k], tail, SEPARATOR);
  }

  // ---- soundness: every listed id is live ----

  /** An id settled in a linked list is alive under that name. */
  lemma ListMemberIsLive(s: State, n: Name, i: Ino, id: Id)
    requires Inv(s) && !InFlight(s, id)
    requires NameFile(n) in s.links && s.links[NameFile(n)] == i && id in ListOf(s, i)
    ensures FileSays(s, id, n) && Present(s, id) && id in s.created && id !in s.doomed
  {
    hide Locks, Quiet, Complete, Unorphaned, Procs;
    assert s.born[id] == i;
    assert Linked(s, i);
    assert NameOf(s, id) == n;
    assert id !in s.created ==> CreatorAtWork(s, id);
    assert id in s.doomed ==> WillUnlist(s, s.doomed[id], id, i);
    assert IdInode(s, s.links[IdFile(id)]);
  }

  /**
   * In every reachable state, with name files emptied, unlinked and recreated freely: whatever
   * the name file of `n` shows, even half-written, is alive under `n` once no create or remove
   * of it is in flight.
   */
  lemma ListedIsLive(s: State, n: Name, id: Id)
    requires Reachable(s) && id in Listed(s, n) && !InFlight(s, id)
    ensures FileSays(s, id, n) && DataFile(id) in s.links
  {
    hide Inv, FileSays, InFlight;
    ReachableInv(s);
    var i := s.links[NameFile(n)];
    NameLinkHasList(s, n);
    ReadsWithinList(s, i, id);
    ListMemberIsLive(s, n, i, id);
  }

  lemma NameLinkHasList(s: State, n: Name)
    requires Inv(s) && NameFile(n) in s.links
    ensures IsNameInode(s, s.links[NameFile(n)], n)
  {
    hide Locks, Ids, ListsOk, Quiet, Inodes, Lives, Sound, Complete, Unorphaned, Procs;
  }

  // ---- completeness, and exactly when it fails ----

  /** The id's create has returned and no remove of it has begun to unlink. */
  ghost predicate Settled(s: State, id: Id) {
    id in s.created && id !in s.doomed
  }

  lemma SettledFileSays(s: State, id: Id, n: Name)
    requires Inv(s) && id in s.created && FileSays(s, id, n)
    ensures Settled(s, id) && NameOf(s, id) == n
  {
    hide Locks, Quiet, Complete, Unorphaned, Procs, Sound, ListsOk, Ids;
    assert IdInode(s, s.links[IdFile(id)]);
    assert NameOf(s, id) == (NameOf(s, id) + [SEPARATOR])[..|NameOf(s, id)|];
    assert n == (n + [SEPARATOR])[..|n|];
  }

  lemma SettledIsPresent(s: State, id: Id)
    requires Inv(s) && Settled(s, id)
    ensures Present(s, id) && FileSays(s, id, NameOf(s, id))
  {
    hide Locks, Ids, ListsOk, Quiet, Sound, Complete, Unorphaned, Procs;
    assert IdInode(s, s.links[IdFile(id)]);
  }

  lemma SettledBirth(s: State, id: Id)
    requires Inv(s) && Settled(s, id)
    ensures id in s.born && IsNameInode(s, s.born[id], NameOf(s, id)) && id in ListOf(s, s.born[id])
  {
    hide Locks, Quiet, Unorphaned, Procs, Sound, ListsOk, Inodes, Lives;
  }

  /**
   * A live id is listed under its name if and only if the directory still links the inode
   * that its create opened.
   */
  lemma ListedIffStillLinked(s: State, id: Id)
    requires Reachable(s) && Settled(s, id)
    requires var n := NameOf(s, id); NameFile(n) in s.links ==> s.links[NameFile(n)] !in s.writer
    ensures var n := NameOf(s, id);
            id in s.born && (id in Listed(s, n) <==> NameFile(n) in s.links && s.links[NameFile(n)] == s.born[id])
  {
    hide Inv;
    ReachableInv(s);
    var n := NameOf(s, id);
    SettledBirth(s, id);
    if NameFile(n) in s.links {
      var i := s.links[NameFile(n)];
      NameLinkHasList(s, n);
      ReadsAsList(s, i);
      if id in ListOf(s, i) {
        MemberWasBornThere(s, i, id);
      }
    }
  }

  lemma MemberWasBornThere(s: State, i: Ino, id: Id)
    requires Inv(s) && id in ListOf(s, i)
    ensures id in s.born && s.born[id] == i
  {
    hide Shape, Locks, Ids, Quiet, Inodes, Lives, Sound, Complete, Unorphaned, Procs;
  }

  /** Nothing is in flight. */
  predicate Quiescent(s: State) {
    s.procs == map[]
  }

  lemma QuiescentFacts(s: State)
    requires Inv(s) && Quiescent(s)
    ensures s.writer == map[]
    ensures forall id :: id in s.used ==> id in s.created
  {
    hide Shape, ListsOk, Quiet, Inodes, Lives, Sound, Complete, Unorphaned, Procs;
    assert forall i :: i in s.writer ==> WriterIs(s, s.writer[i], i) && Writing(s, s.writer[i], i);
  }

  lemma FileBelongsToCreated(s: State, id: Id)
    requires Inv(s) && Quiescent(s) && IdFile(id) in s.links
    ensures id in s.created
  {
    QuiescentFacts(s);
    hide Locks, Ids, ListsOk, Quiet, Lives, Sound, Complete, Unorphaned, Procs;
    assert IdInode(s, s.links[IdFile(id)]);
  }

  lemma UnemptiedIsLinked(s: State, i: Ino, n: Name)
    requires Inv(s) && IsNameInode(s, i, n) && n !in s.emptied
    ensures NameFile(n) in s.links && s.links[NameFile(n)] == i
  {
    hide Shape, Locks, Ids, ListsOk, Quiet, Inodes, Lives, Sound, Complete, Procs;
    assert Linked(s, i);
  }

  lemma LinkedListIsDistinct(s: State, i: Ino)
    requires Inv(s) && i in s.lists
    ensures Distinct(s.lists[i])
  {
    hide Shape, Locks, Ids, Quiet, Inodes, Lives, Sound, Complete, Unorphaned, Procs;
  }

  /**
   * In every interleaving, once all operations have returned, the two indexes agree exactly
   * on every name that no remove has found empty: an id is listed, once, under `n` if and only
   * if its id file says `n`. No append and no rewrite was lost.
   */
  lemma IndexesAgree(s: State, n: Name)
    requires Reachable(s) && Quiescent(s) && n !in s.emptied
    ensures Distinct(Listed(s, n))
    ensures forall id :: id in Listed(s, n) <==> FileSays(s, id, n)
  {
    hide Inv, FileSays, Distinct;
    ReachableInv(s);
    QuiescentFacts(s);
    if NameFile(n) in s.links {
      NameLinkHasList(s, n);
      ReadsAsList(s, s.links[NameFile(n)]);
      LinkedListIsDistinct(s, s.links[NameFile(n)]);
    } else {
      assert Distinct([]) by { EmptyIsDistinct(); }
    }
    forall id ensures id in Listed(s, n) <==> FileSays(s, id, n) {
      if id in Listed(s, n) {
        assert !InFlight(s, id);
        ListedIsLive(s, n, id);
      }
      if FileSays(s, id, n) {
        assert IdFile(id) in s.links by { FileSaysLinked(s, id, n); }
        FileBelongsToCreated(s, id);
        SettledFileSays(s, id, n);
        SettledBirth(s, id);
        UnemptiedIsLinked(s, s.born[id], n);
      }
    }
  }

  lemma EmptyIsDistinct()
    ensures Distinct([])
  {
  }

  lemma FileSaysLinked(s: State, id: Id, n: Name)
    requires FileSays(s, id, n)
    ensures IdFile(id) in s.links
  {
  }
}
