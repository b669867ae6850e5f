/**
 * The interleaving that loses an id, for every name and every two ids: a remove has found the
 * name file empty and is about to unlink it by its path, while a create has it open already.
 */
module Race {
  import opened Bytes
  import opened Lines
  import opened Paths
  import opened Processes
  import opened Invariants
  import opened Frames
  import opened Effects
  import opened ReadSteps
  import opened RemoveSteps
  import opened CreateSteps
  import opened Consistency
  import opened Runs

  // ---- runs that are known by their end ----

  lemma InitReachable()
    ensures Reachable(Init)
  {
    assert CanRun(Init, []) && Run(Init, []) == Init;
  }

  lemma After(s: State, e: Event) returns (t: State)
    requires Reachable(s) && Enabled(s, e)
    ensures Reachable(t) && Inv(s) && Kept(s, t, e.p) && t == Apply(s, e)
  {
    hide Inv, Kept;
    ReachableInv(s);
    EventKeepsAll(s, e);
    var es :| CanRun(Init, es) && Run(Init, es) == s;
    RunGoesOn(Init, es, e);
    t := Apply(s, e);
    assert CanRun(Init, es + [e]);
  }

  // ---- an operation that meets no other lock finishes ----

  /** Every lock is held by `p`. */
  ghost predicate Alone(s: State, p: Pid) {
    (forall i :: i in s.writer ==> s.writer[i] == p) && (forall r :: r in s.readers ==> r.1 == p)
  }

  lemma AloneCanStep(s: State, p: Pid)
    requires Inv(s) && p in s.procs && Alone(s, p)
    ensures CanStep(s, p)
  {
    hide Shape, Ids, ListsOk, Quiet, Inodes, Lives, Sound, Complete, Unorphaned, Procs;
    OwnFacts(s, p);
    var c := s.procs[p];
    forall i: Ino ensures WriteFree(s, i) || Writing(s, p, i) || Reading(s, p, i) {
      assert i in s.writer ==> WriterIs(s, p, i);
      assert forall r :: r in s.readers && r.0 == i ==> r == (i, p);
    }
    assert c.Creating? && c.cat == LockId ==> !Holds(c, c.idIno);
  }

  /** Directory entries of names, and the fate of ids, are as before. */
  ghost predicate Steady(s: State, t: State) {
    && (forall n :: NameFile(n) in t.links <==> NameFile(n) in s.links)
    && (forall n :: NameFile(n) in s.links && NameFile(n) in t.links ==> t.links[NameFile(n)] == s.links[NameFile(n)])
    && t.doomed == s.doomed && t.used == s.used
  }

  function CreateRank(at: CreateAt): nat {
    match at
    case OpenName => 11 case LockName => 10 case OpenId => 9 case LockId => 8 case PutId => 7 case PutSep => 6
    case CloseName => 5 case PutName => 4 case PutEnd => 3 case OpenData => 2 case Return => 1
  }

  /** One step of a create past its first. */
  ghost predicate CreateMoved(s: State, t: State, p: Pid, c: Proc)
    requires c.Creating?
  {
    && Alone(t, p) && Steady(s, t)
    && (c.cat == Return ==> p !in t.procs && c.id in t.created)
    && (c.cat != Return ==>
          && p in t.procs && t.procs[p].Creating? && t.procs[p].id == c.id
          && t.procs[p].cat != OpenName && CreateRank(t.procs[p].cat) < CreateRank(c.cat))
  }

  lemma CreateMovesLocks(s: State, p: Pid, c: Proc)
    requires c.Creating? && Alone(s, p)
    requires c.cat == LockName || c.cat == LockId || c.cat == CloseName || c.cat == Return
    ensures CreateMoved(s, CreateStep(s, p, c), p, c)
  {
  }

  lemma CreateMovesBytes(s: State, p: Pid, c: Proc)
    requires c.Creating? && Alone(s, p)
    requires c.cat == PutId || c.cat == PutSep || c.cat == PutName || c.cat == PutEnd
    ensures CreateMoved(s, CreateStep(s, p, c), p, c)
  {
  }

  lemma LinkingIsSteady(s: State, t: State, path: Path, i: Ino)
    requires !path.NameFile? && t.links == s.links[path := i] && t.doomed == s.doomed && t.used == s.used
    ensures Steady(s, t)
  {
  }

  lemma OpenFreshIsSteady(s: State, t: State, path: Path)
    requires !path.NameFile? && t == OpenFresh(s, path)
    ensures Steady(s, t) && t.writer == s.writer && t.readers == s.readers
  {
    hide Steady;
    if path in s.links {
      assert t.links == s.links[path := s.links[path]];
      LinkingIsSteady(s, t, path, s.links[path]);
    } else {
      LinkingIsSteady(s, t, path, s.next);
    }
  }

  lemma CreateMovesFiles(s: State, p: Pid, c: Proc)
    requires c.Creating? && Alone(s, p) && (c.cat == OpenId || c.cat == OpenData)
    ensures CreateMoved(s, CreateStep(s, p, c), p, c)
  {
    var path := if c.cat == OpenId then IdFile(c.id) else DataFile(c.id);
    OpenFreshIsSteady(s, OpenFresh(s, path), path);
    hide OpenFresh;
  }

  /** A create that has opened its name file, and meets no lock, runs to its return. */
  lemma {:induction false} CreateFinishes(s: State, p: Pid) returns (t: State)
    requires Reachable(s) && p in s.procs && s.procs[p].Creating? && s.procs[p].cat != OpenName && Alone(s, p)
    ensures Reachable(t) && p !in t.procs && Alone(t, p) && OthersSame(s, t, p) && Steady(s, t) && Grows(s, t)
    ensures s.procs[p].id in t.created
    decreases CreateRank(s.procs[p].cat)
  {
    hide Shape, Locks, Ids, ListsOk, Quiet, Inodes, Lives, Sound, Complete, Unorphaned, Procs, Reachable, Alone;
    hide Respects;
    hide Spares, CreateStep;
    var c := s.procs[p];
    ReachableInv(s);
    AloneCanStep(s, p);
    t := After(s, Continue(p));
    match c.cat {
      case LockName => CreateMovesLocks(s, p, c);
      case LockId => CreateMovesLocks(s, p, c);
      case CloseName => CreateMovesLocks(s, p, c);
      case Return => CreateMovesLocks(s, p, c);
      case OpenId => CreateMovesFiles(s, p, c);
      case OpenData => CreateMovesFiles(s, p, c);
      case _ => CreateMovesBytes(s, p, c);
    }
    if c.cat != Return {
      var u := t;
      t := CreateFinishes(u, p);
    }
  }

  // ---- a remove of the only id listed empties the name file ----

  ghost predicate OnlyId(s: State, n: Name, i: Ino, id: Id) {
    NameFile(n) in s.links && s.links[NameFile(n)] == i && ListOf(s, i) == [id]
  }

  /** A remove of `id`, still to read the name file of `n`, is at work. */
  ghost predicate Underway(s: State, p: Pid, n: Name, i: Ino, id: Id) {
    && p in s.procs && Alone(s, p) && OnlyId(s, n, i, id)
    && var c := s.procs[p];
       || (c.Looking? && c.removing && c.id == id && IdFile(id) in s.links)
       || (c.Removing? && c.id == id && 0 < RemoveRank(c.rat)
           && (c.rat == RelockName || c.rat == Collect || c.rat == Truncate ==> c.ino == i))
  }

  function RemoveRank(at: RemoveAt): nat {
    match at
    case UnlinkId => 6 case UnlinkData => 5 case ReopenName => 4 case RelockName => 3 case Collect => 2
    case Truncate => 1 case _ => 0
  }

  function Rank(c: Proc): nat {
    match c
    case Looking(OpenLook, _, _, _, _) => 10
    case Looking(LockLook, _, _, _, _) => 9
    case Looking(ReadName, _, _, _, _) => 8
    case Looking(CloseLook, _, _, _, _) => 7
    case Removing(at, _, _, _, _, _) => RemoveRank(at)
    case _ => 0
  }

  function Unread(s: State, c: Proc): nat {
    if c.Removing? && c.pos < |Content(s, c.ino)| then |Content(s, c.ino)| - c.pos else 0
  }

  /** The remove has found nothing to keep. */
  ghost predicate AtUnlink(s: State, p: Pid, n: Name, i: Ino) {
    && p in s.procs && Alone(s, p) && s.procs[p].Removing? && s.procs[p].rat == UnlinkName
    && s.procs[p].name == n && s.procs[p].ino == i
  }

  ghost predicate RemoveMoved(s: State, t: State, p: Pid, n: Name, i: Ino, id: Id)
    requires p in s.procs
  {
    && t.used == s.used && (forall x :: x in t.doomed ==> x in s.doomed || x == id)
    && (s.procs[p].Looking? ==> t.links == s.links)
    && ((Underway(t, p, n, i, id)
         && (Rank(t.procs[p]) + 1 == Rank(s.procs[p])
             || (Rank(t.procs[p]) == Rank(s.procs[p]) && Unread(t, t.procs[p]) < Unread(s, s.procs[p]))))
        || (AtUnlink(t, p, n, i) && Rank(s.procs[p]) <= 1))
  }

  lemma LookMoves(s: State, p: Pid, n: Name, i: Ino, id: Id)
    requires Underway(s, p, n, i, id) && s.procs[p].Looking?
    requires s.procs[p].kat == OpenLook || s.procs[p].kat == LockLook
    ensures RemoveMoved(s, LookStep(s, p, s.procs[p]), p, n, i, id)
  {
  }

  lemma LookEndMoves(s: State, p: Pid, n: Name, i: Ino, id: Id)
    requires Underway(s, p, n, i, id) && s.procs[p].Looking?
    requires s.procs[p].kat == ReadName || s.procs[p].kat == CloseLook
    ensures RemoveMoved(s, LookStep(s, p, s.procs[p]), p, n, i, id)
  {
    hide NextLine;
  }

  lemma UnlinkMoves(s: State, p: Pid, n: Name, i: Ino, id: Id)
    requires Underway(s, p, n, i, id) && s.procs[p].Removing? && s.procs[p].name == n
    requires s.procs[p].rat == UnlinkId || s.procs[p].rat == UnlinkData
    ensures RemoveMoved(s, RemoveStep(s, p, s.procs[p]), p, n, i, id)
  {
  }

  lemma ReopenMoves(s: State, p: Pid, n: Name, i: Ino, id: Id)
    requires Underway(s, p, n, i, id) && s.procs[p].Removing? && s.procs[p].name == n
    requires s.procs[p].rat == ReopenName || s.procs[p].rat == RelockName
    ensures RemoveMoved(s, RemoveStep(s, p, s.procs[p]), p, n, i, id)
  {
  }

  lemma CollectMoves(s: State, p: Pid, n: Name, i: Ino, id: Id)
    requires Underway(s, p, n, i, id) && s.procs[p].Removing? && s.procs[p].name == n
    requires s.procs[p].rat == Collect
    ensures RemoveMoved(s, RemoveStep(s, p, s.procs[p]), p, n, i, id)
  {
    CollectKeeps(s, p, n, i, id);
    CollectReads(s, p);
    hide OnlyId, Alone, RemoveStep, Unread, NextLine;
  }

  lemma CollectStepIs(s: State, p: Pid, c: Proc)
    requires c.Removing? && c.rat == Collect
    ensures var l := NextLine(Content(s, c.ino), c.pos, SEPARATOR);
            RemoveStep(s, p, c)
            == Goto(s, p, if l.got then c.(pos := l.next, ids := c.ids + [l.text]) else c.(rat := Truncate))
  {
    hide NextLine, Content;
  }

  lemma CollectReads(s: State, p: Pid)
    requires p in s.procs && s.procs[p].Removing? && s.procs[p].rat == Collect
    ensures var c, t := s.procs[p], RemoveStep(s, p, s.procs[p]);
            && t.used == s.used && t.doomed == s.doomed && p in t.procs
            && t.procs[p].Removing? && t.procs[p].id == c.id && t.procs[p].ino == c.ino && t.procs[p].name == c.name
            && (t.procs[p].rat == Truncate || (t.procs[p].rat == Collect && Unread(t, t.procs[p]) < Unread(s, c)))
  {
    hide RemoveStep, NextLine;
    CollectStepIs(s, p, s.procs[p]);
  }

  lemma CollectKeeps(s: State, p: Pid, n: Name, i: Ino, id: Id)
    requires p in s.procs && s.procs[p].Removing? && s.procs[p].rat == Collect && OnlyId(s, n, i, id) && Alone(s, p)
    ensures var t := RemoveStep(s, p, s.procs[p]); OnlyId(t, n, i, id) && Alone(t, p)
  {
    hide NextLine;
  }

  lemma TruncateMoves(s: State, p: Pid, n: Name, i: Ino, id: Id)
    requires Underway(s, p, n, i, id) && s.procs[p].Removing? && s.procs[p].name == n
    requires s.procs[p].rat == Truncate && s.procs[p].ids == [id]
    ensures RemoveMoved(s, RemoveStep(s, p, s.procs[p]), p, n, i, id)
  {
    assert [id][1..] == [];
    assert Without([id], id) == [];
  }

  lemma RemoverKnowsName(s: State, p: Pid, n: Name, i: Ino, id: Id)
    requires Inv(s) && Underway(s, p, n, i, id) && s.procs[p].Removing?
    ensures s.procs[p].name == n && (s.procs[p].rat == Truncate ==> s.procs[p].ids == [id])
  {
    hide Locks, Ids, Quiet, Inodes, Lives, Sound, Complete, Unorphaned, Procs;
    OwnFacts(s, p);
    assert id in ListOf(s, i);
  }

  lemma RemoveMovesOn(s: State, p: Pid, n: Name, i: Ino, id: Id) returns (t: State)
    requires Reachable(s) && Underway(s, p, n, i, id)
    ensures Reachable(t) && OthersSame(s, t, p) && Grows(s, t) && RemoveMoved(s, t, p, n, i, id)
  {
    hide Shape, Locks, Ids, ListsOk, Quiet, Inodes, Lives, Sound, Complete, Unorphaned, Procs, Reachable, Alone;
    hide Respects;
    hide Spares, LookStep, RemoveStep, OnlyId, RemoveMoved, OthersSame, Grows, AtUnlink;
    var c := s.procs[p];
    ReachableInv(s);
    AloneCanStep(s, p);
    t := After(s, Continue(p));
    if c.Looking? {
      if c.kat == OpenLook || c.kat == LockLook {
        LookMoves(s, p, n, i, id);
      } else {
        LookEndMoves(s, p, n, i, id);
      }
    } else {
      RemoverKnowsName(s, p, n, i, id);
      if c.rat == UnlinkId || c.rat == UnlinkData {
        UnlinkMoves(s, p, n, i, id);
      } else if c.rat == Truncate {
        TruncateMoves(s, p, n, i, id);
      } else if c.rat == Collect {
        CollectMoves(s, p, n, i, id);
      } else {
        ReopenMoves(s, p, n, i, id);
      }
    }
  }

  /** It runs on to any later point of its work, or to where it has found nothing to keep. */
  lemma {:induction false} RemoveRunsTo(s: State, p: Pid, n: Name, i: Ino, id: Id, stop: nat) returns (t: State)
    requires Reachable(s) && Underway(s, p, n, i, id) && stop <= Rank(s.procs[p])
    ensures Reachable(t) && OthersSame(s, t, p) && Grows(s, t) && t.used == s.used
    ensures forall x :: x in t.doomed ==> x in s.doomed || x == id
    ensures if stop == 0 then AtUnlink(t, p, n, i) else Underway(t, p, n, i, id) && Rank(t.procs[p]) == stop
    ensures stop >= 6 ==> t.links == s.links
    decreases Rank(s.procs[p]), Unread(s, s.procs[p])
  {
    hide Reachable, OthersSame, Grows, Alone, OnlyId, Unread;
    if Rank(s.procs[p]) == stop {
      t := s;
      UnderwayIsRanked(s, p, n, i, id);
      SameStateIsKept(s, p);
    } else {
      var u := RemoveMovesOn(s, p, n, i, id);
      UnlinkingIsLast(s, u, p, n, i, id);
      if AtUnlink(u, p, n, i) {
        t := u;
      } else {
        t := RemoveRunsTo(u, p, n, i, id, stop);
        GrowsOn(s, u, t, p);
      }
    }
  }

  lemma UnderwayIsRanked(s: State, p: Pid, n: Name, i: Ino, id: Id)
    requires Underway(s, p, n, i, id)
    ensures Rank(s.procs[p]) > 0 && (s.procs[p].Looking? <==> Rank(s.procs[p]) > 6)
  {
  }

  lemma SameStateIsKept(s: State, p: Pid)
    ensures OthersSame(s, s, p) && Grows(s, s)
  {
  }

  /** Nothing to keep is found only at the end. */
  lemma UnlinkingIsLast(s: State, u: State, p: Pid, n: Name, i: Ino, id: Id)
    requires Underway(s, p, n, i, id) && RemoveMoved(s, u, p, n, i, id)
    ensures AtUnlink(u, p, n, i) ==> Rank(s.procs[p]) <= 1
    ensures s.procs[p].Looking? ==> u.links == s.links
    ensures !AtUnlink(u, p, n, i) ==>
      && Underway(u, p, n, i, id)
      && (Rank(u.procs[p]) + 1 == Rank(s.procs[p])
          || (Rank(u.procs[p]) == Rank(s.procs[p]) && Unread(u, u.procs[p]) < Unread(s, s.procs[p])))
  {
  }

  /** A remove of the only id listed comes to unlink the name file. */
  lemma RemoveEmpties(s: State, p: Pid, n: Name, i: Ino, id: Id) returns (t: State)
    requires Reachable(s) && Underway(s, p, n, i, id)
    ensures Reachable(t) && AtUnlink(t, p, n, i) && OthersSame(s, t, p) && Grows(s, t) && t.used == s.used
    ensures forall x :: x in t.doomed ==> x in s.doomed || x == id
  {
    hide Reachable, Underway, OthersSame, Grows, AtUnlink;
    t := RemoveRunsTo(s, p, n, i, id, 0);
  }

  // ---- the race ----

  /** A create stands right after it opened the name file. */
  ghost predicate HasOpened(s: State, t: State, p: Pid, n: Name, id: Id) {
    && p in t.procs && t.procs[p].Creating? && t.procs[p].cat == LockName && t.procs[p].id == id
    && NameFile(n) in t.links && t.links[NameFile(n)] == t.procs[p].ino
    && id in t.born && t.born[id] == t.procs[p].ino
    && (NameFile(n) in s.links ==> t.procs[p].ino == s.links[NameFile(n)] && t.lists == s.lists)
    && (NameFile(n) !in s.links ==> t.procs[p].ino == s.next)
    && (forall x :: IdFile(x) in s.links ==> IdFile(x) in t.links)
    && t.writer == s.writer && t.readers == s.readers
    && t.used == s.used && t.doomed == s.doomed && t.created == s.created
  }

  lemma OpeningOpens(s: State, p: Pid, c: Proc)
    requires c.Creating? && c.cat == OpenName
    ensures HasOpened(s, CreateStep(s, p, c), p, c.name, c.id)
  {
  }

  lemma BeginsCreate(s: State, p: Pid, n: Name, id: Id) returns (t: State)
    requires Reachable(s) && MayBegin(s, p, OpCreate(n, id))
    ensures Reachable(t) && OthersSame(s, t, p) && Grows(s, t)
    ensures t == Goto(s.(used := s.used[id := p]), p, Creating(OpenName, id, n, 0, 0))
  {
    hide Reachable, Inv, Shared, Respects, Spares;
    t := After(s, Begin(p, OpCreate(n, id)));
  }

  lemma OpensName(s: State, p: Pid, n: Name, id: Id) returns (t: State)
    requires Reachable(s) && p in s.procs && s.procs[p] == Creating(OpenName, id, n, 0, 0)
    ensures Reachable(t) && OthersSame(s, t, p) && Grows(s, t) && HasOpened(s, t, p, n, id)
  {
    hide Reachable, Inv, Shared, Respects, Spares, CreateStep, HasOpened;
    t := After(s, Continue(p));
    OpeningOpens(s, p, s.procs[p]);
  }

  lemma DistinctEqualsAreOne(list: seq<Id>, id: Id)
    requires Distinct(list) && 0 < |list| && forall k :: 0 <= k < |list| ==> list[k] == id
    ensures list == [id]
  {
    assert list[0] == id && list[|list| - 1] == id;
  }

  /** With one id in use, a list that holds it holds nothing else. */
  lemma OnlyIdListed(s: State, i: Ino, id: Id)
    requires Inv(s) && (forall x :: x in s.used ==> x == id) && id in ListOf(s, i)
    ensures ListOf(s, i) == [id]
  {
    hide Shape, Locks, Quiet, Inodes, Lives, Sound, Complete, Unorphaned, Procs;
    var list := ListOf(s, i);
    forall k | 0 <= k < |list| ensures list[k] == id {
      assert list[k] in s.lists[i];
      assert list[k] in s.born;
    }
    DistinctEqualsAreOne(list, id);
  }

  /** First act: some client files `b` under `n`; it is the only object. */
  lemma FilesOne(n: Name, b: Id) returns (s: State, i: Ino)
    requires IsName(n) && IsName(b)
    ensures Reachable(s) && Quiescent(s) && OnlyId(s, n, i, b) && Settled(s, b) && s.doomed == map[]
    ensures s.writer == map[] && s.readers == {} && (forall x :: x in s.used ==> x == b) && IdFile(b) in s.links
  {
    hide Reachable, Inv, Shared, Respects, Spares, Grows;
    InitReachable();
    var s0 := BeginsCreate(Init, 0, n, b);
    var s1 := OpensName(s0, 0, n, b);
    s := CreateFinishes(s1, 0);
    i := s1.links[NameFile(n)];
    ReachableInv(s);
    assert Quiescent(s);
    QuiescentLocks(s);
    assert Settled(s, b);
    SettledBirth(s, b);
    BornStays(s1, s, b);
    OnlyIdListed(s, i, b);
    SettledIsPresent(s, b);
  }

  lemma QuiescentLocks(s: State)
    requires Inv(s) && Quiescent(s)
    ensures s.writer == map[] && s.readers == {}
  {
    hide Shape, Ids, ListsOk, Quiet, Inodes, Lives, Sound, Complete, Unorphaned, Procs;
    assert forall i :: i in s.writer ==> WriterIs(s, s.writer[i], i) && Writing(s, s.writer[i], i);
    assert forall r :: r in s.readers ==> Reading(s, r.1, r.0);
  }

  lemma BornStays(s: State, t: State, id: Id)
    requires Grows(s, t) && id in s.born
    ensures id in t.born && t.born[id] == s.born[id]
  {
  }

  /** Second act: a create of `a` opens the name file, and a remove of `b` finds it empty. */
  lemma OpensWhileEmptying(n: Name, a: Id, b: Id) returns (s: State, i: Ino)
    requires IsName(n) && IsName(a) && IsName(b) && a != b
    ensures Reachable(s) && AtUnlink(s, 2, n, i) && (forall p :: p in s.procs ==> p == 1 || p == 2) && 1 in s.procs
    ensures s.procs[1].Creating? && s.procs[1].cat == LockName && s.procs[1].id == a && a in s.born && s.born[a] == i
    ensures a !in s.doomed
  {
    hide Reachable, Inv, Shared, Respects, Spares, Grows;
    var s0, j := FilesOne(n, b);
    i := j;
    var s1 := BeginsCreate(s0, 1, n, a);
    var s2 := OpensName(s1, 1, n, a);
    var s3 := After(s2, Begin(2, OpRemove(b)));
    assert Underway(s3, 2, n, i, b);
    s := RemoveEmpties(s3, 2, n, i, b);
    BornStays(s3, s, a);
  }

  /** Third act: the remove unlinks the file by its path and returns. */
  lemma Unlinks(s: State, p: Pid, n: Name, i: Ino) returns (t: State, es: seq<Event>)
    requires Inv(s) && AtUnlink(s, p, n, i)
    ensures ByItself(es, p) && CanRun(s, es) && t == Run(s, es)
    ensures Inv(t) && NameFile(n) !in t.links && p !in t.procs && OthersSame(s, t, p) && Grows(s, t)
    ensures t.doomed == s.doomed && t.used == s.used && forall q :: Alone(t, q)
  {
    hide Inv, Shared, Respects, Spares, Grows, OthersSame, ByItself;
    var u := OneStep(s, p);
    UnlinkStepUnlinks(s, p, n, i);
    t := OneStep(u, p);
    GrowsOn(s, u, t, p);
    DoneStepEnds(u, p);
    assert NameFile(n) !in t.links;
    forall q ensures Alone(t, q) {
      GoneHoldsNothing(t, p);
    }
    es := [];
    NothingRuns(t, p);
    es := StepFirst(u, p, es);
    es := StepFirst(s, p, es);
  }

  lemma UnlinkStepUnlinks(s: State, p: Pid, n: Name, i: Ino)
    requires AtUnlink(s, p, n, i)
    ensures var t := RemoveStep(s, p, s.procs[p]);
            && NameFile(n) !in t.links && p in t.procs && t.procs[p].Removing? && t.procs[p].rat == Done
            && Alone(t, p) && t.doomed == s.doomed && t.used == s.used
  {
  }

  lemma DoneStepEnds(s: State, p: Pid)
    requires p in s.procs && s.procs[p].Removing? && s.procs[p].rat == Done && Alone(s, p)
    ensures var t := RemoveStep(s, p, s.procs[p]);
            p !in t.procs && Alone(t, p) && t.links == s.links && t.doomed == s.doomed && t.used == s.used
  {
  }

  lemma GrowsOn(s: State, u: State, t: State, p: Pid)
    requires Grows(s, u) && Grows(u, t) && OthersSame(s, u, p) && OthersSame(u, t, p)
    ensures Grows(s, t) && OthersSame(s, t, p)
  {
  }

  lemma GoneHoldsNothing(s: State, p: Pid)
    requires Inv(s) && p !in s.procs && Alone(s, p)
    ensures s.writer == map[] && s.readers == {}
  {
    hide Shape, Ids, ListsOk, Quiet, Inodes, Lives, Sound, Complete, Unorphaned, Procs;
    assert forall i :: i in s.writer ==> WriterIs(s, p, i) && Writing(s, p, i);
    assert forall r :: r in s.readers ==> Reading(s, r.1, r.0);
  }

  /**
   * For every name and any two ids there is a run, of two creates and one remove, after which
   * nothing is in flight, the object `a` exists under `n`, and the name file of `n` does not
   * exist: the object is listed nowhere.
   */
  lemma LiveButUnlisted(n: Name, a: Id, b: Id) returns (s: State)
    requires IsName(n) && IsName(a) && IsName(b) && a != b
    ensures Reachable(s) && Quiescent(s) && Settled(s, a)
    ensures FileSays(s, a, n) && DataFile(a) in s.links && NameFile(n) !in s.links && a !in Listed(s, n)
  {
    hide Reachable, Inv, Shared, Respects, Spares, Alone, Grows, ByItself;
    var s0, i := OpensWhileEmptying(n, a, b);
    ReachableInv(s0);
    var s1, es := Unlinks(s0, 2, n, i);
    ReachableRunsOn(s0, es);
    s := CreateFinishes(s1, 1);
    GrowsOnwards(s0, s1, s);
    assert Quiescent(s);
    assert Settled(s, a);
    ReachableInv(s);
    SettledIsPresent(s, a);
    NameAtUnlink(s0, 2, n, i, a);
    NameOfGrows(s0, s, a);
  }

  lemma GrowsOnwards(s: State, u: State, t: State)
    requires Grows(s, u) && Grows(u, t)
    ensures Grows(s, t)
  {
  }

  lemma NameOfGrows(s: State, t: State, id: Id)
    requires Inv(s) && Grows(s, t) && id in s.born
    ensures NameOf(t, id) == NameOf(s, id)
  {
    hide Shape, Locks, Ids, ListsOk, Quiet, Inodes, Lives, Sound, Complete, Unorphaned, Procs, Grows, NameOf;
    NamesStay(s, t);
  }

  lemma NameAtUnlink(s: State, p: Pid, n: Name, i: Ino, id: Id)
    requires Inv(s) && AtUnlink(s, p, n, i) && id in s.born && s.born[id] == i
    ensures NameOf(s, id) == n
  {
    hide Locks, Ids, ListsOk, Quiet, Inodes, Lives, Sound, Complete, Unorphaned, Procs;
    OwnFacts(s, p);
  }
}
