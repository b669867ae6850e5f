/**
 * Exactly when an unlinked name file costs a listing, and what follows for whole runs: the two
 * indexes agree on every name unless some unlink hit a file that was in use.
 */
module Lossless {
  import opened Bytes
  import opened Lines
  import opened Paths
  import opened Processes
  import opened Invariants
  import opened Frames
  import opened Effects
  import opened ReadSteps
  import opened RemoveSteps
  import opened CreateSteps
  import opened Consistency

  /** `id` is, or is about to be, listed in the linked file of its name, and nobody has unlinked its own. */
  ghost predicate Attached(s: State, id: Id) {
    id in s.born && id !in s.doomed && Linked(s, s.born[id])
  }

  /** The operation is a create that has opened a name file and not yet appended to it. */
  predicate AboutToAppend(c: Proc) {
    c.Creating? && c.cat != OpenName && !Appended(c.cat)
  }

  /** Some create has opened inode `i` and not yet appended to it, or it lists an id that is not being removed. */
  ghost predicate InUse(s: State, i: Ino) {
    || (exists q :: q in s.procs && AboutToAppend(s.procs[q]) && s.procs[q].ino == i)
    || (exists id :: id in ListOf(s, i) && id !in s.doomed)
  }

  lemma BornInUse(s: State, id: Id)
    requires Inv(s) && id in s.born && id !in s.doomed
    ensures InUse(s, s.born[id])
  {
    hide Shape, Locks, ListsOk, Quiet, Inodes, Lives, Sound, Unorphaned;
    if id in s.created {
      assert id in ListOf(s, s.born[id]);
    } else {
      assert CreatorAtWork(s, id);
      var q := s.used[id];
      OwnFacts(s, q);
      if Appended(s.procs[q].cat) {
        assert id in ListOf(s, s.born[id]);
      } else {
        assert AboutToAppend(s.procs[q]);
      }
    }
  }

  lemma InUseIsBorn(s: State, i: Ino) returns (id: Id)
    requires Inv(s) && InUse(s, i)
    ensures id in s.born && s.born[id] == i && id !in s.doomed
  {
    hide Shape, Locks, Quiet, Inodes, Lives, Sound, Complete, Unorphaned;
    if q :| q in s.procs && AboutToAppend(s.procs[q]) && s.procs[q].ino == i {
      OwnFacts(s, q);
      id := s.procs[q].id;
    } else {
      id :| id in ListOf(s, i) && id !in s.doomed;
    }
  }

  /** The remove at work is about to unlink a name file, by its path. */
  ghost predicate Unlinking(s: State, p: Pid) {
    p in s.procs && s.procs[p].Removing? && s.procs[p].rat == UnlinkName
  }

  /** Nothing stands under the path, or nobody uses what does. */
  ghost predicate Spared(s: State, n: Name) {
    NameFile(n) in s.links ==> !InUse(s, s.links[NameFile(n)])
  }

  lemma UnlinkDetaches(s: State, p: Pid, id: Id)
    requires Shape(s) && Unlinking(s, p) && Attached(s, id)
    ensures var path := NameFile(s.procs[p].name);
            Attached(ProcStep(s, p), id) <==> !(path in s.links && s.born[id] == s.links[path])
  {
  }

  lemma UnlinkLosesNothingWhen(s: State, p: Pid)
    requires Inv(s) && Unlinking(s, p)
    ensures (forall id :: Attached(s, id) ==> Attached(ProcStep(s, p), id)) <==> Spared(s, s.procs[p].name)
  {
    hide Inv, InUse, ProcStep, Linked;
    assert Shape(s) by { InvShape(s); }
    var path := NameFile(s.procs[p].name);
    forall id | Attached(s, id)
      ensures Attached(ProcStep(s, p), id) <==> !(path in s.links && s.born[id] == s.links[path])
    {
      UnlinkDetaches(s, p, id);
    }
    if path in s.links {
      var j := s.links[path];
      if InUse(s, j) {
        var id := InUseIsBorn(s, j);
        LinkedIsAttached(s, path, id);
      } else {
        forall id | Attached(s, id) ensures s.born[id] != j {
          AttachedIsBorn(s, id);
          if s.born[id] == j { BornInUse(s, id); }
        }
      }
    }
  }

  /**
   * Unlinking a name file costs no id its listing if and only if the file that stands under the
   * path at that moment, be it the one found empty or a newer one, is not in use.
   */
  lemma UnlinkLosesNothingIff(s: State, p: Pid)
    requires Reachable(s) && Unlinking(s, p)
    ensures (forall id :: Attached(s, id) ==> Attached(ProcStep(s, p), id)) <==> Spared(s, s.procs[p].name)
  {
    hide Inv, Attached, Spared, ProcStep, Reachable;
    ReachableInv(s);
    UnlinkLosesNothingWhen(s, p);
  }

  lemma InvShape(s: State)
    requires Inv(s)
    ensures Shape(s)
  {
  }

  lemma AttachedIsBorn(s: State, id: Id)
    requires Attached(s, id)
    ensures id in s.born && id !in s.doomed
  {
  }

  lemma LinkedIsAttached(s: State, path: Path, id: Id)
    requires Shape(s) && path in s.links && id in s.born && s.born[id] == s.links[path] && id !in s.doomed
    ensures Attached(s, id)
  {
  }

  /** Of the file it found empty itself, a remove need fear only creates that wait for its lock. */
  lemma OwnFileInUseIff(s: State, p: Pid)
    requires Reachable(s) && Unlinking(s, p)
    ensures InUse(s, s.procs[p].ino) <==>
      exists q :: q in s.procs && s.procs[q].Creating? && s.procs[q].cat == LockName && s.procs[q].ino == s.procs[p].ino
  {
    hide Inv, Reachable;
    ReachableInv(s);
    UnlinkerSeesNone(s, p);
    if InUse(s, s.procs[p].ino) {
      var q :| q in s.procs && AboutToAppend(s.procs[q]) && s.procs[q].ino == s.procs[p].ino;
      AppenderWaits(s, p, q);
    }
  }

  lemma UnlinkerSeesNone(s: State, p: Pid)
    requires Inv(s) && Unlinking(s, p)
    ensures ListOf(s, s.procs[p].ino) == []
  {
    hide Shape, Locks, Ids, ListsOk, Quiet, Inodes, Lives, Sound, Complete, Unorphaned, Procs;
    OwnFacts(s, p);
  }

  lemma AppenderWaits(s: State, p: Pid, q: Pid)
    requires Inv(s) && Unlinking(s, p) && q in s.procs && AboutToAppend(s.procs[q]) && s.procs[q].ino == s.procs[p].ino
    ensures s.procs[q].cat == LockName
  {
    hide Shape, Ids, ListsOk, Quiet, Inodes, Lives, Sound, Complete, Unorphaned, Procs;
    var i := s.procs[p].ino;
    assert Writing(s, p, i);
    assert WriterIs(s, p, i);
    assert !WriterIs(s, q, i);
    assert !Writing(s, q, i);
  }

  // ---- whole runs ----

  /** Every id that nobody removes is attached. */
  ghost predicate AllAttached(s: State) {
    forall id :: id in s.born && id !in s.doomed ==> Linked(s, s.born[id])
  }

  /** The event does not unlink a name file in use. */
  ghost predicate Harmless(s: State, e: Event) {
    e.Continue? && Unlinking(s, e.p) ==> Spared(s, s.procs[e.p].name)
  }

  ghost predicate AllHarmless(s: State, es: seq<Event>)
    requires CanRun(s, es)
    decreases |es|
  {
    es != [] ==> Harmless(s, es[0]) && AllHarmless(Apply(s, es[0]), es[1..])
  }

  /** Name files are linked when they are allocated, and unlinked only by the last step of a remove. */
  ghost predicate NamesMove(s: State, t: State) {
    && (forall n :: NameFile(n) in s.links ==> NameFile(n) in t.links && t.links[NameFile(n)] == s.links[NameFile(n)])
    && (forall n :: NameFile(n) in t.links && NameFile(n) !in s.links ==> t.links[NameFile(n)] == s.next)
    && (forall id :: id in t.born ==> (id in s.born && t.born[id] == s.born[id])
                                      || (exists n :: NameFile(n) in t.links && t.links[NameFile(n)] == t.born[id]))
  }

  lemma OpenNameMovesNames(s: State, p: Pid, c: Proc)
    requires c.Creating? && c.cat == OpenName && p in s.procs && c.id !in s.born
    ensures NamesMove(s, CreateStep(s, p, c))
  {
    var t := CreateStep(s, p, c);
    if NameFile(c.name) in s.links {
      OldNameIs(s, p, c);
    } else {
      NewNameIs(s, p, c);
    }
    hide CreateStep;
    assert NameFile(c.name) in t.links && t.links[NameFile(c.name)] == t.born[c.id];
  }

  /** Directory entries of names and the births stay, though other files may come and go. */
  ghost predicate NamesStand(s: State, t: State) {
    t.born == s.born && forall n :: (NameFile(n) in t.links <==> NameFile(n) in s.links)
                                    && (NameFile(n) in s.links ==> t.links[NameFile(n)] == s.links[NameFile(n)])
  }

  lemma StandingMoves(s: State, t: State)
    requires NamesStand(s, t)
    ensures NamesMove(s, t)
  {
  }

  lemma OpenFreshStands(s: State, path: Path)
    requires !path.NameFile?
    ensures NamesStand(s, OpenFresh(s, path))
  {
  }

  lemma CreateStands(s: State, p: Pid, c: Proc)
    requires c.Creating? && c.cat != OpenName
    ensures NamesStand(s, CreateStep(s, p, c))
  {
    hide Store, OpenFresh, Content, ListOf, WriteAt;
    if c.cat == OpenId {
      OpenFreshStands(s, IdFile(c.id));
    } else if c.cat == OpenData {
      OpenFreshStands(s, DataFile(c.id));
    } else {
      StoreStands(s, c);
    }
  }

  lemma StoreStands(s: State, c: Proc)
    ensures forall i, content :: Store(s, i, content).links == s.links && Store(s, i, content).born == s.born
  {
  }

  lemma SameLinksStand(s: State, t: State)
    requires t.links == s.links && t.born == s.born
    ensures NamesStand(s, t)
  {
  }

  lemma UnlinkStands(s: State, t: State, path: Path)
    requires !path.NameFile? && t.links == s.links - {path} && t.born == s.born
    ensures NamesStand(s, t)
  {
  }

  lemma RemoveStands(s: State, p: Pid, c: Proc)
    requires c.Removing? && c.rat != UnlinkName
    ensures NamesStand(s, RemoveStep(s, p, c))
  {
    var t := RemoveStep(s, p, c);
    if c.rat == UnlinkId {
      assert t.links == s.links - {IdFile(c.id)};
      hide RemoveStep;
      UnlinkStands(s, t, IdFile(c.id));
    } else if c.rat == UnlinkData {
      assert t.links == s.links - {DataFile(c.id)};
      hide RemoveStep;
      UnlinkStands(s, t, DataFile(c.id));
    } else {
      hide RemoveStep;
      SameLinksStand(s, t);
    }
  }

  lemma OpenerIsUnborn(s: State, p: Pid)
    requires Inv(s) && p in s.procs && s.procs[p].Creating? && s.procs[p].cat == OpenName
    ensures s.procs[p].id !in s.born
  {
    hide Shape, Locks, Ids, ListsOk, Quiet, Inodes, Lives, Sound, Complete, Unorphaned, Procs;
    OwnFacts(s, p);
  }

  lemma EventMovesNames(s: State, e: Event)
    requires Inv(s) && Enabled(s, e) && !(e.Continue? && Unlinking(s, e.p))
    ensures NamesMove(s, Apply(s, e))
  {
    hide Inv, NamesMove, CreateStep, ListStep, LookStep, RemoveStep, FillStep, NamesStand;
    match e {
      case Begin(p, op) =>
        assert NamesStand(s, BeginStep(s, p, op)) by { BeginStands(s, p, op); }
        StandingMoves(s, BeginStep(s, p, op));
      case Continue(p) =>
        var c := s.procs[p];
        if c.Creating? && c.cat == OpenName {
          OpenerIsUnborn(s, p);
          OpenNameMovesNames(s, p, c);
        } else {
          if c.Creating? { CreateStands(s, p, c); }
          else if c.Removing? { RemoveStands(s, p, c); }
          else { SameLinksStand(s, ProcStep(s, p)); }
          StandingMoves(s, ProcStep(s, p));
        }
    }
  }

  lemma BeginStands(s: State, p: Pid, op: Op)
    ensures NamesStand(s, BeginStep(s, p, op))
  {
  }

  lemma AttachedMoves(s: State, t: State)
    requires Shape(s) && Ids(s) && Shape(t) && Grows(s, t) && AllAttached(s) && NamesMove(s, t)
    ensures AllAttached(t)
  {
    forall id | id in t.born && id !in t.doomed ensures Linked(t, t.born[id]) {
      if id in s.born && t.born[id] == s.born[id] {
        var i := s.born[id];
        assert Linked(s, i) && i in s.lists && s.home[i].NameFile?;
        assert NameFile(s.home[i].name) in t.links;
      }
    }
  }

  lemma SharedParts(s: State)
    requires Inv(s)
    ensures Shape(s) && Ids(s)
  {
  }

  /** A harmless event keeps every id attached that nobody removes. */
  lemma EventKeepsAttached(s: State, e: Event)
    requires Inv(s) && AllAttached(s) && Enabled(s, e) && Harmless(s, e)
    ensures Inv(Apply(s, e)) && AllAttached(Apply(s, e))
  {
    var t := Apply(s, e);
    EventKeepsAll(s, e);
    hide Inv, Apply, Shape, Ids, NamesMove, Spared, Shared, OthersSame, Spares, Respects;
    SharedParts(s);
    SharedParts(t);
    if e.Continue? && Unlinking(s, e.p) {
      UnlinkLosesNothingWhen(s, e.p);
      UnlinkKeepsBirths(s, e.p);
      ContinueIs(s, e);
      hide Linked;
      forall id | id in t.born && id !in t.doomed ensures Linked(t, t.born[id]) {
        assert Attached(s, id);
        assert Attached(t, id);
      }
    } else {
      EventMovesNames(s, e);
      AttachedMoves(s, t);
    }
  }

  lemma ContinueIs(s: State, e: Event)
    requires Enabled(s, e) && e.Continue?
    ensures Apply(s, e) == ProcStep(s, e.p)
  {
  }

  lemma UnlinkKeepsBirths(s: State, p: Pid)
    requires Unlinking(s, p)
    ensures ProcStep(s, p).born == s.born && ProcStep(s, p).doomed == s.doomed
  {
  }

  lemma {:induction false} RunKeepsAttached(s: State, es: seq<Event>)
    requires Inv(s) && AllAttached(s) && CanRun(s, es) && AllHarmless(s, es)
    ensures AllAttached(Run(s, es))
    decreases |es|
  {
    hide Inv, AllAttached, Harmless;
    if es != [] {
      EventKeepsAttached(s, es[0]);
      RunKeepsAttached(Apply(s, es[0]), es[1..]);
    }
  }

  // ---- agreement ----

  /** Every name file lists exactly the ids whose id files say its name. */
  ghost predicate Agree(s: State) {
    forall n, id :: id in Listed(s, n) <==> FileSays(s, id, n)
  }

  lemma AttachedIsListed(s: State, id: Id)
    requires Reachable(s) && Quiescent(s) && Settled(s, id)
    ensures id in s.born && (id in Listed(s, NameOf(s, id)) <==> Linked(s, s.born[id]))
  {
    ReachableInv(s);
    hide Inv, Listed;
    QuiescentFacts(s);
    ListedIffStillLinked(s, id);
    SettledBirth(s, id);
    SharedParts(s);
  }

  /**
   * Once all operations have returned, the two indexes agree on every name if and only if every id
   * that nobody removed is still attached to the file of its name.
   */
  lemma AgreeIffAttached(s: State)
    requires Reachable(s) && Quiescent(s)
    ensures Agree(s) <==> AllAttached(s)
  {
    hide Inv, Listed, FileSays, NameOf, Linked, Reachable;
    ReachableInv(s);
    QuiescentFacts(s);
    if Agree(s) {
      forall id | id in s.born && id !in s.doomed ensures Linked(s, s.born[id]) {
        BornIsSettled(s, id);
        SettledIsPresent(s, id);
        AttachedIsListed(s, id);
        assert id in Listed(s, NameOf(s, id));
      }
    }
    if AllAttached(s) {
      forall n, id ensures id in Listed(s, n) <==> FileSays(s, id, n) {
        if id in Listed(s, n) {
          assert !InFlight(s, id);
          ListedIsLive(s, n, id);
        }
        if FileSays(s, id, n) {
          FileSaysLinked(s, id, n);
          FileBelongsToCreated(s, id);
          SettledFileSays(s, id, n);
          AttachedIsListed(s, id);
        }
      }
    }
  }

  lemma BornIsSettled(s: State, id: Id)
    requires Inv(s) && Quiescent(s) && id in s.born && id !in s.doomed
    ensures Settled(s, id)
  {
    hide Shape, Locks, ListsOk, Quiet, Inodes, Lives, Sound, Complete, Unorphaned, Procs;
  }

  /** In every run whose unlinks spare the files in use, the indexes agree when everything has returned. */
  lemma HarmlessRunsAgree(es: seq<Event>)
    requires CanRun(Init, es) && AllHarmless(Init, es) && Quiescent(Run(Init, es))
    ensures Agree(Run(Init, es))
  {
    hide Inv, AllAttached, Agree, Harmless;
    InitInv();
    assert AllAttached(Init) by { NothingBorn(); }
    RunKeepsAttached(Init, es);
    assert Reachable(Run(Init, es));
    AgreeIffAttached(Run(Init, es));
  }

  lemma NothingBorn()
    ensures AllAttached(Init)
  {
  }

  // ---- what is lost stays lost ----

  lemma DetachedStays(s: State, t: State, i: Ino)
    requires Shape(s) && Grows(s, t) && NamesMove(s, t) && i in s.lists && !Linked(s, i)
    ensures i in t.lists && !Linked(t, i)
  {
    if NameFile(s.home[i].name) in s.links {
      assert s.links[NameFile(s.home[i].name)] != i;
    }
  }

  lemma DetachedMoves(s: State, e: Event, i: Ino)
    requires Inv(s) && Enabled(s, e) && i in s.lists && !Linked(s, i)
    ensures Inv(Apply(s, e)) && i in Apply(s, e).lists && !Linked(Apply(s, e), i)
  {
    var t := Apply(s, e);
    EventKeepsAll(s, e);
    hide Inv, Apply, Shared, OthersSame, Spares, Respects, Linked, Grows, Shape, Ids, NamesMove;
    SharedParts(s);
    if e.Continue? && Unlinking(s, e.p) {
      ContinueIs(s, e);
      UnlinkOnlyRemoves(s, e.p, i);
    } else {
      EventMovesNames(s, e);
      DetachedStays(s, t, i);
    }
  }

  lemma UnlinkOnlyRemoves(s: State, p: Pid, i: Ino)
    requires Unlinking(s, p) && i in s.lists && !Linked(s, i)
    ensures i in ProcStep(s, p).lists && !Linked(ProcStep(s, p), i)
  {
  }

  /** An unlinked name file is never linked again, whatever happens. */
  lemma {:induction false} LostStaysLost(s: State, es: seq<Event>, i: Ino)
    requires Inv(s) && CanRun(s, es) && i in s.lists && !Linked(s, i)
    ensures !Linked(Run(s, es), i)
    decreases |es|
  {
    hide Inv, Linked;
    if es != [] {
      DetachedMoves(s, es[0], i);
      LostStaysLost(Apply(s, es[0]), es[1..], i);
    }
  }

  // ---- exactly which runs lose something ----

  /** The event unlinks the very name file that was opened for `id`. */
  ghost predicate Cuts(s: State, e: Event, id: Id) {
    && e.Continue? && Unlinking(s, e.p)
    && var path := NameFile(s.procs[e.p].name);
       path in s.links && id in s.born && s.born[id] == s.links[path]
  }

  /** Some event of the run does. */
  ghost predicate Cut(s: State, es: seq<Event>, id: Id)
    requires CanRun(s, es)
    decreases |es|
  {
    es != [] && (Cuts(s, es[0], id) || Cut(Apply(s, es[0]), es[1..], id))
  }

  /** The name file that was opened for `id`, if any was, is still linked. */
  ghost predicate Joined(s: State, id: Id) {
    id in s.born ==> Linked(s, s.born[id])
  }

  lemma UnlinkCuts(s: State, e: Event, id: Id)
    requires Shape(s) && Enabled(s, e) && e.Continue? && Unlinking(s, e.p)
    ensures Joined(Apply(s, e), id) <==> Joined(s, id) && !Cuts(s, e, id)
  {
  }

  lemma MovesJoin(s: State, t: State, id: Id)
    requires Shape(s) && Ids(s) && Shape(t) && Grows(s, t) && NamesMove(s, t)
    ensures Joined(t, id) <==> Joined(s, id)
  {
    if id in s.born {
      var i := s.born[id];
      assert t.born[id] == i && i in s.lists && s.home[i].NameFile?;
      if Linked(s, i) {
        assert NameFile(s.home[i].name) in t.links;
      } else {
        DetachedStays(s, t, i);
      }
    }
  }

  lemma EventCuts(s: State, e: Event, id: Id)
    requires Inv(s) && Enabled(s, e)
    ensures Inv(Apply(s, e)) && (Joined(Apply(s, e), id) <==> Joined(s, id) && !Cuts(s, e, id))
  {
    var t := Apply(s, e);
    EventKeepsAll(s, e);
    hide Inv, Apply, Shared, OthersSame, Spares, Respects, Joined, Grows, Shape, Ids, NamesMove;
    SharedParts(s);
    SharedParts(t);
    if e.Continue? && Unlinking(s, e.p) {
      UnlinkCuts(s, e, id);
    } else {
      EventMovesNames(s, e);
      MovesJoin(s, t, id);
    }
  }

  lemma {:induction false} RunCuts(s: State, es: seq<Event>, id: Id)
    requires Inv(s) && CanRun(s, es)
    ensures Joined(Run(s, es), id) <==> Joined(s, id) && !Cut(s, es, id)
    decreases |es|
  {
    hide Inv, Joined, Cuts;
    if es != [] {
      EventCuts(s, es[0], id);
      RunCuts(Apply(s, es[0]), es[1..], id);
    }
  }

  /**
   * When everything has returned, the indexes agree if and only if every id whose name file some
   * remove of the run unlinked has been removed itself.
   */
  lemma RunsAgreeIff(es: seq<Event>)
    requires CanRun(Init, es) && Quiescent(Run(Init, es))
    ensures Agree(Run(Init, es)) <==> forall id :: Cut(Init, es, id) ==> id in Run(Init, es).doomed
  {
    hide Inv, Agree, Cut, Linked, Reachable;
    var s := Run(Init, es);
    InitInv();
    assert Reachable(s) by { RunIsReachable(es); }
    AgreeIffAttached(s);
    forall id ensures Cut(Init, es, id) <==> id in s.born && !Linked(s, s.born[id]) {
      RunCuts(Init, es, id);
    }
  }

  lemma RunIsReachable(es: seq<Event>)
    requires CanRun(Init, es)
    ensures Reachable(Run(Init, es))
  {
  }
}
