/**
 * The other interleaving that loses an id: two removes of one id overlap, and the second, holding
 * the file that the first has unlinked, unlinks by its path the newer file of a create that came
 * and went in between. No create is in flight when the listing is lost.
 */
module SecondRemove {
  import opened Bytes
  import opened Lines
  import opened Paths
  import opened Processes
  import opened Invariants
  import opened Frames
  import opened Effects
  import opened ReadSteps
  import opened RemoveSteps
  import opened CreateSteps
  import opened Consistency
  import opened Race
  import opened Runs

  const AT_UNLINK_ID := 6
  const AT_RELOCK := 3

  /** Underway before it has unlinked anything, or past opening the name file. */
  lemma RankTells(s: State, p: Pid, n: Name, i: Ino, id: Id)
    requires Inv(s) && Underway(s, p, n, i, id) && s.procs[p].Removing?
    ensures s.procs[p].name == n && s.procs[p].id == id
    ensures Rank(s.procs[p]) == AT_UNLINK_ID ==> s.procs[p].rat == UnlinkId
    ensures Rank(s.procs[p]) == AT_RELOCK ==> s.procs[p].rat == RelockName && s.procs[p].ino == i
  {
    hide Inv;
    RemoverKnowsName(s, p, n, i, id);
  }

  /** A remove that waits, or has not yet asked, for its lock leaves the field to the others. */
  lemma ParkedHoldsNothing(s: State, p: Pid)
    requires Inv(s) && p in s.procs && s.procs[p].Removing? && Alone(s, p)
    requires s.procs[p].rat == UnlinkId || s.procs[p].rat == RelockName
    ensures s.writer == map[] && s.readers == {}
  {
    hide Shape, Ids, ListsOk, Quiet, Inodes, Lives, Sound, Complete, Unorphaned, Procs;
    assert forall i :: i in s.writer ==> WriterIs(s, p, i) && Writing(s, p, i);
    assert forall r :: r in s.readers ==> Reading(s, r.1, r.0);
  }

  lemma NoLocksNobodyHolds(s: State)
    requires s.writer == map[] && s.readers == {}
    ensures forall p :: Alone(s, p)
  {
  }

  /** `p` is parked at a point of its remove of `id`, without locks. */
  ghost predicate Parked(s: State, p: Pid, n: Name, i: Ino, id: Id, at: RemoveAt) {
    && p in s.procs && s.procs[p].Removing? && s.procs[p].rat == at && s.procs[p].id == id && s.procs[p].name == n
    && (at == RelockName ==> s.procs[p].ino == i)
  }

  /** A new remove of the id runs until it is about to unlink the id file. */
  lemma RemoveParks(s: State, p: Pid, n: Name, i: Ino, id: Id) returns (t: State)
    requires Reachable(s) && p !in s.procs && id in s.created && OnlyId(s, n, i, id) && IdFile(id) in s.links
    requires s.writer == map[] && s.readers == {}
    ensures Reachable(t) && Parked(t, p, n, i, id, UnlinkId) && OthersSame(s, t, p) && Grows(s, t) && t.used == s.used
    ensures OnlyId(t, n, i, id) && t.links == s.links && t.writer == map[] && t.readers == {}
    ensures forall x :: x in t.doomed ==> x in s.doomed || x == id
  {
    hide Reachable, Inv, Grows, OthersSame, Respects, Spares, Shared;
    var u := After(s, Begin(p, OpRemove(id)));
    assert Underway(u, p, n, i, id);
    assert u.links == s.links && u.used == s.used && u.doomed == s.doomed;
    t := RemoveRunsTo(u, p, n, i, id, AT_UNLINK_ID);
    ReachableInv(t);
    RankTells(t, p, n, i, id);
    ParkedHoldsNothing(t, p);
    GrowsOn(s, u, t, p);
  }

  /** It goes on until it has opened the name file. */
  lemma RemoveReopens(s: State, p: Pid, n: Name, i: Ino, id: Id) returns (t: State)
    requires Reachable(s) && Parked(s, p, n, i, id, UnlinkId) && OnlyId(s, n, i, id)
    requires s.writer == map[] && s.readers == {}
    ensures Reachable(t) && Parked(t, p, n, i, id, RelockName) && OthersSame(s, t, p) && Grows(s, t) && t.used == s.used
    ensures OnlyId(t, n, i, id) && t.writer == map[] && t.readers == {}
    ensures forall x :: x in t.doomed ==> x in s.doomed || x == id
  {
    hide Reachable, Inv, Grows, OthersSame, Respects, Spares, Shared;
    assert Underway(s, p, n, i, id);
    t := RemoveRunsTo(s, p, n, i, id, AT_RELOCK);
    ReachableInv(t);
    RankTells(t, p, n, i, id);
    ParkedHoldsNothing(t, p);
  }

  /** First act: two removes of the only object open its name file; one of them unlinks it and returns. */
  lemma FirstRemoveReturns(n: Name, b: Id) returns (s: State, i: Ino)
    requires IsName(n) && IsName(b)
    ensures Reachable(s) && Parked(s, 1, n, i, b, RelockName) && (forall p :: p in s.procs ==> p == 1)
    ensures NameFile(n) !in s.links && s.writer == map[] && s.readers == {}
    ensures (forall x :: x in s.used ==> x == b) && (forall x :: x in s.doomed ==> x == b)
  {
    hide Reachable, Inv, Grows, Respects, Spares, Shared, AtUnlink, OnlyId, ByItself, CanRun, Run, Alone, IsName;
    var s0, j := FilesOne(n, b);
    i := j;
    assert b in s0.created && s0.procs == map[];
    var s1 := RemoveParks(s0, 1, n, i, b);
    assert b in s1.created by { StillCreated(s0, s1, b); }
    var s2 := RemoveParks(s1, 2, n, i, b);
    var s3 := RemoveReopens(s2, 1, n, i, b);
    NoLocksNobodyHolds(s3);
    var s4 := RemoveRunsTo(s3, 2, n, i, b, 0);
    ReachableInv(s4);
    var es;
    s, es := Unlinks(s4, 2, n, i);
    ReachableRunsOn(s4, es);
    GoneLeavesNoLocks(s, 2);
  }

  lemma StillCreated(s: State, t: State, id: Id)
    requires Grows(s, t) && id in s.created
    ensures id in t.created
  {
  }

  lemma GoneLeavesNoLocks(s: State, p: Pid)
    requires Reachable(s) && p !in s.procs && Alone(s, p)
    ensures s.writer == map[] && s.readers == {}
  {
    hide Inv;
    ReachableInv(s);
    GoneHoldsNothing(s, p);
  }

  // ---- the remove left behind ----

  /** The remove of `b` still has the old file of `n` to filter; the other id, `a`, was born elsewhere. */
  ghost predicate Stale(s: State, p: Pid, n: Name, i: Ino, a: Id, b: Id) {
    && p in s.procs && Alone(s, p)
    && s.procs[p].Removing? && s.procs[p].id == b && s.procs[p].name == n && s.procs[p].ino == i
    && (s.procs[p].rat == RelockName || s.procs[p].rat == Collect || s.procs[p].rat == Truncate)
    && a in s.born && s.born[a] != i && (forall x :: x in s.used ==> x == a || x == b)
  }

  ghost predicate StaleMoved(s: State, t: State, p: Pid, n: Name, i: Ino, a: Id, b: Id)
    requires p in s.procs
  {
    && t.used == s.used && t.doomed == s.doomed && t.links == s.links && t.created == s.created
    && ((Stale(t, p, n, i, a, b)
         && (Rank(t.procs[p]) < Rank(s.procs[p])
             || (Rank(t.procs[p]) == Rank(s.procs[p]) && Unread(t, t.procs[p]) < Unread(s, s.procs[p]))))
        || AtUnlink(t, p, n, i))
  }

  lemma StaleRelocks(s: State, p: Pid, n: Name, i: Ino, a: Id, b: Id)
    requires Stale(s, p, n, i, a, b) && s.procs[p].rat == RelockName
    ensures StaleMoved(s, RemoveStep(s, p, s.procs[p]), p, n, i, a, b)
  {
  }

  lemma StaleCollects(s: State, p: Pid, n: Name, i: Ino, a: Id, b: Id)
    requires Stale(s, p, n, i, a, b) && s.procs[p].rat == Collect
    ensures StaleMoved(s, RemoveStep(s, p, s.procs[p]), p, n, i, a, b)
  {
    CollectReads(s, p);
    CollectStepIs(s, p, s.procs[p]);
    hide RemoveStep, NextLine, Unread;
  }

  /** All that the old file can list is `b` itself. */
  lemma StaleListsOnlyB(s: State, p: Pid, n: Name, i: Ino, a: Id, b: Id)
    requires Inv(s) && Stale(s, p, n, i, a, b) && s.procs[p].rat == Truncate
    ensures Without(s.procs[p].ids, b) == []
  {
    hide Shape, Locks, Quiet, Inodes, Lives, Sound, Complete, Unorphaned, Procs, Without;
    OwnFacts(s, p);
    var ids := s.procs[p].ids;
    assert ids == ListOf(s, i);
    forall x | x in ids ensures x == b {
      assert x in s.lists[i];
      assert x in s.born;
    }
    NothingElse(ids, b);
  }

  lemma {:induction false} NothingElse(ids: seq<Id>, id: Id)
    requires forall x :: x in ids ==> x == id
    ensures Without(ids, id) == []
  {
    if ids != [] {
      assert ids[0] in ids && forall x :: x in ids[1..] ==> x in ids;
      NothingElse(ids[1..], id);
    }
  }

  lemma StaleTruncates(s: State, p: Pid, n: Name, i: Ino, a: Id, b: Id)
    requires Stale(s, p, n, i, a, b) && s.procs[p].rat == Truncate && Without(s.procs[p].ids, b) == []
    ensures StaleMoved(s, RemoveStep(s, p, s.procs[p]), p, n, i, a, b)
  {
  }

  /** By itself it comes to unlink what stands under the path, though it has not opened that, and returns. */
  lemma {:induction false} StaleEnds(s: State, p: Pid, n: Name, i: Ino, a: Id, b: Id) returns (t: State, es: seq<Event>)
    requires Inv(s) && Stale(s, p, n, i, a, b)
    ensures ByItself(es, p) && CanRun(s, es) && t == Run(s, es)
    ensures NameFile(n) !in t.links && p !in t.procs && OthersSame(s, t, p) && Grows(s, t)
    ensures t.doomed == s.doomed
    decreases Rank(s.procs[p]), Unread(s, s.procs[p])
  {
    hide Inv, Alone, Respects, Spares, Shared, RemoveStep, OthersSame, Grows, Unread, AtUnlink, ByItself;
    AloneCanStep(s, p);
    var u := OneStep(s, p);
    match s.procs[p].rat {
      case RelockName => StaleRelocks(s, p, n, i, a, b);
      case Collect => StaleCollects(s, p, n, i, a, b);
      case _ =>
        StaleListsOnlyB(s, p, n, i, a, b);
        StaleTruncates(s, p, n, i, a, b);
    }
    if AtUnlink(u, p, n, i) {
      t, es := Unlinks(u, p, n, i);
    } else {
      t, es := StaleEnds(u, p, n, i, a, b);
    }
    GrowsOn(s, u, t, p);
    es := StepFirst(s, p, es);
  }

  /** Second act: a create of `a` makes a new name file and returns. */
  lemma CreateComesAndGoes(s: State, p: Pid, n: Name, i: Ino, a: Id, b: Id) returns (t: State)
    requires Reachable(s) && Parked(s, 1, n, i, b, RelockName) && p != 1 && (forall q :: q in s.procs ==> q == 1)
    requires NameFile(n) !in s.links && s.writer == map[] && s.readers == {} && a != b && IsName(n) && IsName(a)
    requires (forall x :: x in s.used ==> x == b) && (forall x :: x in s.doomed ==> x == b)
    ensures Reachable(t) && Parked(t, 1, n, i, b, RelockName) && (forall q :: q in t.procs ==> q == 1)
    ensures Settled(t, a) && NameOf(t, a) == n && a in t.born && t.born[a] != i
    ensures NameFile(n) in t.links && t.links[NameFile(n)] == t.born[a] && t.writer == map[] && t.readers == {}
    ensures forall x :: x in t.used ==> x == a || x == b
  {
    hide Reachable, Inv, Respects, Spares, Shared, Grows, Alone;
    var s1 := BeginsCreate(s, p, n, a);
    var s2 := OpensName(s1, p, n, a);
    ReachableInv(s);
    ParkedInodeIsOld(s, 1, n, i, b);
    NoLocksNobodyHolds(s2);
    ReachableInv(s2);
    BornUnderName(s2, n, a);
    t := CreateFinishes(s2, p);
    GoneLeavesNoLocks(t, p);
    BornStays(s2, t, a);
    NameOfGrows(s2, t, a);
  }

  lemma ParkedInodeIsOld(s: State, p: Pid, n: Name, i: Ino, b: Id)
    requires Inv(s) && Parked(s, p, n, i, b, RelockName)
    ensures i < s.next
  {
    hide Locks, Ids, ListsOk, Quiet, Inodes, Lives, Sound, Complete, Unorphaned, Procs;
    OwnFacts(s, p);
  }

  lemma BornUnderName(s: State, n: Name, a: Id)
    requires Inv(s) && a in s.born && NameFile(n) in s.links && s.links[NameFile(n)] == s.born[a]
    ensures NameOf(s, a) == n
  {
    hide Locks, Ids, ListsOk, Quiet, Inodes, Lives, Sound, Complete, Unorphaned, Procs;
  }

  /** The remove `p` of `b` waits for the lock of a file that is no longer the name file of `n`. */
  ghost predicate WaitsForOldFile(s: State, p: Pid, n: Name, b: Id) {
    && p in s.procs && s.procs[p].Removing? && s.procs[p].rat == RelockName
    && s.procs[p].id == b && s.procs[p].name == n
    && NameFile(n) in s.links && s.links[NameFile(n)] != s.procs[p].ino
  }

  /** So another remove has unlinked that file before. */
  lemma OldFileWasEmptied(s: State, p: Pid, n: Name, b: Id)
    requires Inv(s) && WaitsForOldFile(s, p, n, b)
    ensures n in s.emptied
  {
    hide Locks, Ids, ListsOk, Quiet, Inodes, Lives, Sound, Complete, Procs;
    OwnFacts(s, p);
    assert IsNameInode(s, s.procs[p].ino, n);
  }

  /**
   * For every name and any two ids: there is a reachable state `u` in which the object `a` is alive
   * and listed under `n`, and nothing is in flight but a remove of `b`, another id, that waits for the
   * lock of an older name file, which another remove has emptied. The one that waits, making one step
   * after the other, unlinks the name file and returns; then `a` is alive and listed nowhere.
   */
  lemma LostToSecondRemove(n: Name, a: Id, b: Id) returns (u: State, p: Pid, es: seq<Event>, s: State)
    requires IsName(n) && IsName(a) && IsName(b) && a != b
    ensures Reachable(u) && u.procs.Keys == {p} && WaitsForOldFile(u, p, n, b) && n in u.emptied
    ensures Settled(u, a) && FileSays(u, a, n) && a in Listed(u, n)
    ensures ByItself(es, p) && CanRun(u, es) && s == Run(u, es)
    ensures Reachable(s) && Quiescent(s) && Settled(s, a)
    ensures FileSays(s, a, n) && DataFile(a) in s.links && NameFile(n) !in s.links && a !in Listed(s, n)
  {
    hide Reachable, Inv, Respects, Spares, Shared, Grows, Alone, AtUnlink, FileSays, Listed, NameOf, ByItself;
    var s0, i := FirstRemoveReturns(n, b);
    u := CreateComesAndGoes(s0, 2, n, i, a, b);
    p := 1;
    NoLocksNobodyHolds(u);
    ListedIffStillLinked(u, a);
    ReachableInv(u);
    SettledIsPresent(u, a);
    OldFileWasEmptied(u, p, n, b);
    s, es := StaleEnds(u, p, n, i, a, b);
    ReachableRunsOn(u, es);
    assert Quiescent(s);
    LostForGood(u, s, n, a);
  }

  lemma LostForGood(u: State, s: State, n: Name, a: Id)
    requires Reachable(u) && Reachable(s) && Grows(u, s)
    requires Settled(u, a) && NameOf(u, a) == n && a in u.born && a !in s.doomed && NameFile(n) !in s.links
    ensures Settled(s, a) && FileSays(s, a, n) && DataFile(a) in s.links && a !in Listed(s, n)
  {
    hide Inv, Reachable, Grows, NameOf;
    ReachableInv(u);
    ReachableInv(s);
    NameOfGrows(u, s, a);
    StillCreated(u, s, a);
    SettledIsPresent(s, a);
  }
}
