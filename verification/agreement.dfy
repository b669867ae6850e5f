/**
 * The two models of the storage code agree: an operation that runs alone among the processes has
 * exactly the effect on the files that the sequential method is proved to have.
 */
module Agreement {
  import opened Bytes
  import opened Lines
  import opened Paths
  import opened Processes
  import opened Invariants
  import opened Frames
  import opened Effects
  import opened Mutations
  import opened ReadSteps
  import opened RemoveSteps
  import opened CreateSteps
  import opened Consistency
  import opened Race
  import opened Runs
  import Storage

  type Image = map<Path, Octets>

  /** What the linked files hold. */
  ghost function ImageOf(s: State): Image {
    map path | path in s.links :: Content(s, s.links[path])
  }

  lemma SameImage(s: State, t: State)
    requires t.links == s.links && t.bytes == s.bytes
    ensures ImageOf(t) == ImageOf(s)
  {
  }

  lemma StoredImage(s: State, path: Path, content: Octets)
    requires Shape(s) && path in s.links
    ensures ImageOf(Store(s, s.links[path], content)) == ImageOf(s)[path := content]
  {
    var t := Store(s, s.links[path], content);
    forall q | q in s.links ensures Content(t, s.links[q]) == if q == path then content else Content(s, s.links[q]) {
      assert s.home[s.links[q]] == q;
    }
  }

  lemma AllocatedImage(s: State, path: Path)
    requires Shape(s) && path !in s.links
    ensures ImageOf(Allocate(s, path)) == ImageOf(s)[path := []]
  {
    var t := Allocate(s, path);
    forall q | q in s.links ensures Content(t, s.links[q]) == Content(s, s.links[q]) {
      assert s.links[q] in s.home;
    }
  }

  lemma FreshImage(s: State, path: Path)
    requires Shape(s)
    ensures ImageOf(OpenFresh(s, path)) == ImageOf(s)[path := []]
  {
    if path in s.links {
      StoredImage(s, path, []);
    } else {
      AllocatedImage(s, path);
    }
  }

  lemma Overwritten(disk: Image, path: Path, a: Octets, b: Octets)
    ensures disk[path := a][path := b] == disk[path := b]
  {
  }

  // ---- create ----

  /** The files when a create that runs alone is about to make this system call. */
  ghost function CreateImage(disk: Image, name: Name, id: Id, at: CreateAt): Image {
    var c := Storage.OldContent(disk, NameFile(name));
    var begun := disk[NameFile(name) := c];
    var entered := begun[IdFile(id) := []][NameFile(name) := c + id + [SEPARATOR]];
    match at
    case OpenName => disk
    case LockName => begun
    case OpenId => begun
    case LockId => begun[IdFile(id) := []]
    case PutId => begun[IdFile(id) := []]
    case PutSep => begun[IdFile(id) := []][NameFile(name) := c + id]
    case CloseName => entered
    case PutName => entered
    case PutEnd => entered[IdFile(id) := name]
    case OpenData => entered[IdFile(id) := name + [SEPARATOR]]
    case Return => Storage.AfterCreate(disk, name, id)
  }

  /** A create at work alone, its name file linked. */
  ghost predicate CreatesAlone(s: State, p: Pid, disk: Image, name: Name, id: Id) {
    && p in s.procs && Alone(s, p) && s.procs[p].Creating? && s.procs[p].name == name && s.procs[p].id == id
    && ImageOf(s) == CreateImage(disk, name, id, s.procs[p].cat)
    && (s.procs[p].cat != OpenName ==> NameFile(name) in s.links && s.links[NameFile(name)] == s.procs[p].ino)
  }

  /** One step on, or done. */
  ghost predicate CreateWentOn(s: State, t: State, p: Pid, disk: Image, name: Name, id: Id)
    requires p in s.procs && s.procs[p].Creating?
  {
    if s.procs[p].cat == Return
    then p !in t.procs && ImageOf(t) == Storage.AfterCreate(disk, name, id) && id in t.created
    else CreatesAlone(t, p, disk, name, id) && CreateRank(t.procs[p].cat) < CreateRank(s.procs[p].cat)
  }

  lemma CreateOpensName(s: State, p: Pid, disk: Image, name: Name, id: Id)
    requires Shape(s) && CreatesAlone(s, p, disk, name, id) && s.procs[p].cat == OpenName
    ensures CreateWentOn(s, CreateStep(s, p, s.procs[p]), p, disk, name, id)
  {
    var path := NameFile(name);
    var t := CreateStep(s, p, s.procs[p]);
    if path in s.links {
      SameImage(s, t);
      assert ImageOf(s)[path := ImageOf(s)[path]] == ImageOf(s);
    } else {
      AllocatedImage(s, path);
      SameImage(Allocate(s, path), t);
    }
  }

  lemma LockIs(s: State, p: Pid, c: Proc)
    requires c.Creating? && Alone(s, p)
    requires c.cat == LockName || c.cat == LockId || c.cat == CloseName || c.cat == Return
    ensures var t := CreateStep(s, p, c);
            && t.links == s.links && t.bytes == s.bytes && Alone(t, p)
            && (c.cat == Return ==> p !in t.procs && c.id in t.created)
            && (c.cat == LockName ==> p in t.procs && t.procs[p] == c.(cat := OpenId))
            && (c.cat == LockId ==> p in t.procs && t.procs[p] == c.(cat := PutId))
            && (c.cat == CloseName ==> p in t.procs && t.procs[p] == c.(cat := PutName))
  {
  }

  lemma CreateLocks(s: State, p: Pid, disk: Image, name: Name, id: Id)
    requires CreatesAlone(s, p, disk, name, id)
    requires var at := s.procs[p].cat; at == LockName || at == LockId || at == CloseName || at == Return
    ensures CreateWentOn(s, CreateStep(s, p, s.procs[p]), p, disk, name, id)
  {
    hide CreateStep, Alone, ImageOf;
    LockIs(s, p, s.procs[p]);
    SameImage(s, CreateStep(s, p, s.procs[p]));
  }

  lemma FileIs(s: State, p: Pid, c: Proc, path: Path)
    requires c.Creating? && Alone(s, p)
    requires (c.cat == OpenId && path == IdFile(c.id)) || (c.cat == OpenData && path == DataFile(c.id))
    ensures var t, u := CreateStep(s, p, c), OpenFresh(s, path);
            && t.links == u.links && t.bytes == u.bytes && Alone(t, p) && p in t.procs && path in u.links
            && t.procs[p] == if c.cat == OpenId then c.(cat := LockId, idIno := u.links[path]) else c.(cat := Return)
  {
    OpenFreshIsSteady(s, OpenFresh(s, path), path);
  }

  lemma CreateOpensId(s: State, p: Pid, disk: Image, name: Name, id: Id)
    requires Shape(s) && CreatesAlone(s, p, disk, name, id) && s.procs[p].cat == OpenId
    ensures CreateWentOn(s, CreateStep(s, p, s.procs[p]), p, disk, name, id)
  {
    hide CreateStep, Alone, ImageOf, OpenFresh, Shape;
    FileIs(s, p, s.procs[p], IdFile(id));
    FreshImage(s, IdFile(id));
    OpenFreshIsSteady(s, OpenFresh(s, IdFile(id)), IdFile(id));
    SameImage(OpenFresh(s, IdFile(id)), CreateStep(s, p, s.procs[p]));
  }

  lemma CreateOpensData(s: State, p: Pid, disk: Image, name: Name, id: Id)
    requires Shape(s) && CreatesAlone(s, p, disk, name, id) && s.procs[p].cat == OpenData
    ensures CreateWentOn(s, CreateStep(s, p, s.procs[p]), p, disk, name, id)
  {
    hide CreateStep, Alone, ImageOf, OpenFresh, Shape;
    FileIs(s, p, s.procs[p], DataFile(id));
    FreshImage(s, DataFile(id));
    OpenFreshIsSteady(s, OpenFresh(s, DataFile(id)), DataFile(id));
    SameImage(OpenFresh(s, DataFile(id)), CreateStep(s, p, s.procs[p]));
    LastImage(disk, name, id);
  }

  lemma LastImage(disk: Image, name: Name, id: Id)
    ensures CreateImage(disk, name, id, OpenData)[DataFile(id) := []] == Storage.AfterCreate(disk, name, id)
  {
    assert [] + name == name;
    Storage.CreatedImage(disk, Storage.OldContent(disk, NameFile(name)), name, id);
  }

  /** A step that writes one file, and how the image moves with it. */
  lemma CreateWrites(s: State, t: State, p: Pid, disk: Image, name: Name, id: Id, path: Path, content: Octets, d: Proc)
    requires Shape(s) && CreatesAlone(s, p, disk, name, id) && path in s.links
    requires t.links == s.links && t.bytes == Store(s, s.links[path], content).bytes
    requires p in t.procs && t.procs[p] == d && Alone(t, p)
    requires d.Creating? && d.id == id && d.name == name && d.ino == s.procs[p].ino
    requires s.procs[p].cat != OpenName && s.procs[p].cat != Return && CreateRank(d.cat) < CreateRank(s.procs[p].cat)
    requires CreateImage(disk, name, id, s.procs[p].cat)[path := content] == CreateImage(disk, name, id, d.cat)
    ensures CreateWentOn(s, t, p, disk, name, id)
  {
    hide Shape, ImageOf, CreateImage, Alone;
    StoredImage(s, path, content);
    SameImage(Store(s, s.links[path], content), t);
  }

  lemma AppendIs(s: State, p: Pid, c: Proc, more: Octets, d: Proc)
    requires c.Creating? && Alone(s, p)
    requires (c.cat == PutId && more == c.id && d == c.(cat := PutSep))
          || (c.cat == PutSep && more == [SEPARATOR] && d == c.(cat := CloseName))
    ensures var t := CreateStep(s, p, c);
            && t.links == s.links && t.bytes == Store(s, c.ino, Content(s, c.ino) + more).bytes
            && p in t.procs && t.procs[p] == d && Alone(t, p)
  {
    hide Content, ListOf;
  }

  lemma AppendImage(disk: Image, name: Name, id: Id)
    ensures var c := Storage.OldContent(disk, NameFile(name));
            var path := NameFile(name);
            && path in CreateImage(disk, name, id, PutId) && CreateImage(disk, name, id, PutId)[path] == c
            && CreateImage(disk, name, id, PutId)[path := c + id] == CreateImage(disk, name, id, PutSep)
            && path in CreateImage(disk, name, id, PutSep) && CreateImage(disk, name, id, PutSep)[path] == c + id
            && CreateImage(disk, name, id, PutSep)[path := c + id + [SEPARATOR]]
            == CreateImage(disk, name, id, CloseName)
  {
    var c := Storage.OldContent(disk, NameFile(name));
    var begun := disk[NameFile(name) := c][IdFile(id) := []];
    Overwritten(begun, NameFile(name), c + id, c + id + [SEPARATOR]);
  }

  lemma LinkedContent(s: State, path: Path)
    requires path in s.links
    ensures path in ImageOf(s) && ImageOf(s)[path] == Content(s, s.links[path])
  {
  }

  lemma CreateAppends(s: State, p: Pid, disk: Image, name: Name, id: Id, more: Octets, d: Proc)
    requires Shape(s) && CreatesAlone(s, p, disk, name, id)
    requires (s.procs[p].cat == PutId && more == id && d == s.procs[p].(cat := PutSep))
          || (s.procs[p].cat == PutSep && more == [SEPARATOR] && d == s.procs[p].(cat := CloseName))
    ensures CreateWentOn(s, CreateStep(s, p, s.procs[p]), p, disk, name, id)
  {
    hide CreateStep, Alone, ImageOf, Content, Shape, CreateImage, CreateWentOn, Store;
    var path := NameFile(name);
    AppendIs(s, p, s.procs[p], more, d);
    LinkedContent(s, path);
    AppendImage(disk, name, id);
    CreateWrites(s, CreateStep(s, p, s.procs[p]), p, disk, name, id, path, Content(s, s.procs[p].ino) + more, d);
  }

  lemma NamerKnows(s: State, p: Pid)
    requires Inv(s) && p in s.procs && s.procs[p].Creating? && (s.procs[p].cat == PutName || s.procs[p].cat == PutEnd)
    ensures var c := s.procs[p];
            && Shape(s) && IdFile(c.id) in s.links && s.links[IdFile(c.id)] == c.idIno
            && Content(s, c.idIno) == if c.cat == PutName then [] else c.name
  {
    hide Locks, Ids, ListsOk, Quiet, Inodes, Lives, Sound, Complete, Unorphaned, Procs;
    OwnFacts(s, p);
  }

  lemma NamingImage(disk: Image, name: Name, id: Id, at: CreateAt, content: Octets, next: CreateAt)
    requires (at == PutName && content == name && next == PutEnd)
          || (at == PutEnd && content == name + [SEPARATOR] && next == OpenData)
    ensures CreateImage(disk, name, id, at)[IdFile(id) := content] == CreateImage(disk, name, id, next)
    ensures CreateRank(next) < CreateRank(at)
  {
    var c := Storage.OldContent(disk, NameFile(name));
    var entered := disk[NameFile(name) := c][IdFile(id) := []][NameFile(name) := c + id + [SEPARATOR]];
    Overwritten(entered, IdFile(id), name, name + [SEPARATOR]);
  }

  lemma CreateNames(s: State, p: Pid, disk: Image, name: Name, id: Id, content: Octets, d: Proc)
    requires Inv(s) && CreatesAlone(s, p, disk, name, id)
    requires (s.procs[p].cat == PutName && content == name && d == s.procs[p].(cat := PutEnd))
          || (s.procs[p].cat == PutEnd && content == name + [SEPARATOR] && d == s.procs[p].(cat := OpenData))
    ensures CreateWentOn(s, CreateStep(s, p, s.procs[p]), p, disk, name, id)
  {
    NamerKnows(s, p);
    hide Inv, CreateStep, Alone, ImageOf, Content, Shape, CreateImage, CreateWentOn, Store, CreateRank;
    NameIs(s, p, s.procs[p], content, d);
    NamingImage(disk, name, id, s.procs[p].cat, content, d.cat);
    CreateWrites(s, CreateStep(s, p, s.procs[p]), p, disk, name, id, IdFile(id), content, d);
  }

  lemma NameIs(s: State, p: Pid, c: Proc, content: Octets, d: Proc)
    requires c.Creating? && Alone(s, p) && Content(s, c.idIno) == if c.cat == PutName then [] else c.name
    requires (c.cat == PutName && content == c.name && d == c.(cat := PutEnd))
          || (c.cat == PutEnd && content == c.name + [SEPARATOR] && d == c.(cat := OpenData))
    ensures var t := CreateStep(s, p, c);
            && t.links == s.links && t.bytes == Store(s, c.idIno, content).bytes
            && p in t.procs && t.procs[p] == d && Alone(t, p)
  {
    assert c.name[..|c.name|] == c.name;
    assert [] + c.name == c.name;
  }

  lemma CreateGoesOn(s: State, p: Pid, disk: Image, name: Name, id: Id)
    requires Inv(s) && CreatesAlone(s, p, disk, name, id)
    ensures CreateWentOn(s, CreateStep(s, p, s.procs[p]), p, disk, name, id)
  {
    hide CreatesAlone, CreateWentOn, CreateStep;
    assert Shape(s) && p in s.procs && s.procs[p].Creating? && s.procs[p].id == id by {
      AloneFacts(s, p, disk, name, id);
    }
    var c := s.procs[p];
    hide Inv;
    match c.cat {
      case OpenName => CreateOpensName(s, p, disk, name, id);
      case OpenId => CreateOpensId(s, p, disk, name, id);
      case OpenData => CreateOpensData(s, p, disk, name, id);
      case PutId => CreateAppends(s, p, disk, name, id, id, c.(cat := PutSep));
      case PutSep => CreateAppends(s, p, disk, name, id, [SEPARATOR], c.(cat := CloseName));
      case PutName => CreateNames(s, p, disk, name, id, name, c.(cat := PutEnd));
      case PutEnd => CreateNames(s, p, disk, name, id, name + [SEPARATOR], c.(cat := OpenData));
      case _ => CreateLocks(s, p, disk, name, id);
    }
  }

  lemma AloneFacts(s: State, p: Pid, disk: Image, name: Name, id: Id)
    requires Inv(s) && CreatesAlone(s, p, disk, name, id)
    ensures Shape(s) && p in s.procs && s.procs[p].Creating? && s.procs[p].id == id
  {
  }

  lemma {:induction false} CreateEndsAlone(s: State, p: Pid, disk: Image, name: Name, id: Id) returns (es: seq<Event>)
    requires Inv(s) && CreatesAlone(s, p, disk, name, id)
    ensures ByItself(es, p) && CanRun(s, es)
    ensures var t := Run(s, es);
            && p !in t.procs && OthersSame(s, t, p) && id in t.created
            && ImageOf(t) == Storage.AfterCreate(disk, name, id)
    decreases CreateRank(s.procs[p].cat)
  {
    hide Inv, Alone, Respects, Spares, CreateStep, Shared, OthersSame, Grows, ByItself, ImageOf;
    AloneCanStep(s, p);
    var t := OneStep(s, p);
    CreateGoesOn(s, p, disk, name, id);
    es := [];
    NothingRuns(t, p);
    if s.procs[p].cat != Return {
      es := CreateEndsAlone(t, p, disk, name, id);
      OthersOn(s, t, Run(t, es), p);
    }
    es := StepFirst(s, p, es);
  }

  lemma OthersOn(s: State, u: State, t: State, p: Pid)
    requires OthersSame(s, u, p) && OthersSame(u, t, p)
    ensures OthersSame(s, t, p)
  {
  }

  lemma AtRestAgain(s: State, t: State, p: Pid)
    requires s.procs.Keys == {p} && p !in t.procs && OthersSame(s, t, p)
    ensures Quiescent(t)
  {
    assert forall q :: q in t.procs ==> q in s.procs;
  }

  /**
   * From any reachable state at rest, a create that runs alone returns, and whichever steps it
   * makes, the files are then as the sequential create leaves them.
   */
  lemma CreateAgrees(s: State, p: Pid, name: Name, id: Id) returns (es: seq<Event>)
    requires Reachable(s) && Quiescent(s) && id !in s.used && IsName(id) && IsName(name)
    ensures RunsAlone(s, p, OpCreate(name, id), es)
    ensures forall fs :: RunsAlone(s, p, OpCreate(name, id), fs) ==>
      var t := Run(s, fs);
      Quiescent(t) && id in t.created && ImageOf(t) == Storage.AfterCreate(ImageOf(s), name, id)
  {
    hide Inv, Reachable, ImageOf, CanRun, RunsAlone;
    ReachableInv(s);
    QuiescentLocks(s);
    var op := OpCreate(name, id);
    EventKeepsInv(s, Begin(p, op));
    var u := BeginStep(s, p, op);
    SameImage(s, u);
    var rest := CreateEndsAlone(u, p, ImageOf(s), name, id);
    es := BeginFirst(s, p, op, rest);
    AtRestAgain(u, Run(s, es), p);
    forall fs | RunsAlone(s, p, op, fs) ensures fs == es {
      SameRun(s, p, op, fs, es);
    }
  }

  // ---- remove ----

  /** The files without the object's own two. */
  ghost function Bared(disk: Image, id: Id): Image {
    disk - {IdFile(id)} - {DataFile(id)}
  }

  ghost function Remaining(disk: Image, name: Name, id: Id): seq<Id>
    requires NameFile(name) in disk
  {
    Without(Drain(disk[NameFile(name)], 0, SEPARATOR), id)
  }

  predicate Opened(at: RemoveAt) {
    at != UnlinkId && at != UnlinkData && at != ReopenName && at != Done
  }

  predicate Cut(at: RemoveAt) {
    at == RewriteId || at == RewriteSep || at == UnlinkName
  }

  /** A remove at work alone, and what the files hold by then. */
  ghost predicate RemovesAlone(s: State, p: Pid, disk: Image, name: Name, id: Id) {
    && p in s.procs && Alone(s, p) && s.procs[p].Removing? && s.procs[p].name == name && s.procs[p].id == id
    && var c := s.procs[p];
       var bare := Bared(disk, id);
       && (c.rat == UnlinkId ==> ImageOf(s) == disk)
       && (c.rat == UnlinkData ==> ImageOf(s) == disk - {IdFile(id)})
       && (c.rat == ReopenName || (Opened(c.rat) && !Cut(c.rat)) ==> ImageOf(s) == bare)
       && (Opened(c.rat) ==>
             NameFile(name) in disk && NameFile(name) in s.links && s.links[NameFile(name)] == c.ino)
       && (Cut(c.rat) ==>
             && ImageOf(s) == bare[NameFile(name) := Content(s, c.ino)]
             && ListOf(s, c.ino) == Remaining(disk, name, id) && (c.rat != UnlinkName ==> ListOf(s, c.ino) != []))
       && (c.rat == Done ==> ImageOf(s) == Storage.AfterRemove(disk, id, name))
  }

  function Stage(at: RemoveAt): nat {
    match at
    case UnlinkId => 9 case UnlinkData => 8 case ReopenName => 7 case RelockName => 6 case Collect => 5
    case Truncate => 4 case RewriteId => 3 case RewriteSep => 3 case UnlinkName => 2 case Done => 1
  }

  function Ahead(s: State, c: Proc): nat {
    if !c.Removing? then 0
    else if c.rat == Collect then Unread(s, c)
    else 2 * |c.ids| + if c.rat == RewriteId then 1 else 0
  }

  ghost predicate RemoveWentOn(s: State, t: State, p: Pid, disk: Image, name: Name, id: Id)
    requires p in s.procs && s.procs[p].Removing?
  {
    || (p !in t.procs && ImageOf(t) == Storage.AfterRemove(disk, id, name))
    || (RemovesAlone(t, p, disk, name, id)
        && (Stage(t.procs[p].rat) < Stage(s.procs[p].rat)
            || (Stage(t.procs[p].rat) == Stage(s.procs[p].rat) && Ahead(t, t.procs[p]) < Ahead(s, s.procs[p]))))
  }

  lemma UnlinkIs(s: State, p: Pid, c: Proc)
    requires c.Removing? && Alone(s, p) && (c.rat == UnlinkId || c.rat == UnlinkData)
    ensures var t := RemoveStep(s, p, c);
            && ImageOf(t) == ImageOf(s) - {if c.rat == UnlinkId then IdFile(c.id) else DataFile(c.id)}
            && Alone(t, p) && p in t.procs
            && t.procs[p] == c.(rat := if c.rat == UnlinkId then UnlinkData else ReopenName)
  {
  }

  lemma RemoveUnlinks(s: State, p: Pid, disk: Image, name: Name, id: Id)
    requires RemovesAlone(s, p, disk, name, id) && (s.procs[p].rat == UnlinkId || s.procs[p].rat == UnlinkData)
    ensures RemoveWentOn(s, RemoveStep(s, p, s.procs[p]), p, disk, name, id)
  {
    hide RemoveStep, Alone, ImageOf;
    UnlinkIs(s, p, s.procs[p]);
  }

  lemma ReopenIs(s: State, p: Pid, c: Proc)
    requires c.Removing? && Alone(s, p) && c.rat == ReopenName && p in s.procs && s.procs[p] == c
    ensures var t := RemoveStep(s, p, c);
            && ImageOf(t) == ImageOf(s) && t.links == s.links && Alone(t, p)
            && (NameFile(c.name) in s.links ==>
                  p in t.procs && t.procs[p] == c.(rat := RelockName, ino := s.links[NameFile(c.name)]))
            && (NameFile(c.name) !in s.links ==> p !in t.procs)
  {
    hide RemoveStep;
    ReopenStepIs(s, p, c);
    SameImage(s, RemoveStep(s, p, c));
  }

  lemma BareNames(disk: Image, name: Name, id: Id)
    ensures NameFile(name) in Bared(disk, id) <==> NameFile(name) in disk
    ensures NameFile(name) in disk ==> Bared(disk, id)[NameFile(name)] == disk[NameFile(name)]
    ensures NameFile(name) !in disk ==> Storage.AfterRemove(disk, id, name) == Bared(disk, id)
  {
    Storage.RemovedImage(disk, id, name);
  }

  lemma RemoveReopens(s: State, p: Pid, disk: Image, name: Name, id: Id)
    requires RemovesAlone(s, p, disk, name, id) && s.procs[p].rat == ReopenName
    ensures RemoveWentOn(s, RemoveStep(s, p, s.procs[p]), p, disk, name, id)
  {
    assert NameFile(name) in ImageOf(s) <==> NameFile(name) in s.links;
    hide RemoveStep, Alone, ImageOf, Bared;
    BareNames(disk, name, id);
    ReopenIs(s, p, s.procs[p]);
  }

  lemma RelockIs(s: State, p: Pid, c: Proc)
    requires c.Removing? && Alone(s, p) && c.rat == RelockName
    ensures var t := RemoveStep(s, p, c);
            && t.links == s.links && t.bytes == s.bytes && Alone(t, p)
            && p in t.procs && t.procs[p] == c.(rat := Collect, pos := 0, ids := [])
  {
  }

  lemma RemoveRelocks(s: State, p: Pid, disk: Image, name: Name, id: Id)
    requires RemovesAlone(s, p, disk, name, id) && s.procs[p].rat == RelockName
    ensures RemoveWentOn(s, RemoveStep(s, p, s.procs[p]), p, disk, name, id)
  {
    hide RemoveStep, Alone, ImageOf, Bared;
    RelockIs(s, p, s.procs[p]);
    SameImage(s, RemoveStep(s, p, s.procs[p]));
  }

  lemma RemoveCollects(s: State, p: Pid, disk: Image, name: Name, id: Id)
    requires RemovesAlone(s, p, disk, name, id) && s.procs[p].rat == Collect
    ensures RemoveWentOn(s, RemoveStep(s, p, s.procs[p]), p, disk, name, id)
  {
    CollectStepIs(s, p, s.procs[p]);
    CollectReads(s, p);
    hide RemoveStep, NextLine, ImageOf, Bared, Unread;
    SameImage(s, RemoveStep(s, p, s.procs[p]));
  }

  lemma DoneIs(s: State, p: Pid, c: Proc)
    requires c.Removing? && c.rat == Done
    ensures var t := RemoveStep(s, p, c); ImageOf(t) == ImageOf(s) && p !in t.procs
  {
  }

  lemma RemoveFinishes(s: State, p: Pid, disk: Image, name: Name, id: Id)
    requires RemovesAlone(s, p, disk, name, id) && s.procs[p].rat == Done
    ensures RemoveWentOn(s, RemoveStep(s, p, s.procs[p]), p, disk, name, id)
  {
    hide RemoveStep, Alone, ImageOf, Bared;
    DoneIs(s, p, s.procs[p]);
  }

  lemma TruncaterKnows(s: State, p: Pid)
    requires Inv(s) && p in s.procs && s.procs[p].Removing? && s.procs[p].rat == Truncate
    ensures var c := s.procs[p];
            && Shape(s) && c.ino in s.lists && c.ino in s.bytes
            && c.ids == ListOf(s, c.ino) && Drain(Content(s, c.ino), 0, SEPARATOR) == ListOf(s, c.ino)
  {
    hide Locks, Quiet, Inodes, Lives, Sound, Complete, Unorphaned, Procs, Drain, Join;
    OwnFacts(s, p);
    InodeOfList(s, s.procs[p].ino);
    FreeLists(s, s.procs[p].ino);
    var list := s.lists[s.procs[p].ino];
    DrainUndoesJoin(list, [], SEPARATOR);
    assert Join(list, SEPARATOR) + [] == Join(list, SEPARATOR);
  }

  lemma TruncateIs(s: State, p: Pid, c: Proc, keep: seq<Id>)
    requires c.Removing? && Alone(s, p) && c.rat == Truncate && c.ino in s.lists
    requires c.ids == ListOf(s, c.ino) && keep == Without(c.ids, c.id)
    ensures var t := RemoveStep(s, p, c);
            && t.links == s.links && t.bytes == Store(s, c.ino, []).bytes && Alone(t, p)
            && Content(t, c.ino) == [] && ListOf(t, c.ino) == keep
            && p in t.procs
            && t.procs[p] == c.(rat := if keep == [] then UnlinkName else RewriteId, pos := 0, ids := keep)
  {
    hide Without;
  }

  lemma TruncaterSees(s: State, p: Pid, disk: Image, name: Name, id: Id)
    requires Inv(s) && RemovesAlone(s, p, disk, name, id) && s.procs[p].rat == Truncate
    ensures Shape(s) && s.procs[p].ino in s.lists && s.procs[p].ids == ListOf(s, s.procs[p].ino)
    ensures NameFile(name) in disk && Remaining(disk, name, id) == Without(s.procs[p].ids, id)
  {
    hide Inv, Shape, Alone, ImageOf, Drain, Without, ListOf, Content, Bared;
    TruncaterKnows(s, p);
    LinkedContent(s, NameFile(name));
    BareNames(disk, name, id);
  }

  lemma RemoveTruncates(s: State, p: Pid, disk: Image, name: Name, id: Id)
    requires Inv(s) && RemovesAlone(s, p, disk, name, id) && s.procs[p].rat == Truncate
    ensures RemoveWentOn(s, RemoveStep(s, p, s.procs[p]), p, disk, name, id)
  {
    hide Inv, RemoveStep, Alone, ImageOf, Bared, Content, ListOf, Remaining, Shape, Store;
    TruncaterSees(s, p, disk, name, id);
    var c, keep := s.procs[p], Remaining(disk, name, id);
    TruncateIs(s, p, c, keep);
    StoredImage(s, NameFile(name), []);
    StoreKeepsLinks(s, c.ino, []);
    SameImage(Store(s, c.ino, []), RemoveStep(s, p, c));
  }

  lemma StoreKeepsLinks(s: State, i: Ino, content: Octets)
    ensures Store(s, i, content).links == s.links
  {
  }

  /** A write of the rewriting loop: the image has the new content under the name. */
  lemma RewriteIs(s: State, p: Pid, c: Proc, d: Proc)
    requires c.Removing? && Alone(s, p) && c.ids != []
    requires (c.rat == RewriteId && d == c.(rat := RewriteSep, pos := c.pos + |c.ids[0]|))
          || (c.rat == RewriteSep
              && d == c.(rat := if c.ids[1..] == [] then Done else RewriteId, pos := c.pos + 1, ids := c.ids[1..]))
    ensures var t := RemoveStep(s, p, c);
            && t.links == s.links && t.bytes == Store(s, c.ino, Content(t, c.ino)).bytes && Alone(t, p)
            && ListOf(t, c.ino) == ListOf(s, c.ino) && p in t.procs && t.procs[p] == d
  {
    if c.rat == RewriteId {
      RewriteIdIs(s, p, c);
    } else {
      RewriteSepIs(s, p, c);
    }
    hide RemoveStep, WriteAt;
  }

  lemma RewriterHasMore(s: State, p: Pid)
    requires Inv(s) && p in s.procs && s.procs[p].Removing?
    requires s.procs[p].rat == RewriteId || s.procs[p].rat == RewriteSep
    ensures Shape(s) && s.procs[p].ids != []
  {
    hide Locks, Ids, ListsOk, Quiet, Inodes, Lives, Sound, Complete, Unorphaned, Procs;
    OwnFacts(s, p);
  }

  /** When the rewriting is over, the file is the print of its list. */
  lemma DoneWriting(s: State, p: Pid)
    requires Inv(s) && p in s.procs && s.procs[p].Removing? && s.procs[p].rat == Done
    ensures Content(s, s.procs[p].ino) == Join(ListOf(s, s.procs[p].ino), SEPARATOR)
  {
    hide Shape, Locks, Ids, ListsOk, Quiet, Inodes, Lives, Sound, Complete, Unorphaned, Procs;
    OwnFacts(s, p);
  }

  lemma RewrittenImage(disk: Image, name: Name, id: Id, content: Octets)
    requires NameFile(name) in disk && content == Join(Remaining(disk, name, id), SEPARATOR)
    ensures var d := Bared(disk, id)[NameFile(name) := content];
            Storage.AfterRemove(disk, id, name) == if Remaining(disk, name, id) == [] then d - {NameFile(name)} else d
  {
    hide Join, Drain, Without;
    Storage.RemovedImage(disk, id, name);
  }

  lemma RemoveRewrites(s: State, p: Pid, disk: Image, name: Name, id: Id, d: Proc)
    requires Inv(s) && RemovesAlone(s, p, disk, name, id) && s.procs[p].ids != [] && Shape(s)
    requires var c := s.procs[p];
             (c.rat == RewriteId && d == c.(rat := RewriteSep, pos := c.pos + |c.ids[0]|))
             || (c.rat == RewriteSep
                 && d == c.(rat := if c.ids[1..] == [] then Done else RewriteId, pos := c.pos + 1, ids := c.ids[1..]))
    requires Inv(RemoveStep(s, p, s.procs[p]))
    ensures RemoveWentOn(s, RemoveStep(s, p, s.procs[p]), p, disk, name, id)
  {
    hide Inv, RemoveStep, Alone, ImageOf, Bared, Content, ListOf, Shape, Store, Remaining, Join;
    var c, t := s.procs[p], RemoveStep(s, p, s.procs[p]);
    RewriteIs(s, p, c, d);
    StoredImage(s, NameFile(name), Content(t, c.ino));
    StoreKeepsLinks(s, c.ino, Content(t, c.ino));
    SameImage(Store(s, c.ino, Content(t, c.ino)), t);
    Overwritten(Bared(disk, id), NameFile(name), Content(s, c.ino), Content(t, c.ino));
    if d.rat == Done {
      DoneWriting(t, p);
      RewrittenImage(disk, name, id, Content(t, c.ino));
    }
  }

  lemma UnlinkNameIs(s: State, p: Pid, c: Proc)
    requires c.Removing? && Alone(s, p) && c.rat == UnlinkName
    ensures var t := RemoveStep(s, p, c);
            && ImageOf(t) == ImageOf(s) - {NameFile(c.name)} && Alone(t, p)
            && p in t.procs && t.procs[p] == c.(rat := Done)
  {
  }

  lemma EmptiedContent(s: State, p: Pid)
    requires Inv(s) && p in s.procs && s.procs[p].Removing? && s.procs[p].rat == UnlinkName
    ensures ListOf(s, s.procs[p].ino) == [] && Content(s, s.procs[p].ino) == Join([], SEPARATOR)
  {
    hide Shape, Locks, Ids, ListsOk, Quiet, Inodes, Lives, Sound, Complete, Unorphaned, Procs;
    OwnFacts(s, p);
  }

  lemma RemoveUnlinksName(s: State, p: Pid, disk: Image, name: Name, id: Id)
    requires Inv(s) && RemovesAlone(s, p, disk, name, id) && s.procs[p].rat == UnlinkName
    ensures RemoveWentOn(s, RemoveStep(s, p, s.procs[p]), p, disk, name, id)
  {
    hide Inv, RemoveStep, Alone, ImageOf, Bared, Content, ListOf, Remaining, Join;
    EmptiedContent(s, p);
    UnlinkNameIs(s, p, s.procs[p]);
    RewrittenImage(disk, name, id, Content(s, s.procs[p].ino));
  }

  lemma RemoveGoesOn(s: State, p: Pid, disk: Image, name: Name, id: Id)
    requires Inv(s) && RemovesAlone(s, p, disk, name, id) && Inv(RemoveStep(s, p, s.procs[p]))
    ensures RemoveWentOn(s, RemoveStep(s, p, s.procs[p]), p, disk, name, id)
  {
    hide Inv, RemoveWentOn, RemoveStep, ImageOf, Alone, Bared, Remaining;
    var c := s.procs[p];
    match c.rat {
      case UnlinkId => RemoveUnlinks(s, p, disk, name, id);
      case UnlinkData => RemoveUnlinks(s, p, disk, name, id);
      case ReopenName => RemoveReopens(s, p, disk, name, id);
      case RelockName => RemoveRelocks(s, p, disk, name, id);
      case Collect => RemoveCollects(s, p, disk, name, id);
      case Truncate => RemoveTruncates(s, p, disk, name, id);
      case RewriteId =>
        RewriterHasMore(s, p);
        RemoveRewrites(s, p, disk, name, id, c.(rat := RewriteSep, pos := c.pos + |c.ids[0]|));
      case RewriteSep =>
        RewriterHasMore(s, p);
        RemoveRewrites(s, p, disk, name, id,
                       c.(rat := if c.ids[1..] == [] then Done else RewriteId, pos := c.pos + 1, ids := c.ids[1..]));
      case UnlinkName => RemoveUnlinksName(s, p, disk, name, id);
      case Done => RemoveFinishes(s, p, disk, name, id);
    }
  }

  lemma {:induction false} RemoveEndsAlone(s: State, p: Pid, disk: Image, name: Name, id: Id) returns (es: seq<Event>)
    requires Inv(s) && RemovesAlone(s, p, disk, name, id)
    ensures ByItself(es, p) && CanRun(s, es)
    ensures var t := Run(s, es);
            p !in t.procs && OthersSame(s, t, p) && ImageOf(t) == Storage.AfterRemove(disk, id, name)
    decreases Stage(s.procs[p].rat), Ahead(s, s.procs[p])
  {
    hide Inv, Alone, Respects, Spares, RemoveStep, Shared, OthersSame, Grows, ImageOf, Bared, Remaining, Ahead;
    hide ByItself;
    AloneCanStep(s, p);
    var t := OneStep(s, p);
    RemoveGoesOn(s, p, disk, name, id);
    es := [];
    NothingRuns(t, p);
    if p in t.procs {
      es := RemoveEndsAlone(t, p, disk, name, id);
      OthersOn(s, t, Run(t, es), p);
    }
    es := StepFirst(s, p, es);
  }

  /** A lookup, of its own or before a remove, at work alone. */
  ghost predicate LooksAlone(s: State, p: Pid, disk: Image, id: Id) {
    && p in s.procs && Alone(s, p) && s.procs[p].Looking? && s.procs[p].id == id
    && ImageOf(s) == disk
    && (s.procs[p].kat != OpenLook ==>
          IdFile(id) in s.links && s.links[IdFile(id)] == s.procs[p].ino && IdFile(id) in disk)
    && (s.procs[p].kat == CloseLook ==> s.procs[p].name == NextLine(disk[IdFile(id)], 0, SEPARATOR).text)
  }

  /** It ends at its open, or goes over to the remove, or ends at its close, or is one step on. */
  ghost predicate LookWentOn(s: State, t: State, p: Pid, disk: Image, id: Id)
    requires p in s.procs && s.procs[p].Looking?
  {
    var c := s.procs[p];
    || (p !in t.procs && ImageOf(t) == disk
        && if c.kat == OpenLook then IdFile(id) !in disk else c.kat == CloseLook && !c.removing)
    || (c.removing && IdFile(id) in disk
        && RemovesAlone(t, p, disk, NextLine(disk[IdFile(id)], 0, SEPARATOR).text, id))
    || (LooksAlone(t, p, disk, id) && t.procs[p].removing == c.removing && Rank(t.procs[p]) < Rank(c))
  }

  lemma ImageHasLinks(s: State, path: Path)
    ensures path in ImageOf(s) <==> path in s.links
  {
  }

  lemma LookFinds(s: State, p: Pid, c: Proc)
    requires c.Looking? && Alone(s, p) && c.kat == OpenLook && IdFile(c.id) in s.links
    ensures var t := LookStep(s, p, c);
            && t.bytes == s.bytes && Alone(t, p)
            && p in t.procs && t.procs[p] == c.(kat := LockLook, ino := s.links[IdFile(c.id)])
  {
  }

  lemma LookMisses(s: State, p: Pid, c: Proc)
    requires c.Looking? && Alone(s, p) && c.kat == OpenLook && IdFile(c.id) !in s.links
    ensures var t := LookStep(s, p, c); t.bytes == s.bytes && Alone(t, p) && p !in t.procs
  {
  }

  lemma LookOpens(s: State, p: Pid, disk: Image, id: Id)
    requires LooksAlone(s, p, disk, id) && s.procs[p].kat == OpenLook
    ensures LookWentOn(s, LookStep(s, p, s.procs[p]), p, disk, id)
  {
    hide NextLine, RemovesAlone, ImageOf, Alone, LookStep;
    ImageHasLinks(s, IdFile(id));
    if IdFile(id) in s.links {
      LookFinds(s, p, s.procs[p]);
    } else {
      LookMisses(s, p, s.procs[p]);
    }
    SameImage(s, LookStep(s, p, s.procs[p]));
  }

  lemma LookLocks(s: State, p: Pid, disk: Image, id: Id)
    requires LooksAlone(s, p, disk, id) && s.procs[p].kat == LockLook
    ensures LookWentOn(s, LookStep(s, p, s.procs[p]), p, disk, id)
  {
    SameImage(s, LookStep(s, p, s.procs[p]));
    hide NextLine, RemovesAlone, ImageOf;
  }

  lemma LookReads(s: State, p: Pid, disk: Image, id: Id)
    requires LooksAlone(s, p, disk, id) && s.procs[p].kat == ReadName
    ensures LookWentOn(s, LookStep(s, p, s.procs[p]), p, disk, id)
  {
    LinkedContent(s, IdFile(id));
    SameImage(s, LookStep(s, p, s.procs[p]));
    hide NextLine, RemovesAlone, ImageOf;
  }

  lemma DropIs(s: State, p: Pid, c: Proc)
    requires c.Looking? && Alone(s, p) && c.kat == CloseLook && !c.removing
    ensures var t := LookStep(s, p, c); t.bytes == s.bytes && Alone(t, p) && p !in t.procs
  {
  }

  lemma TurnIs(s: State, p: Pid, c: Proc)
    requires c.Looking? && Alone(s, p) && c.kat == CloseLook && c.removing
    ensures var t := LookStep(s, p, c);
            && t.bytes == s.bytes && Alone(t, p)
            && p in t.procs && t.procs[p] == Removing(UnlinkId, c.id, c.name, 0, 0, [])
  {
  }

  lemma LookCloses(s: State, p: Pid, disk: Image, id: Id)
    requires LooksAlone(s, p, disk, id) && s.procs[p].kat == CloseLook
    ensures LookWentOn(s, LookStep(s, p, s.procs[p]), p, disk, id)
  {
    hide NextLine, ImageOf, Alone, LookStep;
    if s.procs[p].removing {
      TurnIs(s, p, s.procs[p]);
    } else {
      DropIs(s, p, s.procs[p]);
    }
    SameImage(s, LookStep(s, p, s.procs[p]));
  }

  lemma LookStage(s: State, u: State, p: Pid, disk: Image, id: Id)
    requires LooksAlone(s, p, disk, id) && LookWentOn(s, u, p, disk, id)
    ensures p !in u.procs ==>
      ImageOf(u) == disk
      && if IdFile(id) in disk then s.procs[p].kat == CloseLook && !s.procs[p].removing else s.procs[p].kat == OpenLook
    ensures p in u.procs ==>
      if u.procs[p].Looking?
      then && LooksAlone(u, p, disk, id) && u.procs[p].removing == s.procs[p].removing
           && Rank(u.procs[p]) < Rank(s.procs[p])
      else && s.procs[p].removing && IdFile(id) in disk
           && RemovesAlone(u, p, disk, NextLine(disk[IdFile(id)], 0, SEPARATOR).text, id)
  {
    hide NextLine, ImageOf, Alone;
  }

  lemma LookGoesOn(s: State, p: Pid, disk: Image, id: Id)
    requires LooksAlone(s, p, disk, id)
    ensures LookWentOn(s, LookStep(s, p, s.procs[p]), p, disk, id)
  {
    hide Alone, LookStep, ImageOf, NextLine, RemovesAlone;
    match s.procs[p].kat {
      case OpenLook => LookOpens(s, p, disk, id);
      case LockLook => LookLocks(s, p, disk, id);
      case ReadName => LookReads(s, p, disk, id);
      case CloseLook => LookCloses(s, p, disk, id);
    }
  }

  /** The files after a remove, its lookup included: the old ones when there is no id file. */
  ghost function Removed(disk: Image, id: Id): Image {
    if IdFile(id) in disk then Storage.AfterRemove(disk, id, NextLine(disk[IdFile(id)], 0, SEPARATOR).text) else disk
  }

  lemma {:induction false} RemoveEnds(s: State, p: Pid, disk: Image, id: Id) returns (es: seq<Event>)
    requires Inv(s) && LooksAlone(s, p, disk, id) && s.procs[p].removing
    ensures ByItself(es, p) && CanRun(s, es)
    ensures var t := Run(s, es); p !in t.procs && OthersSame(s, t, p) && ImageOf(t) == Removed(disk, id)
    decreases Rank(s.procs[p])
  {
    hide Inv, Alone, Respects, Spares, LookStep, Shared, OthersSame, Grows, ImageOf, NextLine, RemovesAlone, ByItself;
    AloneCanStep(s, p);
    var t := OneStep(s, p);
    LookGoesOn(s, p, disk, id);
    LookStage(s, t, p, disk, id);
    es := [];
    NothingRuns(t, p);
    if p in t.procs {
      if t.procs[p].Looking? {
        es := RemoveEnds(t, p, disk, id);
      } else {
        es := RemoveEndsAlone(t, p, disk, NextLine(disk[IdFile(id)], 0, SEPARATOR).text, id);
      }
      OthersOn(s, t, Run(t, es), p);
    }
    es := StepFirst(s, p, es);
  }

  /**
   * A remove that runs alone, its lookup included, returns, and the files are then as the sequential
   * lookup and remove leave them: as they were when there is no id file.
   */
  lemma RemoveAgrees(s: State, p: Pid, id: Id) returns (es: seq<Event>)
    requires Reachable(s) && Quiescent(s) && Known(s, id)
    ensures RunsAlone(s, p, OpRemove(id), es)
    ensures forall fs :: RunsAlone(s, p, OpRemove(id), fs) ==>
      Quiescent(Run(s, fs)) && ImageOf(Run(s, fs)) == Removed(ImageOf(s), id)
  {
    hide Inv, Reachable, ImageOf, CanRun, RunsAlone, Removed;
    ReachableInv(s);
    QuiescentLocks(s);
    var op := OpRemove(id);
    EventKeepsInv(s, Begin(p, op));
    var u := BeginStep(s, p, op);
    SameImage(s, u);
    var rest := RemoveEnds(u, p, ImageOf(s), id);
    es := BeginFirst(s, p, op, rest);
    AtRestAgain(u, Run(s, es), p);
    forall fs | RunsAlone(s, p, op, fs) ensures fs == es {
      SameRun(s, p, op, fs, es);
    }
  }

  // ---- by_id ----

  /** What a lookup that runs alone tells: the first line of the id file, or that there is none. */
  ghost predicate Tells(c: Proc, disk: Image, id: Id) {
    && c.Looking? && c.id == id
    && if IdFile(id) in disk then c.kat == CloseLook && c.name == NextLine(disk[IdFile(id)], 0, SEPARATOR).text
       else c.kat == OpenLook
  }

  lemma {:induction false} LookEndsAlone(s: State, p: Pid, disk: Image, id: Id) returns (es: seq<Event>, c: Proc)
    requires Inv(s) && LooksAlone(s, p, disk, id) && !s.procs[p].removing
    ensures ByItself(es, p) && CanRun(s, es) && EndsFrom(s, es, p, c) && Tells(c, disk, id)
    ensures var t := Run(s, es); p !in t.procs && OthersSame(s, t, p) && ImageOf(t) == disk
    decreases Rank(s.procs[p])
  {
    hide Inv, Alone, Respects, Spares, LookStep, Shared, OthersSame, Grows, ImageOf, NextLine, RemovesAlone, ByItself;
    AloneCanStep(s, p);
    var t := OneStep(s, p);
    LookGoesOn(s, p, disk, id);
    LookStage(s, t, p, disk, id);
    es, c := [], s.procs[p];
    NothingRuns(t, p);
    if p in t.procs {
      es, c := LookEndsAlone(t, p, disk, id);
      OthersOn(s, t, Run(t, es), p);
    }
    es := StepFirst(s, p, es);
  }

  /**
   * From any reachable state at rest, a by_id that runs alone returns; whichever steps it makes, it
   * changes no file and tells what the sequential by_id does: the first line of the id file, or
   * that there is no such file.
   */
  lemma LookAgrees(s: State, p: Pid, id: Id) returns (es: seq<Event>, c: Proc)
    requires Reachable(s) && Quiescent(s)
    ensures RunsAlone(s, p, OpLook(id), es)
    ensures forall fs :: RunsAlone(s, p, OpLook(id), fs) ==>
      && Quiescent(Run(s, fs)) && ImageOf(Run(s, fs)) == ImageOf(s)
      && EndsFrom(s, fs, p, c) && Tells(c, ImageOf(s), id)
  {
    hide Inv, Reachable, ImageOf, CanRun, RunsAlone, EndsFrom, Tells;
    ReachableInv(s);
    QuiescentLocks(s);
    var op := OpLook(id);
    EventKeepsInv(s, Begin(p, op));
    var u := BeginStep(s, p, op);
    SameImage(s, u);
    var rest;
    rest, c := LookEndsAlone(u, p, ImageOf(s), id);
    es := BeginFirst(s, p, op, rest);
    AtRestAgain(u, Run(s, es), p);
    forall fs | RunsAlone(s, p, op, fs) ensures fs == es {
      SameRun(s, p, op, fs, es);
    }
  }

  // ---- by_name ----

  /** A by_name at work alone. */
  ghost predicate ListsAlone(s: State, p: Pid, disk: Image, name: Name) {
    && p in s.procs && Alone(s, p) && s.procs[p].Listing? && s.procs[p].name == name
    && ImageOf(s) == disk
    && (s.procs[p].lat != OpenList ==>
          NameFile(name) in s.links && s.links[NameFile(name)] == s.procs[p].ino && NameFile(name) in disk)
  }

  function ListRank(at: ListAt): nat {
    match at
    case OpenList => 4 case LockList => 3 case ReadLines => 2 case CloseList => 1
  }

  function Unlisted(s: State, c: Proc): nat {
    if c.Listing? && c.at < |Content(s, c.ino)| then |Content(s, c.ino)| - c.at else 0
  }

  ghost predicate ListWentOn(s: State, t: State, p: Pid, disk: Image, name: Name)
    requires p in s.procs && s.procs[p].Listing?
  {
    var c := s.procs[p];
    || (p !in t.procs && ImageOf(t) == disk
        && if c.lat == OpenList then NameFile(name) !in disk else c.lat == CloseList)
    || (ListsAlone(t, p, disk, name)
        && (ListRank(t.procs[p].lat) < ListRank(c.lat)
            || (t.procs[p].lat == c.lat == ReadLines && Unlisted(t, t.procs[p]) < Unlisted(s, c))))
  }

  lemma ListFinds(s: State, p: Pid, c: Proc)
    requires c.Listing? && Alone(s, p) && c.lat == OpenList && NameFile(c.name) in s.links
    ensures var t := ListStep(s, p, c);
            && t.bytes == s.bytes && Alone(t, p)
            && p in t.procs && t.procs[p] == c.(lat := LockList, ino := s.links[NameFile(c.name)])
  {
  }

  lemma ListMisses(s: State, p: Pid, c: Proc)
    requires c.Listing? && Alone(s, p) && c.lat == OpenList && NameFile(c.name) !in s.links
    ensures var t := ListStep(s, p, c); t.bytes == s.bytes && Alone(t, p) && p !in t.procs
  {
  }

  lemma ListOpensAlone(s: State, p: Pid, disk: Image, name: Name)
    requires ListsAlone(s, p, disk, name) && s.procs[p].lat == OpenList
    ensures ListWentOn(s, ListStep(s, p, s.procs[p]), p, disk, name)
  {
    hide ImageOf, Alone, ListStep, Unlisted;
    ImageHasLinks(s, NameFile(name));
    if NameFile(name) in s.links {
      ListFinds(s, p, s.procs[p]);
    } else {
      ListMisses(s, p, s.procs[p]);
    }
    SameImage(s, ListStep(s, p, s.procs[p]));
  }

  lemma ListLocksAlone(s: State, p: Pid, disk: Image, name: Name)
    requires ListsAlone(s, p, disk, name) && (s.procs[p].lat == LockList || s.procs[p].lat == CloseList)
    ensures ListWentOn(s, ListStep(s, p, s.procs[p]), p, disk, name)
  {
    SameImage(s, ListStep(s, p, s.procs[p]));
    hide ImageOf;
  }

  lemma ListReadsAlone(s: State, p: Pid, disk: Image, name: Name)
    requires ListsAlone(s, p, disk, name) && s.procs[p].lat == ReadLines
    ensures ListWentOn(s, ListStep(s, p, s.procs[p]), p, disk, name)
  {
    hide ImageOf, NextLine, ListStep, Drain;
    ReadStepIs(s, p, s.procs[p]);
    SameImage(s, ListStep(s, p, s.procs[p]));
  }

  /** What it has when it closes is the whole file, line by line. */
  lemma ListerHasAll(s: State, p: Pid, disk: Image, name: Name)
    requires Inv(s) && ListsAlone(s, p, disk, name) && s.procs[p].lat == CloseList
    ensures s.procs[p].got == Drain(disk[NameFile(name)], 0, SEPARATOR)
  {
    hide Shape, Ids, ListsOk, Quiet, Inodes, Lives, Sound, Complete, Unorphaned, Procs, ImageOf, Drain;
    OwnFacts(s, p);
    var i := s.procs[p].ino;
    LinkedContent(s, NameFile(name));
    assert Reading(s, p, i);
    assert (i, p) in s.readers;
    assert !WriterIs(s, p, i);
    ReadsAsList(s, i);
  }

  /** What a by_name that runs alone tells: the lines of the name file, or that there is none. */
  ghost predicate Lists(c: Proc, disk: Image, name: Name) {
    && c.Listing? && c.name == name
    && if NameFile(name) in disk then c.lat == CloseList && c.got == Drain(disk[NameFile(name)], 0, SEPARATOR)
       else c.lat == OpenList
  }

  lemma ListGoesOn(s: State, p: Pid, disk: Image, name: Name)
    requires ListsAlone(s, p, disk, name)
    ensures ListWentOn(s, ListStep(s, p, s.procs[p]), p, disk, name)
  {
    hide Alone, ListStep, ImageOf;
    match s.procs[p].lat {
      case OpenList => ListOpensAlone(s, p, disk, name);
      case LockList => ListLocksAlone(s, p, disk, name);
      case ReadLines => ListReadsAlone(s, p, disk, name);
      case CloseList => ListLocksAlone(s, p, disk, name);
    }
  }

  lemma ListStage(s: State, u: State, p: Pid, disk: Image, name: Name)
    requires ListsAlone(s, p, disk, name) && ListWentOn(s, u, p, disk, name)
    ensures p !in u.procs ==>
      ImageOf(u) == disk && s.procs[p].lat == if NameFile(name) in disk then CloseList else OpenList
    ensures p in u.procs ==>
      && ListsAlone(u, p, disk, name)
      && (ListRank(u.procs[p].lat) < ListRank(s.procs[p].lat)
          || (u.procs[p].lat == s.procs[p].lat && Unlisted(u, u.procs[p]) < Unlisted(s, s.procs[p])))
  {
    hide ImageOf, Alone, Unlisted;
  }

  lemma {:induction false} ListEndsAlone(s: State, p: Pid, disk: Image, name: Name) returns (es: seq<Event>, c: Proc)
    requires Inv(s) && ListsAlone(s, p, disk, name)
    ensures ByItself(es, p) && CanRun(s, es) && EndsFrom(s, es, p, c) && Lists(c, disk, name)
    ensures var t := Run(s, es); p !in t.procs && OthersSame(s, t, p) && ImageOf(t) == disk
    decreases ListRank(s.procs[p].lat), Unlisted(s, s.procs[p])
  {
    hide Inv, Alone, Respects, Spares, ListStep, Shared, OthersSame, Grows, ImageOf, Drain, Unlisted, ByItself;
    AloneCanStep(s, p);
    var t := OneStep(s, p);
    ListGoesOn(s, p, disk, name);
    ListStage(s, t, p, disk, name);
    es, c := [], s.procs[p];
    NothingRuns(t, p);
    if p in t.procs {
      es, c := ListEndsAlone(t, p, disk, name);
      OthersOn(s, t, Run(t, es), p);
    } else if c.lat == CloseList {
      ListerHasAll(s, p, disk, name);
    }
    es := StepFirst(s, p, es);
  }

  /**
   * From any reachable state at rest, a by_name that runs alone returns; whichever steps it makes, it
   * changes no file and tells what the sequential by_name does: the lines of the name file, or
   * that there is no such file.
   */
  lemma ListAgrees(s: State, p: Pid, name: Name) returns (es: seq<Event>, c: Proc)
    requires Reachable(s) && Quiescent(s)
    ensures RunsAlone(s, p, OpList(name), es)
    ensures forall fs :: RunsAlone(s, p, OpList(name), fs) ==>
      && Quiescent(Run(s, fs)) && ImageOf(Run(s, fs)) == ImageOf(s)
      && EndsFrom(s, fs, p, c) && Lists(c, ImageOf(s), name)
  {
    hide Inv, Reachable, ImageOf, CanRun, RunsAlone, EndsFrom, Lists;
    ReachableInv(s);
    QuiescentLocks(s);
    var op := OpList(name);
    EventKeepsInv(s, Begin(p, op));
    var u := BeginStep(s, p, op);
    SameImage(s, u);
    var rest;
    rest, c := ListEndsAlone(u, p, ImageOf(s), name);
    es := BeginFirst(s, p, op, rest);
    AtRestAgain(u, Run(s, es), p);
    forall fs | RunsAlone(s, p, op, fs) ensures fs == es {
      SameRun(s, p, op, fs, es);
    }
  }

  // ---- the write of a stored object's data ----

  lemma FillOpens(s: State, p: Pid, id: Id, data: Octets)
    requires p in s.procs && s.procs[p] == Filling(OpenFill, id, 0, data) && DataFile(id) in s.links
    ensures var t := FillStep(s, p, s.procs[p]);
            && t.links == s.links && t.bytes == s.bytes && OthersSame(s, t, p)
            && p in t.procs && t.procs[p] == Filling(WriteFill, id, s.links[DataFile(id)], data)
  {
  }

  lemma FillWrites(s: State, p: Pid, id: Id, data: Octets, i: Ino)
    requires p in s.procs && s.procs[p] == Filling(WriteFill, id, i, data)
    ensures var t := FillStep(s, p, s.procs[p]);
            && t.links == s.links && t.bytes == Store(s, i, WriteAt(Content(s, i), 0, data)).bytes
            && OthersSame(s, t, p) && p !in t.procs
  {
    hide WriteAt, Content;
  }

  lemma FillMisses(s: State, p: Pid, id: Id, data: Octets)
    requires p in s.procs && s.procs[p] == Filling(OpenFill, id, 0, data) && DataFile(id) !in s.links
    ensures var t := FillStep(s, p, s.procs[p]);
            t.links == s.links && t.bytes == s.bytes && OthersSame(s, t, p) && p !in t.procs
  {
  }

  /** The files after the data of a stored object are written: the old ones when it has no data file. */
  ghost function Filled(disk: Image, id: Id, data: Octets): Image {
    if DataFile(id) in disk then disk[DataFile(id) := WriteAt(disk[DataFile(id)], 0, data)] else disk
  }

  lemma FillEnds(s: State, p: Pid, id: Id, data: Octets) returns (es: seq<Event>)
    requires Inv(s) && p in s.procs && s.procs[p] == Filling(OpenFill, id, 0, data)
    ensures ByItself(es, p) && CanRun(s, es)
    ensures var t := Run(s, es); p !in t.procs && OthersSame(s, t, p) && ImageOf(t) == Filled(ImageOf(s), id, data)
  {
    hide Inv, Respects, Spares, Shared, Grows, WriteAt, FillStep, Content, ImageOf, ByItself;
    ImageHasLinks(s, DataFile(id));
    var t := OneStep(s, p);
    es := [];
    if DataFile(id) in s.links {
      LinkedContent(s, DataFile(id));
      FillOpens(s, p, id, data);
      SameImage(s, t);
      LinkedContent(t, DataFile(id));
      FillWrites(t, p, id, data, t.links[DataFile(id)]);
      var v := OneStep(t, p);
      NothingRuns(v, p);
      FilledImage(t, v, DataFile(id), WriteAt(Content(t, t.links[DataFile(id)]), 0, data));
      es := StepFirst(t, p, es);
      OthersOn(s, t, v, p);
    } else {
      FillMisses(s, p, id, data);
      SameImage(s, t);
      NothingRuns(t, p);
    }
    es := StepFirst(s, p, es);
  }

  /** The write of a stored object's data, alone, does what the sequential one does. */
  lemma FillAgrees(s: State, p: Pid, id: Id, data: Octets) returns (es: seq<Event>)
    requires Reachable(s) && Quiescent(s) && id in s.created
    ensures RunsAlone(s, p, OpFill(id, data), es)
    ensures forall fs :: RunsAlone(s, p, OpFill(id, data), fs) ==>
      Quiescent(Run(s, fs)) && ImageOf(Run(s, fs)) == Filled(ImageOf(s), id, data)
  {
    hide Inv, Reachable, ImageOf, CanRun, RunsAlone, Filled;
    ReachableInv(s);
    var op := OpFill(id, data);
    EventKeepsInv(s, Begin(p, op));
    var u := BeginStep(s, p, op);
    SameImage(s, u);
    var rest := FillEnds(u, p, id, data);
    es := BeginFirst(s, p, op, rest);
    AtRestAgain(u, Run(s, es), p);
    forall fs | RunsAlone(s, p, op, fs) ensures fs == es {
      SameRun(s, p, op, fs, es);
    }
  }

  lemma FilledImage(v: State, t: State, path: Path, content: Octets)
    requires Inv(v) && path in v.links
    requires t.links == v.links && t.bytes == Store(v, v.links[path], content).bytes
    ensures ImageOf(t) == ImageOf(v)[path := content]
  {
    hide Inv, ImageOf;
    InvHasShape(v);
    StoredImage(v, path, content);
    SameImage(Store(v, v.links[path], content), t);
  }

  lemma InvHasShape(s: State)
    requires Inv(s)
    ensures Shape(s)
  {
  }
}
