/**
 * The volume under any number of client processes. Every child of the server is a
 * process whose operations proceed one system call at a time, interleaved freely;
 * only the advisory locks on inodes make one process wait for another.
 */
module Processes {
  import opened Bytes
  import opened Lines
  import opened Paths

  type Pid = nat
  type Ino = nat
  type Id = Octets
  type Name = Octets

  // ---- where each operation stands: the system call it makes next ----

  datatype CreateAt =
    OpenName | LockName | OpenId | LockId | PutId | PutSep | CloseName | PutName | PutEnd | OpenData | Return
  datatype ListAt = OpenList | LockList | ReadLines | CloseList
  datatype LookAt = OpenLook | LockLook | ReadName | CloseLook
  datatype RemoveAt =
    UnlinkId | UnlinkData | ReopenName | RelockName | Collect | Truncate | RewriteId | RewriteSep | UnlinkName | Done
  datatype FillAt = OpenFill | WriteFill

  datatype Proc =
    | Creating(cat: CreateAt, id: Id, name: Name, ino: Ino, idIno: Ino)
    | Listing(lat: ListAt, name: Name, ino: Ino, at: nat, got: seq<Id>, granted: seq<Id>)
    | Looking(kat: LookAt, id: Id, name: Name, ino: Ino, removing: bool)
    | Removing(rat: RemoveAt, id: Id, name: Name, ino: Ino, pos: nat, ids: seq<Id>)
    | Filling(fat: FillAt, id: Id, ino: Ino, data: Octets)

  /**
   * The file system, the lock tables and the processes in flight. The last six
   * fields are history: they record what happened and no step looks at them.
   */
  datatype State = State(
    bytes: map<Ino, Octets>,        // content of every inode ever allocated
    links: map<Path, Ino>,          // the directories
    next: Ino,                      // inodes from here on are unallocated
    writer: map<Ino, Pid>,          // exclusive locks
    readers: set<(Ino, Pid)>,       // shared locks
    procs: map<Pid, Proc>,          // operations in flight
    home: map<Ino, Path>,           // path under which an inode was allocated
    lists: map<Ino, seq<Id>>,       // the id list a name inode stands for
    used: map<Id, Pid>,             // who creates, or created, an id
    born: map<Id, Ino>,             // the name inode that create opened for an id
    created: set<Id>,               // ids whose create has returned
    doomed: map<Id, Pid>,           // ids whose id file was unlinked, and the last to do so
    emptied: set<Name>)             // names some remove found empty and unlinked

  const Init := State(map[], map[], 0, map[], {}, map[], map[], map[], map[], map[], {}, map[], {})

  function Content(s: State, i: Ino): Octets {
    if i in s.bytes then s.bytes[i] else []
  }

  function ListOf(s: State, i: Ino): seq<Id> {
    if i in s.lists then s.lists[i] else []
  }

  predicate WriteFree(s: State, i: Ino) {
    i !in s.writer && forall r :: r in s.readers ==> r.0 != i
  }

  predicate ReadFree(s: State, i: Ino) {
    i !in s.writer
  }

  // ---- single effects ----

  function Goto(s: State, p: Pid, q: Proc): State {
    s.(procs := s.procs[p := q])
  }

  function Finish(s: State, p: Pid): State {
    s.(procs := s.procs - {p})
  }

  function Store(s: State, i: Ino, content: Octets): State {
    s.(bytes := s.bytes[i := content])
  }

  /** open with O_CREAT of a path that does not exist. */
  function Allocate(s: State, path: Path): State {
    s.(bytes := s.bytes[s.next := []],
       links := s.links[path := s.next],
       home := s.home[s.next := path],
       lists := if path.NameFile? then s.lists[s.next := []] else s.lists,
       next := s.next + 1)
  }

  function Unlink(s: State, path: Path): State {
    s.(links := s.links - {path})
  }

  /** open with O_CREAT | O_TRUNC. */
  function OpenFresh(s: State, path: Path): State {
    if path in s.links then Store(s, s.links[path], []) else Allocate(s, path)
  }

  // ---- one system call of each operation ----

  function CreateStep(s: State, p: Pid, c: Proc): State
    requires c.Creating?
  {
    match c.cat
    case OpenName =>
      var path := NameFile(c.name);
      var t := if path in s.links then s else Allocate(s, path);
      Goto(t.(born := t.born[c.id := t.links[path]]), p, c.(cat := LockName, ino := t.links[path]))
    case LockName =>
      Goto(s.(writer := s.writer[c.ino := p]), p, c.(cat := OpenId))
    case OpenId =>
      var t := OpenFresh(s, IdFile(c.id));
      Goto(t, p, c.(cat := LockId, idIno := t.links[IdFile(c.id)]))
    case LockId =>
      Goto(s.(writer := s.writer[c.idIno := p]), p, c.(cat := PutId))
    case PutId =>
      Goto(Store(s, c.ino, Content(s, c.ino) + c.id), p, c.(cat := PutSep))
    case PutSep =>
      var t := Store(s, c.ino, Content(s, c.ino) + [SEPARATOR]);
      Goto(t.(lists := t.lists[c.ino := ListOf(s, c.ino) + [c.id]]), p, c.(cat := CloseName))
    case CloseName =>
      Goto(s.(writer := s.writer - {c.ino}), p, c.(cat := PutName))
    case PutName =>
      Goto(Store(s, c.idIno, WriteAt(Content(s, c.idIno), 0, c.name)), p, c.(cat := PutEnd))
    case PutEnd =>
      Goto(Store(s, c.idIno, WriteAt(Content(s, c.idIno), |c.name|, [SEPARATOR])), p, c.(cat := OpenData))
    case OpenData =>
      Goto(OpenFresh(s, DataFile(c.id)), p, c.(cat := Return))
    case Return =>
      Finish(s.(writer := s.writer - {c.idIno}, created := s.created + {c.id}), p)
  }

  function ListStep(s: State, p: Pid, c: Proc): (t: State)
    requires c.Listing?
    ensures t.links == s.links && t.born == s.born
  {
    match c.lat
    case OpenList =>
      var path := NameFile(c.name);
      if path in s.links then Goto(s, p, c.(lat := LockList, ino := s.links[path])) else Finish(s, p)
    case LockList =>
      Goto(s.(readers := s.readers + {(c.ino, p)}), p,
           c.(lat := ReadLines, at := 0, got := [], granted := ListOf(s, c.ino)))
    case ReadLines =>
      var l := NextLine(Content(s, c.ino), c.at, SEPARATOR);
      if l.got then Goto(s, p, c.(at := l.next, got := c.got + [l.text])) else Goto(s, p, c.(lat := CloseList))
    case CloseList =>
      Finish(s.(readers := s.readers - {(c.ino, p)}), p)
  }

  function LookStep(s: State, p: Pid, c: Proc): (t: State)
    requires c.Looking?
    ensures t.links == s.links && t.born == s.born
  {
    match c.kat
    case OpenLook =>
      var path := IdFile(c.id);
      if path in s.links then Goto(s, p, c.(kat := LockLook, ino := s.links[path])) else Finish(s, p)
    case LockLook =>
      Goto(s.(readers := s.readers + {(c.ino, p)}), p, c.(kat := ReadName))
    case ReadName =>
      Goto(s, p, c.(kat := CloseLook, name := NextLine(Content(s, c.ino), 0, SEPARATOR).text))
    case CloseLook =>
      var t := s.(readers := s.readers - {(c.ino, p)});
      if c.removing then Goto(t, p, Removing(UnlinkId, c.id, c.name, 0, 0, [])) else Finish(t, p)
  }

  function RemoveStep(s: State, p: Pid, c: Proc): (t: State)
    requires c.Removing?
    ensures t.born == s.born
    ensures c.rat != UnlinkId && c.rat != UnlinkData && c.rat != UnlinkName ==> t.links == s.links
  {
    match c.rat
    case UnlinkId =>
      var t := Unlink(s, IdFile(c.id));
      Goto(t.(doomed := t.doomed[c.id := p]), p, c.(rat := UnlinkData))
    case UnlinkData =>
      Goto(Unlink(s, DataFile(c.id)), p, c.(rat := ReopenName))
    case ReopenName =>
      var path := NameFile(c.name);
      if path in s.links then Goto(s, p, c.(rat := RelockName, ino := s.links[path])) else Finish(s, p)
    case RelockName =>
      Goto(s.(writer := s.writer[c.ino := p]), p, c.(rat := Collect, pos := 0, ids := []))
    case Collect =>
      var l := NextLine(Content(s, c.ino), c.pos, SEPARATOR);
      if l.got then Goto(s, p, c.(pos := l.next, ids := c.ids + [l.text])) else Goto(s, p, c.(rat := Truncate))
    case Truncate =>
      var keep := Without(c.ids, c.id);
      var t := Store(s, c.ino, []);
      Goto(t.(lists := t.lists[c.ino := Without(ListOf(s, c.ino), c.id)]), p,
           c.(rat := if keep == [] then UnlinkName else RewriteId, pos := 0, ids := keep))
    case RewriteId =>
      var fid := if c.ids == [] then [] else c.ids[0];
      Goto(Store(s, c.ino, WriteAt(Content(s, c.ino), c.pos, fid)), p, c.(rat := RewriteSep, pos := c.pos + |fid|))
    case RewriteSep =>
      var rest := if c.ids == [] then [] else c.ids[1..];
      Goto(Store(s, c.ino, WriteAt(Content(s, c.ino), c.pos, [SEPARATOR])), p,
           c.(rat := if rest == [] then Done else RewriteId, pos := c.pos + 1, ids := rest))
    case UnlinkName =>
      var t := Unlink(s, NameFile(c.name));
      Goto(t.(emptied := t.emptied + {c.name}), p, c.(rat := Done))
    case Done =>
      Finish(s.(writer := s.writer - {c.ino}), p)
  }

  function FillStep(s: State, p: Pid, c: Proc): (t: State)
    requires c.Filling?
    ensures t.links == s.links && t.born == s.born
  {
    match c.fat
    case OpenFill =>
      var path := DataFile(c.id);
      if path in s.links then Goto(s, p, c.(fat := WriteFill, ino := s.links[path])) else Finish(s, p)
    case WriteFill =>
      Finish(Store(s, c.ino, WriteAt(Content(s, c.ino), 0, c.data)), p)
  }

  // ---- events and runs ----

  datatype Op =
    | OpCreate(name: Name, id: Id)
    | OpList(name: Name)
    | OpLook(id: Id)
    | OpRemove(id: Id)
    | OpFill(id: Id, data: Octets)

  /** A process starts an operation, or the one it is in makes its next system call. */
  datatype Event = Begin(p: Pid, op: Op) | Continue(p: Pid)

  /** A LIST can have shown the id, or its create has told it to a client. */
  ghost predicate Known(s: State, id: Id) {
    id in s.created || exists i: Ino :: i in s.lists && id in s.lists[i]
  }

  /**
   * Ids are fresh. An id can be removed as soon as a list holds it, before its create has returned;
   * the data are written by whoever created it, and so after that.
   */
  ghost predicate MayBegin(s: State, p: Pid, op: Op) {
    && p !in s.procs
    && match op
       case OpCreate(name, id) => id !in s.used && IsName(id) && IsName(name)
       case OpList(_) => true
       case OpLook(_) => true
       case OpRemove(id) => Known(s, id)
       case OpFill(id, _) => id in s.created
  }

  function BeginStep(s: State, p: Pid, op: Op): State {
    match op
    case OpCreate(name, id) =>
      Goto(s.(used := s.used[id := p]), p, Creating(OpenName, id, name, 0, 0))
    case OpList(name) => Goto(s, p, Listing(OpenList, name, 0, 0, [], []))
    case OpLook(id) => Goto(s, p, Looking(OpenLook, id, [], 0, false))
    case OpRemove(id) => Goto(s, p, Looking(OpenLook, id, [], 0, true))
    case OpFill(id, data) => Goto(s, p, Filling(OpenFill, id, 0, data))
  }

  /** A process in flight can take its next step unless it waits for a lock. */
  predicate CanStep(s: State, p: Pid)
    requires p in s.procs
  {
    var c := s.procs[p];
    match c
    case Creating(at, _, _, _, _) =>
      (at == LockName ==> WriteFree(s, c.ino)) && (at == LockId ==> WriteFree(s, c.idIno))
    case Listing(at, _, _, _, _, _) => at == LockList ==> ReadFree(s, c.ino)
    case Looking(at, _, _, _, _) => at == LockLook ==> ReadFree(s, c.ino)
    case Removing(at, _, _, _, _, _) => at == RelockName ==> WriteFree(s, c.ino)
    case Filling(_, _, _, _) => true
  }

  function ProcStep(s: State, p: Pid): State
    requires p in s.procs
  {
    var c := s.procs[p];
    match c
    case Creating(_, _, _, _, _) => CreateStep(s, p, c)
    case Listing(_, _, _, _, _, _) => ListStep(s, p, c)
    case Looking(_, _, _, _, _) => LookStep(s, p, c)
    case Removing(_, _, _, _, _, _) => RemoveStep(s, p, c)
    case Filling(_, _, _, _) => FillStep(s, p, c)
  }

  ghost predicate Enabled(s: State, e: Event) {
    match e
    case Begin(p, op) => MayBegin(s, p, op)
    case Continue(p) => p in s.procs && CanStep(s, p)
  }

  ghost function Apply(s: State, e: Event): State
    requires Enabled(s, e)
  {
    match e
    case Begin(p, op) => BeginStep(s, p, op)
    case Continue(p) => ProcStep(s, p)
  }

  /** The events happen one after the other, each enabled when its turn comes. */
  ghost predicate CanRun(s: State, es: seq<Event>)
    decreases |es|
  {
    es == [] || (Enabled(s, es[0]) && CanRun(Apply(s, es[0]), es[1..]))
  }

  ghost function Run(s: State, es: seq<Event>): State
    requires CanRun(s, es)
    decreases |es|
  {
    if es == [] then s else Run(Apply(s, es[0]), es[1..])
  }

  ghost predicate Reachable(s: State) {
    exists es :: CanRun(Init, es) && Run(Init, es) == s
  }
}
