/** The command handlers, against the meaning of requests. */
module Handlers {
  import opened Bytes
  import opened Paths
  import opened Posix
  import opened Storage
  import opened Connections
  import opened Volume
  import opened Endian
  import P = Protocol
  import Uid
  import opened Messages
  import opened Requests
  import Catalog

  const HANDLER_SUCCESS := 0
  const HANDLER_ERROR := 1
  const HANDLER_NO_SEND_RES := 2

  /** get_type on a fresh string, and the check that it is not empty. */
  method TakeArgument(req: Cursor, res: Out, empty: Octets) returns (ok: bool, text: Octets)
    requires P.Checkable(P.Default(P.String), req.buf, req.at) && req.at == 0
    modifies req, res
    ensures var p := Argument(req.buf, empty);
            && ok == p.Accepted?
            && (ok ==> text == p.text && req.at == p.at && res.bytes == old(res.bytes))
            && (!ok ==> res.bytes == old(res.bytes) + ErrorFrame(p.msg))
  {
    hide P.Check, ErrorFrame;
    var param := new P.Data(P.Default(P.String));
    var err := P.GetType(req, param);
    if err.Fails() {
      Complain(err.msg, res);
      return false, [];
    }
    if param.text == [] {
      Complain(empty, res);
      return false, [];
    }
    ok, text := true, param.text;
  }

  method Del(vol: VolumeType, req: Cursor, res: Out) returns (code: int)
    requires vol.Valid() && req.at == 0 && InBounds(DEL, req.buf) && Legal(DEL, req.buf)
    modifies vol, vol.k, req, res
    ensures vol.Valid() && vol.k.fds == old(vol.k.fds)
    ensures code != HANDLER_NO_SEND_RES && vol.store == Effect(old(vol.store), DEL, req.buf, [])
    ensures res.bytes == old(res.bytes) + DelReply(old(vol.store), req.buf)
  {
    hide Catalog.Valid, Catalog.Matches, Catalog.Remove, Kernel.Valid, Linkage, ErrorFrame, P.Encode, Argument, Legal;
    var ok, fid := TakeArgument(req, res, EXPECTED_ID);
    if !ok {
      return HANDLER_ERROR;
    }
    var r := vol.Remove(fid);
    if r.Err? {
      Complain(Strerror(r.Errno()), res);
      return HANDLER_ERROR;
    }
    var head := new P.Data(P.HeaderOf(P.SUCCESS, 0));
    head.To(res);
    code := HANDLER_SUCCESS;
  }

  method Put(vol: VolumeType, g: Uid.Generator, req: Cursor, res: Out) returns (code: int)
    requires vol.Valid() && req.at == 0 && InBounds(PUT, req.buf) && Legal(PUT, req.buf)
    requires Stores(PUT, req.buf) ==> g.Next() !in vol.store.objs
    modifies vol, vol.k, g, req, res
    ensures vol.Valid() && vol.k.fds == old(vol.k.fds)
    ensures code != HANDLER_NO_SEND_RES && vol.store == Effect(old(vol.store), PUT, req.buf, old(g.Next()))
    ensures g.drawn == if Stores(PUT, req.buf) then old(g.drawn) + 1 else old(g.drawn)
    ensures |old(g.Next())| <= 255 && res.bytes == old(res.bytes) + PutReply(req.buf, old(g.Next()))
  {
    hide Catalog.Valid, Catalog.Matches, Catalog.Put, Kernel.Valid, Linkage, ErrorFrame, P.Encode, Argument, IsName;
    hide PutArguments, PutReadable;
    NameIsShort(g.Next());
    PutReadableArgument(req.buf);
    var ok, fname := TakeArgument(req, res, EXPECTED_NAME);
    if !ok {
      return HANDLER_ERROR;
    }
    var fdata;
    ok, fdata := TakeData(req, res);
    if !ok {
      return HANDLER_ERROR;
    }
    var r := vol.Store(g, fname, fdata);
    code := AnswerPut(res, r);
  }

  lemma PutReadableArgument(body: Octets)
    requires PutReadable(body)
    ensures P.Checkable(P.Default(P.String), body, 0)
    ensures var p := Argument(body, EXPECTED_NAME);
            if p.Rejected? then PutArguments(body) == PutRejected(p.msg)
            else PutArguments(body).PutAccepted? ==> PutArguments(body).name == p.text
  {
    hide P.Check, P.Checkable;
  }

  /** The big data behind the name: its heading, its magic octet, and then its octets. */
  method TakeData(req: Cursor, res: Out) returns (ok: bool, data: Octets)
    requires PutReadable(req.buf) && Argument(req.buf, EXPECTED_NAME).Accepted?
    requires req.at == Argument(req.buf, EXPECTED_NAME).at
    modifies req, res
    ensures var p := PutArguments(req.buf);
            && ok == p.PutAccepted?
            && (ok ==> data == p.data && res.bytes == old(res.bytes))
            && (!ok ==> res.bytes == old(res.bytes) + ErrorFrame(p.msg))
  {
    hide ErrorFrame, P.Encode, Argument, P.Check;
    var fdata := new P.Data(P.Default(P.Bigdata));
    var err := P.GetType(req, fdata);
    if err.Fails() {
      Complain(err.msg, res);
      return false, [];
    }
    if req.buf[req.at + fdata.length] != P.MAGIC {
      Complain(P.BAD_FORMAT, res);
      return false, [];
    }
    ok, data := true, req.buf[req.at..req.at + fdata.length];
  }

  lemma NameIsShort(name: Octets)
    requires IsName(name)
    ensures |name| <= 255
  {
  }

  /** The id that was stored under, assigned to a default string, or why nothing was stored. */
  method AnswerPut(res: Out, r: Result<Octets>) returns (code: int)
    requires r.Ok? ==> |r.value| <= 255
    modifies res
    ensures code == if r.Ok? then HANDLER_SUCCESS else HANDLER_ERROR
    ensures res.bytes == old(res.bytes) + match r
            case Ok(id) => P.Encode(P.HeaderOf(P.SUCCESS, P.HEADER_SIZE + |id|)) + P.Encode(P.StringOf(id))
            case Err(errno) => ErrorFrame(Strerror(errno))
  {
    hide P.Encode, ErrorFrame;
    if r.Err? {
      Complain(Strerror(r.errno), res);
      return HANDLER_ERROR;
    }
    ghost var was := res.bytes;
    var fid := new P.Data(P.Default(P.String));
    fid.AssignString(r.value);
    var head := new P.Data(P.HeaderOf(P.SUCCESS, P.HEADER_SIZE + fid.length));
    head.To(res);
    fid.To(res);
    assert was + P.Encode(head.Now()) + P.Encode(fid.Now()) == was + (P.Encode(head.Now()) + P.Encode(fid.Now()));
    code := HANDLER_SUCCESS;
  }

  /** A header for what is in `tmp`, and then that. */
  method SendSuccess(res: Out, tmp: Out)
    requires res != tmp
    modifies res
    ensures res.bytes == old(res.bytes) + Success(tmp.bytes)
  {
    hide P.Encode;
    ghost var was := res.bytes;
    var head := new P.Data(P.HeaderOf(P.SUCCESS, Wrapped32(|tmp.bytes|)));
    head.To(res);
    res.Write(tmp.bytes);
    assert was + P.Encode(head.Now()) + tmp.bytes == was + (P.Encode(head.Now()) + tmp.bytes);
  }

  method Desc(vol: VolumeType, req: Cursor, res: Out) returns (code: int)
    requires vol.Valid() && req.at == 0 && InBounds(DESC, req.buf) && Legal(DESC, req.buf)
    modifies vol.k, req, res
    ensures vol.Valid() && vol.k.fds == old(vol.k.fds)
    ensures code != HANDLER_NO_SEND_RES
    ensures res.bytes == old(res.bytes) + DescReply(vol.store, req.buf)
  {
    hide Catalog.Valid, Catalog.Matches, Kernel.Valid, Linkage, ErrorFrame, P.Encode, Argument, Legal, CString;
    var ok, fid := TakeArgument(req, res, EXPECTED_ID);
    if !ok {
      return HANDLER_ERROR;
    }
    var fobj := vol.GetId(fid);
    if fobj.Err? {
      Complain(Strerror(fobj.Errno()), res);
      return HANDLER_ERROR;
    }
    var mdata := vol.Details(fobj.value);
    var again := fobj;
    if mdata.Ok? {
      again := vol.GetId(fid);
    }
    DescribedIsShort(vol.store, fid);
    code := AnswerDesc(res, mdata, again);
  }

  /** The name and the size, or why they could not be found. */
  method AnswerDesc(res: Out, mdata: Result<nat>, again: Result<Object>) returns (code: int)
    requires again.Ok? ==> |again.value.name| <= 255
    modifies res
    ensures code == if mdata.Ok? && again.Ok? then HANDLER_SUCCESS else HANDLER_ERROR
    ensures res.bytes == old(res.bytes) +
      if mdata.Err? then ErrorFrame(Strerror(mdata.errno))
      else if again.Err? then ErrorFrame(Strerror(again.errno))
      else Success(P.Encode(CStringOf(again.value.name)) + P.Encode(P.IntegerOf(Wrapped32(mdata.value))))
  {
    hide ErrorFrame, P.Encode, CString;
    if mdata.Err? {
      Complain(Strerror(mdata.errno), res);
      return HANDLER_ERROR;
    }
    if again.Err? {
      Complain(Strerror(again.errno), res);
      return HANDLER_ERROR;
    }
    var tmp := new Out(res.host);
    var fname := new P.Data(P.StringOf(CString(again.value.name)));
    fname.To(tmp);
    var fsize := new P.Data(P.IntegerOf(Wrapped32(mdata.value)));
    fsize.To(tmp);
    SendSuccess(res, tmp);
    code := HANDLER_SUCCESS;
  }

  lemma DescribedIsShort(st: Catalog.Store, id: Octets)
    requires Catalog.Valid(st) && id in st.objs
    ensures |st.objs[id].name| <= 255
  {
  }

  lemma {:induction false} EncodeStringsAppends(ids: seq<Octets>, n: nat)
    requires n < |ids| && AllShort(ids)
    ensures EncodeStrings(ids[..n + 1]) == EncodeStrings(ids[..n]) + P.Encode(CStringOf(ids[n]))
    decreases n
  {
    hide P.Encode;
    if n == 0 {
      assert ids[..1][1..] == [];
    } else {
      EncodeStringsAppends(ids[1..], n - 1);
      assert ids[..n + 1][1..] == ids[1..][..n] && ids[..n][1..] == ids[1..][..n - 1];
    }
  }

  method List(vol: VolumeType, req: Cursor, res: Out) returns (code: int)
    requires vol.Valid() && req.at == 0 && InBounds(LIST, req.buf) && Legal(LIST, req.buf)
    modifies vol.k, req, res
    ensures vol.Valid() && vol.k.fds == old(vol.k.fds)
    ensures code != HANDLER_NO_SEND_RES
    ensures res.bytes == old(res.bytes) + ListReply(vol.store, req.buf)
  {
    hide Catalog.Valid, Catalog.Matches, Kernel.Valid, Linkage, ErrorFrame, P.Encode, Argument, Legal, CString;
    var ok, fname := TakeArgument(req, res, EXPECTED_NAME);
    if !ok {
      return HANDLER_ERROR;
    }
    var tmp := new Out(res.host);
    var r := vol.GetName(fname);
    if r.Err? {
      Complain(Strerror(r.Errno()), res);
      return HANDLER_ERROR;
    }
    ListedAreShort(vol.store, fname);
    PrintList(tmp, r.value);
    SendSuccess(res, tmp);
    code := HANDLER_SUCCESS;
  }

  /** The count, then every id. */
  method PrintList(tmp: Out, ids: seq<Octets>)
    requires tmp.bytes == [] && AllShort(ids)
    modifies tmp
    ensures tmp.bytes == ListBody(ids)
  {
    hide P.Encode;
    var num := new P.Data(P.SmallintOf(|ids| % 0x1_0000));
    num.To(tmp);
    ghost var count := tmp.bytes;
    for n := 0 to |ids|
      invariant tmp.bytes == count + EncodeStrings(ids[..n])
    {
      EncodeStringsAppends(ids, n);
      var fid := new P.Data(P.StringOf(CString(ids[n])));
      fid.To(tmp);
    }
    assert ids[..|ids|] == ids;
  }

  /** How a GET sends a file: header, big data header, content and magic, straight to the stream. */
  method SendFile(stream: Stream, host: Host, content: Octets)
    requires stream.open && Wrapped32(|content|) != 0
    modifies stream`output
    ensures stream.output == old(stream.output) + FileReply(content)
  {
    hide P.Encode, ErrorFrame;
    ghost var was := stream.output;
    var size: u32 := Wrapped32(|content|);
    var tmp := new Out(host);
    var head := new P.Data(P.HeaderOf(P.SUCCESS, Wrapped32(P.HEADER_SIZE + size)));
    head.To(tmp);
    var fdata := new P.Data(P.BigdataOf(size));
    fdata.To(tmp);
    stream.Write(tmp.bytes);
    stream.Write(content[..size]);
    stream.Write([P.MAGIC]);
    Regroup(was, P.Encode(head.Now()), P.Encode(fdata.Now()), content[..size], [P.MAGIC]);
  }

  lemma Regroup(a: Octets, b: Octets, c: Octets, d: Octets, e: Octets)
    ensures a + (b + c) + d + e == a + (b + c + d + e)
  {
  }

  /** The descriptor a GET opens and, when nothing can be mapped, never closes. */
  ghost predicate Leaked(was: map<int, Desc>, now: map<int, Desc>) {
    exists fd :: LowestFree(was, fd) && fd in now && now == was[fd := now[fd]]
  }

  /** Open the data file, map as many octets as its size says, send them, unmap, close. */
  method AnswerGet(k: Kernel, obj: Object, mdata: Result<nat>, res: Out, stream: Stream) returns (code: int)
    requires Idle(k) && stream.open
    requires mdata.Ok? && DataFile(obj.id) in k.Disk() ==> mdata.value == |k.Disk()[DataFile(obj.id)]|
    modifies k, res, stream`output
    ensures Idle(k) && k.Disk() == old(k.Disk())
    ensures code == HANDLER_ERROR || code == HANDLER_NO_SEND_RES
    ensures mdata.Err? ==>
      && code == HANDLER_ERROR && k.fds == old(k.fds)
      && res.bytes == old(res.bytes) + ErrorFrame(Strerror(mdata.errno)) && stream.output == old(stream.output)
    ensures mdata.Ok? && DataFile(obj.id) !in old(k.Disk()) ==>
      && code == HANDLER_ERROR && k.fds == old(k.fds)
      && res.bytes == old(res.bytes) + ErrorFrame(Strerror(ENOENT)) && stream.output == old(stream.output)
    ensures mdata.Ok? && DataFile(obj.id) in old(k.Disk()) ==>
      var reply := FileReply(old(k.Disk())[DataFile(obj.id)]);
      if Wrapped32(mdata.value) == 0 then
        && code == HANDLER_ERROR && Leaked(old(k.fds), k.fds)
        && res.bytes == old(res.bytes) + reply && stream.output == old(stream.output)
      else
        && code == HANDLER_NO_SEND_RES && k.fds == old(k.fds)
        && res.bytes == old(res.bytes) && stream.output == old(stream.output) + reply
  {
    hide Linkage, ImageOf, LowestFree, FileReply, ErrorFrame;
    if mdata.Err? {
      Complain(Strerror(mdata.errno), res);
      return HANDLER_ERROR;
    }
    var size := Wrapped32(mdata.value);
    var fd, errno := k.Open(DataFile(obj.id), RDONLY);
    if errno != 0 {
      Complain(Strerror(errno), res);
      return HANDLER_ERROR;
    }
    StoredContent(k.bytes, k.links, DataFile(obj.id));
    var content := k.bytes[k.fds[fd].ino];
    if size == 0 {
      NothingToMap(content);
      Complain(Strerror(EINVAL), res);
      return HANDLER_ERROR;
    }
    SendFile(stream, res.host, content);
    ClosedAgain(old(k.fds), fd, k.fds[fd]);
    errno := k.Close(fd);
    code := HANDLER_NO_SEND_RES;
  }

  lemma NothingToMap(content: Octets)
    requires Wrapped32(|content|) == 0
    ensures FileReply(content) == ErrorFrame(Strerror(EINVAL))
  {
  }

  method Get(vol: VolumeType, req: Cursor, res: Out, stream: Stream) returns (code: int)
    requires vol.Valid() && req.at == 0 && InBounds(GET, req.buf) && Legal(GET, req.buf) && stream.open
    modifies vol.k, req, res, stream`output
    ensures vol.Valid() && (code == HANDLER_ERROR || code == HANDLER_NO_SEND_RES)
    ensures var reply := GetReply(vol.store, req.buf);
            if code == HANDLER_NO_SEND_RES
            then res.bytes == old(res.bytes) && stream.output == old(stream.output) + reply
            else res.bytes == old(res.bytes) + reply && stream.output == old(stream.output)
    ensures if EmptyFile(vol.store, req.buf) then Leaked(old(vol.k.fds), vol.k.fds) else vol.k.fds == old(vol.k.fds)
  {
    hide Catalog.Valid, Catalog.Matches, Kernel.Valid, Linkage, ImageOf, ErrorFrame, FileReply, P.Encode, Argument;
    hide Legal;
    hide Leaked;
    var ok, fid := TakeArgument(req, res, EXPECTED_ID);
    if !ok {
      return HANDLER_ERROR;
    }
    var file := vol.GetId(fid);
    if file.Err? {
      Complain(Strerror(file.Errno()), res);
      return HANDLER_ERROR;
    }
    var mdata := vol.Details(file.value);
    DataReadsBack(vol.k.Disk(), vol.store, fid);
    code := AnswerGet(vol.k, file.value, mdata, res, stream);
  }

  /** A GET of an object whose size is a multiple of 2 to the 32nd: in practice, an empty one. */
  ghost predicate EmptyFile(st: Catalog.Store, body: Octets)
    requires InBounds(GET, body)
  {
    var p := Argument(body, EXPECTED_ID);
    p.Accepted? && p.text in st.objs && Wrapped32(|st.objs[p.text].data|) == 0
  }
}
