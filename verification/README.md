# A verified model of sfsdb

sfsdb keeps files in a volume: a data file per object, an index from id to name, and an index from
name to the ids that have it. Clients talk to it in framed, typed messages over a connection that
one forked child of the server serves. This project models the volume, the locked file stream, the
wire format, the command handlers, the server's connection loop and the client, and proves what
they promise together. `dafny verify dfyconfig.toml` checks everything.

There are two models of the storage code, because it runs in two ways.

**One process at a time** (`posix`, `flstream`, `storage`, `volume`). A `Kernel` object holds inodes,
directory entries, a descriptor table that always gives out the lowest free number, and the
process's own locks. `FlStream` has the source's fields; its `Close` keeps the stale number. The
storage operations are methods over the kernel, call by call, and each is proved to leave the
descriptor table exactly as it found it, all locks dropped, and the disk in a stated image. The
volume operations are then proved to refine a `Store`: objects by id, and one insertion-ordered id
list per name, matched byte for byte by the files on disk.

**Any number of processes** (`processes` and what imports it). Every operation is a process that makes
one system call per step; steps of different processes interleave freely and wait only for fcntl
locks on inodes. The state records inodes, links, lock tables and program counters. One invariant is
proved for all reachable states, and the safety, progress and isolation theorems follow from it. An id
may be removed as soon as a list shows it, even before its create has returned. Two families of runs
are constructed in which a live object ends up listed nowhere, and of every run it is proved exactly
when it ends so; what is lost is proved to stay lost. The two models agree: an operation that runs
alone among the processes returns, and has exactly the effect on the files, and tells exactly what the
sequential method is proved to (`agreement`).

**The wire** (`endian`, `protocol`, `messages`, `connections`, `requests`, `handlers`, `server`, `framing`,
`client`, `endtoend`, `octets`, `conversation`). Printing and parsing are objects over an output stream and a cursor, proved
against functions on octet strings for hosts of either byte order. `Requests.Reply` and
`Requests.Effect` say what each request is answered with and does to the store; the handlers and
`Server.ConHandler` are proved to do that, and the client methods to understand it. The end-to-end
theorems are about the octets on the connection. `octets` writes the format down in numbers alone, and
what the client writes and what the server makes of each command number is proved to be that. In `conversation` the client's methods run on what
the server sends for what they send.

Three modelling conventions:

- Octets are integers from 0 to 255; names, ids and contents are sequences of them. A path is a
  directory and one component (`Paths.Path`), so components have to be legal ones: at most 255
  octets, no slash, no NUL, not `.` or `..`. Names and generated ids also have no newline.
- The id generator is an object over an arbitrary sequence of clock readings and random octets. The
  only assumption about it is in `Sessions.Ready`: of the ids still to come, as many as the requests at
  hand will use up are different from each other and from those of live objects. With the 64 effective
  bits of an id that can hold for exactly 2 to the 64th objects or fewer (`Sessions.ReadyAtFirst`).
  Requests that store nothing are answered without it. That ids are legal components is proved.
- Kernel failures other than a missing file, an unmappable empty file and a bad descriptor do not occur.

Where the repository's documentation and its code differ, the model follows the code:

- A header has no magic octet (src/protocol.hpp:133-135), although PROTOCOL.md:83-87 shows one.
- An error message holds at most 255 characters (src/protocol.hpp:161), not 256 as PROTOCOL.md:93 says.
- Ids are documented to carry 64 time-stamp bits in three fields (src/uid.hpp:8-27); the code keeps
  the low 16 and prints zeros in the other two (`Uid.MiddleAndHighAreZero`).

Some results are about what the code does not do. GET of an empty file is answered with an error and
leaves a descriptor open (`EndToEnd.GetIsHeard`, `Handlers.AnswerGet`). A parameter of wire type 0
passes the type check with nothing consumed, and is refused only by the checks after it
(`Protocol.CheckSucceedsIff`, `Requests.ArgumentRejectedIff`). Integers assigned after construction
keep length 0 and are read back only when their first octet happens to be the magic one
(`Protocol.StaleSmallint`). A list of 65536 ids or more is announced with its count cut to 16 bits
(`EndToEnd.ListIsUnderstood`). Unlinking an emptied name file by its path can cost another object its
listing (`Race.LiveButUnlisted`, `SecondRemove.LostToSecondRemove`, `Lossless.UnlinkLosesNothingIff`,
`Lossless.RunsAgreeIff`).

## Model

| member | source | states |
|---|---|---|
| Lines.DrainUndoesJoin | src/storage.cpp:57-63 | ids printed with a separator after each, then an unterminated tail: the getline loop reads back exactly those entries, with no spurious last one |
| Lines.JoinUndoesDrain | src/storage.cpp:84-86 | a fully terminated file is the print of its lines, and no line holds a separator |
| Lines.JoinInjective | src/storage.cpp:134 | two name files with the same octets stand for the same id list |
| LockedStream.FlStream.GetLine | src/flstream.hpp:214-260 | for every content, offset, delimiter and positive chunk size: returns the octets up to the next delimiter or end of file, leaves the cursor just past it, and is true just when an octet remained |
| LockedStream.Scan | src/flstream.hpp:235-244 | finds the first delimiter of a chunk, or its length |
| LockedStream.FlStream.Close | src/flstream.hpp:104-113 | unlocks and closes an open descriptor, keeps its number, and does nothing but report EBADF when the number is free |
| LockedStream.FlStream.MoveFrom | src/flstream.hpp:75-82 | closes what the target held, hands over the descriptor and leaves the source without one |
| LockedStream.FlStream.constructor | src/flstream.hpp:53-59 | opening gives the lowest free descriptor, creates or truncates as the mode says, and on failure changes nothing |
| LockedStream.FlStream.Lock | src/flstream.hpp:155-158 | the whole file is locked as asked for |
| LockedStream.FlStream.Put | src/flstream.hpp:283-286 | one write of the whole value, at the end in append mode |
| Storage.DrainAll | src/storage.cpp:50-52 | collects exactly the lines from the cursor on |
| Storage.RewriteOthers | src/storage.cpp:57-63 | writes the other ids back in order and tells whether there were none |
| Storage.OpenIndexes | src/storage.cpp:117-132 | both index files open and locked, nothing else on disk changed |
| Storage.FillIndexes | src/storage.cpp:134-138 | the id appended to the name file, which is closed, and the name in the id file |
| Storage.FinishCreate | src/storage.cpp:140-144 | an empty data file; the destructors close every descriptor once though the data file may have got the number that the name file still keeps |
| Storage.Create | src/storage.cpp:112-145 | returns the generated id; descriptors and locks as before; the disk is the old one with the id appended to the name file, the name in the id file and an empty data file |
| Storage.RewriteName | src/storage.cpp:50-63 | under the lock, the name file comes to hold its former lines without the id |
| Storage.DropEntry | src/storage.cpp:48-68 | the same, and the file is unlinked when nothing is left; closed once although close is called twice |
| Storage.Remove | src/storage.cpp:32-71 | fails only when the name file is missing, after the two unlinks; otherwise the disk has lost the object's files and its line, and the name file too when that was the last one; descriptors and locks as before |
| Storage.ByName | src/storage.cpp:73-89 | the lines of the name file, or ENOENT; nothing changed, descriptors as before |
| Storage.ById | src/storage.cpp:91-110 | the first line of the id file as name, or ENOENT; nothing changed, descriptors as before |
| Storage.Get | src/storage.cpp:11-20 | an open stream on the data file that survives the move out of the result, or ENOENT |
| Storage.Details | src/storage.cpp:22-30 | the size of the data file, or ENOENT |
| Catalog.PutKeepsValid | src/volume.hpp:32-58 | storing keeps the two indexes in exact agreement, lists without repetition |
| Catalog.RemoveKeepsValid | src/volume.hpp:67-79 | so does removing |
| Catalog.RemoveUndoesPut | src/volume.hpp:67-79 | removing what was just stored restores the store, lists and all |
| Catalog.ListedIffLive | src/storage.cpp:65-68 | a name has a list, and so a name file, just when some live object has that name |
| Catalog.WithoutKeepsOrder | src/storage.cpp:57-63 | a remove keeps the order of the ids that stay |
| Volume.CreateMatches | src/storage.cpp:112-145 | the files after a create are, byte for byte, those of the store with a new empty object |
| Volume.RemoveMatches | src/storage.cpp:32-71 | the files after a remove are, byte for byte, those of the store without the object, its name file gone with the last id |
| Volume.ListReadsBack | src/storage.cpp:82-86 | draining a name file gives the list it stands for |
| Volume.NameReadsBack | src/storage.cpp:99-106 | the first line of an id file is the object's name, and the file exists just when the object does |
| Volume.WriteData | src/volume.hpp:49-55 | the data file gets the data through a moved stream; every descriptor is closed again |
| Volume.Fill | src/volume.hpp:43-57 | fails with ENOENT unless both of the object's files exist, and otherwise writes the data from the start |
| Volume.VolumeType.Store | src/volume.hpp:32-58 | refines the insertion of (name, data) under the generated id, at the end of the name's list; descriptors as before |
| Volume.VolumeType.Remove | src/volume.hpp:67-79 | refines the removal from map and list; ENOENT just when there is no such object |
| Volume.VolumeType.GetName | src/volume.hpp:87-89 | the name's id list in insertion order, or ENOENT just when no live object has the name |
| Volume.VolumeType.GetId | src/volume.hpp:97-108 | the object under the id with its name, or ENOENT |
| Volume.VolumeType.Details | src/storage.cpp:22-30 | the length of the object's data |
| Paths.WriteAtIs | src/flstream.hpp:283-286 | what a write leaves, octet by octet: the data where they were written, the old content elsewhere, zeros in a gap |
| Volume.StoredFiles | src/storage.cpp:134-142 | after the two halves of a store the id file is the name and an octet 10, the data file the data, and the name file what it was, the id and an octet 10 |
| CreateSteps.CreateKeepsInv | src/storage.cpp:112-145 | every system call of a create keeps the invariant of the concurrent system, respects what other processes rely on, and touches no other object's files |
| RemoveSteps.RemoveKeepsInv | src/storage.cpp:32-71 | the same for every system call of a remove |
| ReadSteps.ListKeepsInv | src/storage.cpp:73-89 | the same for by_name, which ends only at its close, or at its open if and only if no name file is linked |
| ReadSteps.LookKeepsInv | src/storage.cpp:91-110 | the same for by_id, which ends only at its close, or at its open if and only if no id file is linked, and reads the name of the id if its create has returned and nothing otherwise |
| ReadSteps.UnlockedIsCreated | src/storage.cpp:125-138 | whoever gets a lock on the id file of a listed id finds its create returned: a remove that starts from a list in the middle of the create waits at its lookup |
| Consistency.ReachableInv | src/server/server.cpp:101-112 | the invariant holds in every state that any number of processes can reach |
| Consistency.ListedIsLive | src/storage.cpp:35-70 | in every reachable state, with name files emptied, unlinked and recreated freely: whatever the linked name file of n shows, even half-written, has an id file that says n and a data file once no create or remove of it is in flight |
| Consistency.ListedIffStillLinked | src/storage.cpp:65-68 | a live id is listed under its name if and only if the directory still links the inode its create opened |
| Consistency.IndexesAgree | src/storage.cpp:43-63 | when all operations have returned, an id is listed, once, under a name that no remove emptied if and only if its id file says that name |
| Lossless.UnlinkLosesNothingIff | src/storage.cpp:65-68 | unlinking a name file costs no id its listing if and only if the file then standing under the path is not in use: no create about to append to it, no listed id that nobody removes |
| Lossless.OwnFileInUseIff | src/storage.cpp:48-68 | the file a remove found empty itself is in use if and only if a create has opened it and waits for the lock |
| Lossless.HarmlessRunsAgree | src/storage.cpp:32-145 | in every run whose unlinks spare the files in use, the indexes agree on every name and id when all operations have returned |
| Lossless.AgreeIffAttached | src/storage.cpp:32-145 | when all operations have returned, the indexes agree on every name if and only if every id nobody removed is still attached to the linked file of its name |
| Lossless.RunCuts | src/storage.cpp:65-68 | for every run, the name file that was opened for an id is linked at the end if and only if it was at the start and no remove of the run unlinked that very file |
| Lossless.RunsAgreeIff | src/storage.cpp:32-145 | of every run at whose end all operations have returned: the indexes agree if and only if each id whose name file some remove of the run unlinked has itself been removed |
| Lossless.LostStaysLost | src/storage.cpp:65-68 | an unlinked name file is never linked again, whatever happens afterwards |
| Race.LiveButUnlisted | src/storage.cpp:65-68 | for every name and any two ids there is a reachable state with nothing in flight in which an object is alive under the name and no name file lists it |
| SecondRemove.LostToSecondRemove | src/storage.cpp:43-68 | for every name and any two ids there is a reachable state in which one object is alive and listed and nothing is in flight but a remove of the other id, which waits for the lock of an older name file that another remove has emptied; this remove by itself then unlinks the newer file and returns, and the object is alive and listed nowhere |
| Agreement.CreateAgrees | src/storage.cpp:112-145 | from any reachable state at rest, a create alone among the processes runs to its return, and every such run leaves the files exactly as the sequential create does |
| Agreement.RemoveAgrees | src/volume.hpp:67-79 | so does a remove, its lookup included; without an id file it changes nothing |
| Agreement.LookAgrees | src/storage.cpp:91-110 | from any reachable state at rest, a by_id alone returns and every such run changes no file and tells the first line of the id file, or, if and only if there is none, that it is missing |
| Agreement.ListAgrees | src/storage.cpp:73-89 | from any reachable state at rest, a by_name alone returns and every such run changes no file and tells the lines of the name file, or, if and only if there is none, that it is missing |
| Agreement.FillAgrees | src/volume.hpp:49-55 | so does the write of a stored object's data; without a data file it changes nothing |
| Interleavings.ByNameReturnsSnapshot | src/storage.cpp:77-88 | a by_name returns exactly the list its inode held when the read lock was granted, whatever the other processes did meanwhile |
| Interleavings.ByNameAnswers | src/storage.cpp:73-89 | a whole by_name among any operations of others: it ends at its open when no name file is linked there, or it returns exactly the lines that the inode linked at its open held when the lock was granted |
| Interleavings.ByIdAnswers | src/storage.cpp:91-110 | a whole by_id among any operations of others: it ends at its open when no id file is linked there; otherwise it returns the name under which the id was created if its create has returned, and an empty one just while that create waits for the lock of the file it has made |
| Interleavings.WaitsIff | src/flstream.hpp:155-158 | an operation waits if and only if it asks for a lock on an inode that another in flight holds; lookups wait only for a writer |
| Interleavings.IdleMayBegin | src/server/server.cpp:101-112 | whatever the others are doing, a process without an operation may begin any lookup, a create of a fresh id, and the rest for known ids |
| Interleavings.NoDeadlock | src/storage.cpp:117-132 | in every reachable state with operations in flight, one of them can make its next system call |
| Interleavings.OtherObjectsUntouched | src/storage.cpp:32-145 | no single system call of an operation changes the id file or data file of another object |
| Interleavings.OtherRunsTouchNothing | src/storage.cpp:32-145 | nor does any run of operations on other objects, by any number of processes |
| Uid.Generator.Get | src/uid.cpp:14-38 | each id uses up one reading of clock and device, and shows its five numbers as in IdShows |
| Uid.FormatIsName | src/uid.cpp:23-37 | an id is 32 octets, a legal path component, and free of newlines |
| Uid.HexReadsBack | src/uid.cpp:25 | what is printed in hexadecimal, read from left to right in base 16, is the number that was printed |
| Uid.IdShows | src/uid.cpp:23-37 | 32 octets, hyphens at 8, 13, 18 and 23; between them the low 16 bits of the time, two zeros, and the two random numbers as the host loads them, each read from left to right in base 16 |
| Uid.FormatInjective | src/uid.cpp:25-36 | two ids coincide exactly when the low 16 bits of the time and all 48 random bits do, on hosts of either byte order |
| Uid.RankTellsIds | src/uid.cpp:25-36 | two readings give the same id if and only if their 64 effective bits, as a number, are the same |
| Uid.DistinctAtMost | src/uid.cpp:23-37 | no clock and device can supply more than 2 to the 64th different ids in a row |
| Uid.DistinctExist | src/uid.cpp:23-37 | that many are possible, on hosts of either byte order and whatever has been drawn before |
| Uid.MiddleAndHighAreZero | src/uid.cpp:30-32 | the two middle time fields are always zero |
| Endian.AnyHost16 | src/endian.hpp:18-20 | on hosts of either byte order, converting and storing gives the quotient and the rest by 256, in this order, and loading and converting undoes it |
| Endian.AnyHost32 | src/endian.hpp:14-16 | the same for 32 bits: the four digits to the base 256, most significant first |
| Endian.Net16Digits | src/endian.hpp:18-20 | the octet at each of two places is the digit of that place |
| Endian.Net32Digits | src/endian.hpp:14-16 | the octet at each place is the digit of that place |
| Endian.At32Sum | src/endian.hpp:90-94 | what is read is the sum of the octets by their places |
| Endian.Out.ToNets | src/endian.hpp:73-76 | appends the quotient and the rest by 256 |
| Endian.Out.ToNetl | src/endian.hpp:67-70 | appends the four digits to the base 256, most significant first |
| Endian.Cursor.ToHosts | src/endian.hpp:96-100 | returns 256 times the first octet plus the second and moves past them |
| Endian.Cursor.ToHostl | src/endian.hpp:90-94 | returns the sum of four octets by their places and moves past them |
| Protocol.Data.To | src/protocol.hpp:43-47 | appends exactly the encoding of the object's fields |
| Protocol.Data.PutPayload | src/protocol.hpp:178-320 | the part of it that each class contributes |
| Protocol.Data.From | src/protocol.hpp:56-81 | leaves in the object, the cursor and the result exactly what decoding says: magic checked behind the declared length, except for headers and big data |
| Protocol.Data.TakePayload | src/protocol.hpp:184-323 | the part of it that each class takes |
| Protocol.DecodeUndoesEncode | src/protocol.hpp:43-81 | a value printed anywhere in a buffer is read back by an object of its class, and the cursor stops right behind it, whatever the payload holds and whatever follows |
| Protocol.SequenceReadsBack | src/protocol.hpp:151-325 | so is every sequence of values |
| Protocol.EncodeAllInjective | src/protocol.hpp:43-81 | two sequences of values of the same classes print alike only if they are equal |
| Protocol.StringPrintsBack | src/protocol.hpp:291-299 | an accepted string, printed again, is exactly the octets that were consumed |
| Protocol.EncodedSize | src/protocol.hpp:83-86 | the size that the header arithmetic of handlers and client relies on |
| Protocol.Cut | src/protocol.hpp:159-164 | an error message is NUL-free and at most 255 octets of the C string |
| Protocol.StaleSmallint | src/protocol.hpp:199-223 | a smallint assigned after default construction is printed with length 0, and decodes, to its value, if and only if its high octet is the magic one |
| Protocol.StaleInteger | src/protocol.hpp:234-258 | the same for integers |
| Protocol.GetType | src/protocol.hpp:353-362 | compares the type without consuming it, decodes when it matches, and reports the type on the wire as error number otherwise |
| Protocol.CheckSucceedsIff | src/protocol.hpp:353-362 | the check reads as success if and only if the value was decoded or the wire type is 0, and in the latter case nothing is consumed |
| Protocol.Choose | src/protocol.hpp:364-385 | runs the first handler listed under the number, else the one last listed as invalid, else none |
| Messages.ErrorMessage.constructor | src/messages.hpp:11-14 | the header announces exactly the error behind it |
| Messages.ErrorMessage.From | src/messages.hpp:21-23 | reads a header and, unless that fails, an error |
| Messages.ErrorFrameReadsBack | src/messages.hpp:11-23 | a printed error message is read back, NUL-free and cut to 255 octets |
| Requests.ArgumentRejectedIff | src/handlers/del.hpp:23-31 | the first parameter is accepted if and only if its type is string, its declared length is not 0 and a magic octet follows it; each refusal, wire type 0 included, has its message |
| Requests.PutRejectedIff | src/handlers/put.hpp:23-43 | a PUT is refused if and only if its name is, or the second type is not big data (0 included), or no magic octet follows the data |
| Requests.RefusedIsHarmless | src/handlers/put.hpp:25-43 | a refused request is answered with exactly one error frame and leaves the store unchanged |
| Requests.EffectKeepsValid | src/handlers.hpp:11-18 | no request, accepted or refused, breaks the agreement of the indexes |
| Handlers.TakeArgument | src/handlers/list.hpp:24-33 | accepts the string parameter or prints the error frame that says why not |
| Handlers.Get | src/handlers/get.hpp:12-97 | sends straight to the stream, or leaves in the response, exactly the reply to a GET; descriptors as before unless the file is empty |
| Handlers.AnswerGet | src/handlers/get.hpp:46-92 | content by way of open, map, send and close; an empty file gives the EINVAL error and leaves the descriptor open |
| Handlers.SendFile | src/handlers/get.hpp:71-87 | header, big data header, content and magic octet in this order |
| Handlers.TakeData | src/handlers/put.hpp:34-43 | accepts exactly the declared octets before the magic one, or prints the error frame |
| Handlers.Put | src/handlers/put.hpp:9-62 | stores exactly when both parameters are accepted, and answers with the id or an error frame |
| Handlers.Desc | src/handlers/desc.hpp:9-70 | answers with name and size of the object, or an error frame |
| Handlers.Del | src/handlers/del.hpp:9-42 | removes the object and answers with an empty success frame, or an error frame |
| Handlers.List | src/handlers/list.hpp:9-56 | answers with the count and every listed id in order, or an error frame |
| Server.Parse | src/handlers.hpp:11-18 | the table gives 1 get, 2 put, 3 desc, 4 del, 5 list, 6 quit, and every other number the silent handler |
| Server.Handle | src/server/server.cpp:52-62 | every command has the effect and the reply of its request, sent or left in the response |
| Server.ReadRequest | src/server/server.cpp:32-50 | cuts exactly one frame out of the stream, or tells why there is none |
| Server.ConHandler | src/server/server.cpp:27-70 | for every admissible input stream, what is sent and what becomes of the store is what serving its frames one after the other gives |
| Sessions.AfterKeepsReady | src/server/server.cpp:54-55 | every request leaves a valid store, and uses up one of the unused ids to come if it stores an object and none if it does not |
| Sessions.ReadyAtFirst | src/uid.cpp:14-38 | with an empty volume some generator is ready for n objects if and only if n is at most 2 to the 64th |
| Framing.ServesEachRequest | src/server/server.cpp:31-68 | requests printed one after the other are recovered exactly and served in order, whatever follows, and whether or not their parameters are refused |
| Framing.OneFrameEach | src/server/server.cpp:31-68 | until the stream ends or a QUIT, the output is exactly one frame for each command from 1 to 5, in order, and nothing for the others |
| Framing.ReplyIsOneFrame | src/handlers.hpp:11-18 | each reply is a header and exactly the octets it announces, without 32-bit wrap |
| Framing.SuccessIsFrameIff | src/handlers/list.hpp:50-53 | a response is a frame if and only if its body fits 32 bits |
| Framing.FileReplyIsFrameIff | src/handlers/get.hpp:46-78 | the length of a GET response wraps if and only if the file has one of the seven largest 32-bit sizes |
| Framing.PutDataFits | src/handlers/put.hpp:34-46 | what a PUT stores is shorter than its body, so its GET response never wraps |
| Framing.EffectKeepsSmall | src/handlers/put.hpp:46 | no request stores a file whose GET response would wrap |
| Framing.UnframeUndoesFlat | src/client/client.cpp:43-57 | cutting concatenated frames by their announced lengths gives the frames |
| Client.SendBlocks | src/client/client.cpp:130-142 | the block loop sends exactly the file's octets in order, in blocks of 4096 of which only the last may be shorter, and ends although the counter overshoots |
| Client.PrintPutHead | src/client/client.cpp:100-126 | the announced length is the sum of all parts, cut to 32 bits |
| Client.SendPut | src/client/client.cpp:96-149 | the whole request: head, blocks and one magic octet |
| Client.TakeStrings | src/client/client.cpp:368-376 | the counted loop reads as many strings as the count says, or fails |
| Client.Get | src/client/client.cpp:25-92 | sends one request, consumes one frame, and tells content, error message or bad response apart |
| Client.Put | src/client/client.cpp:94-197 | the same, with the id as result |
| Client.Desc | src/client/client.cpp:199-264 | the same, with name and size |
| Client.Del | src/client/client.cpp:266-313 | on success consumes the header only, else the error |
| Client.List | src/client/client.cpp:315-383 | the same as get, with the ids |
| EndToEnd.StringRequestArrives | src/client/client.cpp:27-38 | what get, desc, del and list send for a legal string is one well-formed request for exactly that string |
| EndToEnd.PutArrives | src/client/client.cpp:96-149 | what put sends is one well-formed request for exactly that name and content |
| EndToEnd.PutRequestIsFrameIff | src/client/client.cpp:100-122 | the request of a put is a frame if and only if the whole body fits 32 bits |
| EndToEnd.FrameWhereItStands | src/client/client.cpp:43-57 | a response is cut out of the stream exactly, wherever it stands |
| EndToEnd.ErrorIsUnderstood | src/client/client.cpp:59-68 | the client shows exactly the message of an error frame, cut to 255 octets |
| EndToEnd.FileIsUnderstood | src/client/client.cpp:70-81 | the client gets exactly the octets of the file |
| EndToEnd.IdIsUnderstood | src/client/client.cpp:182-189 | the client gets exactly the id |
| EndToEnd.DescriptionIsUnderstood | src/client/client.cpp:241-257 | the client gets exactly name and size |
| EndToEnd.ListIsUnderstood | src/client/client.cpp:360-376 | the client gets as many ids as the 16-bit count says, and the whole list if and only if it has fewer than 65536 ids |
| EndToEnd.GetIsHeard | src/handlers/get.hpp:38-92 | a client's GET of a live object yields its data if and only if the data are not empty; otherwise it hears the mmap error |
| EndToEnd.DescIsHeard | src/handlers/desc.hpp:33-69 | a client's DESC of a live object yields its name and size |
| EndToEnd.ListIsHeard | src/handlers/list.hpp:35-55 | a client's LIST of a name with at most 65535 ids yields them all, in order |
| EndToEnd.PutIsHeard | src/handlers/put.hpp:45-61 | a client's PUT yields the id under which the object now is stored and listed |
| EndToEnd.DelIsHeard | src/handlers/del.hpp:33-41 | a client's DEL of a live object yields an empty success, and the object is gone from map and list |
| EndToEnd.DelUndoesPut | src/volume.hpp:67-79 | a PUT and the DEL of its id leave every index and object as they were |
| EndToEnd.MissingIsHeard | src/handlers/desc.hpp:33-39 | GET, DESC or DEL of an id, or LIST of a name, that no object has: the client hears the system's message for a missing file, and nothing changes |
| EndToEnd.ObjectStays | src/volume.hpp:67-79 | no sequence of requests without a DEL of the id changes the object or its listing |
| EndToEnd.PutThenRead | src/handlers/put.hpp:23-61 | after a PUT and any other requests but a DEL of its id: GET yields the data unless empty, DESC the name and size, LIST the id among the others |
| EndToEnd.RefusedIsHeard | src/messages.hpp:11-19 | a refused request changes nothing and the client hears the reason |
| WireOctets.StringRequestAs | src/client/client.cpp:27-38 | get, desc, del and list write a frame with 1, 3, 4 or 5 in octets 6 and 7 and one string, in numbers |
| WireOctets.PutRequestAs | src/client/client.cpp:100-146 | put writes a frame with 2 there, the name as a string and the file |
| WireOctets.StringRequestInFull | src/client/client.cpp:204-213 | the same for any argument: what is sent stops at its first NUL, the announced length is what the code counts |
| WireOctets.PutRequestInFull | src/client/client.cpp:100-146 | the same for a file of any size: what is left of the size in 32 bits is announced and sent |
| WireOctets.ErrorFrameAs | src/messages.hpp:11-19 | an error message is a frame with status 1 and the message cut to 255 octets |
| WireOctets.FileReplyInFull | src/handlers/get.hpp:46-87 | a file of any size is answered with what is left of its size in 32 bits, or with "Invalid argument" if that is nothing |
| WireOctets.YieldsAtOne | src/handlers.hpp:13 | wherever a frame with number 1 and a live id arrives: status 0 and the file, or status 1 and "Invalid argument" if it is empty; nothing changes, and what follows is served |
| WireOctets.StoresAtTwo | src/handlers.hpp:14 | number 2: the file is stored under the generator's next id, which is the answer |
| WireOctets.DescribesAtThree | src/handlers.hpp:15 | number 3: name and size, the size cut to 32 bits, and nothing changes |
| WireOctets.RemovesAtFour | src/handlers.hpp:16 | number 4: an empty success, and the object is gone |
| WireOctets.ListsAtFive | src/handlers.hpp:17 | number 5: the count cut to 16 bits and every id of the name in order |
| WireOctets.EndsAtSix | src/handlers.hpp:18 | number 6: nothing is sent, and nothing behind it is served |
| WireOctets.SilentElsewhere | src/handlers.hpp:12 | any other number: nothing is sent and nothing changes |
| WireOctets.MissingByNumber | src/handlers/desc.hpp:33-39 | numbers 1, 3, 4 and 5 for what no object has: status 1 and "No such file or directory", octet by octet |
| WireOctets.RefusedByNumber | src/handlers/del.hpp:23-31 | numbers 1 to 5 whose body does not start with a non-empty string and its last octet 204: status 1 and the reason, octet by octet |
| WireOctets.RefusedFileByNumber | src/handlers/put.hpp:34-43 | number 2 with a name and no file with its last octet behind it: the same |
| WireOctets.EndsAtBreak | src/server/server.cpp:32-50 | a stream that ends inside a header or inside what it announces: nothing more is sent |
| WireOctets.EndsAtOtherTypes | src/server/server.cpp:32-46 | eight octets that start with a type other than 0 and 1: status 1 and "Wrong parameter type", and the connection ends |
| Conversation.PutObject | src/client/client.cpp:94-197 | the client's put, run where the server's answer stands, writes the frame with number 2, consumes exactly that answer and returns the id the object is stored under |
| Conversation.GetObject | src/client/client.cpp:25-92 | its get of a live object returns the content, or the mmap error when there is none |
| Conversation.DescribeObject | src/client/client.cpp:199-264 | its desc of a live object returns name and size |
| Conversation.ListObjects | src/client/client.cpp:315-383 | its list of a name with at most 65535 ids returns them all, in order |
| Conversation.DeleteObject | src/client/client.cpp:266-313 | its del of a live object succeeds and consumes exactly the answer |
| Conversation.PutThenAsk | src/client/client.cpp:25-383 | put, and then get, desc and list with the id it returned, over one connection, others that do not delete the object having been served in between: the client learns the id, the data unless empty, name and size, and the whole list with its id |
| Conversation.PutThenAskAlone | src/client/client.cpp:25-383 | the loop closed: when what the client hears is what the server sends for what this client sends, the four results are these, and nothing is left unread |
| EndToEnd.AcrossTheWire | src/server/server.cpp:27-70 | over one byte stream: the octets of a PUT, of any other requests and of a GET go in, and the frames that come out are one per request, the first telling the id and the last holding the data |

## Left out

- Processes.ListStep: a line is read in one step, where the code reads chunks and seeks back; the read lock keeps the file as it is in between, and `LockedStream.FlStream.GetLine` shows that the chunks do not matter.
- Interleavings.ByNameReturnsSnapshot: the snapshot is the content at the grant of the lock; nothing is said about how long a process waits for it, since fcntl promises no fairness.
- Lossless.UnlinkLosesNothingIff: speaks of one unlink; what it means for a whole run is `Lossless.RunsAgreeIff`.
- Storage.Create: the branches for name and id files that cannot be opened are not modelled, because only permissions, a full disk or an over-long name lead there.
- Handlers.Get: the store is read in one piece; a DEL by another connection between the size and the open is covered by the concurrent model only as far as the storage steps go.
- Client.Del: a success header with a body, which this server never sends, would leave the body unread in the stream, as in the code.
- Server.ConHandler: requires header types other than 0, bodies that hold what they declare, and legal names and ids; for other input the code reads outside its buffers or walks outside the volume's directories.
- Protocol.Data.To: an error object that was decoded with more than 256 octets is not printed, because the code would read outside its buffer.
- Assigning a std::string to an error object, which nothing in the repository does.
- The strncpy of a decoded error reads up to 255 octets even when fewer are declared; the model takes the declared ones.
- Sockets, the nio streams, MSG_ flags and I/O errors other than the end of the stream: a connection is an input and an output sequence.
- fork, signals, /proc parsing, logging, command lines and the client's shell loop.
- mmap and munmap beyond the failure on length 0; file times in meta; permissions; short reads and writes; a full disk.
- That ids do not repeat is assumed where an object is stored, not proved: nothing in the generator prevents a repetition.
- Paths made of illegal components, names longer than the file system allows, and names with newlines.
- hooks.hpp and the creation of the directories, which would only add easy members.
- A remove of an id that no list has shown and no create has returned: a client would have to guess it. The data of an object are written by its own put, after the create.
- Fairness and liveness beyond the absence of deadlock.
