# RemoteCL: a verified model of the forwarding protocol

RemoteCL runs OpenCL calls on another machine. The client library turns each API call into packets on
one TCP stream, the server performs the call with its own OpenCL driver and replies. This project
models that machinery in Dafny and proves what a caller may rely on. `dafny verify dfyconfig.toml`
checks everything.

## The layers

* **Bytes on a socket.** `SocketStream` is the buffered stream as a class with its two arrays of 1024
  bytes and its offsets, the bypass for large transfers, the flush on full and the peek. The socket is a
  sequence of bytes handed out in arbitrary non-empty pieces, closed in order or by an error.
* **Packets.** `Codec` gives schemas, a printer and a parser; `Packets` the packet types and their
  framing with in-band errors; `PacketStream` and `ProgramPackets` the stream operators with their
  loops, proved against the printer and the parser.
* **Two ends in lockstep.** `Lockstep` is a generic pair of machines that exchange packets: bursts into a
  write buffer, flushes, blocking reads. One fixed schedule decides whether a session settles; every
  other order of steps is proved to lead to the same end. `Wire` is the same pair on bytes, with writes,
  spills of full buffers, flushes and reads of partial data interleaved in any way, and is proved to
  follow the packet system. `Breakdown` is the converse: a session that is lost among packets breaks
  down on bytes.
* **Calls and handlers.** `Protocol` gives 20 API calls with the server's handlers, among them the
  kernel-argument and image-size negotiations, optional event lists and events, payloads per device and
  all error paths. The driver is an oracle: its n-th call has the n-th answer, which may be any error
  code and any result. `Endpoints` has some of the handlers and calls as methods that drive a stream.
* **What a call means.** `Effects` describes each call as one local transaction on the client's objects,
  the server's table and the driver's history, without any message, and the exact condition `Keeps`
  under which the session survives. `Arguments` says what the driver is told, and the caller gets, by the
  caller's numbers and bytes alone, without the conversions and defaults that `Effects` and both ends
  share; `Requests` says in the same way which calls can be sent. `Dialogues`, `Refinement`,
  `RefineCommands` and `RefineImages` prove, call by call, that the dialogue has the effect given if and
  only if `Keeps` holds. `Sessions` lifts this to any sequence of calls and to every run on bytes;
  `Losses` gives concrete calls that lose the session.
* **Threads.** `Threads` adds any number of client threads that take the lock on the connection for the
  length of a call and decide their next call from all their replies; `Concurrency` combines it with the
  calls above.
* **Mirrored state.** `Tables` and `Mirrors` are the object tables on both sides, `Contexts` the
  translation of context properties, `Mappings` the emulation of mapped buffers on the client,
  `Callbacks` the callback table and the event stream, `EventStreams` the negotiation of that stream,
  `Handshake` the version packet and `Rectangles` the memory for rectangular reads.

## What holds, and when

The condition `Keeps` is what the branches of the code make it. Besides room in the server's table of
65536 IDs and lists of at most 255 entries, a session survives a call except in these cases, where it is
proved to be lost:

* a callback registration that the driver refuses: the handler writes Error and then Success as well;
* reading or writing an image with events to wait for, when the driver does not tell the element size:
  the error is sent before the announced event list is read;
* a kernel argument for which the driver reports a global or constant address space, when its size is
  not that of a memory object: the client sends a payload where an ID is awaited.

A context that the driver refuses to create does not lose the session, but the caller is not told why: the
client catches every error of that call alike and returns CL_DEVICE_NOT_AVAILABLE (client/context.cpp:83).

Outside these calls:

* Once the server has bound a port for the event stream, it waits for the client to connect. If the client
  never does (it may try before the server listens, be refused, and go on without the stream), the handler
  waits for ever and the next call hangs (`EventStreams.NextCallHangsIff`). If accepting fails on the server,
  it replies twice and the next call meets the second reply (`EventStreams.NextCallAnsweredIff`).
* IDs that a context query does not take up leave holes in the client's table (`Mirrors.UnclaimedIds`).
* The memory for a rectangular read ignores the host's origin (`Rectangles.OriginMustFitTheFirstSlice`).
* Statuses and callback numbers pass through 16 bits (`Callbacks.CallIsExact`), sizes of payloads through 32
  bits or fewer, and so do offsets and sizes of mappings (`Mappings.WrittenBackIff`).

Where code and comments disagree the model follows the code:

* The comment at client/kernel.cpp:130-131 says that the server replies with an error to an argument of
  the wrong size. The server awaits an ID packet and fails its type assertion instead.
* The comment at server/event.cpp:100-102 expects a local size of zero when the application gives none.
  The client fills the local size with ones, so the driver is told a local size of one instead of being
  left to choose.
* The comment at common/socketstream.h:51 says that a peek returns -1 when there is no data yet. It
  blocks for data, and returns -1 only at the end of the connection.

A session is lost, in the terms of the model, when some order of steps leads to a read of a packet type
that is not awaited, to two blocked ends, or to a call that returns with something unread
(`Lockstep.SettlesIffNoTrouble`, and on the wire `Sessions.SessionBreaksDownIff`). In the code this is a
failed assertion, a hang, or a later call that reads the wrong reply.

## Model

| member | source | states |
|---|---|---|
| `SocketStreams.SocketStream.Read` | common/socketstream.cpp:24-60 | Delivers exactly the next `count` bytes of the stream whatever the sizes in which the socket hands them out, cached or direct, and touches no other memory. Fails when the connection ends early; never returns exactly when it was closed in order with 1024 bytes or more still missing. |
| `SocketStreams.SocketStream.ReadMoreData` | common/socketstream.cpp:62-70 | A refill changes nothing that is still to be read, and leaves the cache empty only at the end of the connection. |
| `SocketStreams.SocketStream.TakeCached` | common/socketstream.cpp:44-52 | One buffered round: bytes leave the cache in order and offset plus available stays within 1024. |
| `SocketStreams.SocketStream.ReceiveInto` | common/socketstream.cpp:29-36 | One direct round: bytes go past the (empty) cache in order. |
| `SocketStreams.SocketStream.Write` | common/socketstream.cpp:72-109 | Bytes sent followed by the write buffer are always everything written so far, in order, for buffered and direct writes; the buffer is never left full and the copy loop runs at most twice. |
| `SocketStreams.SocketStream.FlushWriteBuffer` | common/socketstream.cpp:111-116 | Sends the whole buffer and empties it. |
| `SocketStreams.SocketStream.Flush` | common/socketstream.h:43-43 | Afterwards everything written has been sent. |
| `SocketStreams.SocketStream.Peek` | common/socketstream.h:52-61 | Returns the next byte, or -1 at the end, and consumes nothing. |
| `SocketStreams.Socket.Receive` | common/socket.cpp:146-155 | The contract assumed of the socket: some non-empty prefix of what is to come, nothing at the end, an error after a reset. |
| `SocketStreams.EndToEnd` | common/socketstream.cpp:24-116 | For every script of writes and flushes, every fragmentation and every script of reads and peeks, the reader sees what a plain queue would show it, early end included; only the bytes that the write buffer still holds at the end are missing, and their number is given. |
| `SocketStreams.FlushDeliversAll` | common/socketstream.cpp:72-116 | After a flush nothing is held back, whatever was written before. |
| `Codec.RoundTrip` | common/streamserialise.h:39-98 | Reading any fitting value behind its own encoding gives back the value and exactly the rest of the stream; containers, strings, arrays, payloads and conditional fields, nested to any depth. |
| `Codec.BlobRoundTrip` | common/packets/payload.h:131-179 | With or without zlib, whether compression was taken, not worth while or failed, a payload comes back whole and the stream stands at the next packet, given only that decompression undoes the compressions that succeed. |
| `Codec.CompressedIfShorter` | common/packets/payload.h:131-154 | Data is compressed only in zlib builds, from 1 MiB on, and where that succeeds and makes it shorter; no payload is longer than its data and two size fields. |
| `Codec.ListReadBackIffCountFits` | common/streamserialise.h:39-61 | A container is read back if and only if its size fits the type of its length prefix, the largest such size included. |
| `Codec.ParseMonotone` | common/socketstream.cpp:24-60 | What a completed read returned does not depend on how much more has arrived. |
| `Packets.PacketsRoundTrip` | common/packetstream.h:32-65 | Any list of packets, in-band errors among them, written back to back and followed by anything, is read as exactly those packets and that rest. |
| `Packets.UniquelyDecodable` | common/packetstream.h:58-65 | Two packet lists with the same bytes that answer the same expectations, in-band errors among them, are the same list with the same rest. |
| `PacketStreams.PutVal` | common/streamserialise.h:39-69 | The writing operators, loops included, append exactly the encoding of the value. |
| `PacketStreams.GetVal` | common/streamserialise.h:49-98 | The reading operators return what the bytes to come encode and consume no more, or fail exactly if they are incomplete. |
| `PacketStreams.GetMany` | common/streamserialise.h:49-61 | The element loop reads exactly `count` elements in order, for every count up to the largest its prefix can tell. |
| `PacketStreams.PutPayload` | common/packets/payload.h:131-154 | Writes the framing of an owned payload of any size, with the compression marker in zlib builds; its size is converted to the size type only where it is sent. |
| `PacketStreams.OwnedReadBackIff` | common/packets/payload.h:131-154 | Where no compression is taken an owned payload is read back whole if and only if its size fits the size type. |
| `PacketStreams.PutPayloadPtr` | common/packets/payload.h:76-102 | Writes the framing of a referenced payload, of which no more is sent than its size type can tell. |
| `PacketStreams.GetPayload` | common/packets/payload.h:156-179 | Reads a payload, undoing compression if the marker says so. |
| `PacketStreams.GetPayloadInto` | common/packets/payload.h:104-129 | Reads a payload straight into the caller's memory, or fails exactly when the stream ends inside it; memory behind the announced data is untouched either way. |
| `PacketStreams.TransferPayload` | common/packets/payload.h:76-179 | Each of the two writers paired with each of the two readers delivers the original bytes and leaves what follows. |
| `PacketStreams.PacketStream.Read` | common/packetstream.h:32-46 | Returns the expected packet, throws an in-band error, reports a closed connection or fails the type assertion, exactly as the bytes say. |
| `PacketStreams.PacketStream.Write` | common/packetstream.h:58-65 | Appends the type byte and the fields. |
| `PacketStreams.PacketStream.NextPacketType` | common/packetstream.h:68-73 | The type of the next packet without consuming it; Terminate at the end. |
| `PacketStreams.Exchange` | common/packetstream.h:27-80 | The three layers together: any packets written on one side, an in-band error in place of any expected packet, are read on the other as they were, errors being thrown. |
| `ProgramPackets.GetCompileProgram` | common/packets/program.h:231-242 | Reads the fields of a compile request, the callback's ID only if its flag is set. |
| `ProgramPackets.TransferCompileProgram` | common/packets/program.h:217-242 | A compile request arrives as it was sent, with or without a callback ID, and what follows it is untouched. |
| `Lockstep.Diamond` | server/instance.cpp:318-330 | A step of the client and a step of the server commute. |
| `Lockstep.ServerStepKeeps` | server/instance.cpp:318-330 | No step of the server, whenever it is taken, changes where a session in lockstep ends. |
| `Lockstep.BeginKeeps` | client/connection.h:82-91 | A call may begin while the server is still flushing its last reply, with the same result. |
| `Lockstep.SettlesIffNoTrouble` | server/instance.cpp:318-330 | A session settles under one schedule if and only if no order of steps whatever leads to a stuck end or to something unread at a boundary. |
| `Wire.StepFollows` | common/packetstream.h:32-65 | Each step on bytes (write, flush, spill of a full buffer, completed read) is one packet step or invisible. |
| `Wire.EveryRunFollows` | common/socketstream.cpp:24-116 | Every state of every run of the byte system, under every schedule and splitting, shows a packet state that will end like the serial session. |
| `Wire.LockstepAtBoundaries` | server/instance.cpp:127-330 | Whenever no call is in progress no byte is in a write buffer, on the wire or in a read buffer, and both ends are where the calls performed one at a time leave them. |
| `Wire.NeverMistyped` | common/packetstream.h:32-46 | A blocked end only ever meets the packet type it awaits or, at the client, an error; and it never blocks with unflushed output. |
| `Wire.NoDeadlock` | server/instance.cpp:318-330 | In every reachable state one end can move, unless no call is in progress and nothing is in flight. |
| `Wire.EveryCallReturns` | server/instance.cpp:318-330 | Under every schedule the same number of steps, spills aside, remains until the calls in progress have returned. |
| `Wire.AllReturnTogether` | server/instance.cpp:318-330 | In every state of every run there is a number of steps after which, and not before, on whatever schedule, nothing is left to do. |
| `Wire.EverySessionRuns` | server/instance.cpp:318-330 | Any calls that stay in lockstep one at a time have a run on bytes that performs them all and leaves nothing in flight. |
| `Breakdowns.OrderRuns` | common/socketstream.cpp:24-116 | Any order of packet steps, of lost sessions too, can be followed by steps on bytes. |
| `Breakdowns.BreaksDownIff` | common/packetstream.h:32-46 | Calls have a run on bytes in which a call returns with bytes in flight, an end is sent a packet type it does not await, or both are blocked for ever, if and only if they do not all stay in lockstep one at a time. |
| `Protocol.WiringSound` | server/instance.cpp:127-313 | The calls and handlers, guarded by `Answers` and `Checked` in place of the type and size assertions, meet the conditions of the theorems about the wire. |
| `Dialogues.ConversationDecides` | server/instance.cpp:318-330 | Where the burst-by-burst dialogue gives a verdict, the small-step session settles exactly there or is lost. |
| `Sessions.ConversationIsDecided` | server/instance.cpp:318-330 | It gives a verdict for every valid call, and the verdict is loss if and only if `Keeps` fails. |
| `Sessions.CallRefines` | server/instance.cpp:127-313 | For each of the 20 calls, all arguments and all driver answers: the call ends in lockstep with exactly the effect of one local transaction if and only if `Keeps` holds. |
| `Sessions.SerialIsLocal` | server/instance.cpp:318-330 | Any number of calls over the connection equals the same calls performed where the driver is, if and only if every one of them keeps the session. |
| `Sessions.SessionIsLocal` | server/instance.cpp:127-330 | In every run on bytes, whenever no call is in progress: nothing in flight, and replies, object tables and driver history are those of the local execution. |
| `Sessions.SessionMeetsAwaited` | common/packetstream.h:32-46 | In such runs neither end meets a wrong packet or blocks with unflushed output. |
| `Sessions.SessionNeverDeadlocks` | server/program.cpp:393-414 | In such runs, mid-handler dialogues included, the ends are never both blocked. |
| `Sessions.SessionExists` | server/instance.cpp:318-330 | Any calls that keep the session can be performed to the end over the connection, with the results of the local execution. |
| `Sessions.SessionReturns` | server/instance.cpp:318-330 | In every such run all calls begun so far return after a number of steps that no schedule changes. |
| `Sessions.SessionBreaksDownIff` | server/instance.cpp:127-330 | Valid calls have a run on bytes in which the session breaks down if and only if one of them does not keep it. |
| `Requests.ValidIff` | common/packets/commands.h:29-113 | The calls that all this is about, valid ones, are exactly those whose IDs fit 16 bits, whose lists have at most 255 entries (device lists of contexts 65535), whose texts are at most 65535 bytes and whose patterns at most 128. |
| `Refinement.CreateContextRefines` | client/context.cpp:31-87 | The driver gets the rebuilt properties and the devices of the IDs; the caller gets its context, or CL_DEVICE_NOT_AVAILABLE whatever the driver's error. |
| `Refinement.CreateKernelRefines` | server/program.cpp:308-320 | A kernel by name, or the error. |
| `Refinement.CreateUserEventRefines` | server/event.cpp:118-130 | An event, or the error. |
| `Refinement.GetPlatformIdsRefines` | server/instance.cpp:42-62 | One handle per platform in order; lost only if the list or the table has no room. |
| `Refinement.RefCountRefines` | server/refcount.cpp:28-174 | Retain and release reach the object and never lose the session. |
| `Refinement.MemObjectRefines` | server/memory.cpp:215-244 | Object-valued queries return the client's own object for the driver's. |
| `Refinement.MemDataRefines` | server/memory.cpp:245-262 | Other queries return the bytes, as many as an 8-bit size can tell. |
| `Refinement.CountKernelsRefines` | server/program.cpp:322-356 | Counting the kernels of a program. |
| `Refinement.CreateKernelsRefines` | server/program.cpp:322-356 | Creating them, each with a handle of its own. |
| `Refinement.ReadBufferRefines` | server/memory.cpp:72-105 | With or without event list and event: the bytes, and the event, or the error. |
| `Refinement.AcceptedCallbackRefines` | server/event.cpp:58-77 | A registration that the driver accepts. |
| `Refinement.RefusedCallbackLoses` | server/event.cpp:70-73 | A registration that the driver refuses is answered twice and always loses the session. |
| `Refinement.EventListServed` | server/memory.cpp:76-83 | The event list is read exactly if the request announces it. |
| `RefineCommands.FillBufferRefines` | server/memory.cpp:184-213 | The driver gets the pattern, offset and size; reply as for every command. |
| `RefineCommands.WriteBufferRefines` | server/memory.cpp:151-182 | The driver gets the caller's bytes, after the optional event list. |
| `RefineCommands.CreateBufferRefines` | server/memory.cpp:30-51 | With or without host data. |
| `RefineCommands.EnqueueKernelRefines` | server/event.cpp:79-116 | Work sizes padded to three dimensions; a missing local size reaches the driver as described above. |
| `RefineCommands.WaitForEventsRefines` | server/event.cpp:207-222 | A request in two packets. |
| `RefineCommands.BuildProgramRefines` | server/program.cpp:135-156 | The option string with the argument-info option appended exactly if it is missing. |
| `Protocol.ArgInfoRequestedOnce` | server/program.cpp:144-149 | The option is there afterwards, the caller's options are kept, and nothing is added if and only if it was there before. |
| `RefineCommands.CreateProgramRefines` | server/program.cpp:174-212 | One payload per device, then the program and the status of each binary. |
| `RefineImages.SetKernelArgRefines` | server/program.cpp:375-422 | All three modes and the mismatch: lost exactly if the driver wants a memory object and the argument does not have that size. |
| `RefineImages.CreateImageRefines` | server/image.cpp:32-88 | Without host data in one round; with it, size negotiation, release of the first image and creation of the second. |
| `RefineImages.ReadImageRefines` | server/image.cpp:90-139 | Lost exactly if the element size is refused while an event list is under way (or the table has no room). |
| `RefineImages.WriteImageRefines` | server/image.cpp:141-192 | The same, with size negotiation. |
| `Arguments.ArgumentByAddressSpace` | server/program.cpp:390-415 | By the address space the driver reports: 0x119B and 0x119D give it the object of the caller's memory object, 0x119C the size alone, any other value the caller's bytes; the session survives if and only if a wanted memory object has the size of one. |
| `Arguments.ImageGetsItsData` | server/image.cpp:35-86 | With bit 5 of the flags set the image is made, measured, released and made again with exactly the caller's first element * width * height * depth bytes, where a width, height or depth of zero counts as one. |
| `Arguments.ImageWithoutData` | server/image.cpp:35-59 | With bit 5 clear the driver gets flags and description once, as they are. |
| `Arguments.ImageRead` | server/image.cpp:90-139 | The driver gets the caller's origin, region and pitches; the caller gets element * width * height * depth bytes of what it read. |
| `Arguments.ImageWritten` | server/image.cpp:141-192 | The driver gets the caller's origin, region and pitches and exactly that many of the caller's bytes. |
| `Arguments.WorkSizesAreCallers` | client/event.cpp:105-124 | The driver gets the caller's global sizes, offsets and local sizes in their dimensions, and 1, 0 and 1 in the others; no local size if the first is zero, ones if there is none. |
| `Arguments.BuildOptions` | server/program.cpp:144-150 | The driver gets the caller's options, and behind them a space and the option for argument information if that occurs nowhere in them. |
| `Arguments.BinariesReachDriver` | server/program.cpp:174-212 | Each device's binary reaches the driver in order, cut to what a 32-bit size can tell; the caller gets four bytes of status per device. |
| `Arguments.KernelsCountedOrMade` | server/program.cpp:322-356 | The driver counts the kernels if the caller asks for none, and makes as many as asked for otherwise. |
| `Arguments.BufferRead` | server/memory.cpp:72-105 | Offset and size reach the driver modulo 2^32, and the caller gets the bytes that were read. |
| `Arguments.BufferWritten` | server/memory.cpp:151-182 | The caller's bytes, as many as a 32-bit size can tell, and offset and blocking flag reach the driver. |
| `Arguments.BufferFilled` | server/memory.cpp:184-213 | The driver gets 128 bytes that begin with the pattern, and the pattern's length. |
| `Arguments.BufferMade` | server/memory.cpp:30-51 | Flags and size modulo 2^32, and the host data if there are any. |
| `Arguments.MemObjectQueried` | server/memory.cpp:215-262 | The queries 0x1106 and 0x1107 return objects; all others ask for the size and then for the bytes, of which the caller gets as many as an 8-bit size can tell. |
| `Arguments.PropertiesAreCallers` | server/context.cpp:60-82 | Key by key and value by value the driver gets the caller's properties, the platform object for key 0x1084, and a zero behind them; no list if there are none. |
| `Arguments.RefusedContext` | client/context.cpp:83-84 | A refused context is reported as -2, whatever the driver's error. |
| `Arguments.CallbackRegistered` | server/event.cpp:58-77 | The driver is given the number of the callback modulo 2^16. |
| `Endpoints.ServerInstance.ReadBuffer` | server/memory.cpp:72-105 | The handler as a method on its stream, tables and driver takes exactly the step of the protocol machine and stops at the next request. |
| `Endpoints.ServerInstance.WriteBuffer` | server/memory.cpp:151-182 | The same, with event list and payload read on the way. |
| `Endpoints.ServerInstance.SetKernelArg` | server/program.cpp:375-422 | The same for the dialogue; nothing is left in the write buffer when the handler blocks for the argument. |
| `Endpoints.ArgDialogueIsHandled` | server/program.cpp:375-422 | This dialogue is the two steps of the protocol machine. |
| `Endpoints.ArgAskedByAddressSpace` | server/program.cpp:390-415 | The handler asks 'I' for 0x119B and 0x119D, 'S' for 0x119C and 'P' for any other, and passes on the object, the size or the bytes of the answer. |
| `Endpoints.ServerInstance.CreateKernels` | server/program.cpp:322-356 | The same, with the loop that numbers the kernels; stuck exactly when a scan hangs or the list is longer than its prefix can tell. |
| `Endpoints.ServerInstance.ReadEvents` | server/memory.cpp:76-83 | The loop over the event list yields the objects of its IDs in order. |
| `Endpoints.ServerInstance.GetIdsFor` | server/program.cpp:350-355 | The loop that numbers a list of objects. |
| `Endpoints.Connection.EnqueueReadBuffer` | client/memory.cpp:139-187 | The call as a method: the request with its event list, flushed, then event and data or an error, the event registered. |
| `Endpoints.ReadRequested` | client/memory.cpp:145-176 | What it writes is the request of the protocol machine, and fits its fields if and only if that does. |
| `Endpoints.ReadHeard` | client/memory.cpp:177-186 | So is what becomes of the replies. |
| `Endpoints.ReadIsAnswered` | server/memory.cpp:72-105 | The replies that the call is given are what the handler sends, whatever the driver answers. |
| `Losses.RefusedCallback` | server/event.cpp:70-73 | Concrete driver answer and arguments that lose the session. |
| `Losses.UnreadEventListOfRead` | server/image.cpp:99-112 | The same for reading an image. |
| `Losses.UnreadEventListOfWrite` | server/image.cpp:150-163 | The same for writing an image. |
| `Losses.WrongArgumentSize` | client/kernel.cpp:118-135 | The same for a kernel argument of four bytes where the driver expects a memory object. |
| `Losses.StaleSuccessIsMisread` | common/packetstream.h:44-44 | After a refused registration, a next call that awaits an object fails the assertion on the packet type. |
| `Losses.StaleSuccessIsBelieved` | client/memory.cpp:455-471 | And one that awaits success reports success although it failed, leaving its own reply to the call after it. |
| `Tables.ServerTable.GetIdFor` | server/instance.h:116-127 | Finds or inserts; never returns exactly when the object is not among the first 65536 entries of a table that has at least so many. |
| `Protocol.ScanHangsIff` | server/instance.h:116-127 | The scan of the protocol machine hangs on the same condition. |
| `Tables.ServerTable.GetObject` | server/instance.h:130-135 | The object, or null beyond the table. |
| `Tables.InternKeeps` | server/instance.h:116-127 | Interning keeps the table free of duplicates and changes no ID and no entry given out before. |
| `Tables.IdsAndObjects` | server/instance.h:116-135 | `getObj(getIDFor(x)) == x`, and `getIDFor(getObj(i)) == i` for every ID in use. |
| `Tables.ClientTable.RegisterId` | client/connection.h:108-117 | A new client object in its slot, the table grown with empty slots as needed. |
| `Tables.ClientTable.GetOrInsertObject` | client/connection.h:119-126 | The object in the slot if there is a slot, a new one otherwise. |
| `Tables.ReceivedIdKeepsAgreement` | client/connection.h:108-126 | Receiving an ID that the server gave keeps both tables of equal length and without holes. |
| `Tables.RegisterDestroysIffKnown` | client/connection.h:108-117 | A client object is destroyed by a registration if and only if the driver returned an object the server already knew; `getOrInsertObject` destroys nothing. |
| `Tables.LookupFindsIffKnown` | client/program.cpp:364-367 | A lookup without insertion finds an object if and only if the server knew it before. |
| `Tables.UnclaimedIdLeavesHole` | client/context.cpp:158-174 | An ID that the client never takes up leaves a null entry behind the next registration. |
| `Mirrors.UnclaimedIds` | client/context.cpp:158-174 | After a query that takes up only some of the IDs the tables agree if and only if the others were known. |
| `Mirrors.TablesMirrored` | server/instance.h:116-138 | After any calls: equal lengths, no empty slot, no duplicate, and the server's table only extended. |
| `Mirrors.SessionMirrored` | client/connection.h:108-127 | The same of every run over the connection, at every call boundary. |
| `Mirrors.ConnectionStarts` | client/connection.h:66-79 | A new connection is a state from which all of this holds. |
| `Mirrors.HandlesResolve` | client/objects.h:217-221 | Every handle ever returned has an ID that the server resolves, then and at every later time, to the driver's object it was made for. |
| `Mirrors.HandleLives` | client/connection.h:108-117 | A client object survives any sequence of calls if and only if none of them registers the same driver object anew. |
| `Mirrors.KernelArgIsCallers` | client/kernel.cpp:118-135 | By the address space the driver reports it gets the object behind the caller's handle, the size, or the bytes. |
| `Mirrors.PropertiesReachDriver` | server/context.cpp:60-82 | What the driver gets is the caller's property list with platform handles mapped through the ID table. |
| `Mirrors.RoomWhenFew` | server/instance.h:120-127 | With at most 65536 different driver objects the scan always ends. |
| `Threads.Linearises` | client/connection.h:82-91 | Every interleaving of any number of threads under the lock, each deciding its next call from its replies so far, equals the sequential execution in the order of the lock. |
| `Threads.OwnReplies` | client/memory.cpp:326-337 | Each thread receives exactly the replies to its own calls, in order. |
| `Threads.SomeThreadMoves` | client/connection.h:82-91 | A free lock can be taken and a held one moves on to its release. |
| `Concurrency.ThreadsGetTheirOwnReplies` | client/event.cpp:138-147 | For the calls of this project: each thread's replies are its share of the replies of the local execution. |
| `Concurrency.SomeCallMoves` | client/connection.h:82-91 | And the threads are never all stuck. |
| `Contexts.PropertiesRebuilt` | server/context.cpp:60-77 | The server rebuilds the caller's property list word for word, the platform handle mapped through the ID table. |
| `Contexts.FlattenProperties` | client/context.cpp:50-64 | The client's loop computes the flattened list. |
| `Contexts.RebuildProperties` | server/context.cpp:60-80 | The server's loop computes the rebuilt list, terminated unless empty. |
| `Mappings.MemObject.MapBuffer` | client/memory.cpp:88-136 | Flags 0 to 3 succeed, 1 and 3 only if the read does; a failure changes nothing, a success adds one mapping, holding what was read, and one reference. |
| `Mappings.MemObject.UnmapMemObject` | client/memory.cpp:254-293 | An unknown pointer, a failing write (flags 2 and 3) or a refused event (flags 0 and 1) changes nothing; a success removes mapping and reference, and writes the bytes back exactly for flags 2 and 3. |
| `Mappings.MemObject.GetMapping` | client/objects.h:148-160 | The first mapping at the pointer, or none. |
| `Mappings.MemObject.DropMapping` | client/objects.h:162-173 | Removes exactly the first mapping at the pointer. |
| `Mappings.MapEditUnmap` | client/memory.cpp:88-345 | Map, edit, unmap for all flags: with 2 and 3 the buffer holds the edited bytes inside [offset, offset+size) and is unchanged outside, for 32-bit sizes and offsets; with 0 and 1 it is unchanged; with 1 and 3 the memory holds the buffer's bytes at first. |
| `Mappings.WrittenBackIff` | client/memory.cpp:322-322 | Every accepted write-back of a mapping that is not empty goes to the mapped range and nowhere else if and only if offset and size fit 32 bits (or the server refuses them all); an empty mapping is harmless if and only if it starts within the buffer. |
| `Mappings.LargeMappingIsNotWrittenBack` | client/memory.cpp:322-322 | Beyond 32 bits some edit to the last byte of the mapping is always lost. |
| `Mappings.MapCount` | client/memory.cpp:99-133 | After any sequence of maps and unmaps, failing, repeated and unknown ones included, references due to mappings equal the number of mappings. |
| `Mappings.ReadBufferFetches` | server/memory.cpp:72-105 | The device used for mappings answers reads as the modelled call does. |
| `Mappings.WriteBufferStores` | server/memory.cpp:151-182 | And stores writes as the modelled call does. |
| `Callbacks.CallIsExact` | server/event.cpp:48-56 | The invoked callback and status are the registered ones if and only if the registration is among the first 65536 and the status within 16 bits. |
| `Callbacks.EventStreamStaysAligned` | client/connection.cpp:55-80 | Under any interleaving of registrations, triggers and deliveries the event stream stays packet-aligned and calls follow triggers one by one. |
| `Callbacks.NoInvalidTrigger` | client/connection.cpp:64-68 | The branch for an invalid trigger is unreachable. |
| `Callbacks.CallbacksInTriggerOrder` | client/event.cpp:44-48 | With at most 65536 registrations and 16-bit status codes, the calls are the triggers in order, each to its callback with its status. |
| `Callbacks.NoTriggerIsLost` | client/connection.cpp:82-98 | When everything has arrived and the thread waits, every trigger has been answered. |
| `Callbacks.ErrorStatusIsDistorted` | server/event.cpp:55-55 | A negative status arrives as another number. |
| `Callbacks.TriggerEventCallback` | server/event.cpp:48-56 | Appends index and status as two packets and flushes them. |
| `Callbacks.HandleCallbacks` | client/connection.cpp:55-80 | One round calls the right callback with the right status and leaves the stream at the next trigger. |
| `Callbacks.CallbackThreadMain` | client/connection.cpp:82-98 | The loop makes one call per trigger, in order, until the stream ends. |
| `EventStreams.CreateEventStream` | server/instance.cpp:86-125 | At most 16 attempts; replies the port, or 0, or both when accepting fails; hangs exactly when a port was bound and the client never connects to it. |
| `EventStreams.PortIsBound` | server/instance.cpp:97-108 | The port told to the client is the one of the attempt that was bound, after attempts that found theirs in use. |
| `EventStreams.BoundIff` | server/instance.cpp:94-124 | A port is bound if and only if one of 16 attempts binds before any breaks. |
| `EventStreams.TwoRepliesIff` | server/instance.cpp:110-124 | A second reply follows the first if and only if a port was bound and accepting on it failed. |
| `EventStreams.NextCallAnsweredIff` | client/connection.cpp:146-167 | The next call gets its own reply if and only if no port was bound or the client connects to it. |
| `EventStreams.NextCallHangsIff` | server/instance.cpp:109-111 | It waits for ever if and only if a port was bound and the client never connects, as when it tries before the server listens. |
| `EventStreams.SecondReplyIsMisread` | server/instance.cpp:110-124 | After a second reply the next call meets a packet of the wrong type. |
| `Rectangles.DataSizeIs` | server/memory.cpp:121-123 | The memory has slice pitch times depth bytes; with slice pitch zero, height times row pitch times depth; with both zero, the product of the region; modulo 2^64. |
| `Rectangles.RegionInsideIffNoOverflow` | server/memory.cpp:120-123 | With the host origin at zero and the pitches given or the tightest, byte (x, y, z) at z * slice + y * row + x has a place of its own, and inside the memory if and only if slice * depth does not overflow 64 bits. |
| `Rectangles.OriginMustFitTheFirstSlice` | server/memory.cpp:120-139 | For any host origin: inside if and only if the region starts in slice 0 and its last row ends within one slice. |
| `Rectangles.ShiftedRegionIsOutside` | server/memory.cpp:120-139 | A concrete region that is written outside the allocation. |
| `Handshake.VersionPacket.constructor` | common/packets/version.h:31-49 | Fills in the advertised bytes. |
| `Handshake.VersionPacket.FeatureEnabled` | common/packets/version.cpp:26-38 | Finds a feature letter exactly if it occurs behind the software version. |
| `Handshake.VersionPacket.IsCompatibleWith` | common/packets/version.cpp:40-58 | Equal software version and equal compression feature. |
| `Handshake.CompatibleIsEquivalence` | common/packets/version.cpp:40-58 | An equivalence relation on all version packets. |
| `Handshake.BuildsConnectIff` | common/packets/version.h:31-49 | Two builds connect if and only if version, ID width and zlib agree, whatever the event flag. |
| `Handshake.ConnectedBuildsUnderstand` | common/packets/version.cpp:40-58 | Builds that connect read each other's packets, whose fields depend on the width of an ID. |
| `Handshake.IdReadIffWidthsAgree` | common/packets/version.h:36-36 | An ID is read back whole if and only if the builds agree on its width. |
| `Handshake.OtherBuildsDoNot` | common/packets/payload.h:94-96 | Without the check a zlib build waits for bytes that a build without zlib never sends. |

## Left out

- Sockets, name resolution, process and thread creation, command line and environment: only the contract of send and receive is kept. A send is taken to succeed in full; a failed send ends the connection.
- Connection loss and allocation failure in the middle of a call, and recovery from them. Reads at the end of the connection are covered at the level of the stream and the packets, not in the sessions.
- The OpenCL driver: an oracle for results and errors, plus an array of bytes for mapped buffers.
- Compression: any function that may fail on any input and is undone by decompression where it does not.
- Dispatch tables and the layout of client objects: a client object is its ID and a serial number.
- Info queries other than those on memory objects, queue and sub-buffer calls, programs from source, linking and compiling as calls: they repeat shapes that are covered, one request and one reply.
- Rectangular buffer transfers as calls: they are buffer transfers with more fields; the size of their memory is in `Rectangles`.
- Callbacks of program builds, which the server never triggers in a usable way, and header lists of compile calls.
- User callbacks that call back into the API while the callback mutex is held.
- Builds for OpenCL below 2.1, whose stub handlers do not read their request.
- Checks of arguments that the client makes before it touches the connection: a call that fails them sends nothing and is no call in the model.
- The client's calls and the server's handlers are given by `Protocol` as steps of two concurrent machines, with the order, branching and state of the code. As methods on streams, tables and driver they are given, and proved to take these steps, only for the five calls and handlers in `Endpoints`; the others have the same parts.
- Sessions.CallRefines: a payload of 2^32 bytes or more is cut to its size modulo 2^32 as in an uncompressed payload; a compressor that shrinks such data, whose uncompressed size is then cut as well, is not modelled.
- Breakdowns.BreaksDownIff: whether a packet is of the awaited type is judged by its type as sent. Two payload packets with different fields share a type byte, and there the code reads on with wrong data instead of failing.
- Threads.SomeThreadMoves: says that some thread can move, not which one the mutex will favour.
- Callbacks.EventStreamStaysAligned: a registration is taken to be known to the server at any time after the client has made it, whether or not the driver accepts it; only accepted ones fire.
- EventStreams.NextCallAnsweredIff: leaves out a next call that awaits a payload in a build with zlib, where the stale reply makes the decompressor work on arbitrary bytes.
- EventStreams.NextCallHangsIff: leaves out a next call that awaits a payload, which a second reply can leave waiting for bytes as well.
- Uses of `PayloadInto` with a destination that is too small for what the server announces: the memory is required to be large enough, as the code does.
