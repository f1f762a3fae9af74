/**
  The API calls of the client and the handlers of the server, as two state machines.

  A client call writes its request packets, flushes, and then reads a fixed list of replies; two of
  these replies (`WantMode` and `WantSize`) make it send something more. A handler of the server
  reads its request, reads further packets as the request demands, calls the driver, and replies.
  The driver is an oracle: its n-th call has the n-th answer.
 */
module Protocol {
  import opened Options
  import opened Bytes
  import opened Codec
  import opened Packets
  import opened Lockstep
  import opened Wire
  import opened Tables
  import opened Contexts

  /** Conversion to a 32-bit unsigned integer. */
  function Word(n: nat): word { n % 0x1_0000_0000 }

  function Flag(b: bool): nat { if b then 1 else 0 }

  /** The first `n` bytes found at a pointer to `bs`; reading on is undefined, and zeros here. */
  function Resized(bs: seq<byte>, n: nat): (r: seq<byte>)
    ensures |r| == n
  {
    if n <= |bs| then bs[..n] else bs + seq(n - |bs|, i => 0)
  }

  // ---- the driver ----

  datatype Fn =
    | CreateContextFn | CreateBufferFn | CreateKernelFn | CreateUserEventFn | PlatformCountFn | PlatformsFn
    | RetainFn | ReleaseFn | MemInfoObjectFn | MemInfoSizeFn | MemInfoFn
    | ReadBufferFn | WriteBufferFn | FillBufferFn | EnqueueKernelFn | WaitFn
    | CreateImageFn | ElementSizeFn | ReleaseImageFn | ReadImageFn | WriteImageFn
    | ArgInfoFn | SetArgMemFn | SetArgLocalFn | SetArgBytesFn
    | CountKernelsFn | CreateKernelsFn | CreateProgramFn | BuildProgramFn | SetCallbackFn

  datatype DriverCall = DriverCall(
    fn: Fn, objects: seq<Obj>, numbers: seq<nat>, blobs: seq<seq<byte>>, events: seq<Obj>)

  /** An error code (0 is CL_SUCCESS) and the results of a call. */
  datatype Answer = Answer(err: word, obj: Obj, event: Obj, objs: seq<Obj>, num: nat, data: seq<byte>)

  type Oracle = nat -> Answer

  // ---- the client ----

  /** `mem` is the ID of the memory object that `bytes` points to, if it is a cl_mem. */
  datatype KernelArg = KernelArg(size: nat, bytes: seq<byte>, mem: nat)

  const SIZEOF_CL_MEM: nat := 8
  const MODE_ID: nat := 73        // 'I'
  const MODE_SIZE: nat := 83      // 'S'
  const MODE_PAYLOAD: nat := 80   // 'P'

  /** An API call. Objects are given by their IDs, events to wait for as a list of IDs. */
  datatype Call =
    | GetPlatformIds
    | CreateContext(properties: seq<nat>, devices: seq<nat>)
    | CreateKernel(program: nat, name: seq<nat>)
    | CreateUserEvent(context: nat)
    | CreateBuffer(context: nat, flags: nat, size: nat, hostData: Option<seq<byte>>)
    | RefCount(retain: bool, objTy: nat, id: nat)
    | MemObjectInfo(mem: nat, param: nat)
    | ReadBuffer(queue: nat, mem: nat, offset: nat, size: nat, blocking: bool, wait: seq<nat>, want: bool)
    | WriteBuffer(queue: nat, mem: nat, offset: nat, data: seq<byte>, blocking: bool, wait: seq<nat>, want: bool)
    | FillBuffer(queue: nat, mem: nat, offset: nat, size: nat, pattern: seq<byte>, wait: seq<nat>, want: bool)
    | EnqueueKernel(queue: nat, kernel: nat, dim: nat, global: seq<nat>, globalOffset: seq<nat>,
                    local: Option<seq<nat>>, wait: seq<nat>, want: bool)
    | WaitForEvents(wait: seq<nat>)
    | CreateImage(context: nat, flags: nat, desc: seq<nat>, host: seq<byte>)
    | ReadImage(queue: nat, mem: nat, origin: seq<nat>, region: seq<nat>, pitches: seq<nat>, blocking: bool,
                wait: seq<nat>, want: bool)
    | WriteImage(queue: nat, mem: nat, origin: seq<nat>, region: seq<nat>, pitches: seq<nat>, blocking: bool,
                 host: seq<byte>, wait: seq<nat>, want: bool)
    | SetKernelArg(kernel: nat, index: nat, arg: KernelArg)
    | CreateKernels(program: nat, count: nat)
    | CreateProgram(context: nat, devices: seq<nat>, binaries: seq<seq<byte>>)
    | BuildProgram(program: nat, options: seq<nat>, devices: seq<nat>)
    | SetEventCallback(event: nat, callback: nat, kind: nat)

  /** The replies that a call reads, in order. `registers` tells registerID from getOrInsertObject. */
  datatype Want =
    | WantSuccess
    | WantId(registers: bool)
    | WantContext                     // an ID to register, by a caller that does not look at error codes
    | WantIds(registers: bool)
    | WantData(sizeWidth: nat)
    | WantNumber(width: nat)
    | WantMode(arg: KernelArg)        // the server says how it wants the kernel argument
    | WantSize(host: seq<byte>)       // the server says how much image data it wants

  /** What the caller gets: an error code, or 0 and the results. */
  datatype Reply = Reply(code: nat, handles: seq<Option<Handle>>, data: seq<byte>, number: nat)

  const NOTHING := Reply(0, [], [], 0)

  datatype Cli = Cli(wants: seq<Want>, reply: Reply, slots: Slots, out: seq<Reply>) {
    function Return(r: Reply): Cli { this.(wants := [], reply := NOTHING, out := out + [r]) }

    /** The awaited reply has come; the call returns if it was the last. */
    function Next(r: Reply): Cli
      requires wants != []
    {
      if |wants| == 1 then Return(r) else this.(wants := wants[1..], reply := r)
    }
  }

  function Numbered(tag: byte, schema: Schema, ns: seq<nat>): Packet { Packet(Format(tag, schema), Numbers(ns)) }
  function WaitList(wait: seq<nat>): seq<Packet> { if wait == [] then [] else [IdListPacket(wait)] }

  function Three(ns: seq<nat>): seq<nat> { [At(ns, 0), At(ns, 1), At(ns, 2)] }
  function At(ns: seq<nat>, i: nat): word { if i < |ns| then Word(ns[i]) else 0 }

  /** Work sizes: the given dimensions, and a default for the rest. */
  function Dim(ns: seq<nat>, dim: nat, i: nat, default: word): word { if i < dim then At(ns, i) else default }

  function BinaryPackets(binaries: seq<seq<byte>>): seq<Packet> {
    seq(|binaries|, i requires 0 <= i < |binaries| => PayloadPacket(4, binaries[i]))
  }

  function ClippedAll(binaries: seq<seq<byte>>): seq<seq<byte>> {
    seq(|binaries|, i requires 0 <= i < |binaries| => Clipped(4, binaries[i]))
  }

  const CL_MEM_COPY_HOST_PTR: nat := 32
  predicate CopiesHost(flags: nat) { flags / CL_MEM_COPY_HOST_PTR % 2 == 1 }

  const CL_MEM_CONTEXT: nat := 0x1106
  const CL_MEM_ASSOCIATED_MEMOBJECT: nat := 0x1107
  predicate IsObjectParam(param: nat) { param == CL_MEM_CONTEXT || param == CL_MEM_ASSOCIATED_MEMOBJECT }

  /** The packets a call writes before its first read. */
  function Request(call: Call): seq<Packet> {
    match call
    case GetPlatformIds => [Packet(Signal(GET_PLATFORM_IDS), Vs([]))]
    case CreateContext(properties, devices) => [Packet(CONTEXT_FORMAT, Vs([Numbers(properties), Numbers(devices)]))]
    case CreateKernel(program, name) => [Packet(Format(CREATE_KERNEL, ID_TEXT), Vs([N(program), Numbers(name)]))]
    case CreateUserEvent(context) => [Packet(Simple(CREATE_USER_EVENT, 2), N(context))]
    case CreateBuffer(context, flags, size, host) =>
      [Packet(CREATE_BUFFER_FORMAT, Numbers([Word(flags), Word(size), context, Flag(host.Some?)]))]
      + (if host.Some? then [PayloadOf(4, host.value)] else [])
    case RefCount(retain, objTy, id) => [Numbered(if retain then RETAIN else RELEASE, REF_COUNT, [objTy, id])]
    case MemObjectInfo(mem, param) => [Numbered(GET_MEM_OBJ_INFO, ID_PARAM, [param, mem])]
    case ReadBuffer(queue, mem, offset, size, blocking, wait, want) =>
      [ReadRequest(queue, mem, offset, size, blocking, wait, want)] + WaitList(wait)
    case WriteBuffer(queue, mem, offset, data, blocking, wait, want) =>
      [Numbered(WRITE_BUFFER, BUFFER_RW,
         [mem, queue, Word(|data|), Word(offset), Flag(want), Flag(wait != []), Flag(blocking)])]
      + WaitList(wait) + [PayloadOf(4, data)]
    case FillBuffer(queue, mem, offset, size, pattern, wait, want) =>
      [Packet(FILL_BUFFER_FORMAT,
         Vs([N(mem), N(queue), N(Word(size)), N(Word(offset)), N(|pattern|), N(Flag(want)), N(Flag(wait != [])),
             B(Resized(pattern, 128))]))]
      + WaitList(wait)
    case EnqueueKernel(queue, kernel, dim, global, globalOffset, local, wait, want) =>
      var ls := if local.Some? then local.value else [1, 1, 1];
      [Packet(ENQUEUE_KERNEL_FORMAT, Numbers([kernel, queue, dim,
         Dim(global, dim, 0, 1), Dim(global, dim, 1, 1), Dim(global, dim, 2, 1),
         Dim(globalOffset, dim, 0, 0), Dim(globalOffset, dim, 1, 0), Dim(globalOffset, dim, 2, 0),
         Dim(ls, dim, 0, 1), Dim(ls, dim, 1, 1), Dim(ls, dim, 2, 1), Flag(want), Flag(wait != [])]))]
      + WaitList(wait)
    case WaitForEvents(wait) => [Packet(Signal(WAIT_EVENTS), Vs([])), IdListPacket(wait)]
    case CreateImage(context, flags, desc, _) =>
      [Packet(CREATE_IMAGE_FORMAT, Numbers([Word(flags), At(desc, 0), At(desc, 1), At(desc, 2), At(desc, 3),
         At(desc, 4), At(desc, 5), At(desc, 6), At(desc, 7), At(desc, 8), At(desc, 9), At(desc, 10), context]))]
    case ReadImage(queue, mem, origin, region, pitches, blocking, wait, want) =>
      [ImageRequest(READ_IMAGE, queue, mem, origin, region, pitches, blocking, wait, want)] + WaitList(wait)
    case WriteImage(queue, mem, origin, region, pitches, blocking, _, wait, want) =>
      [ImageRequest(WRITE_IMAGE, queue, mem, origin, region, pitches, blocking, wait, want)] + WaitList(wait)
    case SetKernelArg(kernel, index, _) => [Packet(KERNEL_ARG_FORMAT, Numbers([kernel, Word(index)]))]
    case CreateKernels(program, count) => [Packet(CREATE_KERNELS_FORMAT, Numbers([program, Word(count)]))]
    case CreateProgram(context, devices, binaries) =>
      [Packet(Simple(CREATE_BINARY_PROGRAM, 2), N(context)), IdListPacket(devices)]
        + BinaryPackets(ClippedAll(binaries))
    case BuildProgram(program, options, devices) =>
      [Packet(Format(BUILD_PROGRAM, ID_TEXT), Vs([N(program), Numbers(options)])), IdListPacket(devices)]
    case SetEventCallback(event, callback, kind) =>
      [Packet(REGISTER_FORMAT, Numbers([event, callback % ID_RANGE, Word(kind)]))]
  }

  function ReadRequest(queue: nat, mem: nat, offset: nat, size: nat, blocking: bool, wait: seq<nat>,
                       want: bool): Packet {
    Numbered(READ_BUFFER, BUFFER_RW,
             [mem, queue, Word(size), Word(offset), Flag(want), Flag(wait != []), Flag(blocking)])
  }

  function ImageRequest(tag: byte, queue: nat, mem: nat, origin: seq<nat>, region: seq<nat>, pitches: seq<nat>,
                        blocking: bool, wait: seq<nat>, want: bool): Packet {
    Numbered(tag, IMAGE_RW, [mem, queue, At(origin, 0), At(origin, 1), At(origin, 2),
      At(region, 0), At(region, 1), At(region, 2), At(pitches, 0), At(pitches, 1),
      Flag(want), Flag(wait != []), Flag(blocking)])
  }

  function EventWanted(want: bool): seq<Want> { if want then [WantId(true)] else [] }

  function Wants(call: Call): (ws: seq<Want>)
    ensures ws != []
  {
    match call
    case GetPlatformIds => [WantIds(false)]
    case CreateContext(_, _) => [WantContext]
    case CreateKernel(_, _) => [WantId(true)]
    case CreateUserEvent(_) => [WantId(true)]
    case CreateBuffer(_, _, _, _) => [WantId(false)]
    case RefCount(_, _, _) => [WantSuccess]
    case MemObjectInfo(_, param) => if IsObjectParam(param) then [WantId(false)] else [WantData(1)]
    case ReadBuffer(_, _, _, _, _, _, want) => EventWanted(want) + [WantData(4)]
    case WriteBuffer(_, _, _, _, _, _, want) => EventWanted(want) + [WantSuccess]
    case FillBuffer(_, _, _, _, _, _, want) => EventWanted(want) + [WantSuccess]
    case EnqueueKernel(_, _, _, _, _, _, _, want) => EventWanted(want) + [WantSuccess]
    case WaitForEvents(_) => [WantSuccess]
    case CreateImage(_, flags, _, host) =>
      if CopiesHost(flags) then [WantSize(host), WantId(false)] else [WantId(false)]
    case ReadImage(_, _, _, _, _, _, _, want) => EventWanted(want) + [WantData(4)]
    case WriteImage(_, _, _, _, _, _, host, _, want) => [WantSize(host), if want then WantId(true) else WantSuccess]
    case SetKernelArg(_, _, arg) => [WantMode(arg), WantSuccess]
    case CreateKernels(_, count) => if Word(count) == 0 then [WantNumber(4)] else [WantIds(true)]
    case CreateProgram(_, _, _) => [WantId(true), WantData(2)]
    case BuildProgram(_, _, _) => [WantSuccess]
    case SetEventCallback(_, _, _) => [WantSuccess]
  }

  function AwaitedFormat(w: Want): Format {
    match w
    case WantSuccess => SUCCESS_FORMAT
    case WantId(_) => ID_FORMAT
    case WantContext => ID_FORMAT
    case WantIds(_) => ID_LIST_FORMAT
    case WantData(width) => PayloadFormat(width)
    case WantNumber(width) => Simple(PAYLOAD, width)
    case WantMode(_) => Simple(PAYLOAD, 1)
    case WantSize(_) => Simple(PAYLOAD, 4)
  }

  function ClientAwaits(c: Cli): Format { if c.wants == [] then SUCCESS_FORMAT else AwaitedFormat(c.wants[0]) }

  function BeginCall(c: Cli, call: Call): Reaction<Packet, Cli> {
    Reaction(Request(call), true, c.(wants := Wants(call), reply := NOTHING))
  }

  /** The client object for a received ID. */
  function Pick(slots: Slots, id: nat, registers: bool): (Option<Handle>, Slots) {
    if registers then (Some(slots.Register(id).0), slots.Register(id).1) else slots.GetOrInsert(id)
  }

  function PickAll(slots: Slots, ids: seq<nat>, registers: bool): (seq<Option<Handle>>, Slots) {
    if ids == [] then ([], slots) else
    var (hs, s) := PickAll(slots, ids[..|ids| - 1], registers);
    var (h, s') := Pick(s, ids[|ids| - 1], registers);
    (hs + [h], s')
  }

  /** How the client answers when asked for a kernel argument. */
  function ArgPacket(arg: KernelArg, mode: nat): Packet {
    if mode == MODE_ID && arg.size == SIZEOF_CL_MEM then IdPacket(arg.mem)
    else if mode == MODE_SIZE then SmallPacket(4, Word(arg.size))
    else PayloadOf(4, Resized(arg.bytes, arg.size))
  }

  /** CL_DEVICE_NOT_AVAILABLE, which is -2, as a 32-bit word. */
  const CL_DEVICE_NOT_AVAILABLE: word := 0xFFFF_FFFE

  /** The code that a caller returns when the server replies with an error. */
  function CodeFor(w: Want, code: nat): nat { if w.WantContext? then CL_DEVICE_NOT_AVAILABLE else code }

  function ClientHandles(c: Cli, p: Packet): Reaction<Packet, Cli>
    requires c.wants != []
  {
    if p.format == ERROR_FORMAT then
      Reaction([], false, c.Return(c.reply.(code := CodeFor(c.wants[0], ValNum(p.body)))))
    else
      match c.wants[0]
      case WantSuccess => Reaction([], false, c.Next(c.reply))
      case WantId(registers) =>
        var (h, s) := Pick(c.slots, ValNum(p.body), registers);
        Reaction([], false, c.(slots := s).Next(c.reply.(handles := c.reply.handles + [h])))
      case WantContext =>
        var (h, s) := Pick(c.slots, ValNum(p.body), true);
        Reaction([], false, c.(slots := s).Next(c.reply.(handles := c.reply.handles + [h])))
      case WantIds(registers) =>
        var (hs, s) := PickAll(c.slots, ValNums(p.body), registers);
        Reaction([], false, c.(slots := s).Next(c.reply.(handles := c.reply.handles + hs)))
      case WantData(_) => Reaction([], false, c.Next(c.reply.(data := ValData(p.body))))
      case WantNumber(_) => Reaction([], false, c.Next(c.reply.(number := ValNum(p.body))))
      case WantMode(arg) => Reaction([ArgPacket(arg, ValNum(p.body))], true, c.Next(c.reply))
      case WantSize(host) => Reaction([PayloadPacket(4, Resized(host, ValNum(p.body)))], true, c.Next(c.reply))
  }

  // ---- the server ----

  /** Where a handler is: in the dispatch loop, or blocked in a read for the rest of a request. */
  datatype Stage =
    | Ready
    | AwaitsEvents(req: Packet, info: nat)
    | AwaitsList(req: Packet)
    | AwaitsData(req: Packet, info: nat, events: seq<Obj>)
    | AwaitsBinaries(req: Packet, devices: seq<Obj>, binaries: seq<seq<byte>>)
    | AwaitsArg(mode: nat, kernel: Obj, index: nat)

  datatype Srv = Srv(stage: Stage, table: seq<Obj>, log: seq<DriverCall>) {
    function Called(d: DriverCall): Srv { this.(log := log + [d]) }
    function Object(id: nat): Obj { GetObj(table, id) }
    function Objects(ids: seq<nat>): seq<Obj> { seq(|ids|, i requires 0 <= i < |ids| => GetObj(table, ids[i])) }
  }

  type Step = Option<Reaction<Packet, Srv>>

  /** What a step of the server sends is flushed before the next read. */
  predicate Orderly(st: Step) { st.Some? && st.value.send != [] ==> st.value.flush }

  function Next(o: Oracle, s: Srv): Answer { o(|s.log|) }

  function Finish(s: Srv, replies: seq<Packet>): Step { Some(Reaction(replies, true, s.(stage := Ready))) }
  function Wait(s: Srv, stage: Stage): Step { Some(Reaction([], false, s.(stage := stage))) }
  function AskClient(s: Srv, p: Packet, stage: Stage): Step { Some(Reaction([p], true, s.(stage := stage))) }

  /** The ID of an object, unless the scan of the table hangs. */
  function IdFor(table: seq<Obj>, x: Obj): Option<(nat, seq<Obj>)> {
    if Find(table, x) < ID_RANGE then Some(Intern(table, x)) else None
  }

  function IdsFor(table: seq<Obj>, xs: seq<Obj>): Option<(seq<nat>, seq<Obj>)> {
    if xs == [] then Some(([], table)) else
    match IdsFor(table, xs[..|xs| - 1])
    case None => None
    case Some((ids, t)) =>
      match IdFor(t, xs[|xs| - 1])
      case None => None
      case Some((id, t')) => Some((ids + [id], t'))
  }

  /** The scan ends unless the table is full and the object is not among those that have an ID. */
  lemma ScanHangsIff(table: seq<Obj>, x: Obj)
    ensures IdFor(table, x) == None <==> ID_RANGE <= |table| && x !in table[..ID_RANGE]
  {
    var i := Find(table, x);
    if ID_RANGE <= |table| && i < ID_RANGE {
      assert table[..ID_RANGE][i] == x;
    }
  }

  lemma {:induction false} IdsForIsInternAll(table: seq<Obj>, xs: seq<Obj>)
    ensures IdsFor(table, xs).Some? ==> IdsFor(table, xs).value == InternAll(table, xs)
    ensures IdsFor(table, xs).Some? <==> forall i :: 0 <= i < |xs| ==> InternAll(table, xs).0[i] < ID_RANGE
  {
    if xs != [] {
      var n := |xs| - 1;
      IdsForIsInternAll(table, xs[..n]);
      var (ids, t) := InternAll(table, xs[..n]);
      assert InternAll(table, xs).0 == ids + [Intern(t, xs[n]).0];
      assert forall i :: 0 <= i < n ==> InternAll(table, xs).0[i] == ids[i];
    }
  }

  /** Replies with an error, or with the ID of the created object. */
  function FinishId(s: Srv, a: Answer): (st: Step)
    ensures Orderly(st)
  {
    if a.err != 0 then Finish(s, [ErrorPacket(a.err)]) else
    match IdFor(s.table, a.obj)
    case None => None
    case Some((id, t)) => Finish(s.(table := t), [IdPacket(id)])
  }

  function FinishIds(s: Srv, xs: seq<Obj>): (st: Step)
    ensures Orderly(st)
  {
    match IdsFor(s.table, xs)
    case None => None
    case Some((ids, t)) => Finish(s.(table := t), [IdListPacket(ids)])
  }

  function FinishSuccess(s: Srv, a: Answer): (st: Step)
    ensures Orderly(st)
  {
    Finish(s, [if a.err != 0 then ErrorPacket(a.err) else SuccessPacket()])
  }

  /** The end of a command: an error, or the event if the client wants it, and then `last`. */
  function FinishCommand(s: Srv, a: Answer, want: bool, last: seq<Packet>): (st: Step)
    ensures Orderly(st)
  {
    if a.err != 0 then Finish(s, [ErrorPacket(a.err)])
    else if !want then Finish(s, last)
    else
      match IdFor(s.table, a.event)
      case None => None
      case Some((id, t)) => Finish(s.(table := t), [IdPacket(id)] + last)
  }

  // Positions of the fields that the handlers look at.
  function WantsEvent(req: Packet): bool {
    var tag := req.format.tag;
    FieldNum(req, if tag == FILL_BUFFER then 5 else if tag == ENQUEUE_KERNEL then 12
                  else if tag == READ_IMAGE || tag == WRITE_IMAGE then 10 else 4) != 0
  }

  function ExpectsEvents(req: Packet): bool {
    var tag := req.format.tag;
    FieldNum(req, if tag == FILL_BUFFER then 6 else if tag == ENQUEUE_KERNEL then 13
                  else if tag == READ_IMAGE || tag == WRITE_IMAGE then 11 else 5) != 0
  }

  /** Bytes of the image region of a request, for a given element size. */
  function RegionSize(req: Packet, element: nat): nat {
    element * FieldNum(req, 5) * FieldNum(req, 6) * FieldNum(req, 7)
  }

  function OneIfZero(n: nat): nat { if n == 0 then 1 else n }

  /** Bytes of a whole image, from its width, height and depth. */
  function ImageSize(req: Packet, element: nat): nat {
    element * OneIfZero(FieldNum(req, 4)) * OneIfZero(FieldNum(req, 5)) * OneIfZero(FieldNum(req, 6))
  }

  const CL_KERNEL_ARG_ADDRESS_GLOBAL: nat := 0x119B
  const CL_KERNEL_ARG_ADDRESS_LOCAL: nat := 0x119C
  const CL_KERNEL_ARG_ADDRESS_CONSTANT: nat := 0x119D

  function ModeFor(qualifier: nat): nat {
    if qualifier == CL_KERNEL_ARG_ADDRESS_GLOBAL || qualifier == CL_KERNEL_ARG_ADDRESS_CONSTANT then MODE_ID
    else if qualifier == CL_KERNEL_ARG_ADDRESS_LOCAL then MODE_SIZE
    else MODE_PAYLOAD
  }

  /** " -cl-kernel-arg-info" */
  const ARG_INFO_OPTION: seq<nat> :=
    [45, 99, 108, 45, 107, 101, 114, 110, 101, 108, 45, 97, 114, 103, 45, 105, 110, 102, 111]

  predicate Contains(text: seq<nat>, part: seq<nat>) {
    |part| <= |text| && (text[..|part|] == part || (text != [] && Contains(text[1..], part)))
  }

  function WithArgInfo(options: seq<nat>): seq<nat> {
    if Contains(options, ARG_INFO_OPTION) then options else options + [32] + ARG_INFO_OPTION
  }

  /** The driver is always asked to keep information on kernel arguments, and never twice. */
  lemma ArgInfoRequestedOnce(options: seq<nat>)
    ensures options <= WithArgInfo(options) && Contains(WithArgInfo(options), ARG_INFO_OPTION)
    ensures WithArgInfo(options) == options <==> Contains(options, ARG_INFO_OPTION)
    ensures WithArgInfo(WithArgInfo(options)) == WithArgInfo(options)
  {
    ContainsSuffix(options + [32], ARG_INFO_OPTION);
  }

  lemma {:induction false} ContainsSuffix(before: seq<nat>, part: seq<nat>)
    ensures Contains(before + part, part)
  {
    if before == [] {
      assert (before + part)[..|part|] == part;
    } else {
      assert (before + part)[1..] == before[1..] + part;
      ContainsSuffix(before[1..], part);
    }
  }

  function ImageParams(req: Packet, flags: nat): seq<nat> {
    [flags, FieldNum(req, 1), FieldNum(req, 2), FieldNum(req, 3), FieldNum(req, 4), FieldNum(req, 5), FieldNum(req, 6),
     FieldNum(req, 7), FieldNum(req, 8), FieldNum(req, 9), FieldNum(req, 10), FieldNum(req, 11)]
  }

  function RegionParams(req: Packet): seq<nat> {
    [FieldNum(req, 12), FieldNum(req, 2), FieldNum(req, 3), FieldNum(req, 4), FieldNum(req, 5), FieldNum(req, 6),
     FieldNum(req, 7), FieldNum(req, 8), FieldNum(req, 9)]
  }

  function KernelParams(req: Packet): seq<nat> {
    [FieldNum(req, 2), FieldNum(req, 3), FieldNum(req, 4), FieldNum(req, 5), FieldNum(req, 6), FieldNum(req, 7),
     FieldNum(req, 8)]
    // A local size that starts with zero stands for none.
    + if FieldNum(req, 9) == 0 then [] else [FieldNum(req, 9), FieldNum(req, 10), FieldNum(req, 11)]
  }

  /** The handlers that take an event list, once they have it. */
  ghost function Command(o: Oracle, s: Srv, req: Packet, info: nat, events: seq<Obj>): (st: Step)
    ensures Orderly(st)
  {
    var tag, first, queue := req.format.tag, s.Object(FieldNum(req, 0)), s.Object(FieldNum(req, 1));
    if tag == READ_BUFFER then
      FinishCommand(
        s.Called(DriverCall(ReadBufferFn, [queue, first], [FieldNum(req, 3), FieldNum(req, 2)], [], events)),
        Next(o, s), WantsEvent(req), [PayloadPacket(4, Resized(Next(o, s).data, FieldNum(req, 2)))])
    else if tag == FILL_BUFFER then
      FinishCommand(
        s.Called(DriverCall(FillBufferFn, [queue, first], [FieldNum(req, 4), FieldNum(req, 3), FieldNum(req, 2)],
                            [ValData(Field(req, 7))], events)),
        Next(o, s), WantsEvent(req), [SuccessPacket()])
    else if tag == ENQUEUE_KERNEL then
      FinishCommand(s.Called(DriverCall(EnqueueKernelFn, [queue, first], KernelParams(req), [], events)),
                    Next(o, s), WantsEvent(req), [SuccessPacket()])
    else if tag == READ_IMAGE then
      FinishCommand(s.Called(DriverCall(ReadImageFn, [queue, first], RegionParams(req), [], events)),
                    Next(o, s), WantsEvent(req), [PayloadOf(4, Resized(Next(o, s).data, RegionSize(req, info)))])
    else if tag == WRITE_IMAGE then
      AskClient(s, SmallPacket(4, Word(RegionSize(req, info))), AwaitsData(req, info, events))
    else
      Wait(s, AwaitsData(req, info, events))   // WriteBuffer
  }

  ghost function EventsThen(o: Oracle, s: Srv, req: Packet, info: nat): (st: Step)
    ensures Orderly(st)
  {
    if ExpectsEvents(req) then Wait(s, AwaitsEvents(req, info)) else Command(o, s, req, info, [])
  }

  ghost function MakeBuffer(o: Oracle, s: Srv, req: Packet, blobs: seq<seq<byte>>): (st: Step)
    ensures Orderly(st)
  {
    FinishId(s.Called(DriverCall(CreateBufferFn, [s.Object(FieldNum(req, 2))], [FieldNum(req, 0), FieldNum(req, 1)],
                                 blobs, [])), Next(o, s))
  }

  ghost function MakeImage(o: Oracle, s: Srv, req: Packet): (st: Step)
    ensures Orderly(st)
  {
    var flags := FieldNum(req, 0);
    var plain := if CopiesHost(flags) then flags - CL_MEM_COPY_HOST_PTR else flags;
    var context := s.Object(FieldNum(req, 12));
    var a, s1 := Next(o, s), s.Called(DriverCall(CreateImageFn, [context], ImageParams(req, plain), [], []));
    if a.err != 0 || !CopiesHost(flags) then
      FinishId(s1, a)
    else
      var b, s2 := Next(o, s1), s1.Called(DriverCall(ElementSizeFn, [a.obj], [], [], []));
      if b.err != 0 then Finish(s2, [ErrorPacket(b.err)])
      else AskClient(s2, SmallPacket(4, Word(ImageSize(req, b.num))), AwaitsData(req, a.obj, []))
  }

  ghost function MakeProgram(o: Oracle, s: Srv, req: Packet, devices: seq<Obj>, binaries: seq<seq<byte>>): (st: Step)
    ensures Orderly(st)
  {
    var a := Next(o, s);
    var s1 := s.Called(DriverCall(CreateProgramFn, [s.Object(ValNum(req.body))] + devices, [], binaries, []));
    if a.err != 0 then Finish(s1, [ErrorPacket(a.err)]) else
    match IdFor(s1.table, a.obj)
    case None => None
    case Some((id, t)) =>
      Finish(s1.(table := t), [IdPacket(id), PayloadPacket(2, Resized(a.data, 4 * |devices|))])
  }

  /** The first packet of a request, in the dispatch loop. */
  ghost function Dispatch(o: Oracle, s: Srv, p: Packet): (st: Step)
    ensures Orderly(st)
  {
    var tag, a := p.format.tag, Next(o, s);
    if tag == GET_PLATFORM_IDS then
      var s1 := s.Called(DriverCall(PlatformCountFn, [], [], [], []));
      if a.err != 0 then Finish(s1, [ErrorPacket(a.err)])
      else FinishIds(s1.Called(DriverCall(PlatformsFn, [], [a.num], [], [])), Next(o, s1).objs)
    else if tag == CREATE_CONTEXT then
      FinishId(s.Called(DriverCall(CreateContextFn, s.Objects(ValNums(Field(p, 1))),
                                   Terminated(Rebuild(s.table, ValNums(Field(p, 0)))), [], [])), a)
    else if tag == CREATE_KERNEL then
      FinishId(s.Called(DriverCall(CreateKernelFn, [s.Object(FieldNum(p, 0))], ValNums(Field(p, 1)), [], [])), a)
    else if tag == CREATE_USER_EVENT then
      FinishId(s.Called(DriverCall(CreateUserEventFn, [s.Object(ValNum(p.body))], [], [], [])), a)
    else if tag == CREATE_BUFFER then
      if FieldNum(p, 3) != 0 then Wait(s, AwaitsData(p, 0, [])) else MakeBuffer(o, s, p, [])
    else if tag == RETAIN || tag == RELEASE then
      FinishSuccess(s.Called(DriverCall(if tag == RETAIN then RetainFn else ReleaseFn, [s.Object(FieldNum(p, 1))],
                                        [FieldNum(p, 0)], [], [])), a)
    else if tag == GET_MEM_OBJ_INFO then
      var mem, param := s.Object(FieldNum(p, 1)), FieldNum(p, 0);
      if IsObjectParam(param) then
        FinishId(s.Called(DriverCall(MemInfoObjectFn, [mem], [param], [], [])), a)
      else
        var s1 := s.Called(DriverCall(MemInfoSizeFn, [mem], [param], [], []));
        if a.err != 0 then Finish(s1, [ErrorPacket(a.err)]) else
        var b, s2 := Next(o, s1), s1.Called(DriverCall(MemInfoFn, [mem], [param, a.num], [], []));
        Finish(s2, [if b.err != 0 then ErrorPacket(b.err) else PayloadOf(1, b.data)])
    else if tag == READ_BUFFER || tag == WRITE_BUFFER || tag == FILL_BUFFER || tag == ENQUEUE_KERNEL then
      EventsThen(o, s, p, 0)
    else if tag == READ_IMAGE || tag == WRITE_IMAGE then
      var s1 := s.Called(DriverCall(ElementSizeFn, [s.Object(FieldNum(p, 0))], [], [], []));
      if a.err != 0 then Finish(s1, [ErrorPacket(a.err)]) else EventsThen(o, s1, p, a.num)
    else if tag == CREATE_IMAGE then
      MakeImage(o, s, p)
    else if tag == SET_KERNEL_ARG then
      var kernel, index := s.Object(FieldNum(p, 0)), FieldNum(p, 1);
      var s1 := s.Called(DriverCall(ArgInfoFn, [kernel], [index], [], []));
      if a.err != 0 then Finish(s1, [ErrorPacket(a.err)])
      else AskClient(s1, SmallPacket(1, ModeFor(a.num)), AwaitsArg(ModeFor(a.num), kernel, index))
    else if tag == CREATE_KERNELS then
      var program, count := s.Object(FieldNum(p, 0)), FieldNum(p, 1);
      if count == 0 then
        Finish(s.Called(DriverCall(CountKernelsFn, [program], [], [], [])),
               [if a.err != 0 then ErrorPacket(a.err) else SmallPacket(4, Word(a.num))])
      else
        var s1 := s.Called(DriverCall(CreateKernelsFn, [program], [count], [], []));
        if a.err != 0 then Finish(s1, [ErrorPacket(a.err)]) else FinishIds(s1, a.objs)
    else if tag == REGISTER_EVENT_CALLBACK then
      // On an error the handler replies twice.
      Finish(s.Called(DriverCall(SetCallbackFn, [s.Object(FieldNum(p, 0))], [FieldNum(p, 1), FieldNum(p, 2)], [], [])),
             (if a.err != 0 then [ErrorPacket(a.err)] else []) + [SuccessPacket()])
    else
      Wait(s, AwaitsList(p))   // WaitEvents, BuildProgram, CreateBinaryProgram
  }

  /** The format of the request that starts with this type byte, if there is a handler for it. */
  function RequestFormat(tag: byte): Option<Format> {
    if tag == GET_PLATFORM_IDS || tag == WAIT_EVENTS then Some(Signal(tag))
    else if tag == CREATE_CONTEXT then Some(CONTEXT_FORMAT)
    else if tag == CREATE_KERNEL || tag == BUILD_PROGRAM then Some(Format(tag, ID_TEXT))
    else if tag == CREATE_USER_EVENT || tag == CREATE_BINARY_PROGRAM then Some(Simple(tag, 2))
    else if tag == CREATE_BUFFER then Some(CREATE_BUFFER_FORMAT)
    else if tag == RETAIN || tag == RELEASE then Some(Format(tag, REF_COUNT))
    else if tag == GET_MEM_OBJ_INFO then Some(Format(tag, ID_PARAM))
    else if tag == READ_BUFFER || tag == WRITE_BUFFER then Some(Format(tag, BUFFER_RW))
    else if tag == FILL_BUFFER then Some(FILL_BUFFER_FORMAT)
    else if tag == ENQUEUE_KERNEL then Some(ENQUEUE_KERNEL_FORMAT)
    else if tag == READ_IMAGE || tag == WRITE_IMAGE then Some(Format(tag, IMAGE_RW))
    else if tag == CREATE_IMAGE then Some(CREATE_IMAGE_FORMAT)
    else if tag == SET_KERNEL_ARG then Some(KERNEL_ARG_FORMAT)
    else if tag == CREATE_KERNELS then Some(CREATE_KERNELS_FORMAT)
    else if tag == REGISTER_EVENT_CALLBACK then Some(REGISTER_FORMAT)
    else None
  }

  function ServerAwaits(s: Srv, tag: byte): Option<Format> {
    match s.stage
    case Ready => RequestFormat(tag)
    case AwaitsEvents(_, _) => Some(ID_LIST_FORMAT)
    case AwaitsList(_) => Some(ID_LIST_FORMAT)
    case AwaitsData(_, _, _) => Some(PayloadFormat(4))
    case AwaitsBinaries(_, _, _) => Some(PayloadFormat(4))
    case AwaitsArg(mode, _, _) =>
      Some(if mode == MODE_ID then ID_FORMAT else if mode == MODE_SIZE then Simple(PAYLOAD, 4) else PayloadFormat(4))
  }

  /** The data a handler was waiting for. */
  ghost function TakeData(o: Oracle, s: Srv, req: Packet, info: nat, events: seq<Obj>, d: seq<byte>): (st: Step)
    ensures Orderly(st)
  {
    var tag, first, queue := req.format.tag, s.Object(FieldNum(req, 0)), s.Object(FieldNum(req, 1));
    if tag == CREATE_BUFFER then
      MakeBuffer(o, s, req, [d])
    else if tag == WRITE_BUFFER then
      FinishCommand(s.Called(DriverCall(WriteBufferFn, [queue, first], [FieldNum(req, 6), FieldNum(req, 3), |d|],
                                        [d], events)),
                    Next(o, s), WantsEvent(req), [SuccessPacket()])
    else if tag == WRITE_IMAGE then
      var want := WantsEvent(req);
      FinishCommand(s.Called(DriverCall(WriteImageFn, [queue, first], RegionParams(req), [d], events)),
                    Next(o, s), want, if want then [] else [SuccessPacket()])
    else   // CreateImage: the image made before is released and made anew with its data
      var s1 := s.Called(DriverCall(ReleaseImageFn, [info], [], [], []));
      FinishId(s1.Called(DriverCall(CreateImageFn, [s.Object(FieldNum(req, 12))], ImageParams(req, FieldNum(req, 0)),
                                    [d], [])),
               Next(o, s1))
  }

  ghost function TakeList(o: Oracle, s: Srv, req: Packet, ids: seq<nat>): (st: Step)
    ensures Orderly(st)
  {
    var tag := req.format.tag;
    if tag == WAIT_EVENTS then
      FinishSuccess(s.Called(DriverCall(WaitFn, [], [], [], s.Objects(ids))), Next(o, s))
    else if tag == BUILD_PROGRAM then
      FinishSuccess(s.Called(DriverCall(BuildProgramFn, [s.Object(FieldNum(req, 0))] + s.Objects(ids),
                                        WithArgInfo(ValNums(Field(req, 1))), [], [])), Next(o, s))
    else if ids == [] then
      MakeProgram(o, s, req, [], [])
    else
      Wait(s, AwaitsBinaries(req, s.Objects(ids), []))
  }

  ghost function TakeArg(o: Oracle, s: Srv, mode: nat, kernel: Obj, index: nat, p: Packet): (st: Step)
    ensures Orderly(st)
  {
    var d :=
      if mode == MODE_ID then
        DriverCall(SetArgMemFn, [kernel, s.Object(ValNum(p.body))], [index, SIZEOF_CL_MEM], [], [])
      else if mode == MODE_SIZE then DriverCall(SetArgLocalFn, [kernel], [index, ValNum(p.body)], [], [])
      else DriverCall(SetArgBytesFn, [kernel], [index, |ValData(p.body)|], [ValData(p.body)], []);
    FinishSuccess(s.Called(d), Next(o, s))
  }

  ghost function ServerHandles(o: Oracle, s: Srv, p: Packet): (st: Step)
    ensures Orderly(st)
  {
    match s.stage
    case Ready => Dispatch(o, s, p)
    case AwaitsEvents(req, info) => Command(o, s, req, info, s.Objects(ValNums(p.body)))
    case AwaitsList(req) => TakeList(o, s, req, ValNums(p.body))
    case AwaitsData(req, info, events) => TakeData(o, s, req, info, events, ValData(p.body))
    case AwaitsBinaries(req, devices, binaries) =>
      var all := binaries + [ValData(p.body)];
      if |all| < |devices| then Wait(s, AwaitsBinaries(req, devices, all)) else MakeProgram(o, s, req, devices, all)
    case AwaitsArg(mode, kernel, index) => TakeArg(o, s, mode, kernel, index, p)
  }

  // ---- the two ends together ----

  /** A read of another packet type than the awaited one, or a packet whose fields do not fit, loses the session. */
  ghost function Checked<T>(r: Option<Reaction<Packet, T>>): Option<Reaction<Packet, T>> {
    if r.Some? && AllWellFormed(r.value.send) then r else None
  }

  ghost function ClientTakes(c: Cli, p: Packet): Option<Reaction<Packet, Cli>> {
    if c.wants == [] || !Answers(p, ClientAwaits(c)) then None else Checked(Some(ClientHandles(c, p)))
  }

  ghost function ServerTakes(o: Oracle, s: Srv, p: Packet): Step {
    var awaited := ServerAwaits(s, p.format.tag);
    if awaited == None || p.format.tag == ERROR || !Answers(p, awaited.value) then None
    else Checked(ServerHandles(o, s, p))
  }

  ghost function TheEnds(o: Oracle): Ends<Packet, Cli, Srv, Call> {
    Ends(
      (c: Cli) => c.wants == [],
      (c: Cli, call: Call) => BeginCall(c, call),
      (c: Cli, p: Packet) => ClientTakes(c, p),
      (c: Cli) => |c.wants|,
      (s: Srv, p: Packet) => ServerTakes(o, s, p),
      (s: Srv) => s.stage.Ready?)
  }

  ghost function TheWiring(o: Oracle, z: Framing): Wiring<Cli, Srv, Call> {
    Wiring(TheEnds(o), (c: Cli) => ClientAwaits(c), (s: Srv, tag: byte) => ServerAwaits(s, tag), z)
  }

  lemma WiringSound(o: Oracle, z: Framing)
    requires Lossless(z)
    ensures Sound(TheWiring(o, z))
  {
    forall c, p | ClientTakes(c, p).Some?
      ensures Answers(p, ClientAwaits(c)) && AllWellFormed(ClientTakes(c, p).value.send)
    {
      ClientSound(c, p);
    }
    forall s, p | ServerTakes(o, s, p).Some?
      ensures p.format.tag != ERROR && ServerAwaits(s, p.format.tag).Some?
      ensures Answers(p, ServerAwaits(s, p.format.tag).value) && AllWellFormed(ServerTakes(o, s, p).value.send)
    {
      ServerSound(o, s, p);
    }
  }

  lemma ClientSound(c: Cli, p: Packet)
    requires ClientTakes(c, p).Some?
    ensures Answers(p, ClientAwaits(c)) && AllWellFormed(ClientTakes(c, p).value.send)
  {
  }

  lemma ServerSound(o: Oracle, s: Srv, p: Packet)
    requires ServerTakes(o, s, p).Some?
    ensures p.format.tag != ERROR && ServerAwaits(s, p.format.tag).Some?
    ensures Answers(p, ServerAwaits(s, p.format.tag).value) && AllWellFormed(ServerTakes(o, s, p).value.send)
  {
  }
}
