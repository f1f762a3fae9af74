/**
  What each API call is meant to do: one local transaction on the client's objects, the server's
  objects and the driver, with no messages in between.
 */
module Effects {
  import opened Options
  import opened Bytes
  import opened Packets
  import opened Wire
  import opened Tables
  import opened Contexts
  import opened Protocol

  /** The client and the server after a call. */
  datatype World = World(cli: Cli, srv: Srv)

  function Failed(c: Cli, s: Srv, code: nat): World { World(c.Return(Reply(code, [], [], 0)), s) }

  function Done(c: Cli, s: Srv, data: seq<byte>, number: nat): World { World(c.Return(Reply(0, [], data, number)), s) }

  /** The call hands out a client object for a driver object. */
  function Hands(c: Cli, s: Srv, x: Obj, registers: bool, data: seq<byte>): World {
    var (id, t) := Intern(s.table, x);
    var (h, slots) := Pick(c.slots, id, registers);
    World(c.(slots := slots).Return(Reply(0, [h], data, 0)), s.(table := t))
  }

  function HandsAll(c: Cli, s: Srv, xs: seq<Obj>, registers: bool): World {
    var (ids, t) := InternAll(s.table, xs);
    var (hs, slots) := PickAll(c.slots, ids, registers);
    World(c.(slots := slots).Return(Reply(0, hs, [], 0)), s.(table := t))
  }

  /** The outcome of a driver call that creates an object. */
  function Created(c: Cli, s: Srv, a: Answer, registers: bool): World {
    if a.err != 0 then Failed(c, s, a.err) else Hands(c, s, a.obj, registers, [])
  }

  /** The outcome of a driver call that has no result but an error code. */
  function Coded(c: Cli, s: Srv, a: Answer): World {
    if a.err != 0 then Failed(c, s, a.err) else Done(c, s, [], 0)
  }

  /** The outcome of an enqueued command, with its event if the caller wants it. */
  function Enqueued(c: Cli, s: Srv, a: Answer, want: bool, data: seq<byte>): World {
    if a.err != 0 then Failed(c, s, a.err)
    else if want then Hands(c, s, a.event, true, data)
    else Done(c, s, data, 0)
  }

  function LocalSizes(dim: nat, local: Option<seq<nat>>): seq<nat> {
    var ls := if local.Some? then local.value else [1, 1, 1];
    if Dim(ls, dim, 0, 1) == 0 then [] else [Dim(ls, dim, 0, 1), Dim(ls, dim, 1, 1), Dim(ls, dim, 2, 1)]
  }

  function ImageDesc(flags: nat, desc: seq<nat>): seq<nat> {
    [flags, At(desc, 0), At(desc, 1), At(desc, 2), At(desc, 3), At(desc, 4), At(desc, 5), At(desc, 6), At(desc, 7),
     At(desc, 8), At(desc, 9), At(desc, 10)]
  }

  function RegionOf(origin: seq<nat>, region: seq<nat>, pitches: seq<nat>, blocking: bool): seq<nat> {
    [Flag(blocking)] + Three(origin) + Three(region) + [At(pitches, 0), At(pitches, 1)]
  }

  function RegionBytes(region: seq<nat>, element: nat): nat {
    element * At(region, 0) * At(region, 1) * At(region, 2)
  }

  function ImageBytes(desc: seq<nat>, element: nat): nat {
    element * OneIfZero(At(desc, 3)) * OneIfZero(At(desc, 4)) * OneIfZero(At(desc, 5))
  }

  /** The driver call that sets a kernel argument: the caller's memory object, size or bytes. */
  function SetArg(s: Srv, kernel: nat, index: nat, arg: KernelArg, qualifier: nat): DriverCall {
    var k := s.Object(kernel);
    match ModeFor(qualifier)
    case 73 => DriverCall(SetArgMemFn, [k, s.Object(arg.mem)], [Word(index), SIZEOF_CL_MEM], [], [])
    case 83 => DriverCall(SetArgLocalFn, [k], [Word(index), Word(arg.size)], [], [])
    case _ =>
      var d := Clipped(4, Resized(arg.bytes, arg.size));
      DriverCall(SetArgBytesFn, [k], [Word(index), |d|], [d], [])
  }

  /** The call, performed where the driver is. */
  function Effect(o: Oracle, c: Cli, s: Srv, call: Call): World {
    var a := Next(o, s);
    match call
    case GetPlatformIds =>
      var s1 := s.Called(DriverCall(PlatformCountFn, [], [], [], []));
      if a.err != 0 then Failed(c, s1, a.err)
      else HandsAll(c, s1.Called(DriverCall(PlatformsFn, [], [a.num], [], [])), Next(o, s1).objs, false)
    case CreateContext(properties, devices) =>
      var s1 := s.Called(
        DriverCall(CreateContextFn, s.Objects(devices), Terminated(Rebuild(s.table, properties)), [], []));
      // The caller is not told why the driver refused.
      if a.err != 0 then Failed(c, s1, CL_DEVICE_NOT_AVAILABLE) else Hands(c, s1, a.obj, true, [])
    case CreateKernel(program, name) =>
      Created(c, s.Called(DriverCall(CreateKernelFn, [s.Object(program)], name, [], [])), a, true)
    case CreateUserEvent(context) =>
      Created(c, s.Called(DriverCall(CreateUserEventFn, [s.Object(context)], [], [], [])), a, true)
    case CreateBuffer(context, flags, size, host) =>
      Created(c, s.Called(DriverCall(CreateBufferFn, [s.Object(context)], [Word(flags), Word(size)],
                                     if host.Some? then [Clipped(4, host.value)] else [], [])), a, false)
    case RefCount(retain, objTy, id) =>
      Coded(c, s.Called(DriverCall(if retain then RetainFn else ReleaseFn, [s.Object(id)], [objTy], [], [])), a)
    case MemObjectInfo(mem, param) =>
      if IsObjectParam(param) then
        Created(c, s.Called(DriverCall(MemInfoObjectFn, [s.Object(mem)], [param], [], [])), a, false)
      else
        var s1 := s.Called(DriverCall(MemInfoSizeFn, [s.Object(mem)], [param], [], []));
        if a.err != 0 then Failed(c, s1, a.err) else
        var b, s2 := Next(o, s1), s1.Called(DriverCall(MemInfoFn, [s.Object(mem)], [param, a.num], [], []));
        if b.err != 0 then Failed(c, s2, b.err) else Done(c, s2, Clipped(1, b.data), 0)
    case ReadBuffer(queue, mem, offset, size, _, wait, want) =>
      Enqueued(c, s.Called(DriverCall(ReadBufferFn, [s.Object(queue), s.Object(mem)], [Word(offset), Word(size)], [],
                                      s.Objects(wait))), a, want, Resized(a.data, Word(size)))
    case WriteBuffer(queue, mem, offset, data, blocking, wait, want) =>
      Enqueued(c, s.Called(DriverCall(WriteBufferFn, [s.Object(queue), s.Object(mem)],
                                      [Flag(blocking), Word(offset), |Clipped(4, data)|], [Clipped(4, data)],
                                      s.Objects(wait))),
               a, want, [])
    case FillBuffer(queue, mem, offset, size, pattern, wait, want) =>
      Enqueued(c, s.Called(DriverCall(FillBufferFn, [s.Object(queue), s.Object(mem)],
                                      [|pattern|, Word(offset), Word(size)], [Resized(pattern, 128)], s.Objects(wait))),
               a, want, [])
    case EnqueueKernel(queue, kernel, dim, global, globalOffset, local, wait, want) =>
      Enqueued(c, s.Called(DriverCall(EnqueueKernelFn, [s.Object(queue), s.Object(kernel)],
          [dim, Dim(global, dim, 0, 1), Dim(global, dim, 1, 1), Dim(global, dim, 2, 1),
           Dim(globalOffset, dim, 0, 0), Dim(globalOffset, dim, 1, 0), Dim(globalOffset, dim, 2, 0)]
          + LocalSizes(dim, local), [], s.Objects(wait))), a, want, [])
    case WaitForEvents(wait) => Coded(c, s.Called(DriverCall(WaitFn, [], [], [], s.Objects(wait))), a)
    case CreateImage(context, flags, desc, host) =>
      var f, k := Word(flags), [s.Object(context)];
      var plain := if CopiesHost(f) then f - CL_MEM_COPY_HOST_PTR else f;
      var s1 := s.Called(DriverCall(CreateImageFn, k, ImageDesc(plain, desc), [], []));
      if a.err != 0 || !CopiesHost(f) then Created(c, s1, a, false) else
      var b, s2 := Next(o, s1), s1.Called(DriverCall(ElementSizeFn, [a.obj], [], [], []));
      if b.err != 0 then Failed(c, s2, b.err) else
      var s3 := s2.Called(DriverCall(ReleaseImageFn, [a.obj], [], [], []));
      var d := DriverCall(CreateImageFn, k, ImageDesc(f, desc), [Resized(host, Word(ImageBytes(desc, b.num)))], []);
      Created(c, s3.Called(d), Next(o, s3), false)
    case ReadImage(queue, mem, origin, region, pitches, blocking, wait, want) =>
      var s1 := s.Called(DriverCall(ElementSizeFn, [s.Object(mem)], [], [], []));
      if a.err != 0 then Failed(c, s1, a.err) else
      var d := DriverCall(ReadImageFn, [s.Object(queue), s.Object(mem)], RegionOf(origin, region, pitches, blocking),
                          [],
                          s.Objects(wait));
      Enqueued(c, s1.Called(d), Next(o, s1), want, Clipped(4, Resized(Next(o, s1).data, RegionBytes(region, a.num))))
    case WriteImage(queue, mem, origin, region, pitches, blocking, host, wait, want) =>
      var s1 := s.Called(DriverCall(ElementSizeFn, [s.Object(mem)], [], [], []));
      if a.err != 0 then Failed(c, s1, a.err) else
      var d := DriverCall(WriteImageFn, [s.Object(queue), s.Object(mem)], RegionOf(origin, region, pitches, blocking),
                          [Resized(host, Word(RegionBytes(region, a.num)))], s.Objects(wait));
      Enqueued(c, s1.Called(d), Next(o, s1), want, [])
    case SetKernelArg(kernel, index, arg) =>
      var s1 := s.Called(DriverCall(ArgInfoFn, [s.Object(kernel)], [Word(index)], [], []));
      if a.err != 0 then Failed(c, s1, a.err)
      else Coded(c, s1.Called(SetArg(s, kernel, index, arg, a.num)), Next(o, s1))
    case CreateKernels(program, count) =>
      if Word(count) == 0 then
        var s1 := s.Called(DriverCall(CountKernelsFn, [s.Object(program)], [], [], []));
        if a.err != 0 then Failed(c, s1, a.err) else Done(c, s1, [], Word(a.num))
      else
        var s1 := s.Called(DriverCall(CreateKernelsFn, [s.Object(program)], [Word(count)], [], []));
        if a.err != 0 then Failed(c, s1, a.err) else HandsAll(c, s1, a.objs, true)
    case CreateProgram(context, devices, binaries) =>
      var s1 := s.Called(DriverCall(CreateProgramFn, [s.Object(context)] + s.Objects(devices), [],
                                    ClippedAll(binaries), []));
      if a.err != 0 then Failed(c, s1, a.err) else Hands(c, s1, a.obj, true, Resized(a.data, 4 * |devices|))
    case BuildProgram(program, options, devices) =>
      Coded(c, s.Called(DriverCall(BuildProgramFn, [s.Object(program)] + s.Objects(devices), WithArgInfo(options),
                                   [], [])), a)
    case SetEventCallback(event, callback, kind) =>
      Coded(c, s.Called(DriverCall(SetCallbackFn, [s.Object(event)], [callback % ID_RANGE, Word(kind)], [], [])), a)
  }

  // ---- when a call stays in lockstep ----

  /** The server can number the object: its table is not full, or the object already has an ID. */
  predicate Room(s: Srv, x: Obj): (r: bool)
    ensures r <==> IdFor(s.table, x).Some?
  {
    ScanHangsIff(s.table, x);
    |s.table| < ID_RANGE || x in s.table[..ID_RANGE]
  }

  /** The numbers that the objects get are 16-bit IDs, and their list fits its packet. */
  predicate RoomForAll(s: Srv, xs: seq<Obj>): (r: bool)
    ensures r <==> IdsFor(s.table, xs).Some? && |xs| < 0x100
  {
    IdsForIsInternAll(s.table, xs);
    |xs| < 0x100 && forall i :: 0 <= i < |xs| ==> InternAll(s.table, xs).0[i] < ID_RANGE
  }

  /**
    The exact condition under which a call keeps the session in lockstep. Apart from room in the
    server's table and lists that fit their packets, it excludes three things: a callback that the
    driver refuses to register, an image whose element size the driver does not tell while the
    client has sent an event list, and a kernel argument that the driver takes for a memory
    object although its size is not that of one.
   */
  predicate Keeps(o: Oracle, s: Srv, call: Call) {
    var a, b := Next(o, s), o(|s.log| + 1);
    match call
    case GetPlatformIds => a.err == 0 ==> RoomForAll(s, b.objs)
    case CreateContext(_, _) => a.err == 0 ==> Room(s, a.obj)
    case CreateKernel(_, _) => a.err == 0 ==> Room(s, a.obj)
    case CreateUserEvent(_) => a.err == 0 ==> Room(s, a.obj)
    case CreateBuffer(_, _, _, _) => a.err == 0 ==> Room(s, a.obj)
    case RefCount(_, _, _) => true
    case MemObjectInfo(_, param) =>
      a.err == 0 && IsObjectParam(param) ==> Room(s, a.obj)
    case ReadBuffer(_, _, _, _, _, _, want) => a.err == 0 && want ==> Room(s, a.event)
    case WriteBuffer(_, _, _, _, _, _, want) => a.err == 0 && want ==> Room(s, a.event)
    case FillBuffer(_, _, _, _, _, _, want) => a.err == 0 && want ==> Room(s, a.event)
    case EnqueueKernel(_, _, _, _, _, _, _, want) => a.err == 0 && want ==> Room(s, a.event)
    case WaitForEvents(_) => true
    case CreateImage(_, flags, desc, _) =>
      a.err == 0 ==>
        if !CopiesHost(Word(flags)) then Room(s, a.obj)
        else b.err == 0 && o(|s.log| + 3).err == 0 ==> Room(s, o(|s.log| + 3).obj)
    case ReadImage(_, _, _, _, _, _, wait, want) =>
      if a.err != 0 then wait == []
      else b.err == 0 && want ==> Room(s, b.event)
    case WriteImage(_, _, _, _, _, _, _, wait, want) =>
      if a.err != 0 then wait == [] else b.err == 0 && want ==> Room(s, b.event)
    case SetKernelArg(_, _, arg) =>
      a.err == 0 && ModeFor(a.num) == MODE_ID ==> arg.size == SIZEOF_CL_MEM
    case CreateKernels(_, count) => a.err == 0 && Word(count) != 0 ==> RoomForAll(s, a.objs)
    case CreateProgram(_, _, _) => a.err == 0 ==> Room(s, a.obj)
    case BuildProgram(_, _, _) => true
    case SetEventCallback(_, _, _) => a.err == 0
  }

  /** The letters D, C, Q, P, K, M and E, which stand for the types of reference-counted objects. */
  const OBJECT_TYPES: set<nat> := {68, 67, 81, 80, 75, 77, 69}

  /** The arguments fit the fields of the request, and arrays given with one length have it. */
  ghost predicate Valid(call: Call) {
    && AllWellFormed(Request(call))
    && (call.CreateProgram? ==> |call.devices| == |call.binaries| && call.devices != [])
    && (call.FillBuffer? ==> |call.pattern| <= 128)
    && (call.SetKernelArg? ==> call.arg.mem < ID_RANGE)
    && (call.RefCount? ==> call.objTy in OBJECT_TYPES)
  }
}
