/** `Refinement` for the calls that send more than one packet. */
module RefineCommands {
  import opened Options
  import opened Bytes
  import opened Codec
  import opened Packets
  import opened Tables
  import opened Protocol
  import opened Dialogues
  import opened Effects
  import opened Refinement

  // ---- filling a buffer ----

  lemma FillFields(p: Packet, mem: nat, queue: nat, size: nat, offset: nat, length: nat, want: nat, listed: nat,
                   pattern: seq<byte>)
    requires p.body == Vs([N(mem), N(queue), N(size), N(offset), N(length), N(want), N(listed), B(pattern)])
    ensures FieldNum(p, 0) == mem && FieldNum(p, 1) == queue && FieldNum(p, 2) == size && FieldNum(p, 3) == offset
    ensures FieldNum(p, 4) == length && FieldNum(p, 5) == want && FieldNum(p, 6) == listed
    ensures ValData(Field(p, 7)) == pattern
  {
  }

  lemma FillCommand(o: Oracle, s: Srv, req: Packet, queue: nat, mem: nat, offset: nat, size: nat, length: nat,
                    pattern: seq<byte>, want: bool, events: seq<Obj>)
    requires req.format.tag == FILL_BUFFER && FieldNum(req, 0) == mem && FieldNum(req, 1) == queue
    requires FieldNum(req, 2) == size && FieldNum(req, 3) == offset && FieldNum(req, 4) == length
    requires FieldNum(req, 5) == Flag(want) && ValData(Field(req, 7)) == pattern
    ensures Command(o, s, req, 0, events) == FinishCommand(
      s.Called(DriverCall(FillBufferFn, [s.Object(queue), s.Object(mem)], [length, offset, size], [pattern], events)),
      Next(o, s), want, [SuccessPacket()])
  {
  }

  lemma FillBufferTaken(o: Oracle, s: Srv, queue: nat, mem: nat, offset: nat, size: nat, pattern: seq<byte>,
                        wait: seq<nat>, want: bool)
    requires s.stage.Ready?
    ensures var call := FillBuffer(queue, mem, offset, size, pattern, wait, want);
      var req := Request(call)[0];
      && Request(call) == [req] + WaitList(wait)
      && ServerTakes(o, s, req) == Checked(EventsThen(o, s, req, 0)) && (ExpectsEvents(req) <==> wait != [])
      && Command(o, s, req, 0, s.Objects(wait)) == FinishCommand(
           s.Called(DriverCall(FillBufferFn, [s.Object(queue), s.Object(mem)], [|pattern|, Word(offset), Word(size)],
                               [Resized(pattern, 128)], s.Objects(wait))),
           Next(o, s), want, [SuccessPacket()])
  {
    var req := Request(FillBuffer(queue, mem, offset, size, pattern, wait, want))[0];
    FillFields(req, mem, queue, Word(size), Word(offset), |pattern|, Flag(want), Flag(wait != []),
               Resized(pattern, 128));
    CommandTaken(o, s, req);
    FillCommand(o, s, req, queue, mem, Word(offset), Word(size), |pattern|, Resized(pattern, 128), want,
                s.Objects(wait));
  }

  lemma FillBufferRefines(o: Oracle, c: Cli, s: Srv, queue: nat, mem: nat, offset: nat, size: nat,
                          pattern: seq<byte>, wait: seq<nat>, want: bool)
    requires Rests(c, s)
    ensures var call := FillBuffer(queue, mem, offset, size, pattern, wait, want);
      Conversation(o, c, s, call) == Predicted(o, c, s, call)
  {
    var call := FillBuffer(queue, mem, offset, size, pattern, wait, want);
    var s1 := s.Called(DriverCall(FillBufferFn, [s.Object(queue), s.Object(mem)], [|pattern|, Word(offset), Word(size)],
                                  [Resized(pattern, 128)], s.Objects(wait)));
    FillBufferTaken(o, s, queue, mem, offset, size, pattern, wait, want);
    EnqueuedRefines(o, c, s, call, Request(call)[0], wait, want, s1, SuccessPacket(), WantSuccess, []);
  }

  // ---- enqueueing a kernel ----

  lemma KernelFields(p: Packet, kernel: nat, queue: nat, dim: nat, g: seq<nat>, f: seq<nat>, l: seq<nat>, want: nat,
                     listed: nat)
    requires |g| == |f| == |l| == 3
    requires p.body == Numbers([kernel, queue, dim, g[0], g[1], g[2], f[0], f[1], f[2], l[0], l[1], l[2], want, listed])
    ensures FieldNum(p, 0) == kernel && FieldNum(p, 1) == queue && FieldNum(p, 12) == want && FieldNum(p, 13) == listed
    ensures KernelParams(p) == [dim, g[0], g[1], g[2], f[0], f[1], f[2]] + if l[0] == 0 then [] else l
  {
    var ns := [kernel, queue, dim, g[0], g[1], g[2], f[0], f[1], f[2], l[0], l[1], l[2], want, listed];
    FieldIs(p, ns, 0);
    FieldIs(p, ns, 1);
    FieldIs(p, ns, 2);
    FieldIs(p, ns, 3);
    FieldIs(p, ns, 4);
    FieldIs(p, ns, 5);
    FieldIs(p, ns, 6);
    FieldIs(p, ns, 7);
    FieldIs(p, ns, 8);
    FieldIs(p, ns, 9);
    FieldIs(p, ns, 10);
    FieldIs(p, ns, 11);
    FieldIs(p, ns, 12);
    FieldIs(p, ns, 13);
  }

  lemma KernelCommand(o: Oracle, s: Srv, req: Packet, queue: nat, kernel: nat, params: seq<nat>, want: bool,
                      events: seq<Obj>)
    requires req.format.tag == ENQUEUE_KERNEL && FieldNum(req, 0) == kernel && FieldNum(req, 1) == queue
    requires FieldNum(req, 12) == Flag(want) && KernelParams(req) == params
    ensures Command(o, s, req, 0, events) == FinishCommand(
      s.Called(DriverCall(EnqueueKernelFn, [s.Object(queue), s.Object(kernel)], params, [], events)),
      Next(o, s), want, [SuccessPacket()])
  {
  }

  /** What the driver is told about the work sizes. */
  function WorkSizes(dim: nat, global: seq<nat>, globalOffset: seq<nat>, local: Option<seq<nat>>): seq<nat> {
    [dim, Dim(global, dim, 0, 1), Dim(global, dim, 1, 1), Dim(global, dim, 2, 1),
     Dim(globalOffset, dim, 0, 0), Dim(globalOffset, dim, 1, 0), Dim(globalOffset, dim, 2, 0)] + LocalSizes(dim, local)
  }

  lemma EnqueueKernelTaken(o: Oracle, s: Srv, queue: nat, kernel: nat, dim: nat, global: seq<nat>,
                           globalOffset: seq<nat>, local: Option<seq<nat>>, wait: seq<nat>, want: bool)
    requires s.stage.Ready?
    ensures var call := EnqueueKernel(queue, kernel, dim, global, globalOffset, local, wait, want);
      var req := Request(call)[0];
      && Request(call) == [req] + WaitList(wait)
      && ServerTakes(o, s, req) == Checked(EventsThen(o, s, req, 0)) && (ExpectsEvents(req) <==> wait != [])
      && Command(o, s, req, 0, s.Objects(wait)) == FinishCommand(
           s.Called(DriverCall(EnqueueKernelFn, [s.Object(queue), s.Object(kernel)],
                               WorkSizes(dim, global, globalOffset, local), [], s.Objects(wait))),
           Next(o, s), want, [SuccessPacket()])
  {
    var req := Request(EnqueueKernel(queue, kernel, dim, global, globalOffset, local, wait, want))[0];
    var ls := if local.Some? then local.value else [1, 1, 1];
    var g: seq<nat> := [Dim(global, dim, 0, 1), Dim(global, dim, 1, 1), Dim(global, dim, 2, 1)];
    var f: seq<nat> := [Dim(globalOffset, dim, 0, 0), Dim(globalOffset, dim, 1, 0), Dim(globalOffset, dim, 2, 0)];
    var l: seq<nat> := [Dim(ls, dim, 0, 1), Dim(ls, dim, 1, 1), Dim(ls, dim, 2, 1)];
    KernelFields(req, kernel, queue, dim, g, f, l, Flag(want), Flag(wait != []));
    CommandTaken(o, s, req);
    KernelCommand(o, s, req, queue, kernel, WorkSizes(dim, global, globalOffset, local), want, s.Objects(wait));
  }

  lemma EnqueueKernelEffect(o: Oracle, c: Cli, s: Srv, queue: nat, kernel: nat, dim: nat, global: seq<nat>,
                            globalOffset: seq<nat>, local: Option<seq<nat>>, wait: seq<nat>, want: bool)
      returns (s1: Srv)
    ensures s1 == s.Called(DriverCall(EnqueueKernelFn, [s.Object(queue), s.Object(kernel)],
                                      WorkSizes(dim, global, globalOffset, local), [], s.Objects(wait)))
    ensures var call := EnqueueKernel(queue, kernel, dim, global, globalOffset, local, wait, want);
      && Effect(o, c, s, call) == Enqueued(c, s1, Next(o, s), want, [])
      && (Keeps(o, s, call) <==> (Next(o, s).err == 0 && want ==> Room(s1, Next(o, s).event)))
  {
    s1 := s.Called(DriverCall(EnqueueKernelFn, [s.Object(queue), s.Object(kernel)],
                              WorkSizes(dim, global, globalOffset, local), [], s.Objects(wait)));
  }

  lemma EnqueueKernelRefines(o: Oracle, c: Cli, s: Srv, queue: nat, kernel: nat, dim: nat, global: seq<nat>,
                             globalOffset: seq<nat>, local: Option<seq<nat>>, wait: seq<nat>, want: bool)
    requires Rests(c, s)
    ensures var call := EnqueueKernel(queue, kernel, dim, global, globalOffset, local, wait, want);
      Conversation(o, c, s, call) == Predicted(o, c, s, call)
  {
    var call := EnqueueKernel(queue, kernel, dim, global, globalOffset, local, wait, want);
    var s1 := EnqueueKernelEffect(o, c, s, queue, kernel, dim, global, globalOffset, local, wait, want);
    EnqueueKernelTaken(o, s, queue, kernel, dim, global, globalOffset, local, wait, want);
    EnqueuedRefines(o, c, s, call, Request(call)[0], wait, want, s1, SuccessPacket(), WantSuccess, []);
  }

  // ---- requests followed by data ----

  lemma DataServed(o: Oracle, s: Srv, req: Packet, info: nat, events: seq<Obj>, d: seq<byte>)
    ensures var s1 := s.(stage := AwaitsData(req, info, events));
      Serve(o, s1, [PayloadPacket(4, d)]) == After(o, TakeData(o, s1, req, info, events, d), [])
  {
    var s1 := s.(stage := AwaitsData(req, info, events));
    ServeFirst(o, s1, PayloadPacket(4, d), [], TakeData(o, s1, req, info, events, d));
    assert [PayloadPacket(4, d)] + [] == [PayloadPacket(4, d)];
  }

  lemma WriteBufferData(o: Oracle, s: Srv, req: Packet, queue: nat, mem: nat, offset: nat, block: nat, want: bool,
                        events: seq<Obj>, d: seq<byte>)
    requires req.format.tag == WRITE_BUFFER && FieldNum(req, 0) == mem && FieldNum(req, 1) == queue
    requires FieldNum(req, 3) == offset && FieldNum(req, 4) == Flag(want) && FieldNum(req, 6) == block
    ensures TakeData(o, s, req, 0, events, d) == FinishCommand(
      s.Called(DriverCall(WriteBufferFn, [s.Object(queue), s.Object(mem)], [block, offset, |d|], [d], events)),
      Next(o, s), want, [SuccessPacket()])
    ensures Command(o, s, req, 0, events) == Wait(s, AwaitsData(req, 0, events))
  {
  }

  lemma WriteBufferServed(o: Oracle, s: Srv, queue: nat, mem: nat, offset: nat, data: seq<byte>, blocking: bool,
                          wait: seq<nat>, want: bool)
    requires s.stage.Ready?
    ensures var req := Request(WriteBuffer(queue, mem, offset, data, blocking, wait, want))[0];
      var d := Clipped(4, data);
      var s1 := s.(stage := AwaitsData(req, 0, s.Objects(wait)));
      Serve(o, s, Request(WriteBuffer(queue, mem, offset, data, blocking, wait, want))) == After(o, FinishCommand(
        s1.Called(DriverCall(WriteBufferFn, [s.Object(queue), s.Object(mem)], [Flag(blocking), Word(offset), |d|],
                             [d], s.Objects(wait))),
        Next(o, s), want, [SuccessPacket()]), [])
  {
    var call, d := WriteBuffer(queue, mem, offset, data, blocking, wait, want), Clipped(4, data);
    var req := Request(call)[0];
    BufferFields(req, mem, queue, Word(|data|), Word(offset), Flag(want), Flag(wait != []), Flag(blocking));
    CommandTaken(o, s, req);
    EventListServed(o, s, s, req, 0, wait, [PayloadPacket(4, d)]);
    WriteBufferData(o, s, req, queue, mem, Word(offset), Flag(blocking), want, s.Objects(wait), d);
    var s1 := s.(stage := AwaitsData(req, 0, s.Objects(wait)));
    WriteBufferData(o, s1, req, queue, mem, Word(offset), Flag(blocking), want, s.Objects(wait), d);
    DataServed(o, s, req, 0, s.Objects(wait), d);
  }

  lemma WriteBufferRefines(o: Oracle, c: Cli, s: Srv, queue: nat, mem: nat, offset: nat, data: seq<byte>,
                           blocking: bool, wait: seq<nat>, want: bool)
    requires Rests(c, s)
    ensures var call := WriteBuffer(queue, mem, offset, data, blocking, wait, want);
      Conversation(o, c, s, call) == Predicted(o, c, s, call)
  {
    var call, d := WriteBuffer(queue, mem, offset, data, blocking, wait, want), Clipped(4, data);
    WriteBufferServed(o, s, queue, mem, offset, data, blocking, wait, want);
    var s1 := s.(stage := AwaitsData(Request(call)[0], 0, s.Objects(wait)));
    var s2 := s1.Called(DriverCall(WriteBufferFn, [s.Object(queue), s.Object(mem)],
                                   [Flag(blocking), Word(offset), |d|], [d], s.Objects(wait)));
    if Keeps(o, s, call) {
      CloseCommand(c, s2, Next(o, s), want, SuccessPacket(), WantSuccess, []);
    }
    OneRound(o, InCall(c, Wants(call)), s, Request(call), FinishCommand(s2, Next(o, s), want, [SuccessPacket()]),
             Enqueued(c, Idle(s2), Next(o, s), want, []));
  }

  lemma BufferRequest(o: Oracle, s: Srv, p: Packet, context: nat, flags: nat, size: nat, listed: nat)
    requires s.stage.Ready? && p.format == CREATE_BUFFER_FORMAT && p.body == Numbers([flags, size, context, listed])
    ensures FieldNum(p, 0) == flags && FieldNum(p, 1) == size && FieldNum(p, 2) == context && FieldNum(p, 3) == listed
    ensures ServerTakes(o, s, p) == Checked(if listed != 0 then Wait(s, AwaitsData(p, 0, []))
                                            else MakeBuffer(o, s, p, []))
  {
    var ns := [flags, size, context, listed];
    FieldIs(p, ns, 0);
    FieldIs(p, ns, 1);
    FieldIs(p, ns, 2);
    FieldIs(p, ns, 3);
  }

  lemma CreateBufferServed(o: Oracle, s: Srv, context: nat, flags: nat, size: nat, host: Option<seq<byte>>)
      returns (s1: Srv)
    requires s.stage.Ready?
    ensures Idle(s1) == s && (host == None ==> s1 == s)
    ensures Serve(o, s, Request(CreateBuffer(context, flags, size, host))) == After(o, FinishId(
      s1.Called(DriverCall(CreateBufferFn, [s.Object(context)], [Word(flags), Word(size)],
                           if host.Some? then [Clipped(4, host.value)] else [], [])), Next(o, s)), [])
  {
    var call := CreateBuffer(context, flags, size, host);
    var p := Request(call)[0];
    BufferRequest(o, s, p, context, Word(flags), Word(size), Flag(host.Some?));
    if host == None {
      s1 := s;
      ServeFirst(o, s, p, [], MakeBuffer(o, s, p, []));
    } else {
      s1 := s.(stage := AwaitsData(p, 0, []));
      ServeFirst(o, s, p, [PayloadOf(4, host.value)], Wait(s, AwaitsData(p, 0, [])));
      DataServed(o, s, p, 0, [], Clipped(4, host.value));
    }
  }

  lemma CreateBufferRefines(o: Oracle, c: Cli, s: Srv, context: nat, flags: nat, size: nat, host: Option<seq<byte>>)
    requires Rests(c, s)
    ensures var call := CreateBuffer(context, flags, size, host);
      Conversation(o, c, s, call) == Predicted(o, c, s, call)
  {
    var call := CreateBuffer(context, flags, size, host);
    var s1 := CreateBufferServed(o, s, context, flags, size, host);
    var s2 := s1.Called(DriverCall(CreateBufferFn, [s.Object(context)], [Word(flags), Word(size)],
                                   if host.Some? then [Clipped(4, host.value)] else [], []));
    if Keeps(o, s, call) { CloseId(c, s2, Next(o, s), false); }
    OneRound(o, InCall(c, Wants(call)), s, Request(call), FinishId(s2, Next(o, s)), Effect(o, c, s, call));
  }

  // ---- requests followed by a list ----

  lemma ListServed(o: Oracle, s: Srv, req: Packet, ids: seq<nat>, rest: seq<Packet>)
    requires s.stage.Ready? && ServerTakes(o, s, req) == Checked(Wait(s, AwaitsList(req)))
    ensures Serve(o, s, [req] + ([IdListPacket(ids)] + rest))
      == After(o, TakeList(o, s.(stage := AwaitsList(req)), req, ids), rest)
  {
    var list, s1 := IdListPacket(ids), s.(stage := AwaitsList(req));
    ServeFirst(o, s, req, [list] + rest, Wait(s, AwaitsList(req)));
    assert ValNums(list.body) == ids;
    ServeFirst(o, s1, list, rest, TakeList(o, s1, req, ids));
  }

  lemma ListRequest(o: Oracle, s: Srv, req: Packet)
    requires s.stage.Ready? && RequestFormat(req.format.tag) == Some(req.format)
    requires var tag := req.format.tag; tag == WAIT_EVENTS || tag == BUILD_PROGRAM || tag == CREATE_BINARY_PROGRAM
    ensures ServerTakes(o, s, req) == Checked(Wait(s, AwaitsList(req)))
  {
  }

  lemma WaitForEventsRefines(o: Oracle, c: Cli, s: Srv, wait: seq<nat>)
    requires Rests(c, s)
    ensures Conversation(o, c, s, WaitForEvents(wait)) == Predicted(o, c, s, WaitForEvents(wait))
  {
    var call := WaitForEvents(wait);
    var req := Request(call)[0];
    ListRequest(o, s, req);
    ListServed(o, s, req, wait, []);
    assert [req] + ([IdListPacket(wait)] + []) == Request(call);
    var s2 := s.(stage := AwaitsList(req)).Called(DriverCall(WaitFn, [], [], [], s.Objects(wait)));
    CloseCoded(c, s2, Next(o, s));
    OneRound(o, InCall(c, Wants(call)), s, Request(call), FinishSuccess(s2, Next(o, s)), Effect(o, c, s, call));
  }

  lemma BuildProgramTaken(o: Oracle, s: Srv, req: Packet, program: nat, options: seq<nat>, devices: seq<nat>)
    requires req.format.tag == BUILD_PROGRAM && req.body == Vs([N(program), Numbers(options)])
    ensures TakeList(o, s, req, devices) == FinishSuccess(
      s.Called(DriverCall(BuildProgramFn, [s.Object(program)] + s.Objects(devices), WithArgInfo(options), [], [])),
      Next(o, s))
  {
    NumbersArrive(options);
  }

  lemma BuildProgramRefines(o: Oracle, c: Cli, s: Srv, program: nat, options: seq<nat>, devices: seq<nat>)
    requires Rests(c, s)
    ensures var call := BuildProgram(program, options, devices);
      Conversation(o, c, s, call) == Predicted(o, c, s, call)
  {
    var call := BuildProgram(program, options, devices);
    var req := Request(call)[0];
    ListRequest(o, s, req);
    ListServed(o, s, req, devices, []);
    assert [req] + ([IdListPacket(devices)] + []) == Request(call);
    var s1 := s.(stage := AwaitsList(req));
    BuildProgramTaken(o, s1, req, program, options, devices);
    var s2 := s1.Called(DriverCall(BuildProgramFn, [s.Object(program)] + s.Objects(devices), WithArgInfo(options),
                                   [], []));
    CloseCoded(c, s2, Next(o, s));
    OneRound(o, InCall(c, Wants(call)), s, Request(call), FinishSuccess(s2, Next(o, s)), Effect(o, c, s, call));
  }

  // ---- one payload per device ----

  lemma {:induction false} BinariesServed(o: Oracle, s: Srv, req: Packet, devices: seq<Obj>, got: seq<seq<byte>>,
                                          left: seq<seq<byte>>)
    requires left != [] && |got| + |left| == |devices|
    ensures Serve(o, s.(stage := AwaitsBinaries(req, devices, got)), BinaryPackets(left))
      == After(o, MakeProgram(o, s, req, devices, got + left), [])
    decreases |left|
  {
    var s1 := s.(stage := AwaitsBinaries(req, devices, got));
    var p := PayloadPacket(4, left[0]);
    assert BinaryPackets(left) == [p] + BinaryPackets(left[1..]);
    assert got + left == (got + [left[0]]) + left[1..];
    if |left| == 1 {
      assert got + left == got + [left[0]] && BinaryPackets(left[1..]) == [];
      ProgramAnywhere(o, s, s1.stage, req, devices, got + left);
      ServeFirst(o, s1, p, [], MakeProgram(o, s, req, devices, got + left));
    } else {
      ServeFirst(o, s1, p, BinaryPackets(left[1..]), Wait(s1, AwaitsBinaries(req, devices, got + [left[0]])));
      BinariesServed(o, s, req, devices, got + [left[0]], left[1..]);
    }
  }

  lemma ProgramAnywhere(o: Oracle, s: Srv, stage: Stage, req: Packet, devices: seq<Obj>, binaries: seq<seq<byte>>)
    ensures MakeProgram(o, s.(stage := stage), req, devices, binaries) == MakeProgram(o, s, req, devices, binaries)
  {
  }

  lemma CloseProgram(c: Cli, s: Srv, a: Answer, d: seq<byte>)
    requires a.err == 0 && Room(s, a.obj) && |d| < 0x1_0000
    ensures Closes(Finish(s.(table := Intern(s.table, a.obj).1),
                          [IdPacket(Intern(s.table, a.obj).0), PayloadPacket(2, d)]),
                   InCall(c, [WantId(true), WantData(2)]), Hands(c, Idle(s), a.obj, true, d))
  {
    var id := Intern(s.table, a.obj).0;
    var c1 := InCall(c, [WantId(true), WantData(2)]);
    IdFits(id);
    PayloadFits(d);
    HearId(c1, id, true, [PayloadPacket(2, d)]);
    assert c1.wants[1..] == [WantData(2)];
    var (h, slots) := Pick(c1.slots, id, true);
    HearLastReply(c1.(slots := slots).Next(Reply(0, [h], [], 0)), PayloadPacket(2, d), WantData(2), d);
    assert [IdPacket(id)] + [PayloadPacket(2, d)] == [IdPacket(id), PayloadPacket(2, d)];
  }

  lemma CreateProgramServed(o: Oracle, s: Srv, context: nat, devices: seq<nat>, binaries: seq<seq<byte>>)
    requires s.stage.Ready? && devices != [] && |binaries| == |devices|
    ensures var req := Packet(Simple(CREATE_BINARY_PROGRAM, 2), N(context));
      Serve(o, s, [req] + ([IdListPacket(devices)] + BinaryPackets(binaries)))
        == After(o, MakeProgram(o, s, req, s.Objects(devices), binaries), [])
  {
    var req := Packet(Simple(CREATE_BINARY_PROGRAM, 2), N(context));
    ListRequest(o, s, req);
    ListServed(o, s, req, devices, BinaryPackets(binaries));
    BinariesServed(o, s, req, s.Objects(devices), [], binaries);
    assert [] + binaries == binaries;
  }

  lemma ProgramRequest(context: nat, devices: seq<nat>, binaries: seq<seq<byte>>)
    ensures Request(CreateProgram(context, devices, binaries))
      == [Packet(Simple(CREATE_BINARY_PROGRAM, 2), N(context))]
        + ([IdListPacket(devices)] + BinaryPackets(ClippedAll(binaries)))
  {
  }

  lemma CreateProgramRefines(o: Oracle, c: Cli, s: Srv, context: nat, devices: seq<nat>, binaries: seq<seq<byte>>)
    requires Rests(c, s) && devices != [] && |binaries| == |devices| < 0x100
    ensures var call := CreateProgram(context, devices, binaries);
      Conversation(o, c, s, call) == Predicted(o, c, s, call)
  {
    var call, blobs := CreateProgram(context, devices, binaries), ClippedAll(binaries);
    var req, a := Packet(Simple(CREATE_BINARY_PROGRAM, 2), N(context)), Next(o, s);
    ProgramRequest(context, devices, binaries);
    CreateProgramServed(o, s, context, devices, blobs);
    var s1 := s.Called(DriverCall(CreateProgramFn, [s.Object(context)] + s.Objects(devices), [], blobs, []));
    if a.err != 0 {
      CloseError(c, s1, Wants(call), a.err);
    } else if Room(s, a.obj) {
      CloseProgram(c, s1, a, Resized(a.data, 4 * |devices|));
    }
    OneRound(o, InCall(c, Wants(call)), s, Request(call), MakeProgram(o, s, req, s.Objects(devices), blobs),
             Effect(o, c, s, call));
  }
}
