/**
  Every API call, seen from its caller and from the driver, is the local transaction `Effect`; and
  it loses the session exactly when `Keeps` says so.
 */
module Refinement {
  import opened Options
  import opened Bytes
  import opened Packets
  import opened Lockstep
  import opened Wire
  import opened Tables
  import opened Contexts
  import opened Protocol
  import opened Dialogues
  import opened Effects

  // ---- replies fit their packets ----

  lemma IdFits(id: nat)
    requires id < ID_RANGE
    ensures WellFormed(IdPacket(id))
  {
    Ranges();
  }

  lemma ErrorFits(code: word)
    ensures WellFormed(ErrorPacket(code))
  {
    Ranges();
  }

  lemma NumberFits(n: word)
    ensures WellFormed(SmallPacket(4, n))
  {
    Ranges();
  }

  lemma PayloadFits(d: seq<byte>)
    ensures WellFormed(PayloadPacket(4, d)) <==> |d| < 0x1_0000_0000
    ensures WellFormed(PayloadPacket(2, d)) <==> |d| < 0x1_0000
    ensures WellFormed(PayloadPacket(1, d)) <==> |d| < 0x100
  {
    Ranges();
  }

  lemma ListFits(ids: seq<nat>)
    requires |ids| < 0x100 && forall i :: 0 <= i < |ids| ==> ids[i] < ID_RANGE
    ensures WellFormed(IdListPacket(ids)) && ValNums(Ids(ids)) == ids
  {
    Ranges();
  }

  // ---- the last replies of a dialogue ----

  /** The handler's last step sends replies that make the waiting client return with this outcome. */
  ghost predicate Closes(st: Step, c: Cli, w: World) {
    var k := Checked(st);
    && k.Some? && k.value.flush && k.value.next == w.srv && w.srv.stage.Ready? && w.cli.wants == []
    && Hear(c, k.value.send) == Heard(w.cli, [], false, [])
  }

  /** The client, waiting for these replies. */
  function InCall(c: Cli, wants: seq<Want>): Cli { c.(wants := wants, reply := NOTHING) }

  function Idle(s: Srv): Srv { s.(stage := Ready) }

  lemma HearLast(c: Cli, p: Packet)
    requires |c.wants| == 1 && Answers(p, ClientAwaits(c)) && ClientHandles(c, p).send == []
    ensures Hear(c, [p]) == Heard(ClientHandles(c, p).next, [], false, [])
  {
  }

  lemma HearError(c: Cli, code: word)
    requires c.wants != [] && c.wants[0] != WantContext && c.reply == NOTHING
    ensures Hear(c, [ErrorPacket(code)]) == Heard(c.Return(Reply(code, [], [], 0)), [], false, [])
  {
    assert ClientTakes(c, ErrorPacket(code)) == Some(Reaction([], false, c.Return(Reply(code, [], [], 0))));
  }

  lemma CloseError(c: Cli, s: Srv, wants: seq<Want>, code: word)
    requires wants != [] && wants[0] != WantContext
    ensures Closes(Finish(s, [ErrorPacket(code)]), InCall(c, wants), Failed(c, Idle(s), code))
  {
    ErrorFits(code);
    HearError(InCall(c, wants), code);
  }

  /** The client hears an ID, alone or before one more reply. */
  lemma HearId(c: Cli, id: nat, registers: bool, rest: seq<Packet>)
    requires c.wants != [] && c.wants[0] == WantId(registers) && c.reply == NOTHING && id < ID_RANGE
    ensures var (h, slots) := Pick(c.slots, id, registers);
      Hear(c, [IdPacket(id)] + rest) == Hear(c.(slots := slots).Next(Reply(0, [h], [], 0)), rest)
  {
    var p := IdPacket(id);
    var ps := [p] + rest;
    assert ps[0] == p && ps[1..] == rest;
    var (h, slots) := Pick(c.slots, id, registers);
    assert NOTHING.handles + [h] == [h];
    assert ClientTakes(c, p) == Some(Reaction([], false, c.(slots := slots).Next(Reply(0, [h], [], 0))));
  }

  lemma CloseId(c: Cli, s: Srv, a: Answer, registers: bool)
    requires a.err == 0 ==> Room(s, a.obj)
    ensures Closes(FinishId(s, a), InCall(c, [WantId(registers)]), Created(c, Idle(s), a, registers))
  {
    if a.err != 0 {
      CloseError(c, s, [WantId(registers)], a.err);
    } else {
      var id := Intern(s.table, a.obj).0;
      IdFits(id);
      HearId(InCall(c, [WantId(registers)]), id, registers, []);
      assert [IdPacket(id)] + [] == [IdPacket(id)];
    }
  }

  /** A new context, or an error whose code the client replaces by its own. */
  lemma CloseContext(c: Cli, s: Srv, a: Answer)
    requires a.err == 0 ==> Room(s, a.obj)
    ensures Closes(FinishId(s, a), InCall(c, [WantContext]),
                   if a.err != 0 then Failed(c, Idle(s), CL_DEVICE_NOT_AVAILABLE)
                   else Hands(c, Idle(s), a.obj, true, []))
  {
    var c1 := InCall(c, [WantContext]);
    if a.err != 0 {
      ErrorFits(a.err);
      assert ClientTakes(c1, ErrorPacket(a.err))
        == Some(Reaction([], false, c1.Return(Reply(CL_DEVICE_NOT_AVAILABLE, [], [], 0))));
    } else {
      var id := Intern(s.table, a.obj).0;
      IdFits(id);
      HearLast(c1, IdPacket(id));
      var (h, slots) := Pick(c.slots, id, true);
      assert NOTHING.handles + [h] == [h];
    }
  }

  /** The last reply of a command: the data that was read, or just success. */
  predicate LastReply(last: Packet, want: Want, data: seq<byte>) {
    || (last == SuccessPacket() && want == WantSuccess && data == [])
    || (want.WantData? && last == PayloadPacket(want.sizeWidth, data))
  }

  lemma HearLastReply(c: Cli, last: Packet, want: Want, data: seq<byte>)
    requires c.wants == [want] && LastReply(last, want, data) && c.reply.data == []
    ensures Hear(c, [last]) == Heard(c.Return(c.reply.(data := data)), [], false, [])
  {
    HearLast(c, last);
  }

  lemma CloseCommand(c: Cli, s: Srv, a: Answer, want: bool, last: Packet, lastWant: Want, data: seq<byte>)
    requires LastReply(last, lastWant, data) && (a.err == 0 ==> WellFormed(last))
    requires a.err == 0 && want ==> Room(s, a.event)
    ensures Closes(FinishCommand(s, a, want, [last]), InCall(c, EventWanted(want) + [lastWant]),
                   Enqueued(c, Idle(s), a, want, data))
  {
    var c1 := InCall(c, EventWanted(want) + [lastWant]);
    if a.err != 0 {
      CloseError(c, s, EventWanted(want) + [lastWant], a.err);
    } else if !want {
      assert [] + [lastWant] == [lastWant];
      HearLastReply(c1, last, lastWant, data);
    } else {
      var id := Intern(s.table, a.event).0;
      IdFits(id);
      HearId(c1, id, true, [last]);
      assert c1.wants[1..] == [lastWant];
      var (h, slots) := Pick(c1.slots, id, true);
      HearLastReply(c1.(slots := slots).Next(Reply(0, [h], [], 0)), last, lastWant, data);
    }
  }

  lemma CloseIds(c: Cli, s: Srv, xs: seq<Obj>, registers: bool)
    requires RoomForAll(s, xs)
    ensures Closes(FinishIds(s, xs), InCall(c, [WantIds(registers)]), HandsAll(c, Idle(s), xs, registers))
  {
    IdsForIsInternAll(s.table, xs);
    var ids := InternAll(s.table, xs).0;
    ListFits(ids);
    var c1 := InCall(c, [WantIds(registers)]);
    var (hs, _) := PickAll(c.slots, ids, registers);
    assert NOTHING.handles + hs == hs;
    HearLast(c1, IdListPacket(ids));
  }

  lemma CloseData(c: Cli, s: Srv, d: seq<byte>)
    ensures Closes(Finish(s, [PayloadOf(1, d)]), InCall(c, [WantData(1)]), Done(c, Idle(s), Clipped(1, d), 0))
  {
    HearLast(InCall(c, [WantData(1)]), PayloadOf(1, d));
  }

  lemma CloseNumber(c: Cli, s: Srv, n: word)
    ensures Closes(Finish(s, [SmallPacket(4, n)]), InCall(c, [WantNumber(4)]), Done(c, Idle(s), [], n))
  {
    NumberFits(n);
    HearLast(InCall(c, [WantNumber(4)]), SmallPacket(4, n));
  }

  lemma CloseCoded(c: Cli, s: Srv, a: Answer)
    ensures Closes(FinishSuccess(s, a), InCall(c, [WantSuccess]), Coded(c, Idle(s), a))
  {
    if a.err != 0 {
      CloseError(c, s, [WantSuccess], a.err);
    } else {
      HearLast(InCall(c, [WantSuccess]), SuccessPacket());
    }
  }

  // ---- serving a burst ----

  /** What follows from one read of the server, with `rest` still to be read. */
  ghost function After(o: Oracle, st: Step, rest: seq<Packet>): Served {
    match Checked(st)
    case None => Stuck
    case Some(r) =>
      if r.flush then Served(r.next, r.send, rest) else if r.send == [] then Serve(o, r.next, rest) else Unclear
  }

  lemma ServeFirst(o: Oracle, s: Srv, p: Packet, rest: seq<Packet>, st: Step)
    requires Checked(st) == ServerTakes(o, s, p)
    ensures Serve(o, s, [p] + rest) == After(o, st, rest)
  {
    var ps := [p] + rest;
    assert ps[0] == p && ps[1..] == rest;
  }

  /** A dialogue of one round. */
  lemma OneRound(o: Oracle, c: Cli, s: Srv, burst: seq<Packet>, st: Step, w: World)
    requires c.wants != [] && Serve(o, s, burst) == After(o, st, [])
    ensures Closes(st, c, w) ==> Converse(o, c, s, burst) == Settles(w.cli, w.srv)
    ensures Checked(st) == None ==> Converse(o, c, s, burst) == Loses
  {
  }

  /** The verdict that the refinement predicts. */
  function Predicted(o: Oracle, c: Cli, s: Srv, call: Call): Verdict {
    if Keeps(o, s, call) then Settles(Effect(o, c, s, call).cli, Effect(o, c, s, call).srv) else Loses
  }

  ghost predicate Rests(c: Cli, s: Srv) { c.wants == [] && s.stage.Ready? }

  // ---- call by call ----

  /** A call whose handler finishes right after the first packet. */
  lemma OnePacket(o: Oracle, c: Cli, s: Srv, call: Call, p: Packet)
    requires Rests(c, s) && Request(call) == [p]
    requires ServerTakes(o, s, p) == Checked(Dispatch(o, s, p))
    requires if Keeps(o, s, call) then Closes(Dispatch(o, s, p), InCall(c, Wants(call)), Effect(o, c, s, call))
             else Checked(Dispatch(o, s, p)) == None
    ensures Conversation(o, c, s, call) == Predicted(o, c, s, call)
  {
    ServeFirst(o, s, p, [], Dispatch(o, s, p));
    assert [p] + [] == [p];
    if Keeps(o, s, call) {
      OneRound(o, InCall(c, Wants(call)), s, [p], Dispatch(o, s, p), Effect(o, c, s, call));
    }
  }

  /** Numbers of a packet, as they arrive. */
  lemma NumbersArrive(ns: seq<nat>)
    ensures ValNums(Numbers(ns)) == ns
  {
  }

  lemma CreateUserEventRefines(o: Oracle, c: Cli, s: Srv, context: nat)
    requires Rests(c, s)
    ensures Conversation(o, c, s, CreateUserEvent(context)) == Predicted(o, c, s, CreateUserEvent(context))
  {
    var call := CreateUserEvent(context);
    if Keeps(o, s, call) {
      CloseId(c, s.Called(DriverCall(CreateUserEventFn, [s.Object(context)], [], [], [])), Next(o, s), true);
    }
    OnePacket(o, c, s, call, Request(call)[0]);
  }

  lemma CreateKernelRefines(o: Oracle, c: Cli, s: Srv, program: nat, name: seq<nat>)
    requires Rests(c, s)
    ensures Conversation(o, c, s, CreateKernel(program, name)) == Predicted(o, c, s, CreateKernel(program, name))
  {
    var call := CreateKernel(program, name);
    NumbersArrive(name);
    if Keeps(o, s, call) {
      CloseId(c, s.Called(DriverCall(CreateKernelFn, [s.Object(program)], name, [], [])), Next(o, s), true);
    }
    OnePacket(o, c, s, call, Request(call)[0]);
  }

  lemma CreateContextRefines(o: Oracle, c: Cli, s: Srv, properties: seq<nat>, devices: seq<nat>)
    requires Rests(c, s)
    ensures Conversation(o, c, s, CreateContext(properties, devices))
      == Predicted(o, c, s, CreateContext(properties, devices))
  {
    var call := CreateContext(properties, devices);
    NumbersArrive(properties);
    NumbersArrive(devices);
    if Keeps(o, s, call) {
      CloseContext(c, s.Called(DriverCall(CreateContextFn, s.Objects(devices),
                                          Terminated(Rebuild(s.table, properties)), [], [])), Next(o, s));
    }
    OnePacket(o, c, s, call, Request(call)[0]);
  }

  lemma RefCountRefines(o: Oracle, c: Cli, s: Srv, retain: bool, objTy: nat, id: nat)
    requires Rests(c, s)
    ensures Conversation(o, c, s, RefCount(retain, objTy, id)) == Predicted(o, c, s, RefCount(retain, objTy, id))
  {
    var call := RefCount(retain, objTy, id);
    CloseCoded(c, s.Called(DriverCall(if retain then RetainFn else ReleaseFn, [s.Object(id)], [objTy], [], [])),
               Next(o, s));
    OnePacket(o, c, s, call, Request(call)[0]);
  }

  lemma MemObjectRefines(o: Oracle, c: Cli, s: Srv, mem: nat, param: nat)
    requires Rests(c, s) && IsObjectParam(param)
    ensures Conversation(o, c, s, MemObjectInfo(mem, param)) == Predicted(o, c, s, MemObjectInfo(mem, param))
  {
    var call := MemObjectInfo(mem, param);
    if Keeps(o, s, call) {
      CloseId(c, s.Called(DriverCall(MemInfoObjectFn, [s.Object(mem)], [param], [], [])), Next(o, s), false);
    }
    OnePacket(o, c, s, call, Request(call)[0]);
  }

  /** The end of an info query whose answer is copied byte for byte. */
  function FinishInfo(s: Srv, b: Answer): Step {
    Finish(s, [if b.err != 0 then ErrorPacket(b.err) else PayloadOf(1, b.data)])
  }

  lemma CloseInfo(c: Cli, s: Srv, b: Answer)
    ensures Closes(FinishInfo(s, b), InCall(c, [WantData(1)]),
                   if b.err != 0 then Failed(c, Idle(s), b.err) else Done(c, Idle(s), Clipped(1, b.data), 0))
  {
    if b.err != 0 {
      CloseError(c, s, [WantData(1)], b.err);
    } else {
      CloseData(c, s, b.data);
    }
  }

  lemma MemDataRefines(o: Oracle, c: Cli, s: Srv, mem: nat, param: nat)
    requires Rests(c, s) && !IsObjectParam(param)
    ensures Conversation(o, c, s, MemObjectInfo(mem, param)) == Predicted(o, c, s, MemObjectInfo(mem, param))
  {
    var call := MemObjectInfo(mem, param);
    var a, s1 := Next(o, s), s.Called(DriverCall(MemInfoSizeFn, [s.Object(mem)], [param], [], []));
    if a.err != 0 {
      CloseError(c, s1, [WantData(1)], a.err);
    } else {
      CloseInfo(c, s1.Called(DriverCall(MemInfoFn, [s.Object(mem)], [param, a.num], [], [])), Next(o, s1));
    }
    OnePacket(o, c, s, call, Request(call)[0]);
  }

  lemma GetPlatformIdsRefines(o: Oracle, c: Cli, s: Srv)
    requires Rests(c, s)
    ensures Conversation(o, c, s, GetPlatformIds) == Predicted(o, c, s, GetPlatformIds)
  {
    var a, s1 := Next(o, s), s.Called(DriverCall(PlatformCountFn, [], [], [], []));
    var s2, xs := s1.Called(DriverCall(PlatformsFn, [], [a.num], [], [])), Next(o, s1).objs;
    if a.err != 0 {
      CloseError(c, s1, Wants(GetPlatformIds), a.err);
    } else if RoomForAll(s, xs) {
      CloseIds(c, s2, xs, false);
    } else {
      ListLost(s2, xs);
    }
    OnePacket(o, c, s, GetPlatformIds, Request(GetPlatformIds)[0]);
  }

  lemma ListLost(s: Srv, xs: seq<Obj>)
    requires !RoomForAll(s, xs)
    ensures Checked(FinishIds(s, xs)) == None
  {
    Ranges();
    if IdsFor(s.table, xs).Some? {
      IdsForIsInternAll(s.table, xs);
      var st := FinishIds(s, xs);
      assert st.value.send[0] == IdListPacket(InternAll(s.table, xs).0);
      assert !WellFormed(st.value.send[0]);
    }
  }

  /** The last step of the handler that counts the kernels of a program. */
  ghost function FinishCount(s: Srv, a: Answer): Step {
    Finish(s, [if a.err != 0 then ErrorPacket(a.err) else SmallPacket(4, Word(a.num))])
  }

  lemma CloseCount(c: Cli, s: Srv, a: Answer)
    ensures Closes(FinishCount(s, a), InCall(c, [WantNumber(4)]),
                   if a.err != 0 then Failed(c, Idle(s), a.err) else Done(c, Idle(s), [], Word(a.num)))
  {
    if a.err != 0 { CloseError(c, s, [WantNumber(4)], a.err); } else { CloseNumber(c, s, Word(a.num)); }
  }

  /** The last step of the handler that creates several kernels. */
  ghost function FinishKernels(s: Srv, a: Answer): Step {
    if a.err != 0 then Finish(s, [ErrorPacket(a.err)]) else FinishIds(s, a.objs)
  }

  lemma CloseKernels(c: Cli, s: Srv, a: Answer)
    ensures if a.err == 0 && !RoomForAll(s, a.objs) then Checked(FinishKernels(s, a)) == None
      else Closes(FinishKernels(s, a), InCall(c, [WantIds(true)]),
                  if a.err != 0 then Failed(c, Idle(s), a.err) else HandsAll(c, Idle(s), a.objs, true))
  {
    if a.err != 0 {
      CloseError(c, s, [WantIds(true)], a.err);
    } else if RoomForAll(s, a.objs) {
      CloseIds(c, s, a.objs, true);
    } else {
      ListLost(s, a.objs);
    }
  }

  lemma KernelsDispatched(o: Oracle, s: Srv, p: Packet, program: nat, count: nat)
    requires s.stage.Ready? && p.format == CREATE_KERNELS_FORMAT && p.body == Numbers([program, Word(count)])
    ensures ServerTakes(o, s, p) == Checked(Dispatch(o, s, p))
    ensures Dispatch(o, s, p) ==
      if Word(count) == 0
      then FinishCount(s.Called(DriverCall(CountKernelsFn, [s.Object(program)], [], [], [])), Next(o, s))
      else FinishKernels(s.Called(DriverCall(CreateKernelsFn, [s.Object(program)], [Word(count)], [], [])), Next(o, s))
  {
    assert FieldNum(p, 0) == program && FieldNum(p, 1) == Word(count);
  }

  lemma CountKernelsRefines(o: Oracle, c: Cli, s: Srv, program: nat, count: nat)
    requires Rests(c, s) && Word(count) == 0
    ensures Conversation(o, c, s, CreateKernels(program, count)) == Predicted(o, c, s, CreateKernels(program, count))
  {
    var call := CreateKernels(program, count);
    var p := Request(call)[0];
    CloseCount(c, s.Called(DriverCall(CountKernelsFn, [s.Object(program)], [], [], [])), Next(o, s));
    KernelsDispatched(o, s, p, program, count);
    OnePacket(o, c, s, call, p);
  }

  lemma CreateKernelsRefines(o: Oracle, c: Cli, s: Srv, program: nat, count: nat)
    requires Rests(c, s) && Word(count) != 0
    ensures Conversation(o, c, s, CreateKernels(program, count)) == Predicted(o, c, s, CreateKernels(program, count))
  {
    var call := CreateKernels(program, count);
    var p := Request(call)[0];
    CloseKernels(c, s.Called(DriverCall(CreateKernelsFn, [s.Object(program)], [Word(count)], [], [])), Next(o, s));
    KernelsDispatched(o, s, p, program, count);
    OnePacket(o, c, s, call, p);
  }

  lemma AcceptedCallbackRefines(o: Oracle, c: Cli, s: Srv, event: nat, callback: nat, kind: nat)
    requires Rests(c, s) && Next(o, s).err == 0
    ensures Conversation(o, c, s, SetEventCallback(event, callback, kind))
      == Predicted(o, c, s, SetEventCallback(event, callback, kind))
  {
    var call := SetEventCallback(event, callback, kind);
    CloseCoded(c, s.Called(DriverCall(SetCallbackFn, [s.Object(event)], [callback % ID_RANGE, Word(kind)], [], [])),
               Next(o, s));
    assert [] + [SuccessPacket()] == [SuccessPacket()];
    OnePacket(o, c, s, call, Request(call)[0]);
  }

  /** The first of two answers makes the client return; the other stays unread. */
  lemma HearErrorThen(c: Cli, code: word, p: Packet)
    requires c.wants != [] && c.wants[0] != WantContext && c.reply == NOTHING
    ensures Hear(c, [ErrorPacket(code)] + [p]) == Heard(c.Return(Reply(code, [], [], 0)), [], false, [p])
  {
    var ps := [ErrorPacket(code)] + [p];
    assert ps[0] == ErrorPacket(code) && ps[1..] == [p];
    assert ClientTakes(c, ErrorPacket(code)) == Some(Reaction([], false, c.Return(Reply(code, [], [], 0))));
  }

  lemma UnreadReplyLoses(o: Oracle, c: Cli, s: Srv, burst: seq<Packet>, s': Srv, code: word, p: Packet)
    requires c.wants != [] && c.wants[0] != WantContext && c.reply == NOTHING
    requires Serve(o, s, burst) == Served(s', [ErrorPacket(code)] + [p], [])
    ensures Converse(o, c, s, burst) == Loses
  {
    HearErrorThen(c, code, p);
  }

  lemma RefusedCallbackServed(o: Oracle, s: Srv, event: nat, callback: nat, kind: nat)
    requires s.stage.Ready? && Next(o, s).err != 0
    ensures var served := Serve(o, s, Request(SetEventCallback(event, callback, kind)));
      served.Served? && served == Served(served.srv, [ErrorPacket(Next(o, s).err)] + [SuccessPacket()], [])
  {
    var p := Request(SetEventCallback(event, callback, kind))[0];
    TwoRepliesFit(Next(o, s).err);
    ServeFirst(o, s, p, [], Dispatch(o, s, p));
    assert [p] + [] == [p] == Request(SetEventCallback(event, callback, kind));
  }

  lemma TwoRepliesFit(code: word)
    ensures AllWellFormed([ErrorPacket(code)] + [SuccessPacket()])
  {
    ErrorFits(code);
  }

  /** A refused registration is answered twice, and the second answer is never read. */
  lemma RefusedCallbackLoses(o: Oracle, c: Cli, s: Srv, event: nat, callback: nat, kind: nat)
    requires Rests(c, s) && Next(o, s).err != 0
    ensures Conversation(o, c, s, SetEventCallback(event, callback, kind)) == Loses
  {
    var call := SetEventCallback(event, callback, kind);
    RefusedCallbackServed(o, s, event, callback, kind);
    var s' := Serve(o, s, Request(call)).srv;
    UnreadReplyLoses(o, InCall(c, Wants(call)), s, Request(call), s', Next(o, s).err, SuccessPacket());
  }

  // ---- commands with an event list ----

  lemma FinishAnywhere(s: Srv, stage: Stage, a: Answer, want: bool, last: seq<Packet>)
    ensures FinishCommand(s.(stage := stage), a, want, last) == FinishCommand(s, a, want, last)
  {
  }

  /** A handler's step does not depend on where in the handler it is taken. */
  lemma CommandAnywhere(o: Oracle, s: Srv, stage: Stage, req: Packet, info: nat, events: seq<Obj>)
    ensures Command(o, s.(stage := stage), req, info, events) == Command(o, s, req, info, events)
  {
    var tag, first, queue := req.format.tag, s.Object(FieldNum(req, 0)), s.Object(FieldNum(req, 1));
    var a, want := Next(o, s), WantsEvent(req);
    if tag == READ_BUFFER {
      var d := DriverCall(ReadBufferFn, [queue, first], [FieldNum(req, 3), FieldNum(req, 2)], [], events);
      FinishAnywhere(s.Called(d), stage, a, want, [PayloadPacket(4, Resized(a.data, FieldNum(req, 2)))]);
    } else if tag == ENQUEUE_KERNEL {
      var d := DriverCall(EnqueueKernelFn, [queue, first], KernelParams(req), [], events);
      FinishAnywhere(s.Called(d), stage, a, want, [SuccessPacket()]);
    }
  }

  /**
    A command whose handler goes on with `s` and `info` after the request (and, for an image, after a
    query of the driver) reads the event list exactly if the request announces one.
   */
  lemma EventListServed(o: Oracle, s0: Srv, s: Srv, req: Packet, info: nat, wait: seq<nat>, rest: seq<Packet>)
    requires ServerTakes(o, s0, req) == Checked(EventsThen(o, s, req, info))
    requires ExpectsEvents(req) <==> wait != []
    ensures Serve(o, s0, [req] + WaitList(wait) + rest) == After(o, Command(o, s, req, info, s.Objects(wait)), rest)
  {
    if wait == [] {
      assert s.Objects(wait) == [];
      assert [req] + WaitList(wait) + rest == [req] + rest;
      ServeFirst(o, s0, req, rest, EventsThen(o, s, req, info));
    } else {
      assert [req] + WaitList(wait) + rest == [req] + ([IdListPacket(wait)] + rest);
      ServeFirst(o, s0, req, [IdListPacket(wait)] + rest, EventsThen(o, s, req, info));
      ListThenCommand(o, s, req, info, wait, rest);
    }
  }

  lemma ListThenCommand(o: Oracle, s: Srv, req: Packet, info: nat, wait: seq<nat>, rest: seq<Packet>)
    ensures Serve(o, s.(stage := AwaitsEvents(req, info)), [IdListPacket(wait)] + rest)
      == After(o, Command(o, s, req, info, s.Objects(wait)), rest)
  {
    assert ValNums(IdListPacket(wait).body) == wait;
    CommandAnywhere(o, s, AwaitsEvents(req, info), req, info, s.Objects(wait));
    ServeFirst(o, s.(stage := AwaitsEvents(req, info)), IdListPacket(wait), rest,
               Command(o, s, req, info, s.Objects(wait)));
  }

  /** A command that ends with its driver call: a buffer read, a buffer fill, a kernel. */
  lemma EnqueuedRefines(o: Oracle, c: Cli, s: Srv, call: Call, req: Packet, wait: seq<nat>, want: bool,
                        s1: Srv, last: Packet, lastWant: Want, data: seq<byte>)
    requires Rests(c, s) && Request(call) == [req] + WaitList(wait) && Wants(call) == EventWanted(want) + [lastWant]
    requires ServerTakes(o, s, req) == Checked(EventsThen(o, s, req, 0)) && (ExpectsEvents(req) <==> wait != [])
    requires Command(o, s, req, 0, s.Objects(wait)) == FinishCommand(s1, Next(o, s), want, [last])
    requires Idle(s1) == s1 && LastReply(last, lastWant, data) && WellFormed(last)
    requires Effect(o, c, s, call) == Enqueued(c, s1, Next(o, s), want, data)
    requires Keeps(o, s, call) <==> (Next(o, s).err == 0 && want ==> Room(s1, Next(o, s).event))
    ensures Conversation(o, c, s, call) == Predicted(o, c, s, call)
  {
    var st := FinishCommand(s1, Next(o, s), want, [last]);
    EventListServed(o, s, s, req, 0, wait, []);
    assert [req] + WaitList(wait) + [] == Request(call);
    if Keeps(o, s, call) {
      CloseCommand(c, s1, Next(o, s), want, last, lastWant, data);
    }
    OneRound(o, InCall(c, Wants(call)), s, Request(call), st, Effect(o, c, s, call));
  }

  /** The four commands that start with nothing but their request. */
  lemma CommandTaken(o: Oracle, s: Srv, req: Packet)
    requires s.stage.Ready? && RequestFormat(req.format.tag) == Some(req.format)
    requires req.format.tag in {READ_BUFFER, WRITE_BUFFER, FILL_BUFFER, ENQUEUE_KERNEL}
    ensures ServerTakes(o, s, req) == Checked(EventsThen(o, s, req, 0))
  {
  }

  lemma FieldIs(p: Packet, ns: seq<nat>, i: nat)
    requires p.body == Numbers(ns) && i < |ns|
    ensures FieldNum(p, i) == ns[i]
  {
  }

  /** The fields of a buffer transfer, as the handler finds them. */
  lemma BufferFields(p: Packet, mem: nat, queue: nat, size: nat, offset: nat, want: nat, listed: nat, block: nat)
    requires p.body == Numbers([mem, queue, size, offset, want, listed, block])
    ensures FieldNum(p, 0) == mem && FieldNum(p, 1) == queue && FieldNum(p, 2) == size && FieldNum(p, 3) == offset
    ensures FieldNum(p, 4) == want && FieldNum(p, 5) == listed && FieldNum(p, 6) == block
  {
    var ns := [mem, queue, size, offset, want, listed, block];
    FieldIs(p, ns, 0);
    FieldIs(p, ns, 1);
    FieldIs(p, ns, 2);
    FieldIs(p, ns, 3);
    FieldIs(p, ns, 4);
    FieldIs(p, ns, 5);
    FieldIs(p, ns, 6);
  }

  lemma ReadBufferCommand(o: Oracle, s: Srv, req: Packet, queue: nat, mem: nat, offset: nat, size: word, want: bool,
                          events: seq<Obj>)
    requires req.format.tag == READ_BUFFER && FieldNum(req, 0) == mem && FieldNum(req, 1) == queue
    requires FieldNum(req, 2) == size && FieldNum(req, 3) == offset && FieldNum(req, 4) == Flag(want)
    ensures Command(o, s, req, 0, events) == FinishCommand(
      s.Called(DriverCall(ReadBufferFn, [s.Object(queue), s.Object(mem)], [offset, size], [], events)),
      Next(o, s), want, [PayloadPacket(4, Resized(Next(o, s).data, size))])
  {
  }

  lemma ReadBufferTaken(o: Oracle, s: Srv, queue: nat, mem: nat, offset: nat, size: nat, blocking: bool,
                        wait: seq<nat>, want: bool)
    requires s.stage.Ready?
    ensures var call := ReadBuffer(queue, mem, offset, size, blocking, wait, want);
      var req := Request(call)[0];
      && Request(call) == [req] + WaitList(wait)
      && ServerTakes(o, s, req) == Checked(EventsThen(o, s, req, 0)) && (ExpectsEvents(req) <==> wait != [])
      && Command(o, s, req, 0, s.Objects(wait)) == FinishCommand(
           s.Called(DriverCall(ReadBufferFn, [s.Object(queue), s.Object(mem)], [Word(offset), Word(size)], [],
                               s.Objects(wait))),
           Next(o, s), want, [PayloadPacket(4, Resized(Next(o, s).data, Word(size)))])
  {
    var req := Request(ReadBuffer(queue, mem, offset, size, blocking, wait, want))[0];
    BufferFields(req, mem, queue, Word(size), Word(offset), Flag(want), Flag(wait != []), Flag(blocking));
    CommandTaken(o, s, req);
    ReadBufferCommand(o, s, req, queue, mem, Word(offset), Word(size), want, s.Objects(wait));
  }

  lemma ReadBufferRefines(o: Oracle, c: Cli, s: Srv, queue: nat, mem: nat, offset: nat, size: nat, blocking: bool,
                          wait: seq<nat>, want: bool)
    requires Rests(c, s)
    ensures var call := ReadBuffer(queue, mem, offset, size, blocking, wait, want);
      Conversation(o, c, s, call) == Predicted(o, c, s, call)
  {
    var call := ReadBuffer(queue, mem, offset, size, blocking, wait, want);
    var data := Resized(Next(o, s).data, Word(size));
    var s1 := s.Called(DriverCall(ReadBufferFn, [s.Object(queue), s.Object(mem)], [Word(offset), Word(size)], [],
                                  s.Objects(wait)));
    ReadBufferTaken(o, s, queue, mem, offset, size, blocking, wait, want);
    PayloadFits(data);
    EnqueuedRefines(o, c, s, call, Request(call)[0], wait, want, s1, PayloadPacket(4, data), WantData(4), data);
  }
}
