/**
  Handlers of the server and calls of the client as they are written: methods that read and write a
  packet stream, update the object tables and call the driver. They are proved against the steps of
  `Protocol`. What is still to arrive on the stream is known only to the specification.
 */
module Endpoints {
  import opened Options
  import opened Bytes
  import opened Codec
  import opened Packets
  import opened Lockstep
  import opened Wire
  import opened SocketStreams
  import opened PacketStreams
  import opened Tables
  import opened Protocol
  import opened Dialogues
  import opened Refinement
  import opened RefineImages

  lemma EncodeTwo(z: Framing, p: Packet, ps: seq<Packet>, rest: seq<byte>)
    ensures EncodeAll(z, [p] + ps) + rest == Encode(z, p) + (EncodeAll(z, ps) + rest)
    ensures EncodeAll(z, [p]) == Encode(z, p)
  {
    assert ([p] + ps)[1..] == ps && [p][1..] == [];
    Regroup(Encode(z, p), EncodeAll(z, ps), rest);
    assert EncodeAll(z, [p]) == Encode(z, p) + EncodeAll(z, []);
  }

  lemma TwoReplies(z: Framing, before: seq<byte>, p: Packet, q: Packet)
    ensures before + EncodeAll(z, [p]) + EncodeAll(z, [q]) == before + EncodeAll(z, [p] + [q])
  {
    EncodeTwo(z, p, [q], []);
    assert EncodeAll(z, [q]) + [] == EncodeAll(z, [q]) && EncodeAll(z, [p] + [q]) + [] == EncodeAll(z, [p] + [q]);
    Regroup(before, EncodeAll(z, [p]), EncodeAll(z, [q]));
  }

  lemma ListFitsIff(ids: seq<nat>)
    requires forall i :: 0 <= i < |ids| ==> ids[i] < ID_RANGE
    ensures WellFormed(IdListPacket(ids)) <==> |ids| < 0x100
  {
    Ranges();
    if |ids| < 0x100 {
      ListFits(ids);
    }
  }

  lemma IdsArrive(ids: seq<nat>)
    ensures ValNums(Ids(ids)) == ids
  {
  }

  lemma SizeFits(req: Packet)
    requires req.format.schema == BUFFER_RW && WellFormed(req)
    ensures FieldNum(req, 2) < 0x1_0000_0000
  {
    Ranges();
    assert |req.body.vals| == 7 && BUFFER_RW.fields[2] == Num(4);
    assert Fits(BUFFER_RW.fields[2], req.body.vals[2]);
  }

  // ---- the server ----

  class ServerInstance {
    const packets: PacketStream
    const table: ServerTable
    const driver: Oracle
    var log: seq<DriverCall>

    constructor (socket: Socket, framing: Framing, driver: Oracle)
      ensures packets.stream.Valid() && packets.framing == framing && packets.stream.socket == socket
      ensures State() == Srv(Ready, [], []) && this.driver == driver
    {
      packets := new PacketStream(socket, framing);
      table := new ServerTable();
      this.driver := driver;
      log := [];
    }

    ghost function State(): Srv
      reads this, table
    {
      Srv(Ready, table.objects, log)
    }

    method CallDriver(d: DriverCall) returns (a: Answer)
      modifies this`log
      ensures State() == old(State()).Called(d) && a == Next(driver, old(State()))
    {
      a := driver(|log|);
      log := log + [d];
    }

    /** Reads the packet that comes next, which is of the expected type. */
    method Take(format: Format, ghost p: Packet, ghost rest: seq<byte>) returns (q: Packet)
      requires packets.stream.Valid() && Lossless(packets.framing)
      requires WellFormed(p) && p.format == format && format.tag != ERROR && format.tag != TERMINATE
      requires packets.stream.Pending() == Encode(packets.framing, p) + rest
      modifies packets.stream`readOffset, packets.stream`available, packets.stream.readBuffer,
        packets.stream.socket`incoming
      ensures packets.stream.Valid() && packets.stream.Pending() == rest && q == p
      ensures packets.stream.Written() == old(packets.stream.Written())
    {
      ReceiveEncoded(packets.framing, format, p, rest);
      var r := packets.Read(format);
      q := r.packet;
    }

    method Give(p: Packet)
      requires packets.stream.Valid() && WellFormed(p)
      modifies packets.stream`writeOffset, packets.stream.writeBuffer, packets.stream.socket`sent
      ensures packets.stream.Valid() && packets.stream.Pending() == old(packets.stream.Pending())
      ensures packets.stream.Written() == old(packets.stream.Written()) + EncodeAll(packets.framing, [p])
    {
      EncodeTwo(packets.framing, p, [], []);
      packets.Write(p);
    }

    /** The loop that looks up the objects of a list of IDs. */
    method ObjectsOf(ids: seq<nat>) returns (objects: seq<Obj>)
      ensures objects == State().Objects(ids)
    {
      objects := [];
      var i: nat := 0;
      while i < |ids|
        invariant i <= |ids| && |objects| == i
        invariant forall k :: 0 <= k < i ==> objects[k] == GetObj(table.objects, ids[k])
      {
        var x := table.GetObject(ids[i]);
        objects := objects + [x];
        i := i + 1;
      }
    }

    /** The event list, if the request announces one, as objects of the driver. */
    method ReadEvents(listed: bool, ghost wait: seq<nat>, ghost rest: seq<byte>) returns (events: seq<Obj>)
      requires packets.stream.Valid() && Lossless(packets.framing)
      requires (listed <==> wait != []) && AllWellFormed(WaitList(wait))
      requires packets.stream.Pending() == EncodeAll(packets.framing, WaitList(wait)) + rest
      modifies packets.stream`readOffset, packets.stream`available, packets.stream.readBuffer,
        packets.stream.socket`incoming
      ensures packets.stream.Valid() && packets.stream.Pending() == rest && events == State().Objects(wait)
      ensures packets.stream.Written() == old(packets.stream.Written())
    {
      events := [];
      if listed {
        assert WaitList(wait)[0] == IdListPacket(wait);
        EncodeTwo(packets.framing, IdListPacket(wait), [], rest);
        var p := Take(ID_LIST_FORMAT, IdListPacket(wait), rest);
        IdsArrive(wait);
        events := ObjectsOf(ValNums(p.body));
      } else {
        assert [] + rest == rest;
      }
    }

    /** The step `st` of `Protocol` has been taken: its new state, and its replies behind what was written. */
    twostate predicate Took(st: Step)
      requires old(packets.stream.Valid()) && packets.stream.Valid()
      reads this, table, packets.stream, packets.stream.writeBuffer, packets.stream.socket
    {
      st.Some? && State() == st.value.next
      && packets.stream.Written() == old(packets.stream.Written()) + EncodeAll(packets.framing, st.value.send)
    }

    /** The end of every command: an error; or the event, if the client wants it, and a last packet. */
    method ReplyToCommand(a: Answer, want: bool, last: Packet) returns (hangs: bool)
      requires packets.stream.Valid() && WellFormed(last)
      modifies table, packets.stream`writeOffset, packets.stream.writeBuffer, packets.stream.socket`sent
      ensures packets.stream.Valid() && packets.stream.Pending() == old(packets.stream.Pending())
      ensures hangs <==> FinishCommand(old(State()), a, want, [last]) == None
      ensures !hangs ==> Took(FinishCommand(old(State()), a, want, [last]))
    {
      hangs := false;
      ghost var before := packets.stream.Written();
      if a.err != 0 {
        ErrorFits(a.err);
        Give(ErrorPacket(a.err));
        return;
      }
      if want {
        ScanHangsIff(table.objects, a.event);
        var id;
        id, hangs := table.GetIdFor(a.event);
        if hangs {
          return;
        }
        IdFits(id);
        Give(IdPacket(id));
        TwoReplies(packets.framing, before, IdPacket(id), last);
      }
      Give(last);
    }

    /** The rest of `readBuffer`, once the request and the events are there. */
    method EnqueueRead(p: Packet, events: seq<Obj>) returns (hangs: bool)
      requires packets.stream.Valid() && p.format == Format(READ_BUFFER, BUFFER_RW) && WellFormed(p)
      modifies this`log, table, packets.stream`writeOffset, packets.stream.writeBuffer, packets.stream.socket`sent
      ensures packets.stream.Valid() && packets.stream.Pending() == old(packets.stream.Pending())
      ensures hangs <==> Command(driver, old(State()), p, 0, events) == None
      ensures !hangs ==> Took(Command(driver, old(State()), p, 0, events))
    {
      SizeFits(p);
      var buffer := table.GetObject(FieldNum(p, 0));
      var queue := table.GetObject(FieldNum(p, 1));
      var size := FieldNum(p, 2);
      var a := CallDriver(DriverCall(ReadBufferFn, [queue, buffer], [FieldNum(p, 3), size], [], events));
      PayloadFits(Resized(a.data, size));
      hangs := ReplyToCommand(a, WantsEvent(p), PayloadPacket(4, Resized(a.data, size)));
    }

    method ReadBuffer(ghost req: Packet, ghost wait: seq<nat>, ghost rest: seq<byte>) returns (hangs: bool)
      requires packets.stream.Valid() && Lossless(packets.framing)
      requires req.format == Format(READ_BUFFER, BUFFER_RW) && WellFormed(req) && AllWellFormed(WaitList(wait))
      requires ExpectsEvents(req) <==> wait != []
      requires packets.stream.Pending() == EncodeAll(packets.framing, [req] + WaitList(wait)) + rest
      modifies this`log, table, packets.stream, packets.stream.readBuffer, packets.stream.writeBuffer,
        packets.stream.socket
      ensures packets.stream.Valid() && packets.stream.Pending() == rest
      ensures hangs <==> Command(driver, old(State()), req, 0, old(State()).Objects(wait)) == None
      ensures !hangs ==> Took(Command(driver, old(State()), req, 0, old(State()).Objects(wait)))
    {
      EncodeTwo(packets.framing, req, WaitList(wait), rest);
      var p := Take(Format(READ_BUFFER, BUFFER_RW), req, EncodeAll(packets.framing, WaitList(wait)) + rest);
      var events := ReadEvents(ExpectsEvents(p), wait, rest);
      hangs := EnqueueRead(p, events);
    }

    /** The rest of `writeBuffer`, once everything has been read. */
    method EnqueueWrite(p: Packet, events: seq<Obj>, data: seq<byte>) returns (hangs: bool)
      requires packets.stream.Valid() && p.format == Format(WRITE_BUFFER, BUFFER_RW)
      modifies this`log, table, packets.stream`writeOffset, packets.stream.writeBuffer, packets.stream.socket`sent
      ensures packets.stream.Valid() && packets.stream.Pending() == old(packets.stream.Pending())
      ensures hangs <==> TakeData(driver, old(State()), p, 0, events, data) == None
      ensures !hangs ==> Took(TakeData(driver, old(State()), p, 0, events, data))
    {
      var buffer := table.GetObject(FieldNum(p, 0));
      var queue := table.GetObject(FieldNum(p, 1));
      var a := CallDriver(DriverCall(WriteBufferFn, [queue, buffer], [FieldNum(p, 6), FieldNum(p, 3), |data|],
                                     [data], events));
      hangs := ReplyToCommand(a, WantsEvent(p), SuccessPacket());
    }

    method WriteBuffer(ghost req: Packet, ghost wait: seq<nat>, ghost d: seq<byte>, ghost rest: seq<byte>)
        returns (hangs: bool)
      requires packets.stream.Valid() && Lossless(packets.framing)
      requires req.format == Format(WRITE_BUFFER, BUFFER_RW)
      requires WellFormed(req) && AllWellFormed(WaitList(wait)) && WellFormed(PayloadPacket(4, d))
      requires ExpectsEvents(req) <==> wait != []
      requires packets.stream.Pending()
        == EncodeAll(packets.framing, [req] + WaitList(wait)) + (Encode(packets.framing, PayloadPacket(4, d)) + rest)
      modifies this`log, table, packets.stream, packets.stream.readBuffer, packets.stream.writeBuffer,
        packets.stream.socket
      ensures packets.stream.Valid() && packets.stream.Pending() == rest
      ensures hangs <==> TakeData(driver, old(State()), req, 0, old(State()).Objects(wait), d) == None
      ensures !hangs ==> Took(TakeData(driver, old(State()), req, 0, old(State()).Objects(wait), d))
    {
      ghost var tail := Encode(packets.framing, PayloadPacket(4, d)) + rest;
      EncodeTwo(packets.framing, req, WaitList(wait), tail);
      var p := Take(Format(WRITE_BUFFER, BUFFER_RW), req, EncodeAll(packets.framing, WaitList(wait)) + tail);
      var events := ReadEvents(ExpectsEvents(p), wait, tail);
      var payload := Take(PayloadFormat(4), PayloadPacket(4, d), rest);
      hangs := EnqueueWrite(p, events, ValData(payload.body));
    }

    /** Asks the client for a kernel argument in the way that suits the kernel, or reports an error. */
    method AskForArg(p: Packet) returns (asked: bool, mode: nat, kernel: Obj, index: nat)
      requires packets.stream.Valid() && p.format == KERNEL_ARG_FORMAT
      modifies this`log, packets.stream`writeOffset, packets.stream.writeBuffer, packets.stream.socket`sent
      ensures packets.stream.Valid() && packets.stream.Pending() == old(packets.stream.Pending())
      ensures var a := Next(driver, old(State()));
        && asked == (a.err == 0) && mode == ModeFor(a.num)
        && kernel == old(State()).Object(FieldNum(p, 0)) && index == FieldNum(p, 1)
        && State() == old(State()).Called(DriverCall(ArgInfoFn, [kernel], [index], [], []))
        && packets.stream.Written() == old(packets.stream.Written())
             + EncodeAll(packets.framing, [if asked then SmallPacket(1, mode) else ErrorPacket(a.err)])
      ensures asked ==> packets.stream.writeOffset == 0
    {
      index := FieldNum(p, 1);
      kernel := table.GetObject(FieldNum(p, 0));
      var a := CallDriver(DriverCall(ArgInfoFn, [kernel], [index], [], []));
      asked, mode := a.err == 0, ModeFor(a.num);
      if !asked {
        ErrorFits(a.err);
        Give(ErrorPacket(a.err));
        return;
      }
      ModeFits(mode);
      Give(SmallPacket(1, mode));
      packets.stream.Flush();
    }

    /** The argument goes to the driver, and the driver's verdict to the client. */
    method GiveArg(mode: nat, kernel: Obj, index: nat, given: Packet)
      requires packets.stream.Valid()
      modifies this`log, packets.stream`writeOffset, packets.stream.writeBuffer, packets.stream.socket`sent
      ensures packets.stream.Valid() && packets.stream.Pending() == old(packets.stream.Pending())
      ensures Took(TakeArg(driver, old(State()), mode, kernel, index, given))
    {
      var b;
      if mode == MODE_ID {
        var mem := table.GetObject(ValNum(given.body));
        b := CallDriver(DriverCall(SetArgMemFn, [kernel, mem], [index, SIZEOF_CL_MEM], [], []));
      } else if mode == MODE_SIZE {
        b := CallDriver(DriverCall(SetArgLocalFn, [kernel], [index, ValNum(given.body)], [], []));
      } else {
        var d := ValData(given.body);
        b := CallDriver(DriverCall(SetArgBytesFn, [kernel], [index, |d|], [d], []));
      }
      ErrorFits(b.err);
      if b.err != 0 {
        Give(ErrorPacket(b.err));
      } else {
        Give(SuccessPacket());
      }
    }

    method ReceiveArg(mode: nat, kernel: Obj, index: nat, ghost arg: Packet, ghost rest: seq<byte>)
      requires packets.stream.Valid() && Lossless(packets.framing) && WellFormed(arg) && arg.format == ArgFormat(mode)
      requires packets.stream.Pending() == Encode(packets.framing, arg) + rest
      modifies this`log, packets.stream, packets.stream.readBuffer, packets.stream.writeBuffer, packets.stream.socket
      ensures packets.stream.Valid() && packets.stream.Pending() == rest
      ensures Took(TakeArg(driver, old(State()), mode, kernel, index, arg))
    {
      var given := Take(ArgFormat(mode), arg, rest);
      GiveArg(mode, kernel, index, given);
    }

    /**
      The dialogue about a kernel argument. The client's answer to the question is not on the stream
      unless the question is asked; when the server blocks for it, nothing is left in the write buffer.
     */
    method SetKernelArg(ghost req: Packet, ghost arg: Packet, ghost rest: seq<byte>)
      requires packets.stream.Valid() && Lossless(packets.framing)
      requires req.format == KERNEL_ARG_FORMAT && WellFormed(req) && WellFormed(arg)
      requires Next(driver, State()).err == 0 ==> arg.format == ArgFormat(ModeFor(Next(driver, State()).num))
      requires packets.stream.Pending() == Encode(packets.framing, req)
        + if Next(driver, State()).err == 0 then Encode(packets.framing, arg) + rest else rest
      modifies this`log, packets.stream, packets.stream.readBuffer, packets.stream.writeBuffer, packets.stream.socket
      ensures packets.stream.Valid() && packets.stream.Pending() == rest
      ensures var (after, replies) := ArgDialogue(driver, old(State()), req, arg);
        && State() == after
        && packets.stream.Written() == old(packets.stream.Written()) + EncodeAll(packets.framing, replies)
    {
      var p := Take(KERNEL_ARG_FORMAT, req,
                    if Next(driver, State()).err == 0 then Encode(packets.framing, arg) + rest else rest);
      var asked, mode, kernel, index := AskForArg(p);
      ghost var s1 := State();
      if asked {
        ReceiveArg(mode, kernel, index, arg, rest);
        TwoReplies(packets.framing, old(packets.stream.Written()), SmallPacket(1, mode),
                   TakeArg(driver, s1, mode, kernel, index, arg).value.send[0]);
      }
    }

    method CountKernels(p: Packet)
      requires packets.stream.Valid() && p.format == CREATE_KERNELS_FORMAT && FieldNum(p, 1) == 0
      modifies this`log, packets.stream`writeOffset, packets.stream.writeBuffer, packets.stream.socket`sent
      ensures packets.stream.Valid() && packets.stream.Pending() == old(packets.stream.Pending())
      ensures Checked(Dispatch(driver, old(State()), p)).Some? && Took(Dispatch(driver, old(State()), p))
    {
      var program := table.GetObject(FieldNum(p, 0));
      var a := CallDriver(DriverCall(CountKernelsFn, [program], [], [], []));
      ErrorFits(a.err);
      NumberFits(Word(a.num));
      Give(if a.err != 0 then ErrorPacket(a.err) else SmallPacket(4, Word(a.num)));
    }

    /** Numbers the kernels in order and replies with their IDs, or with an error. */
    method ReplyWithKernels(a: Answer) returns (stuck: bool)
      requires packets.stream.Valid()
      modifies table, packets.stream`writeOffset, packets.stream.writeBuffer, packets.stream.socket`sent
      ensures packets.stream.Valid() && packets.stream.Pending() == old(packets.stream.Pending())
      ensures stuck <==> Checked(FinishKernels(old(State()), a)) == None
      ensures !stuck ==> Took(FinishKernels(old(State()), a))
    {
      if a.err != 0 {
        ErrorFits(a.err);
        Give(ErrorPacket(a.err));
        return false;
      }
      var ids;
      ids, stuck := GetIdsFor(a.objs);
      if !stuck {
        ListFitsIff(ids);
        assert FinishKernels(old(State()), a).value.send[0] == IdListPacket(ids);
        if |ids| >= 0x100 {
          return true;   // the assertion on the length prefix fails
        }
        Give(IdListPacket(ids));
      }
    }

    /**
      The kernels of a program are counted, or created and numbered in order. The handler gets stuck
      exactly when a scan of the table hangs or the list is too long for its packet.
     */
    method CreateKernels(ghost req: Packet, ghost rest: seq<byte>) returns (stuck: bool)
      requires packets.stream.Valid() && Lossless(packets.framing)
      requires req.format == CREATE_KERNELS_FORMAT && WellFormed(req)
      requires packets.stream.Pending() == Encode(packets.framing, req) + rest
      modifies this`log, table, packets.stream, packets.stream.readBuffer, packets.stream.writeBuffer,
        packets.stream.socket
      ensures packets.stream.Valid() && packets.stream.Pending() == rest
      ensures stuck <==> Checked(Dispatch(driver, old(State()), req)) == None
      ensures !stuck ==> Took(Dispatch(driver, old(State()), req))
    {
      var p := Take(CREATE_KERNELS_FORMAT, req, rest);
      stuck := false;
      if FieldNum(p, 1) == 0 {
        CountKernels(p);
      } else {
        stuck := MakeKernels(p);
      }
    }

    method MakeKernels(p: Packet) returns (stuck: bool)
      requires packets.stream.Valid() && p.format == CREATE_KERNELS_FORMAT && FieldNum(p, 1) != 0
      modifies this`log, table, packets.stream`writeOffset, packets.stream.writeBuffer, packets.stream.socket`sent
      ensures packets.stream.Valid() && packets.stream.Pending() == old(packets.stream.Pending())
      ensures stuck <==> Checked(Dispatch(driver, old(State()), p)) == None
      ensures !stuck ==> Took(Dispatch(driver, old(State()), p))
    {
      var program := table.GetObject(FieldNum(p, 0));
      var count := FieldNum(p, 1);
      var a := CallDriver(DriverCall(CreateKernelsFn, [program], [count], [], []));
      stuck := ReplyWithKernels(a);
    }

    /** The loop that numbers a list of objects. */
    method GetIdsFor(xs: seq<Obj>) returns (ids: seq<nat>, hangs: bool)
      modifies table
      ensures hangs <==> IdsFor(old(table.objects), xs) == None
      ensures !hangs ==> IdsFor(old(table.objects), xs) == Some((ids, table.objects))
      ensures !hangs ==> |ids| == |xs| && forall i :: 0 <= i < |ids| ==> ids[i] < ID_RANGE
    {
      ids, hangs := [], false;
      var i: nat := 0;
      while i < |xs|
        invariant i <= |xs| && |ids| == i && forall j :: 0 <= j < i ==> ids[j] < ID_RANGE
        invariant IdsFor(old(table.objects), xs[..i]) == Some((ids, table.objects))
      {
        ScanHangsIff(table.objects, xs[i]);
        IdsForStep(old(table.objects), xs, i);
        var id;
        id, hangs := table.GetIdFor(xs[i]);
        if hangs {
          IdsForPrefix(old(table.objects), xs, i + 1);
          return;
        }
        ids := ids + [id];
        i := i + 1;
      }
      assert xs[..i] == xs;
    }
  }

  lemma IdsForStep(table: seq<Obj>, xs: seq<Obj>, i: nat)
    requires i < |xs|
    ensures IdsFor(table, xs[..i + 1]) ==
      match IdsFor(table, xs[..i])
      case None => None
      case Some((ids, t)) =>
        match IdFor(t, xs[i])
        case None => None
        case Some((id, t')) => Some((ids + [id], t'))
  {
    assert xs[..i + 1][..i] == xs[..i];
  }

  /** A scan that hangs on the way hangs for the whole list. */
  lemma {:induction false} IdsForPrefix(table: seq<Obj>, xs: seq<Obj>, i: nat)
    requires i <= |xs| && IdsFor(table, xs[..i]) == None
    ensures IdsFor(table, xs) == None
    decreases |xs| - i
  {
    if i == |xs| {
      assert xs[..i] == xs;
    } else {
      IdsForStep(table, xs, i);
      IdsForPrefix(table, xs, i + 1);
    }
  }

  /** The state and the replies after the dialogue about a kernel argument. */
  ghost function ArgDialogue(o: Oracle, s: Srv, req: Packet, arg: Packet): (Srv, seq<Packet>) {
    var a, kernel, index := Next(o, s), s.Object(FieldNum(req, 0)), FieldNum(req, 1);
    var s1 := s.Called(DriverCall(ArgInfoFn, [kernel], [index], [], []));
    if a.err != 0 then (s1, [ErrorPacket(a.err)]) else
    var r := TakeArg(o, s1, ModeFor(a.num), kernel, index, arg).value;
    (r.next, [SmallPacket(1, ModeFor(a.num))] + [r.send[0]])
  }

  /**
    What the server asks for is decided by the address space of the argument: 'I' for a global (0x119B) or
    constant (0x119D) one, 'S' for a local one (0x119C), 'P' for any other. The driver gets accordingly
    the object of the ID, the size, or the bytes that the client answers with.
   */
  lemma ArgAskedByAddressSpace(o: Oracle, s: Srv, req: Packet, arg: Packet)
    requires Next(o, s).err == 0 && req.format == KERNEL_ARG_FORMAT
    ensures var q, k, i := Next(o, s).num, s.Object(FieldNum(req, 0)), FieldNum(req, 1);
      var (after, replies) := ArgDialogue(o, s, req, arg);
      && |replies| == 2 && replies[0].body
           == N((if q == 0x119B || q == 0x119D then 'I' else if q == 0x119C then 'S' else 'P') as nat)
      && after.log == s.log + [DriverCall(ArgInfoFn, [k], [i], [], [])]
           + [if q == 0x119B || q == 0x119D then
                DriverCall(SetArgMemFn, [k, s.Object(ValNum(arg.body))], [i, 8], [], [])
              else if q == 0x119C then
                DriverCall(SetArgLocalFn, [k], [i, ValNum(arg.body)], [], [])
              else
                DriverCall(SetArgBytesFn, [k], [i, |ValData(arg.body)|], [ValData(arg.body)], [])]
  {
  }

  /** These are the two steps of the handler in `Protocol`, one for each packet that it reads. */
  lemma ArgDialogueIsHandled(o: Oracle, s: Srv, req: Packet, arg: Packet)
    requires s.stage.Ready? && req.format == KERNEL_ARG_FORMAT
    ensures var st := Dispatch(o, s, req);
      st.Some? && if Next(o, s).err != 0 then ArgDialogue(o, s, req, arg) == (st.value.next, st.value.send)
      else
        var st' := ServerHandles(o, st.value.next, arg);
        st'.Some? && ArgDialogue(o, s, req, arg) == (st'.value.next, st.value.send + st'.value.send)
  {
  }

  /** What the server reads after it has asked for a kernel argument. */
  function ArgFormat(mode: nat): Format {
    if mode == MODE_ID then ID_FORMAT else if mode == MODE_SIZE then Simple(PAYLOAD, 4) else PayloadFormat(4)
  }

  // ---- the client ----

  class Connection {
    const packets: PacketStream
    const table: ClientTable

    constructor (socket: Socket, framing: Framing)
      ensures packets.stream.Valid() && packets.framing == framing && packets.stream.socket == socket
      ensures Client() == Cli([], NOTHING, Slots([], 0), [])
    {
      packets := new PacketStream(socket, framing);
      table := new ClientTable();
    }

    /** The client between two calls; the replies of earlier calls are with their callers. */
    ghost function Client(): Cli
      reads table
    {
      Cli([], NOTHING, table.Value(), [])
    }

    method Send(p: Packet)
      requires packets.stream.Valid() && WellFormed(p)
      modifies packets.stream`writeOffset, packets.stream.writeBuffer, packets.stream.socket`sent
      ensures packets.stream.Valid() && packets.stream.Pending() == old(packets.stream.Pending())
      ensures packets.stream.Written() == old(packets.stream.Written()) + EncodeAll(packets.framing, [p])
    {
      EncodeTwo(packets.framing, p, [], []);
      packets.Write(p);
    }

    /** Reads the next reply: the awaited packet or an error. */
    method HearOne(expected: Format, ghost replies: seq<Packet>, ghost rest: seq<byte>) returns (r: Read)
      requires packets.stream.Valid() && Lossless(packets.framing)
      requires replies != [] && AllWellFormed(replies) && Answers(replies[0], expected)
      requires packets.stream.Pending() == EncodeAll(packets.framing, replies) + rest
      modifies packets.stream`readOffset, packets.stream`available, packets.stream.readBuffer,
        packets.stream.socket`incoming
      ensures packets.stream.Valid() && packets.stream.Pending() == EncodeAll(packets.framing, replies[1..]) + rest
      ensures packets.stream.Written() == old(packets.stream.Written())
      ensures r == ReadAs(replies[0])
    {
      EncodeTwo(packets.framing, replies[0], replies[1..], rest);
      assert [replies[0]] + replies[1..] == replies;
      ReceiveEncoded(packets.framing, expected, replies[0], EncodeAll(packets.framing, replies[1..]) + rest);
      r := packets.Read(expected);
    }

    /** Writes a request with its event list and flushes it, so that the server can start. */
    method SendCommand(req: Packet, wait: seq<nat>)
      requires packets.stream.Valid() && WellFormed(req) && AllWellFormed(WaitList(wait))
      modifies packets.stream`writeOffset, packets.stream.writeBuffer, packets.stream.socket`sent
      ensures packets.stream.Valid() && packets.stream.Pending() == old(packets.stream.Pending())
      ensures packets.stream.Written() == old(packets.stream.Written())
        + EncodeAll(packets.framing, [req] + WaitList(wait))
      ensures packets.stream.socket.sent == packets.stream.Written()
    {
      ghost var before := packets.stream.Written();
      Send(req);
      if wait != [] {
        assert WaitList(wait)[0] == IdListPacket(wait);
        TwoReplies(packets.framing, before, req, IdListPacket(wait));
        Send(IdListPacket(wait));
      } else {
        assert [req] + [] == [req];
      }
      packets.stream.Flush();
    }

    /** The event of a command, if the caller wants it; `failed` if there is an error in its place. */
    method HearEvent(want: bool, ghost replies: seq<Packet>, ghost rest: seq<byte>)
        returns (failed: bool, code: nat, handles: seq<Option<Handle>>)
      requires packets.stream.Valid() && Lossless(packets.framing) && AllWellFormed(replies)
      requires want ==> replies != [] && Answers(replies[0], ID_FORMAT)
      requires packets.stream.Pending() == EncodeAll(packets.framing, replies) + rest
      modifies table, packets.stream`readOffset, packets.stream`available, packets.stream.readBuffer,
        packets.stream.socket`incoming
      ensures packets.stream.Valid() && packets.stream.Written() == old(packets.stream.Written())
      ensures packets.stream.Pending() == EncodeAll(packets.framing, if want then replies[1..] else replies) + rest
      ensures failed <==> want && replies[0].format.tag == ERROR
      ensures failed ==> code == ValNum(replies[0].body)
      ensures (handles, table.Value())
        == AfterEvent(old(table.Value()), want && !failed, if want then ValNum(replies[0].body) else 0)
    {
      failed, code, handles := false, 0, [];
      if want {
        var r := HearOne(ID_FORMAT, replies, rest);
        if r.Threw? {
          return true, r.code, [];
        }
        var h := table.RegisterId(ValNum(r.packet.body));
        handles := [Some(h)];
      }
    }

    /** The replies to a read. */
    method HearRead(want: bool, ghost replies: seq<Packet>, ghost rest: seq<byte>) returns (reply: Reply)
      requires packets.stream.Valid() && Lossless(packets.framing) && AllWellFormed(replies)
      requires ReadReplies(want, replies)
      requires packets.stream.Pending() == EncodeAll(packets.framing, replies) + rest
      modifies table, packets.stream`readOffset, packets.stream`available, packets.stream.readBuffer,
        packets.stream.socket`incoming
      ensures packets.stream.Valid() && packets.stream.Pending() == rest
      ensures packets.stream.Written() == old(packets.stream.Written())
      ensures Client().(out := [reply]) == AfterRead(old(Client()), want, replies)
    {
      var failed, code, handles := HearEvent(want, replies, rest);
      if failed {
        assert replies[1..] == [] && EncodeAll(packets.framing, []) + rest == rest;
        return Reply(code, [], [], 0);
      }
      LastOf(want, replies);
      reply := HearData(handles, replies[|replies| - 1], rest);
    }

    /** The data of a read, or an error in its place. */
    method HearData(handles: seq<Option<Handle>>, ghost p: Packet, ghost rest: seq<byte>) returns (reply: Reply)
      requires packets.stream.Valid() && Lossless(packets.framing) && WellFormed(p) && Answers(p, PayloadFormat(4))
      requires packets.stream.Pending() == EncodeAll(packets.framing, [p]) + rest
      modifies packets.stream`readOffset, packets.stream`available, packets.stream.readBuffer,
        packets.stream.socket`incoming
      ensures packets.stream.Valid() && packets.stream.Pending() == rest
      ensures packets.stream.Written() == old(packets.stream.Written())
      ensures reply == DataReply(handles, p)
    {
      var r := HearOne(PayloadFormat(4), [p], rest);
      assert [p][1..] == [] && EncodeAll(packets.framing, []) + rest == rest;
      reply := if r.Threw? then Reply(r.code, handles, [], 0) else Reply(0, handles, ValData(r.packet.body), 0);
    }

    /**
      `clEnqueueReadBuffer`, given the replies that the server will send. The request and what becomes of
      the replies are those of `Protocol` (`ReadRequested` and `ReadHeard`).
     */
    method EnqueueReadBuffer(queue: nat, mem: nat, offset: nat, size: nat, blocking: bool, wait: seq<nat>, want: bool,
                             ghost replies: seq<Packet>, ghost rest: seq<byte>) returns (reply: Reply)
      requires packets.stream.Valid() && Lossless(packets.framing) && AllWellFormed(replies)
        && ReadReplies(want, replies)
      requires WellFormed(ReadRequest(queue, mem, offset, size, blocking, wait, want)) && AllWellFormed(WaitList(wait))
      requires packets.stream.Pending() == EncodeAll(packets.framing, replies) + rest
      modifies table, packets.stream, packets.stream.readBuffer, packets.stream.writeBuffer, packets.stream.socket
      ensures packets.stream.Valid() && packets.stream.Pending() == rest
      ensures packets.stream.Written() == old(packets.stream.Written())
        + EncodeAll(packets.framing, [ReadRequest(queue, mem, offset, size, blocking, wait, want)] + WaitList(wait))
      ensures packets.stream.socket.sent == packets.stream.Written()
      ensures Client().(out := [reply]) == AfterRead(old(Client()), want, replies)
    {
      var req := ReadRequest(queue, mem, offset, size, blocking, wait, want);
      SendCommand(req, wait);
      reply := HearRead(want, replies, rest);
    }
  }

  /** What a read writes is the machine's request, which fits its fields exactly if both parts do. */
  lemma ReadRequested(queue: nat, mem: nat, offset: nat, size: nat, blocking: bool, wait: seq<nat>, want: bool)
    ensures var call, req :=
        ReadBuffer(queue, mem, offset, size, blocking, wait, want),
        ReadRequest(queue, mem, offset, size, blocking, wait, want);
      && Request(call) == [req] + WaitList(wait)
      && (AllWellFormed(Request(call)) <==> WellFormed(req) && AllWellFormed(WaitList(wait)))
  {
    var ps := [ReadRequest(queue, mem, offset, size, blocking, wait, want)] + WaitList(wait);
    assert AllWellFormed(ps) ==> WellFormed(ps[0]);
    assert forall i :: 0 <= i < |WaitList(wait)| ==> WaitList(wait)[i] == ps[i + 1];
  }

  lemma LastOf(want: bool, replies: seq<Packet>)
    requires ReadReplies(want, replies) && (want ==> replies[0].format.tag != ERROR)
    ensures (if want then replies[1..] else replies) == [replies[|replies| - 1]]
  {
  }

  /** The handles returned for an event, and the table with it. */
  function AfterEvent(slots: Slots, evented: bool, id: nat): (seq<Option<Handle>>, Slots) {
    if evented then ([Some(slots.Register(id).0)], slots.Register(id).1) else ([], slots)
  }

  /** What a server in lockstep can reply to a read: an error, or what was asked for, or both in turn. */
  ghost predicate ReadReplies(want: bool, replies: seq<Packet>) {
    && replies != [] && Answers(replies[0], if want then ID_FORMAT else PayloadFormat(4))
    && if want && replies[0].format.tag != ERROR
       then |replies| == 2 && Answers(replies[1], PayloadFormat(4))
       else |replies| == 1
  }

  /** Whatever the handler of a read replies, with a driver that may fail, is of this kind. */
  lemma ReadIsAnswered(o: Oracle, s: Srv, req: Packet, events: seq<Obj>)
    requires req.format == Format(READ_BUFFER, BUFFER_RW) && Command(o, s, req, 0, events).Some?
    ensures ReadReplies(WantsEvent(req), Command(o, s, req, 0, events).value.send)
  {
  }

  lemma HeardEvent(c: Cli, p: Packet, rest: seq<Packet>)
    requires p.format == ID_FORMAT
    ensures var (h, slots) := c.slots.Register(ValNum(p.body));
      Hear(InCall(c, [WantId(true), WantData(4)]), [p] + rest)
        == Hear(c.(slots := slots, wants := [WantData(4)], reply := Reply(0, [Some(h)], [], 0)), rest)
  {
    var c1 := InCall(c, [WantId(true), WantData(4)]);
    var (h, slots) := c.slots.Register(ValNum(p.body));
    assert c1.wants[1..] == [WantData(4)] && NOTHING.handles + [Some(h)] == [Some(h)];
    assert ([p] + rest)[0] == p && ([p] + rest)[1..] == rest;
    assert ClientTakes(c1, p)
      == Some(Reaction([], false, c.(slots := slots, wants := [WantData(4)], reply := Reply(0, [Some(h)], [], 0))));
  }

  /** What the client makes of the data, or of an error in its place. */
  function DataReply(handles: seq<Option<Handle>>, p: Packet): Reply {
    if p.format.tag == ERROR then Reply(ValNum(p.body), handles, [], 0) else Reply(0, handles, ValData(p.body), 0)
  }

  lemma HeardData(c: Cli, p: Packet)
    requires c.wants == [WantData(4)] && c.reply == Reply(0, c.reply.handles, [], 0) && Answers(p, PayloadFormat(4))
    ensures Hear(c, [p]) == Heard(c.Return(DataReply(c.reply.handles, p)), [], false, [])
  {
    HearLast(c, p);
  }

  /** The client after these replies: the event is registered unless there is an error in its place. */
  ghost function AfterRead(c: Cli, want: bool, replies: seq<Packet>): Cli
    requires ReadReplies(want, replies)
  {
    var evented := want && replies[0].format.tag != ERROR;
    var (handles, slots) := AfterEvent(c.slots, evented, if want then ValNum(replies[0].body) else 0);
    c.(slots := slots, out := [DataReply(handles, replies[|replies| - 1])])
  }

  /** `Hear` takes the replies to a read like this. */
  lemma ReadHeard(c: Cli, call: Call, replies: seq<Packet>)
    requires c.out == [] && c.wants == [] && c.reply == NOTHING && call.ReadBuffer? && ReadReplies(call.want, replies)
    ensures Hear(InCall(c, Wants(call)), replies) == Heard(AfterRead(c, call.want, replies), [], false, [])
  {
    if call.want && replies[0].format.tag != ERROR {
      EventAndDataHeard(c, replies);
    } else {
      OneReplyHeard(c, call.want, replies);
    }
  }

  /** The reply with which the call returns: an error, or the data where no event is awaited. */
  lemma LastTaken(c: Cli, want: bool, p: Packet)
    requires c.out == [] && c.wants == [] && c.reply == NOTHING
    requires p.format == ERROR_FORMAT || (!want && p.format == PayloadFormat(4))
    ensures ClientTakes(InCall(c, EventWanted(want) + [WantData(4)]), p)
      == Some(Reaction([], false, c.(out := [DataReply([], p)])))
  {
    assert !want ==> EventWanted(want) + [WantData(4)] == [WantData(4)];
    assert c.out + [DataReply([], p)] == [DataReply([], p)];
  }

  lemma OneReplyHeard(c: Cli, want: bool, replies: seq<Packet>)
    requires c.out == [] && c.wants == [] && c.reply == NOTHING && ReadReplies(want, replies)
    requires !want || replies[0].format.tag == ERROR
    ensures Hear(InCall(c, EventWanted(want) + [WantData(4)]), replies)
      == Heard(c.(out := [DataReply([], replies[0])]), [], false, [])
  {
    LastTaken(c, want, replies[0]);
    assert replies[1..] == [];
  }

  lemma {:induction false} EventAndDataHeard(c: Cli, replies: seq<Packet>)
    requires c.out == [] && c.wants == [] && c.reply == NOTHING
    requires ReadReplies(true, replies) && replies[0].format.tag != ERROR
    ensures var (h, slots) := c.slots.Register(ValNum(replies[0].body));
      Hear(InCall(c, EventWanted(true) + [WantData(4)]), replies)
        == Heard(c.(slots := slots).(out := [DataReply([Some(h)], replies[1])]), [], false, [])
  {
    var (h, slots) := c.slots.Register(ValNum(replies[0].body));
    assert EventWanted(true) + [WantData(4)] == [WantId(true), WantData(4)];
    assert replies == [replies[0]] + [replies[1]];
    HeardEvent(c, replies[0], [replies[1]]);
    HeardData(c.(slots := slots, wants := [WantData(4)], reply := Reply(0, [Some(h)], [], 0)), replies[1]);
  }
}
