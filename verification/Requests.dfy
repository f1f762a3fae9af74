/**
  Which calls can be sent at all: `Valid` asks that the fields of the request fit the packet. Here this is
  said of the caller's arguments, call by call, without the formats of the packets.
 */
module Requests {
  import opened Options
  import opened Bytes
  import opened Codec
  import opened Packets
  import opened Wire
  import opened Protocol
  import opened Effects

  ghost predicate IsId(n: nat) { n < 0x1_0000 }

  /** At most 255 IDs. */
  ghost predicate IsIdList(ids: seq<nat>) { |ids| < 0x100 && forall i :: 0 <= i < |ids| ==> IsId(ids[i]) }

  /** At most 65535 characters of one byte. */
  ghost predicate IsText(text: seq<nat>) { |text| < 0x1_0000 && forall i :: 0 <= i < |text| ==> text[i] < 0x100 }

  ghost predicate Sendable(call: Call) {
    match call
    case GetPlatformIds => true
    case CreateContext(properties, devices) =>
      && |properties| < 0x100 && (forall i :: 0 <= i < |properties| ==> properties[i] < 0x1_0000_0000_0000_0000)
      && |devices| < 0x1_0000 && (forall i :: 0 <= i < |devices| ==> IsId(devices[i]))
    case CreateKernel(program, name) => IsId(program) && IsText(name)
    case CreateUserEvent(context) => IsId(context)
    case CreateBuffer(context, _, _, _) => IsId(context)
    case RefCount(_, objTy, id) => objTy in {68, 67, 81, 80, 75, 77, 69} && IsId(id)
    case MemObjectInfo(mem, param) => IsId(mem) && param < 0x1_0000_0000
    case ReadBuffer(queue, mem, _, _, _, wait, _) => IsId(queue) && IsId(mem) && IsIdList(wait)
    case WriteBuffer(queue, mem, _, _, _, wait, _) => IsId(queue) && IsId(mem) && IsIdList(wait)
    case FillBuffer(queue, mem, _, _, pattern, wait, _) =>
      IsId(queue) && IsId(mem) && |pattern| <= 128 && IsIdList(wait)
    case EnqueueKernel(queue, kernel, dim, _, _, _, wait, _) =>
      IsId(queue) && IsId(kernel) && dim < 0x100 && IsIdList(wait)
    case WaitForEvents(wait) => IsIdList(wait)
    case CreateImage(context, _, _, _) => IsId(context)
    case ReadImage(queue, mem, _, _, _, _, wait, _) => IsId(queue) && IsId(mem) && IsIdList(wait)
    case WriteImage(queue, mem, _, _, _, _, _, wait, _) => IsId(queue) && IsId(mem) && IsIdList(wait)
    case SetKernelArg(kernel, _, arg) => IsId(kernel) && IsId(arg.mem)
    case CreateKernels(program, _) => IsId(program)
    case CreateProgram(context, devices, binaries) =>
      IsId(context) && IsIdList(devices) && devices != [] && |binaries| == |devices|
    case BuildProgram(program, options, devices) => IsId(program) && IsText(options) && IsIdList(devices)
    case SetEventCallback(event, _, _) => IsId(event)
  }

  // ---- packet by packet ----

  /** The bounds of the fields, one by one. */
  ghost predicate Below(ns: seq<nat>, bounds: seq<nat>) {
    |ns| == |bounds| && forall i :: 0 <= i < |ns| ==> ns[i] < bounds[i]
  }

  lemma NumsFitIff(widths: seq<nat>, ns: seq<nat>, bounds: seq<nat>)
    requires |bounds| == |widths| && forall i :: 0 <= i < |widths| ==> bounds[i] == Range(widths[i])
    ensures Fits(Nums(widths), Numbers(ns)) <==> Below(ns, bounds)
  {
    if Fits(Nums(widths), Numbers(ns)) {
      forall i | 0 <= i < |ns| ensures ns[i] < bounds[i] {
        assert Fits(Nums(widths).fields[i], Numbers(ns).vals[i]);
      }
    }
  }

  lemma NumbersFitIff(countWidth: nat, width: nat, ns: seq<nat>)
    ensures Fits(List(countWidth, Num(width)), Numbers(ns))
      <==> |ns| < Range(countWidth) && forall i :: 0 <= i < |ns| ==> ns[i] < Range(width)
  {
    var vs := Numbers(ns).vals;
    assert forall i :: 0 <= i < |ns| ==> vs[i] == N(ns[i]);
    if Fits(List(countWidth, Num(width)), Numbers(ns)) {
      forall i | 0 <= i < |ns| ensures ns[i] < Range(width) {
        assert Fits(Num(width), vs[i]);
      }
    }
  }

  lemma IdListFitsIff(ids: seq<nat>)
    ensures WellFormed(IdListPacket(ids)) <==> IsIdList(ids)
    ensures AllWellFormed(WaitList(ids)) <==> IsIdList(ids)
  {
    Ranges();
    NumbersFitIff(1, 2, ids);
    assert Ids(ids) == Numbers(ids);
    assert ids != [] ==> WaitList(ids)[0] == IdListPacket(ids);
  }

  lemma IdTextFitsIff(tag: byte, id: nat, text: seq<nat>)
    ensures WellFormed(Packet(Format(tag, ID_TEXT), Vs([N(id), Numbers(text)]))) <==> IsId(id) && IsText(text)
  {
    Ranges();
    NumbersFitIff(2, 1, text);
    PairFitsIff(Num(2), TEXT, N(id), Numbers(text));
  }

  lemma PairFitsIff(f: Schema, g: Schema, u: Val, v: Val)
    ensures Fits(Tuple([f, g]), Vs([u, v])) <==> Fits(f, u) && Fits(g, v)
  {
    var fs, vs := [f, g], [u, v];
    assert Fits(fs[0], vs[0]) == Fits(f, u) && Fits(fs[1], vs[1]) == Fits(g, v);
  }

  lemma FirstAndRest(p: Packet, ps: seq<Packet>)
    ensures AllWellFormed([p] + ps) <==> WellFormed(p) && AllWellFormed(ps)
  {
    assert ([p] + ps)[0] == p;
    assert forall i :: 0 <= i < |ps| ==> ([p] + ps)[i + 1] == ps[i];
  }

  lemma OneFitsIff(p: Packet)
    ensures AllWellFormed([p]) <==> WellFormed(p)
  {
    assert [p][0] == p;
  }

  // ---- call by call ----

  lemma ContextIff(properties: seq<nat>, devices: seq<nat>)
    ensures Valid(CreateContext(properties, devices)) <==> Sendable(CreateContext(properties, devices))
  {
    Ranges();
    NumbersFitIff(1, 8, properties);
    NumbersFitIff(2, 2, devices);
    PairFitsIff(List(1, Num(8)), List(2, Num(2)), Numbers(properties), Numbers(devices));
    OneFitsIff(Request(CreateContext(properties, devices))[0]);
  }

  lemma BufferFitsIff(tag: byte, mem: nat, queue: nat, size: word, offset: word, want: bool, listed: bool, block: bool)
    ensures WellFormed(Numbered(tag, BUFFER_RW, [mem, queue, size, offset, Flag(want), Flag(listed), Flag(block)]))
      <==> IsId(mem) && IsId(queue)
  {
    Ranges();
    var ns := [mem, queue, size, offset, Flag(want), Flag(listed), Flag(block)];
    var bounds := [0x1_0000, 0x1_0000, 0x1_0000_0000, 0x1_0000_0000, 0x100, 0x100, 0x100];
    NumsFitIff([2, 2, 4, 4, 1, 1, 1], ns, bounds);
    assert Below(ns, bounds) ==> ns[0] < bounds[0] && ns[1] < bounds[1];
  }

  lemma FillFitsIff(call: Call)
    requires call.FillBuffer? && |call.pattern| <= 128
    ensures WellFormed(Request(call)[0]) <==> IsId(call.mem) && IsId(call.queue)
  {
    Ranges();
    var vs, fs := Request(call)[0].body.vals, FILL_BUFFER_FORMAT.schema.fields;
    assert Fits(fs[0], vs[0]) <==> IsId(call.mem);
    assert Fits(fs[1], vs[1]) <==> IsId(call.queue);
    assert Fits(fs[2], vs[2]) && Fits(fs[3], vs[3]) && Fits(fs[4], vs[4]);
    assert Fits(fs[5], vs[5]) && Fits(fs[6], vs[6]) && Fits(fs[7], vs[7]);
  }

  /** Of the fourteen fields only the first three may not fit. */
  lemma KernelNumsFitIff(ns: seq<nat>)
    requires |ns| == 14 && (forall i :: 3 <= i < 12 ==> ns[i] < 0x1_0000_0000) && ns[12] < 0x100 && ns[13] < 0x100
    ensures Fits(ENQUEUE_KERNEL_FORMAT.schema, Numbers(ns)) <==> IsId(ns[0]) && IsId(ns[1]) && ns[2] < 0x100
  {
    Ranges();
    var bounds := [0x1_0000, 0x1_0000, 0x100] + seq(9, i => 0x1_0000_0000) + [0x100, 0x100];
    NumsFitIff([2, 2, 1, 4, 4, 4, 4, 4, 4, 4, 4, 4, 1, 1], ns, bounds);
    assert Below(ns, bounds) ==> ns[0] < bounds[0] && ns[1] < bounds[1] && ns[2] < bounds[2];
  }

  lemma KernelFitsIff(call: Call)
    requires call.EnqueueKernel?
    ensures WellFormed(Request(call)[0]) <==> IsId(call.kernel) && IsId(call.queue) && call.dim < 0x100
  {
    var vals := Request(call)[0].body.vals;
    var ns := seq(|vals|, i requires 0 <= i < |vals| => ValNum(vals[i]));
    assert Request(call)[0].body == Numbers(ns);
    KernelNumsFitIff(ns);
  }

  lemma ImageFitsIff(call: Call)
    requires call.CreateImage?
    ensures WellFormed(Request(call)[0]) <==> IsId(call.context)
  {
    Ranges();
    var p := Request(call)[0];
    var ns := seq(|p.body.vals|, i requires 0 <= i < |p.body.vals| => ValNum(p.body.vals[i]));
    var bounds := seq(12, i => 0x1_0000_0000) + [0x1_0000];
    assert p.body == Numbers(ns);
    NumsFitIff([4, 4, 4, 4, 4, 4, 4, 4, 4, 4, 4, 4, 2], ns, bounds);
    assert Below(ns, bounds) ==> ns[12] < bounds[12];
  }

  lemma RegionNumsFitIff(ns: seq<nat>)
    requires |ns| == 13 && (forall i :: 2 <= i < 10 ==> ns[i] < 0x1_0000_0000)
    requires ns[10] < 0x100 && ns[11] < 0x100 && ns[12] < 0x100
    ensures Fits(IMAGE_RW, Numbers(ns)) <==> IsId(ns[0]) && IsId(ns[1])
  {
    Ranges();
    var bounds := [0x1_0000, 0x1_0000] + seq(8, i => 0x1_0000_0000) + [0x100, 0x100, 0x100];
    NumsFitIff([2, 2, 4, 4, 4, 4, 4, 4, 4, 4, 1, 1, 1], ns, bounds);
    assert Below(ns, bounds) ==> ns[0] < bounds[0] && ns[1] < bounds[1];
  }

  lemma RegionFitsIff(tag: byte, queue: nat, mem: nat, origin: seq<nat>, region: seq<nat>, pitches: seq<nat>,
                      blocking: bool, wait: seq<nat>, want: bool)
    ensures WellFormed(ImageRequest(tag, queue, mem, origin, region, pitches, blocking, wait, want))
      <==> IsId(mem) && IsId(queue)
  {
    var vals := ImageRequest(tag, queue, mem, origin, region, pitches, blocking, wait, want).body.vals;
    var ns := seq(|vals|, i requires 0 <= i < |vals| => ValNum(vals[i]));
    assert ImageRequest(tag, queue, mem, origin, region, pitches, blocking, wait, want).body == Numbers(ns);
    RegionNumsFitIff(ns);
  }

  lemma UpToFour(ns: seq<nat>, bounds: seq<nat>)
    requires 2 <= |ns| == |bounds| <= 4
    ensures Below(ns, bounds) <==>
      && ns[0] < bounds[0] && ns[1] < bounds[1]
      && (|ns| > 2 ==> ns[2] < bounds[2]) && (|ns| > 3 ==> ns[3] < bounds[3])
  {
  }

  /** Packets of two to four numbers. */
  lemma FewFitIff(format: Format, widths: seq<nat>, ns: seq<nat>, bounds: seq<nat>)
    requires format.schema == Nums(widths) && 2 <= |ns| == |widths| <= 4
    requires |bounds| == |widths| && forall i :: 0 <= i < |widths| ==> bounds[i] == Range(widths[i])
    ensures AllWellFormed([Packet(format, Numbers(ns))]) <==>
      && ns[0] < bounds[0] && ns[1] < bounds[1]
      && (|ns| > 2 ==> ns[2] < bounds[2]) && (|ns| > 3 ==> ns[3] < bounds[3])
  {
    UpToFour(ns, bounds);
    NumsFitIff(widths, ns, bounds);
    OneFitsIff(Packet(format, Numbers(ns)));
  }

  lemma BinariesFit(binaries: seq<seq<byte>>)
    ensures AllWellFormed(BinaryPackets(ClippedAll(binaries)))
  {
    Ranges();
  }

  lemma ProgramIff(context: nat, devices: seq<nat>, binaries: seq<seq<byte>>)
    ensures Valid(CreateProgram(context, devices, binaries)) <==> Sendable(CreateProgram(context, devices, binaries))
  {
    Ranges();
    var p := Packet(Simple(CREATE_BINARY_PROGRAM, 2), N(context));
    var blobs := BinaryPackets(ClippedAll(binaries));
    BinariesFit(binaries);
    IdListFitsIff(devices);
    FirstAndRest(IdListPacket(devices), blobs);
    FirstAndRest(p, [IdListPacket(devices)] + blobs);
    assert Request(CreateProgram(context, devices, binaries)) == [p] + ([IdListPacket(devices)] + blobs);
  }

  lemma BuildIff(program: nat, options: seq<nat>, devices: seq<nat>)
    ensures Valid(BuildProgram(program, options, devices)) <==> Sendable(BuildProgram(program, options, devices))
  {
    var p := Packet(Format(BUILD_PROGRAM, ID_TEXT), Vs([N(program), Numbers(options)]));
    IdTextFitsIff(BUILD_PROGRAM, program, options);
    IdListFitsIff(devices);
    OneFitsIff(IdListPacket(devices));
    FirstAndRest(p, [IdListPacket(devices)]);
    assert Request(BuildProgram(program, options, devices)) == [p] + [IdListPacket(devices)];
  }

  lemma WaitIff(wait: seq<nat>)
    ensures Valid(WaitForEvents(wait)) <==> Sendable(WaitForEvents(wait))
  {
    var p := Packet(Signal(WAIT_EVENTS), Vs([]));
    IdListFitsIff(wait);
    OneFitsIff(IdListPacket(wait));
    FirstAndRest(p, [IdListPacket(wait)]);
    assert Request(WaitForEvents(wait)) == [p] + [IdListPacket(wait)];
  }

  lemma BufferIff(call: Call)
    requires call.ReadBuffer? || call.WriteBuffer?
    ensures Valid(call) <==> Sendable(call)
  {
    Ranges();
    var size := if call.ReadBuffer? then Word(call.size) else Word(|call.data|);
    var tag := if call.ReadBuffer? then READ_BUFFER else WRITE_BUFFER;
    var ns := [call.mem, call.queue, size, Word(call.offset),
               Flag(call.want), Flag(call.wait != []), Flag(call.blocking)];
    var p, rest := Numbered(tag, BUFFER_RW, ns), WaitList(call.wait);
    BufferFitsIff(tag, call.mem, call.queue, size, Word(call.offset), call.want, call.wait != [], call.blocking);
    IdListFitsIff(call.wait);
    if call.ReadBuffer? {
      FirstAndRest(p, rest);
    } else {
      DataLast([p] + rest, call.data);
      FirstAndRest(p, rest);
    }
  }

  lemma DataLast(ps: seq<Packet>, d: seq<byte>)
    ensures AllWellFormed(ps + [PayloadOf(4, d)]) <==> AllWellFormed(ps)
  {
    Ranges();
    var all := ps + [PayloadOf(4, d)];
    assert forall i :: 0 <= i < |ps| ==> all[i] == ps[i];
  }

  lemma CommandIff(call: Call)
    requires call.FillBuffer? || call.EnqueueKernel? || call.ReadImage? || call.WriteImage?
    ensures Valid(call) <==> Sendable(call)
  {
    IdListFitsIff(call.wait);
    FirstAndRest(Request(call)[0], WaitList(call.wait));
    if call.FillBuffer? {
      if |call.pattern| <= 128 { FillFitsIff(call); }
    } else if call.EnqueueKernel? {
      KernelFitsIff(call);
    } else {
      RegionFitsIff(if call.ReadImage? then READ_IMAGE else WRITE_IMAGE, call.queue, call.mem, call.origin, call.region,
                    call.pitches, call.blocking, call.wait, call.want);
    }
  }

  lemma QueryIff(call: Call)
    requires call.RefCount? || call.MemObjectInfo?
    ensures Valid(call) <==> Sendable(call)
  {
    Ranges();
    match call
    case RefCount(retain, objTy, id) =>
      FewFitIff(Format(if retain then RETAIN else RELEASE, REF_COUNT), [1, 2], [objTy, id], [0x100, 0x1_0000]);
    case MemObjectInfo(mem, param) =>
      FewFitIff(Format(GET_MEM_OBJ_INFO, ID_PARAM), [4, 2], [param, mem], [0x1_0000_0000, 0x1_0000]);
  }

  lemma ShortIff(call: Call)
    requires call.SetKernelArg? || call.CreateKernels? || call.SetEventCallback?
    ensures Valid(call) <==> Sendable(call)
  {
    Ranges();
    match call
    case SetKernelArg(kernel, index, _) =>
      FewFitIff(KERNEL_ARG_FORMAT, [2, 4], [kernel, Word(index)], [0x1_0000, 0x1_0000_0000]);
    case CreateKernels(program, count) =>
      FewFitIff(CREATE_KERNELS_FORMAT, [2, 4], [program, Word(count)], [0x1_0000, 0x1_0000_0000]);
    case SetEventCallback(event, callback, kind) =>
      FewFitIff(REGISTER_FORMAT, [2, 2, 4], [event, callback % 0x1_0000, Word(kind)],
                [0x1_0000, 0x1_0000, 0x1_0000_0000]);
  }

  lemma CreationIff(call: Call)
    requires call.CreateKernel? || call.CreateUserEvent? || call.CreateImage?
    ensures Valid(call) <==> Sendable(call)
  {
    Ranges();
    OneFitsIff(Request(call)[0]);
    if call.CreateKernel? {
      IdTextFitsIff(CREATE_KERNEL, call.program, call.name);
    } else if call.CreateImage? {
      ImageFitsIff(call);
    }
  }

  lemma CreateBufferIff(context: nat, flags: nat, size: nat, host: Option<seq<byte>>)
    ensures Valid(CreateBuffer(context, flags, size, host)) <==> Sendable(CreateBuffer(context, flags, size, host))
  {
    Ranges();
    var ns := [Word(flags), Word(size), context, Flag(host.Some?)];
    var p := Packet(CREATE_BUFFER_FORMAT, Numbers(ns));
    FewFitIff(CREATE_BUFFER_FORMAT, [4, 4, 2, 1], ns, [0x1_0000_0000, 0x1_0000_0000, 0x1_0000, 0x100]);
    if host.Some? {
      DataLast([p], host.value);
    } else {
      assert [p] + [] == [p];
    }
  }

  /** A call is valid exactly if IDs, lists and texts are what the protocol can tell. */
  lemma ValidIff(call: Call)
    ensures Valid(call) <==> Sendable(call)
  {
    match call
    case GetPlatformIds => OneFitsIff(Request(call)[0]);
    case CreateContext(properties, devices) => ContextIff(properties, devices);
    case CreateProgram(context, devices, binaries) => ProgramIff(context, devices, binaries);
    case BuildProgram(program, options, devices) => BuildIff(program, options, devices);
    case WaitForEvents(wait) => WaitIff(wait);
    case ReadBuffer(_, _, _, _, _, _, _) => BufferIff(call);
    case WriteBuffer(_, _, _, _, _, _, _) => BufferIff(call);
    case FillBuffer(_, _, _, _, _, _, _) => CommandIff(call);
    case EnqueueKernel(_, _, _, _, _, _, _, _) => CommandIff(call);
    case ReadImage(_, _, _, _, _, _, _, _) => CommandIff(call);
    case WriteImage(_, _, _, _, _, _, _, _, _) => CommandIff(call);
    case RefCount(_, _, _) => QueryIff(call);
    case MemObjectInfo(_, _) => QueryIff(call);
    case CreateKernel(_, _) => CreationIff(call);
    case CreateUserEvent(_) => CreationIff(call);
    case CreateBuffer(context, flags, size, host) => CreateBufferIff(context, flags, size, host);
    case CreateImage(_, _, _, _) => CreationIff(call);
    case _ => ShortIff(call);
  }
}
