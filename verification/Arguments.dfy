/**
  What reaches the driver and the caller, in terms of the caller's own arguments. `Effects` and the two
  ends share their conversions and defaults, so that a wrong one would be wrong on both sides; here each
  call is described without them, by the numbers, the bytes and the driver's answers themselves.
 */
module Arguments {
  import opened Options
  import opened Bytes
  import opened Packets
  import opened Tables
  import opened Contexts
  import opened Protocol
  import opened Effects

  // ---- objects, and what is left of a number or of bytes ----

  /** The driver's objects for these IDs, and null for an ID that the server never gave. */
  ghost predicate LookedUp(table: seq<Obj>, ids: seq<nat>, objects: seq<Obj>) {
    |objects| == |ids|
    && forall i :: 0 <= i < |ids| ==> objects[i] == if ids[i] < |table| then table[ids[i]] else 0
  }

  lemma ObjectsAreLookedUp(s: Srv, ids: seq<nat>)
    ensures LookedUp(s.table, ids, s.Objects(ids))
  {
  }

  /** Numbers that are sent with 32 bits. */
  ghost predicate Sent32(given: seq<nat>, sent: seq<nat>) {
    |sent| == |given| && forall i :: 0 <= i < |given| ==> sent[i] == given[i] % 0x1_0000_0000
  }

  /** Bytes behind a 32-bit size. */
  ghost predicate Blob32(given: seq<byte>, sent: seq<byte>) {
    sent == given[..|given| % 0x1_0000_0000]
  }

  lemma ClippedIsBlob32(d: seq<byte>)
    ensures Blob32(d, Clipped(4, d)) && |Clipped(4, d)| == |d| % 0x1_0000_0000
  {
    Ranges();
  }

  /** The caller has got one reply more. */
  ghost predicate Replied(c: Cli, w: World, code: nat, data: seq<byte>, number: nat) {
    && |w.cli.out| == |c.out| + 1 && w.cli.out[..|c.out|] == c.out
    && var r := w.cli.out[|c.out|]; r.code == code && r.data == data && r.number == number
  }

  // ---- kernel arguments ----

  /**
    The driver's answer to the question about address spaces decides what it gets: for a global (0x119B)
    or constant (0x119D) argument the object that the server knows for the caller's memory object, for
    a local one (0x119C) the size alone, and for any other the caller's bytes. The session survives
    unless a memory object is wanted and the argument does not have the size of one.
   */
  lemma ArgumentByAddressSpace(o: Oracle, c: Cli, s: Srv, call: Call)
    requires call.SetKernelArg? && o(|s.log|).err == 0
    requires call.arg.size <= |call.arg.bytes| && call.arg.size < 0x1_0000_0000
    ensures var q, k, i := o(|s.log|).num, s.Object(call.kernel), call.index % 0x1_0000_0000;
      var log := Effect(o, c, s, call).srv.log;
      && |log| == |s.log| + 2 && log[|s.log|] == DriverCall(ArgInfoFn, [k], [i], [], [])
      && (q == 0x119B || q == 0x119D ==>
            log[|s.log| + 1] == DriverCall(SetArgMemFn, [k, s.Object(call.arg.mem)], [i, 8], [], []))
      && (q == 0x119C ==> log[|s.log| + 1] == DriverCall(SetArgLocalFn, [k], [i, call.arg.size], [], []))
      && (q != 0x119B && q != 0x119C && q != 0x119D ==>
            log[|s.log| + 1]
              == DriverCall(SetArgBytesFn, [k], [i, call.arg.size], [call.arg.bytes[..call.arg.size]], []))
      && (Keeps(o, s, call) <==> (q == 0x119B || q == 0x119D ==> call.arg.size == 8))
  {
    Ranges();
  }

  // ---- images ----

  /** What an image is made of: the format and the type, then width, height and depth, and so on. */
  ghost predicate DescFits(desc: seq<nat>) { |desc| == 11 && forall i :: 0 <= i < 11 ==> desc[i] < 0x1_0000_0000 }

  /** The bytes of an image; a width, height or depth of zero counts as one. */
  ghost function PixelBytes(element: nat, width: nat, height: nat, depth: nat): nat {
    element * (if width > 0 then width else 1) * (if height > 0 then height else 1) * (if depth > 0 then depth else 1)
  }

  lemma ImageBytesArePixels(desc: seq<nat>, element: nat)
    requires DescFits(desc)
    ensures ImageBytes(desc, element) == PixelBytes(element, desc[3], desc[4], desc[5])
  {
    assert At(desc, 3) == desc[3] && At(desc, 4) == desc[4] && At(desc, 5) == desc[5];
  }

  lemma ImageMadeTwice(o: Oracle, c: Cli, s: Srv, call: Call, f: nat, n: nat)
    requires call.CreateImage? && f == Word(call.flags) && CopiesHost(f) && f >= 32
    requires o(|s.log|).err == 0 && o(|s.log| + 1).err == 0
    requires n == Word(ImageBytes(call.desc, o(|s.log| + 1).num))
    ensures var k, image := s.Object(call.context), o(|s.log|).obj;
      Effect(o, c, s, call).srv.log == s.log
        + [DriverCall(CreateImageFn, [k], ImageDesc(f - 32, call.desc), [], [])]
        + [DriverCall(ElementSizeFn, [image], [], [], [])]
        + [DriverCall(ReleaseImageFn, [image], [], [], [])]
        + [DriverCall(CreateImageFn, [k], ImageDesc(f, call.desc), [Resized(call.host, n)], [])]
  {
  }

  /**
    An image with data to copy (bit 5 of the 32-bit flags): it is made without the data, asked for its element
    size, released, and made again with exactly as many bytes of the caller's as it has.
   */
  lemma ImageGetsItsData(o: Oracle, c: Cli, s: Srv, call: Call, f: nat, n: nat)
    requires call.CreateImage? && f == call.flags % 0x1_0000_0000 && f / 32 % 2 == 1 && DescFits(call.desc)
    requires o(|s.log|).err == 0 && o(|s.log| + 1).err == 0
    requires n == PixelBytes(o(|s.log| + 1).num, call.desc[3], call.desc[4], call.desc[5])
    requires n < 0x1_0000_0000 && n <= |call.host|
    ensures f >= 32
    ensures var k, image := s.Object(call.context), o(|s.log|).obj;
      Effect(o, c, s, call).srv.log == s.log
        + [DriverCall(CreateImageFn, [k], [f - 32] + call.desc, [], [])]
        + [DriverCall(ElementSizeFn, [image], [], [], [])]
        + [DriverCall(ReleaseImageFn, [image], [], [], [])]
        + [DriverCall(CreateImageFn, [k], [f] + call.desc, [call.host[..n]], [])]
  {
    DescIs(f, call.desc);
    DescIs(f - 32, call.desc);
    ImageBytesArePixels(call.desc, o(|s.log| + 1).num);
    ImageMadeTwice(o, c, s, call, f, n);
    assert Resized(call.host, n) == call.host[..n];
  }

  /** An image without data to copy is made once. */
  lemma ImageWithoutData(o: Oracle, c: Cli, s: Srv, call: Call)
    requires call.CreateImage? && call.flags % 0x1_0000_0000 / 32 % 2 == 0 && DescFits(call.desc)
    ensures Effect(o, c, s, call).srv.log == s.log
      + [DriverCall(CreateImageFn, [s.Object(call.context)], [call.flags % 0x1_0000_0000] + call.desc, [], [])]
  {
    DescIs(call.flags % 0x1_0000_0000, call.desc);
  }

  lemma DescIs(flags: nat, desc: seq<nat>)
    requires DescFits(desc)
    ensures ImageDesc(flags, desc) == [flags] + desc
  {
  }

  /** Blocking or not, three coordinates, three extents and two pitches. */
  ghost predicate RegionTold(numbers: seq<nat>, call: Call)
    requires call.ReadImage? || call.WriteImage?
    requires |call.origin| == |call.region| == 3 && |call.pitches| == 2
  {
    && |numbers| == 9 && numbers[0] == (if call.blocking then 1 else 0)
    && Sent32(call.origin, numbers[1..4]) && Sent32(call.region, numbers[4..7]) && Sent32(call.pitches, numbers[7..])
  }

  lemma RegionIsTold(call: Call)
    requires call.ReadImage? || call.WriteImage?
    requires |call.origin| == |call.region| == 3 && |call.pitches| == 2
    ensures RegionTold(RegionOf(call.origin, call.region, call.pitches, call.blocking), call)
  {
  }

  lemma RegionBytesAre(region: seq<nat>, element: nat)
    requires |region| == 3 && forall i :: 0 <= i < 3 ==> region[i] < 0x1_0000_0000
    ensures RegionBytes(region, element) == element * region[0] * region[1] * region[2]
  {
    assert At(region, 0) == region[0] && At(region, 1) == region[1] && At(region, 2) == region[2];
  }

  /** The bytes of a region are those of its pixels, and the caller gets or gives exactly so many. */
  lemma ImageRead(o: Oracle, c: Cli, s: Srv, call: Call, n: nat)
    requires call.ReadImage? && |call.origin| == |call.region| == 3 && |call.pitches| == 2
    requires o(|s.log|).err == 0 && o(|s.log| + 1).err == 0
    requires forall i :: 0 <= i < 3 ==> call.region[i] < 0x1_0000_0000
    requires n == o(|s.log|).num * call.region[0] * call.region[1] * call.region[2]
    requires n < 0x1_0000_0000 && n <= |o(|s.log| + 1).data|
    ensures var w := Effect(o, c, s, call);
      && |w.srv.log| == |s.log| + 2 && w.srv.log[..|s.log|] == s.log
      && w.srv.log[|s.log|] == DriverCall(ElementSizeFn, [s.Object(call.mem)], [], [], [])
      && var d := w.srv.log[|s.log| + 1];
      && d == DriverCall(ReadImageFn, [s.Object(call.queue), s.Object(call.mem)], d.numbers, [], s.Objects(call.wait))
      && RegionTold(d.numbers, call)
      && Replied(c, w, 0, o(|s.log| + 1).data[..n], 0)
  {
    Ranges();
    RegionIsTold(call);
    RegionBytesAre(call.region, o(|s.log|).num);
  }

  lemma ImageWriteTold(o: Oracle, c: Cli, s: Srv, call: Call, n: nat)
    requires call.WriteImage? && o(|s.log|).err == 0 && n == Word(RegionBytes(call.region, o(|s.log|).num))
    ensures Effect(o, c, s, call).srv.log == s.log
      + [DriverCall(ElementSizeFn, [s.Object(call.mem)], [], [], [])]
      + [DriverCall(WriteImageFn, [s.Object(call.queue), s.Object(call.mem)],
                    RegionOf(call.origin, call.region, call.pitches, call.blocking), [Resized(call.host, n)],
                    s.Objects(call.wait))]
  {
  }

  lemma ImageWritten(o: Oracle, c: Cli, s: Srv, call: Call, n: nat) returns (numbers: seq<nat>)
    requires call.WriteImage? && |call.origin| == |call.region| == 3 && |call.pitches| == 2
    requires o(|s.log|).err == 0
    requires forall i :: 0 <= i < 3 ==> call.region[i] < 0x1_0000_0000
    requires n == o(|s.log|).num * call.region[0] * call.region[1] * call.region[2]
    requires n < 0x1_0000_0000 && n <= |call.host|
    ensures Effect(o, c, s, call).srv.log == s.log
      + [DriverCall(ElementSizeFn, [s.Object(call.mem)], [], [], [])]
      + [DriverCall(WriteImageFn, [s.Object(call.queue), s.Object(call.mem)], numbers, [call.host[..n]],
                    s.Objects(call.wait))]
    ensures RegionTold(numbers, call)
  {
    numbers := RegionOf(call.origin, call.region, call.pitches, call.blocking);
    RegionIsTold(call);
    RegionBytesAre(call.region, o(|s.log|).num);
    ImageWriteTold(o, c, s, call, n);
    assert Resized(call.host, n) == call.host[..n];
  }

  // ---- kernels and programs ----

  /** In the first `dim` places what the caller gave, or `none` without an array; in the others the default. */
  ghost predicate Padded(given: Option<seq<nat>>, none: nat, default: nat, dim: nat, told: seq<nat>)
    requires given.Some? ==> dim <= |given.value|
  {
    |told| == 3 && forall i :: 0 <= i < 3 ==>
      told[i] == if i >= dim then default else if given.None? then none else given.value[i] % 0x1_0000_0000
  }

  lemma DimsArePadded(given: seq<nat>, dim: nat, default: word)
    requires given == [] || dim <= |given|
    ensures Padded(if given == [] then None else Some(given), 0, default, dim,
                   [Dim(given, dim, 0, default), Dim(given, dim, 1, default), Dim(given, dim, 2, default)])
  {
  }

  /** The three local sizes, or none if the caller's first is zero. */
  ghost predicate LocalTold(local: Option<seq<nat>>, dim: nat, told: seq<nat>)
    requires local.Some? ==> 1 <= dim <= |local.value|
  {
    if local.Some? && local.value[0] % 0x1_0000_0000 == 0 then told == [] else Padded(local, 1, 1, dim, told)
  }

  lemma LocalIsTold(local: Option<seq<nat>>, dim: nat)
    requires 1 <= dim <= 3 && (local.Some? ==> dim <= |local.value|)
    ensures LocalTold(local, dim, LocalSizes(dim, local))
  {
    if local.Some? {
      DimsArePadded(local.value, dim, 1);
    }
  }

  lemma KernelEnqueued(o: Oracle, c: Cli, s: Srv, call: Call)
    requires call.EnqueueKernel?
    ensures var g, f, dim := call.global, call.globalOffset, call.dim;
      Effect(o, c, s, call).srv.log == s.log
        + [DriverCall(EnqueueKernelFn, [s.Object(call.queue), s.Object(call.kernel)],
                      [dim] + [Dim(g, dim, 0, 1), Dim(g, dim, 1, 1), Dim(g, dim, 2, 1)]
                      + [Dim(f, dim, 0, 0), Dim(f, dim, 1, 0), Dim(f, dim, 2, 0)] + LocalSizes(dim, call.local),
                      [], s.Objects(call.wait))]
  {
    var g, f, dim := call.global, call.globalOffset, call.dim;
    assert [dim] + [Dim(g, dim, 0, 1), Dim(g, dim, 1, 1), Dim(g, dim, 2, 1)]
        + [Dim(f, dim, 0, 0), Dim(f, dim, 1, 0), Dim(f, dim, 2, 0)]
      == [dim, Dim(g, dim, 0, 1), Dim(g, dim, 1, 1), Dim(g, dim, 2, 1),
          Dim(f, dim, 0, 0), Dim(f, dim, 1, 0), Dim(f, dim, 2, 0)];
  }

  /**
    The work sizes of a kernel in up to three dimensions: the global sizes, then the offsets, zero if
    there are none, then the local sizes. The driver is told no local size if the caller's first is zero,
    and a size of one in every dimension if the caller gave none.
   */
  lemma WorkSizesAreCallers(o: Oracle, c: Cli, s: Srv, call: Call) returns (g: seq<nat>, f: seq<nat>, l: seq<nat>)
    requires call.EnqueueKernel? && 1 <= call.dim <= 3 && call.dim <= |call.global|
    requires call.globalOffset == [] || call.dim <= |call.globalOffset|
    requires call.local.Some? ==> call.dim <= |call.local.value|
    ensures Effect(o, c, s, call).srv.log == s.log
      + [DriverCall(EnqueueKernelFn, [s.Object(call.queue), s.Object(call.kernel)], [call.dim] + g + f + l, [],
                    s.Objects(call.wait))]
    ensures Padded(Some(call.global), 0, 1, call.dim, g)
    ensures Padded(if call.globalOffset == [] then None else Some(call.globalOffset), 0, 0, call.dim, f)
    ensures LocalTold(call.local, call.dim, l)
  {
    var dim := call.dim;
    g := [Dim(call.global, dim, 0, 1), Dim(call.global, dim, 1, 1), Dim(call.global, dim, 2, 1)];
    f := [Dim(call.globalOffset, dim, 0, 0), Dim(call.globalOffset, dim, 1, 0), Dim(call.globalOffset, dim, 2, 0)];
    l := LocalSizes(dim, call.local);
    KernelEnqueued(o, c, s, call);
    DimsArePadded(call.global, dim, 1);
    DimsArePadded(call.globalOffset, dim, 0);
    LocalIsTold(call.local, dim);
  }

  /** The option that the server adds, with the space in front of it. */
  const ADDED_OPTION: string := " -cl-kernel-arg-info"

  ghost function Letters(text: string): (r: seq<nat>)
    ensures |r| == |text|
  {
    seq(|text|, i requires 0 <= i < |text| => text[i] as nat)
  }

  ghost predicate OccursAt(text: seq<nat>, part: seq<nat>, i: nat) {
    i + |part| <= |text| && text[i..i + |part|] == part
  }

  ghost predicate Occurs(text: seq<nat>, part: seq<nat>) { exists i: nat :: OccursAt(text, part, i) }

  lemma {:induction false} ContainsIffOccurs(text: seq<nat>, part: seq<nat>)
    ensures Contains(text, part) <==> Occurs(text, part)
  {
    assert OccursAt(text, part, 0) <==> |part| <= |text| && text[..|part|] == part;
    if text != [] {
      ContainsIffOccurs(text[1..], part);
      assert forall i: nat :: OccursAt(text, part, i + 1) <==> OccursAt(text[1..], part, i);
      if Occurs(text[1..], part) {
        var i: nat :| OccursAt(text[1..], part, i);
        assert OccursAt(text, part, i + 1);
      }
      if Occurs(text, part) && !OccursAt(text, part, 0) {
        var i: nat :| OccursAt(text, part, i);
        assert i > 0;
        assert OccursAt(text[1..], part, i - 1) by {
          assert text[1..][i - 1..i - 1 + |part|] == text[i..i + |part|];
        }
      }
    }
  }

  /**
    A program is built with the caller's options, behind which the server puts a space and the option for
    argument information, unless that option occurs in them already.
   */
  lemma BuildOptions(o: Oracle, c: Cli, s: Srv, call: Call)
    requires call.BuildProgram?
    ensures Effect(o, c, s, call).srv.log == s.log
      + [DriverCall(BuildProgramFn, [s.Object(call.program)] + s.Objects(call.devices),
                    if Occurs(call.options, Letters(ADDED_OPTION)[1..]) then call.options
                    else call.options + Letters(ADDED_OPTION), [], [])]
  {
    assert Letters(ADDED_OPTION) == [32] + ARG_INFO_OPTION;
    assert Letters(ADDED_OPTION)[1..] == ARG_INFO_OPTION;
    ContainsIffOccurs(call.options, ARG_INFO_OPTION);
    assert call.options + [32] + ARG_INFO_OPTION == call.options + Letters(ADDED_OPTION);
  }

  /** One binary per device, and the first four bytes of status per device for the caller. */
  lemma BinariesReachDriver(o: Oracle, c: Cli, s: Srv, call: Call)
    requires call.CreateProgram? && (o(|s.log|).err == 0 ==> 4 * |call.devices| <= |o(|s.log|).data|)
    ensures var a, w := o(|s.log|), Effect(o, c, s, call);
      && |w.srv.log| == |s.log| + 1 && w.srv.log[..|s.log|] == s.log
      && var d := w.srv.log[|s.log|];
      && d == DriverCall(CreateProgramFn, [s.Object(call.context)] + s.Objects(call.devices), [], d.blobs, [])
      && |d.blobs| == |call.binaries| && (forall i :: 0 <= i < |d.blobs| ==> Blob32(call.binaries[i], d.blobs[i]))
      && Replied(c, w, a.err, if a.err == 0 then a.data[..4 * |call.devices|] else [], 0)
  {
    forall i | 0 <= i < |call.binaries| ensures Blob32(call.binaries[i], Clipped(4, call.binaries[i])) {
      ClippedIsBlob32(call.binaries[i]);
    }
  }

  /** Kernels are counted if the caller asks for none, and made otherwise. */
  lemma KernelsCountedOrMade(o: Oracle, c: Cli, s: Srv, call: Call)
    requires call.CreateKernels? && call.count < 0x1_0000_0000
    ensures var a, p, w := o(|s.log|), s.Object(call.program), Effect(o, c, s, call);
      && w.srv.log == s.log + [if call.count == 0 then DriverCall(CountKernelsFn, [p], [], [], [])
                               else DriverCall(CreateKernelsFn, [p], [call.count], [], [])]
      && (call.count == 0 ==> Replied(c, w, a.err, [], if a.err == 0 then a.num % 0x1_0000_0000 else 0))
  {
  }

  // ---- buffers ----

  /** A read asks the driver for the caller's range, and the caller gets what the driver read. */
  lemma BufferRead(o: Oracle, c: Cli, s: Srv, call: Call)
    requires call.ReadBuffer? && (o(|s.log|).err == 0 ==> call.size % 0x1_0000_0000 <= |o(|s.log|).data|)
    ensures var a, w := o(|s.log|), Effect(o, c, s, call);
      && w.srv.log == s.log
         + [DriverCall(ReadBufferFn, [s.Object(call.queue), s.Object(call.mem)],
                       [call.offset % 0x1_0000_0000, call.size % 0x1_0000_0000], [], s.Objects(call.wait))]
      && Replied(c, w, a.err, if a.err == 0 then a.data[..call.size % 0x1_0000_0000] else [], 0)
  {
  }

  lemma BufferWritten(o: Oracle, c: Cli, s: Srv, call: Call)
    requires call.WriteBuffer?
    ensures var w := Effect(o, c, s, call);
      && |w.srv.log| == |s.log| + 1 && w.srv.log[..|s.log|] == s.log
      && var d := w.srv.log[|s.log|];
      && |d.blobs| == 1 && Blob32(call.data, d.blobs[0])
      && d == DriverCall(WriteBufferFn, [s.Object(call.queue), s.Object(call.mem)],
                         [if call.blocking then 1 else 0, call.offset % 0x1_0000_0000, |call.data| % 0x1_0000_0000],
                         d.blobs, s.Objects(call.wait))
      && Replied(c, w, o(|s.log|).err, [], 0)
  {
    ClippedIsBlob32(call.data);
  }

  /** A fill passes 128 bytes, which begin with the pattern, and the length of the pattern. */
  lemma BufferFilled(o: Oracle, c: Cli, s: Srv, call: Call)
    requires call.FillBuffer? && |call.pattern| <= 128
    ensures var log := Effect(o, c, s, call).srv.log;
      && |log| == |s.log| + 1 && log[..|s.log|] == s.log
      && var d := log[|s.log|];
      && |d.blobs| == 1 && |d.blobs[0]| == 128 && call.pattern <= d.blobs[0]
      && d == DriverCall(FillBufferFn, [s.Object(call.queue), s.Object(call.mem)],
                         [|call.pattern|, call.offset % 0x1_0000_0000, call.size % 0x1_0000_0000],
                         d.blobs, s.Objects(call.wait))
  {
  }

  lemma BufferMade(o: Oracle, c: Cli, s: Srv, call: Call)
    requires call.CreateBuffer?
    ensures var log := Effect(o, c, s, call).srv.log;
      && |log| == |s.log| + 1 && log[..|s.log|] == s.log
      && var d := log[|s.log|];
      && d == DriverCall(CreateBufferFn, [s.Object(call.context)],
                         [call.flags % 0x1_0000_0000, call.size % 0x1_0000_0000], d.blobs, [])
      && if call.hostData.None? then d.blobs == [] else |d.blobs| == 1 && Blob32(call.hostData.value, d.blobs[0])
  {
    if call.hostData.Some? {
      ClippedIsBlob32(call.hostData.value);
    }
  }

  /**
    The context of a memory object (0x1106) and the one it is part of (0x1107) are objects: the driver is
    asked once. For all other queries it is asked for the size first, and the caller gets as many of the
    bytes as an 8-bit size can tell.
   */
  lemma MemObjectQueried(o: Oracle, c: Cli, s: Srv, call: Call)
    requires call.MemObjectInfo?
    ensures var a, b, mem, w := o(|s.log|), o(|s.log| + 1), s.Object(call.mem), Effect(o, c, s, call);
      && (call.param == 0x1106 || call.param == 0x1107 ==>
            w.srv.log == s.log + [DriverCall(MemInfoObjectFn, [mem], [call.param], [], [])])
      && (call.param != 0x1106 && call.param != 0x1107 ==>
            w.srv.log == s.log + [DriverCall(MemInfoSizeFn, [mem], [call.param], [], [])]
              + if a.err == 0 then [DriverCall(MemInfoFn, [mem], [call.param, a.num], [], [])] else [])
      && (call.param != 0x1106 && call.param != 0x1107 && a.err == 0 ==>
            Replied(c, w, b.err, if b.err == 0 then b.data[..|b.data| % 0x100] else [], 0))
  {
    Ranges();
  }

  // ---- contexts and callbacks ----

  lemma {:induction false} TranslatedPairs(table: seq<Obj>, idOf: nat -> nat, pairs: seq<(nat, nat)>, i: nat)
    requires i < |pairs|
    ensures var words := Translated(table, idOf, pairs);
      && |words| == 2 * |pairs| && words[2 * i] == pairs[i].0
      && words[2 * i + 1] == if pairs[i].0 == 0x1084 then GetObj(table, idOf(pairs[i].1)) else pairs[i].1
  {
    if |pairs| > 1 {
      TranslatedPairs(table, idOf, pairs[1..], if i == 0 then 0 else i - 1);
    }
  }

  /**
    The properties that reach the driver are the caller's keys and values in order, the platform
    (key 0x1084) in the place of its handle, and a zero behind them; or no list if the caller gave none.
   */
  lemma PropertiesAreCallers(o: Oracle, c: Cli, s: Srv, idOf: nat -> nat, pairs: seq<(nat, nat)>, devices: seq<nat>)
    requires forall v :: idOf(v) < 0x1_0000
    ensures var log := Effect(o, c, s, CreateContext(Flatten(idOf, pairs), devices)).srv.log;
      && |log| == |s.log| + 1 && log[..|s.log|] == s.log
      && var d := log[|s.log|];
      && d == DriverCall(CreateContextFn, s.Objects(devices), d.numbers, [], [])
      && |d.numbers| == (if pairs == [] then 0 else 2 * |pairs| + 1)
      && (pairs != [] ==> d.numbers[2 * |pairs|] == 0)
      && forall i :: 0 <= i < |pairs| ==>
           && d.numbers[2 * i] == pairs[i].0
           && d.numbers[2 * i + 1] == if pairs[i].0 == 0x1084 then GetObj(s.table, idOf(pairs[i].1)) else pairs[i].1
  {
    PropertiesRebuilt(s.table, idOf, pairs);
    forall i | 0 <= i < |pairs|
      ensures var words := Translated(s.table, idOf, pairs);
        && |words| == 2 * |pairs| && words[2 * i] == pairs[i].0
        && words[2 * i + 1] == if pairs[i].0 == 0x1084 then GetObj(s.table, idOf(pairs[i].1)) else pairs[i].1
    {
      TranslatedPairs(s.table, idOf, pairs, i);
    }
  }

  /** A caller whose context is refused gets CL_DEVICE_NOT_AVAILABLE (-2), whatever the driver's error. */
  lemma RefusedContext(o: Oracle, c: Cli, s: Srv, call: Call)
    requires call.CreateContext? && o(|s.log|).err != 0
    ensures Replied(c, Effect(o, c, s, call), 0x1_0000_0000 - 2, [], 0)
  {
  }

  /** The driver registers the number of the callback in 16 bits, for the kind of status in 32. */
  lemma CallbackRegistered(o: Oracle, c: Cli, s: Srv, call: Call)
    requires call.SetEventCallback?
    ensures Effect(o, c, s, call).srv.log == s.log
      + [DriverCall(SetCallbackFn, [s.Object(call.event)],
                    [call.callback % 0x1_0000, call.kind % 0x1_0000_0000], [], [])]
  {
  }
}
