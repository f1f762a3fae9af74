/** `Refinement` for the calls in which the server asks back: kernel arguments and images. */
module RefineImages {
  import opened Options
  import opened Bytes
  import opened Packets
  import opened Lockstep
  import opened Tables
  import opened Protocol
  import opened Dialogues
  import opened Effects
  import opened Refinement
  import opened RefineCommands

  // ---- a round in which the server asks and the client answers ----

  lemma AnotherRound(o: Oracle, c: Cli, s: Srv, burst: seq<Packet>, s': Srv, ask: Packet, c': Cli, answer: Packet)
    requires Serve(o, s, burst) == Served(s', [ask], []) && Hear(c, [ask]) == Heard(c', [answer], true, [])
    requires 0 < |c'.wants| < |c.wants|
    ensures Converse(o, c, s, burst) == Converse(o, c', s', [answer])
  {
  }

  lemma StuckRound(o: Oracle, c: Cli, s: Srv, burst: seq<Packet>)
    requires c.wants != [] && Serve(o, s, burst) == Stuck
    ensures Converse(o, c, s, burst) == Loses
  {
  }

  /** The client is asked for something and has one more reply to wait for. */
  lemma HearQuestion(c: Cli, ask: Packet, first: Want, second: Want, answer: Packet)
    requires var c1 := InCall(c, [first, second]);
      && Answers(ask, ClientAwaits(c1))
      && ClientHandles(c1, ask) == Reaction([answer], true, c1.Next(NOTHING))
    requires WellFormed(answer)
    ensures Hear(InCall(c, [first, second]), [ask]) == Heard(InCall(c, [second]), [answer], true, [])
  {
    var c1 := InCall(c, [first, second]);
    assert c1.wants[1..] == [second];
    assert [answer][0] == answer;
  }

  lemma Asks(o: Oracle, s: Srv, p: Packet, stage: Stage)
    requires WellFormed(p)
    ensures After(o, AskClient(s, p, stage), []) == Served(s.(stage := stage), [p], [])
  {
  }

  // ---- kernel arguments ----

  lemma HearMode(c: Cli, arg: KernelArg, mode: nat)
    requires WellFormed(ArgPacket(arg, mode))
    ensures Hear(InCall(c, [WantMode(arg), WantSuccess]), [SmallPacket(1, mode)])
      == Heard(InCall(c, [WantSuccess]), [ArgPacket(arg, mode)], true, [])
  {
    HearQuestion(c, SmallPacket(1, mode), WantMode(arg), WantSuccess, ArgPacket(arg, mode));
  }

  lemma ArgFits(arg: KernelArg, mode: nat)
    requires arg.mem < ID_RANGE
    ensures WellFormed(ArgPacket(arg, mode))
  {
    Ranges();
  }

  lemma ArgTaken(o: Oracle, s: Srv, s1: Srv, kernel: nat, index: nat, arg: KernelArg, qualifier: nat)
    requires ModeFor(qualifier) == MODE_ID ==> arg.size == SIZEOF_CL_MEM
    requires s1.table == s.table && s1.stage == AwaitsArg(ModeFor(qualifier), s.Object(kernel), Word(index))
    ensures ServerTakes(o, s1, ArgPacket(arg, ModeFor(qualifier)))
      == Checked(FinishSuccess(s1.Called(SetArg(s, kernel, index, arg, qualifier)), Next(o, s1)))
  {
  }

  lemma WrongArgStuck(o: Oracle, s1: Srv, kernel: Obj, index: nat, arg: KernelArg)
    requires s1.stage == AwaitsArg(MODE_ID, kernel, index) && arg.size != SIZEOF_CL_MEM
    ensures Serve(o, s1, [ArgPacket(arg, MODE_ID)]) == Stuck
  {
    assert [ArgPacket(arg, MODE_ID)][0].format == PayloadFormat(4);
  }

  /** The second round: the argument arrives and is given to the driver. */
  lemma ArgGiven(o: Oracle, c: Cli, s: Srv, s1: Srv, kernel: nat, index: nat, arg: KernelArg, qualifier: nat)
    requires ModeFor(qualifier) == MODE_ID ==> arg.size == SIZEOF_CL_MEM
    requires s1.table == s.table && s1.stage == AwaitsArg(ModeFor(qualifier), s.Object(kernel), Word(index))
    ensures var w := Coded(c, Idle(s1).Called(SetArg(s, kernel, index, arg, qualifier)), Next(o, s1));
      Converse(o, InCall(c, [WantSuccess]), s1, [ArgPacket(arg, ModeFor(qualifier))]) == Settles(w.cli, w.srv)
  {
    var p, s2 := ArgPacket(arg, ModeFor(qualifier)), s1.Called(SetArg(s, kernel, index, arg, qualifier));
    var st := FinishSuccess(s2, Next(o, s1));
    ArgTaken(o, s, s1, kernel, index, arg, qualifier);
    ServeFirst(o, s1, p, [], st);
    assert [p] + [] == [p];
    CloseCoded(c, s2, Next(o, s1));
    OneRound(o, InCall(c, [WantSuccess]), s1, [p], st, Coded(c, Idle(s2), Next(o, s1)));
  }

  lemma ArgRequest(o: Oracle, s: Srv, kernel: nat, index: nat, arg: KernelArg)
    requires s.stage.Ready?
    ensures var a, s1 := Next(o, s), s.Called(DriverCall(ArgInfoFn, [s.Object(kernel)], [Word(index)], [], []));
      Serve(o, s, Request(SetKernelArg(kernel, index, arg))) == After(o,
        if a.err != 0 then Finish(s1, [ErrorPacket(a.err)])
        else AskClient(s1, SmallPacket(1, ModeFor(a.num)),
                       AwaitsArg(ModeFor(a.num), s.Object(kernel), Word(index))), [])
  {
    var p := Request(SetKernelArg(kernel, index, arg))[0];
    FieldIs(p, [kernel, Word(index)], 0);
    FieldIs(p, [kernel, Word(index)], 1);
    ServeFirst(o, s, p, [], Dispatch(o, s, p));
    assert [p] + [] == [p];
  }

  lemma ModeFits(mode: nat)
    requires mode < 0x100
    ensures WellFormed(SmallPacket(1, mode))
  {
    Ranges();
  }

  /** The dialogue from the server's question on. */
  lemma ArgAsked(o: Oracle, c: Cli, s: Srv, burst: seq<Packet>, s1: Srv, kernel: nat, index: nat, arg: KernelArg,
                 qualifier: nat)
    requires arg.mem < ID_RANGE && s1.table == s.table && s1.stage.Ready?
    requires var mode := ModeFor(qualifier);
      Serve(o, s, burst)
        == After(o, AskClient(s1, SmallPacket(1, mode), AwaitsArg(mode, s.Object(kernel), Word(index))), [])
    ensures var mode, w :=
        ModeFor(qualifier), Coded(c, s1.Called(SetArg(s, kernel, index, arg, qualifier)), Next(o, s1));
      Converse(o, InCall(c, [WantMode(arg), WantSuccess]), s, burst)
        == if mode == MODE_ID && arg.size != SIZEOF_CL_MEM then Loses else Settles(w.cli, w.srv)
  {
    var mode := ModeFor(qualifier);
    var ask, s2 := SmallPacket(1, mode), s1.(stage := AwaitsArg(mode, s.Object(kernel), Word(index)));
    ModeFits(mode);
    Asks(o, s1, ask, s2.stage);
    ArgFits(arg, mode);
    HearMode(c, arg, mode);
    AnotherRound(o, InCall(c, [WantMode(arg), WantSuccess]), s, burst, s2, ask, InCall(c, [WantSuccess]),
                 ArgPacket(arg, mode));
    if mode == MODE_ID && arg.size != SIZEOF_CL_MEM {
      WrongArgStuck(o, s2, s.Object(kernel), Word(index), arg);
      StuckRound(o, InCall(c, [WantSuccess]), s2, [ArgPacket(arg, mode)]);
    } else {
      ArgGiven(o, c, s, s2, kernel, index, arg, qualifier);
    }
  }

  lemma SetKernelArgRefines(o: Oracle, c: Cli, s: Srv, kernel: nat, index: nat, arg: KernelArg)
    requires Rests(c, s) && arg.mem < ID_RANGE
    ensures Conversation(o, c, s, SetKernelArg(kernel, index, arg))
      == Predicted(o, c, s, SetKernelArg(kernel, index, arg))
  {
    var call := SetKernelArg(kernel, index, arg);
    var a, s1 := Next(o, s), s.Called(DriverCall(ArgInfoFn, [s.Object(kernel)], [Word(index)], [], []));
    ArgRequest(o, s, kernel, index, arg);
    if a.err != 0 {
      CloseError(c, s1, Wants(call), a.err);
      OneRound(o, InCall(c, Wants(call)), s, Request(call), Finish(s1, [ErrorPacket(a.err)]),
               Failed(c, Idle(s1), a.err));
    } else {
      ArgAsked(o, c, s, Request(call), s1, kernel, index, arg, a.num);
    }
  }

  // ---- images ----

  /** The client is asked how much image data to send, and sends it. */
  lemma HearSize(c: Cli, host: seq<byte>, n: word, last: Want)
    ensures Hear(InCall(c, [WantSize(host), last]), [SmallPacket(4, n)])
      == Heard(InCall(c, [last]), [PayloadPacket(4, Resized(host, n))], true, [])
  {
    PayloadFits(Resized(host, n));
    HearQuestion(c, SmallPacket(4, n), WantSize(host), last, PayloadPacket(4, Resized(host, n)));
  }

  /** Both rounds of a request for image data, and the step in which the server takes the data. */
  lemma ImageRounds(o: Oracle, c: Cli, s: Srv, burst: seq<Packet>, host: seq<byte>, last: Want,
                    s1: Srv, n: word, req: Packet, info: nat, events: seq<Obj>, w: World)
    requires Serve(o, s, burst) == After(o, AskClient(s1, SmallPacket(4, n), AwaitsData(req, info, events)), [])
    ensures var st := TakeData(o, s1.(stage := AwaitsData(req, info, events)), req, info, events, Resized(host, n));
      var v := Converse(o, InCall(c, [WantSize(host), last]), s, burst);
      && (Closes(st, InCall(c, [last]), w) ==> v == Settles(w.cli, w.srv))
      && (Checked(st) == None ==> v == Loses)
  {
    var ask, s2, d := SmallPacket(4, n), s1.(stage := AwaitsData(req, info, events)), Resized(host, n);
    NumberFits(n);
    Asks(o, s1, ask, s2.stage);
    HearSize(c, host, n, last);
    AnotherRound(o, InCall(c, [WantSize(host), last]), s, burst, s2, ask, InCall(c, [last]), PayloadPacket(4, d));
    DataServed(o, s1, req, info, events, d);
    OneRound(o, InCall(c, [last]), s2, [PayloadPacket(4, d)], TakeData(o, s2, req, info, events, d), w);
  }

  // ---- creating an image ----

  /** The fields of a request for an image, except for the flags and the context. */
  predicate Describes(p: Packet, desc: seq<nat>) {
    && FieldNum(p, 1) == At(desc, 0) && FieldNum(p, 2) == At(desc, 1) && FieldNum(p, 3) == At(desc, 2)
    && FieldNum(p, 4) == At(desc, 3) && FieldNum(p, 5) == At(desc, 4) && FieldNum(p, 6) == At(desc, 5)
    && FieldNum(p, 7) == At(desc, 6) && FieldNum(p, 8) == At(desc, 7) && FieldNum(p, 9) == At(desc, 8)
    && FieldNum(p, 10) == At(desc, 9) && FieldNum(p, 11) == At(desc, 10)
  }

  lemma ImageFields(p: Packet, flags: nat, desc: seq<nat>, context: nat)
    requires p.body == Numbers([flags, At(desc, 0), At(desc, 1), At(desc, 2), At(desc, 3), At(desc, 4), At(desc, 5),
                                At(desc, 6), At(desc, 7), At(desc, 8), At(desc, 9), At(desc, 10), context])
    ensures FieldNum(p, 0) == flags && FieldNum(p, 12) == context && Describes(p, desc)
  {
    var ns := [flags, At(desc, 0), At(desc, 1), At(desc, 2), At(desc, 3), At(desc, 4), At(desc, 5),
               At(desc, 6), At(desc, 7), At(desc, 8), At(desc, 9), At(desc, 10), context];
    FieldIs(p, ns, 0);
    FieldIs(p, ns, 1);
    FieldIs(p, ns, 2);
    FieldIs(p, ns, 3);
    FieldIs(p, ns, 4);
    FieldIs(p, ns, 5);
    FieldIs(p, ns, 6);
    FieldIs(p, ns, 7);
    FieldIs(p, ns, 8);
    FieldIs(p, ns, 9);
    FieldIs(p, ns, 10);
    FieldIs(p, ns, 11);
    FieldIs(p, ns, 12);
  }

  lemma DescribedParams(p: Packet, desc: seq<nat>, flags: nat, element: nat)
    requires Describes(p, desc)
    ensures ImageParams(p, flags) == ImageDesc(flags, desc) && ImageSize(p, element) == ImageBytes(desc, element)
  {
  }

  lemma Quotient(n: nat, d: nat, q: nat, r: nat)
    requires d > 0 && n == d * q + r && r < d
    ensures n / d == q && n % d == r
  {
    var k := n / d;
    assert d * k + n % d == n;
    assert k < q ==> d * (k + 1) <= d * q;
    assert k > q ==> d * (q + 1) <= d * k;
  }

  lemma FlagKeepsBit(flags: nat)
    ensures CopiesHost(Word(flags)) <==> CopiesHost(flags)
  {
    var q, r := flags / 0x1_0000_0000, Word(flags);
    var h, b := r / 64, r / 32 % 2;
    Quotient(flags / 32, 2, 0x400_0000 * q + h, b) by {
      Quotient(flags, 32, 0x800_0000 * q + r / 32, r % 32);
    }
  }

  /** The request for an image, as its handler finds it. */
  lemma ImageRequested(o: Oracle, s: Srv, context: nat, flags: nat, desc: seq<nat>, host: seq<byte>)
      returns (req: Packet)
    requires s.stage.Ready?
    ensures req.format.tag == CREATE_IMAGE && FieldNum(req, 0) == Word(flags) && FieldNum(req, 12) == context
    ensures Describes(req, desc)
    ensures Serve(o, s, Request(CreateImage(context, flags, desc, host))) == After(o, MakeImage(o, s, req), [])
  {
    req := Request(CreateImage(context, flags, desc, host))[0];
    ImageFields(req, Word(flags), desc, context);
    ImageDispatched(o, s, req);
  }

  lemma ImageDispatched(o: Oracle, s: Srv, req: Packet)
    requires s.stage.Ready? && req.format == CREATE_IMAGE_FORMAT
    ensures Serve(o, s, [req]) == After(o, MakeImage(o, s, req), [])
  {
    ServeFirst(o, s, req, [], MakeImage(o, s, req));
    assert [req] + [] == [req];
  }

  function PlainFlags(flags: word): nat { if CopiesHost(flags) then flags - CL_MEM_COPY_HOST_PTR else flags }

  /** The image as first created, without host data. */
  function FirstImage(s: Srv, context: nat, flags: word, desc: seq<nat>): Srv {
    s.Called(DriverCall(CreateImageFn, [s.Object(context)], ImageDesc(PlainFlags(flags), desc), [], []))
  }

  lemma FirstImageMade(o: Oracle, s: Srv, req: Packet, context: nat, flags: word, desc: seq<nat>)
    requires FieldNum(req, 0) == flags && FieldNum(req, 12) == context && Describes(req, desc)
    ensures var a, s1 := Next(o, s), FirstImage(s, context, flags, desc);
      var b, s2 := Next(o, s1), s1.Called(DriverCall(ElementSizeFn, [a.obj], [], [], []));
      MakeImage(o, s, req) ==
        if a.err != 0 || !CopiesHost(flags) then FinishId(s1, a)
        else if b.err != 0 then Finish(s2, [ErrorPacket(b.err)])
        else AskClient(s2, SmallPacket(4, Word(ImageBytes(desc, b.num))), AwaitsData(req, a.obj, []))
  {
    DescribedParams(req, desc, PlainFlags(flags), Next(o, FirstImage(s, context, flags, desc)).num);
  }

  lemma PlainImagePredicted(o: Oracle, c: Cli, s: Srv, context: nat, flags: nat, desc: seq<nat>, host: seq<byte>)
    requires !CopiesHost(flags) || Next(o, s).err != 0
    ensures var a, w := Next(o, s), Created(c, FirstImage(s, context, Word(flags), desc), Next(o, s), false);
      Predicted(o, c, s, CreateImage(context, flags, desc, host))
        == if a.err == 0 && !Room(s, a.obj) then Loses else Settles(w.cli, w.srv)
  {
    FlagKeepsBit(flags);
  }

  /** Without host data, or when the driver refuses, the image request has one round. */
  lemma PlainImageRefines(o: Oracle, c: Cli, s: Srv, context: nat, flags: nat, desc: seq<nat>, host: seq<byte>)
    requires Rests(c, s) && (!CopiesHost(flags) || Next(o, s).err != 0)
    ensures var call := CreateImage(context, flags, desc, host);
      Conversation(o, c, s, call) == Predicted(o, c, s, call)
  {
    var call, a, s1 := CreateImage(context, flags, desc, host), Next(o, s), FirstImage(s, context, Word(flags), desc);
    var req := ImageRequested(o, s, context, flags, desc, host);
    FirstImageMade(o, s, req, context, Word(flags), desc);
    FlagKeepsBit(flags);
    PlainImagePredicted(o, c, s, context, flags, desc, host);
    if a.err != 0 {
      CloseError(c, s1, Wants(call), a.err);
    } else if Room(s, a.obj) {
      CloseId(c, s1, a, false);
    }
    OneRound(o, InCall(c, Wants(call)), s, Request(call), FinishId(s1, a), Created(c, s1, a, false));
  }

  lemma ImageDataTaken(o: Oracle, s: Srv, req: Packet, context: nat, flags: nat, desc: seq<nat>, image: Obj,
                       d: seq<byte>)
    requires req.format.tag == CREATE_IMAGE && FieldNum(req, 0) == flags && FieldNum(req, 12) == context
    requires Describes(req, desc)
    ensures var s1 := s.Called(DriverCall(ReleaseImageFn, [image], [], [], []));
      TakeData(o, s, req, image, [], d) == FinishId(
        s1.Called(DriverCall(CreateImageFn, [s.Object(context)], ImageDesc(flags, desc), [d], [])), Next(o, s1))
  {
    DescribedParams(req, desc, flags, 0);
  }

  /** The image with host data, once its element size is known. */
  ghost function SecondVerdict(o: Oracle, c: Cli, s2: Srv, context: nat, flags: word, desc: seq<nat>, host: seq<byte>,
                               image: Obj, n: word): Verdict {
    var s3 := s2.Called(DriverCall(ReleaseImageFn, [image], [], [], []));
    var d := DriverCall(CreateImageFn, [s2.Object(context)], ImageDesc(flags, desc), [Resized(host, n)], []);
    var w := Created(c, s3.Called(d), Next(o, s3), false);
    if Next(o, s3).err == 0 && !Room(s2, Next(o, s3).obj) then Loses else Settles(w.cli, w.srv)
  }

  /** The second image takes the place of the first. */
  lemma SecondImage(o: Oracle, c: Cli, s: Srv, burst: seq<Packet>, s2: Srv, req: Packet, context: nat, flags: word,
                    desc: seq<nat>, host: seq<byte>, image: Obj, n: word)
    requires req.format.tag == CREATE_IMAGE && FieldNum(req, 0) == flags && FieldNum(req, 12) == context
    requires Describes(req, desc) && s2.stage.Ready?
    requires Serve(o, s, burst) == After(o, AskClient(s2, SmallPacket(4, n), AwaitsData(req, image, [])), [])
    ensures Converse(o, InCall(c, [WantSize(host), WantId(false)]), s, burst)
      == SecondVerdict(o, c, s2, context, flags, desc, host, image, n)
  {
    var s3 := s2.(stage := AwaitsData(req, image, []));
    var s4 := s3.Called(DriverCall(ReleaseImageFn, [image], [], [], []));
    var s5 := s4.Called(DriverCall(CreateImageFn, [s2.Object(context)], ImageDesc(flags, desc), [Resized(host, n)],
                                   []));
    ImageDataTaken(o, s3, req, context, flags, desc, image, Resized(host, n));
    if Next(o, s4).err != 0 || Room(s2, Next(o, s4).obj) {
      CloseId(c, s5, Next(o, s4), false);
    }
    ImageRounds(o, c, s, burst, host, WantId(false), s2, n, req, image, [], Created(c, Idle(s5), Next(o, s4), false));
  }

  lemma CopiedImagePredicted(o: Oracle, c: Cli, s: Srv, context: nat, flags: nat, desc: seq<nat>, host: seq<byte>)
    requires CopiesHost(flags) && Next(o, s).err == 0
    ensures var a, s1 := Next(o, s), FirstImage(s, context, Word(flags), desc);
      var b, s2 := Next(o, s1), s1.Called(DriverCall(ElementSizeFn, [a.obj], [], [], []));
      Predicted(o, c, s, CreateImage(context, flags, desc, host)) ==
        if b.err != 0 then Settles(Failed(c, s2, b.err).cli, s2)
        else SecondVerdict(o, c, s2, context, Word(flags), desc, host, a.obj, Word(ImageBytes(desc, b.num)))
  {
    FlagKeepsBit(flags);
  }

  lemma CopiedImageRefines(o: Oracle, c: Cli, s: Srv, context: nat, flags: nat, desc: seq<nat>, host: seq<byte>)
    requires Rests(c, s) && CopiesHost(flags) && Next(o, s).err == 0
    ensures var call := CreateImage(context, flags, desc, host);
      Conversation(o, c, s, call) == Predicted(o, c, s, call)
  {
    var call, a, s1 := CreateImage(context, flags, desc, host), Next(o, s), FirstImage(s, context, Word(flags), desc);
    var req := ImageRequested(o, s, context, flags, desc, host);
    FirstImageMade(o, s, req, context, Word(flags), desc);
    FlagKeepsBit(flags);
    CopiedImagePredicted(o, c, s, context, flags, desc, host);
    var b, s2 := Next(o, s1), s1.Called(DriverCall(ElementSizeFn, [a.obj], [], [], []));
    var c1 := InCall(c, [WantSize(host), WantId(false)]);
    assert Conversation(o, c, s, call) == Converse(o, c1, s, Request(call));
    if b.err != 0 {
      CloseError(c, s2, c1.wants, b.err);
      OneRound(o, c1, s, Request(call), Finish(s2, [ErrorPacket(b.err)]), Failed(c, s2, b.err));
    } else {
      SecondImage(o, c, s, Request(call), s2, req, context, Word(flags), desc, host, a.obj,
                  Word(ImageBytes(desc, b.num)));
    }
  }

  lemma CreateImageRefines(o: Oracle, c: Cli, s: Srv, context: nat, flags: nat, desc: seq<nat>, host: seq<byte>)
    requires Rests(c, s)
    ensures var call := CreateImage(context, flags, desc, host);
      Conversation(o, c, s, call) == Predicted(o, c, s, call)
  {
    if !CopiesHost(flags) || Next(o, s).err != 0 {
      PlainImageRefines(o, c, s, context, flags, desc, host);
    } else {
      CopiedImageRefines(o, c, s, context, flags, desc, host);
    }
  }

  // ---- reading and writing a region of an image ----

  /** The fields of a region request. */
  ghost predicate Covers(p: Packet, queue: nat, mem: nat, origin: seq<nat>, region: seq<nat>, pitches: seq<nat>,
                         blocking: bool, listed: bool, want: bool) {
    && (p.format.tag == READ_IMAGE || p.format.tag == WRITE_IMAGE)
    && FieldNum(p, 0) == mem && FieldNum(p, 1) == queue
    && RegionParams(p) == RegionOf(origin, region, pitches, blocking)
    && FieldNum(p, 5) == At(region, 0) && FieldNum(p, 6) == At(region, 1) && FieldNum(p, 7) == At(region, 2)
    && (WantsEvent(p) <==> want) && (ExpectsEvents(p) <==> listed)
  }

  lemma RegionFields(tag: byte, queue: nat, mem: nat, origin: seq<nat>, region: seq<nat>, pitches: seq<nat>,
                     blocking: bool, wait: seq<nat>, want: bool)
    requires tag == READ_IMAGE || tag == WRITE_IMAGE
    ensures Covers(ImageRequest(tag, queue, mem, origin, region, pitches, blocking, wait, want),
                   queue, mem, origin, region, pitches, blocking, wait != [], want)
  {
    var p := ImageRequest(tag, queue, mem, origin, region, pitches, blocking, wait, want);
    var ns := [mem, queue, At(origin, 0), At(origin, 1), At(origin, 2), At(region, 0), At(region, 1), At(region, 2),
               At(pitches, 0), At(pitches, 1), Flag(want), Flag(wait != []), Flag(blocking)];
    FieldIs(p, ns, 0);
    FieldIs(p, ns, 1);
    FieldIs(p, ns, 2);
    FieldIs(p, ns, 3);
    FieldIs(p, ns, 4);
    FieldIs(p, ns, 5);
    FieldIs(p, ns, 6);
    FieldIs(p, ns, 7);
    FieldIs(p, ns, 8);
    FieldIs(p, ns, 9);
    FieldIs(p, ns, 10);
    FieldIs(p, ns, 11);
    FieldIs(p, ns, 12);
  }

  /** The driver is first asked for the element size of the image. */
  function Measured(s: Srv, mem: nat): Srv { s.Called(DriverCall(ElementSizeFn, [s.Object(mem)], [], [], [])) }

  lemma RegionTaken(o: Oracle, s: Srv, req: Packet, mem: nat)
    requires s.stage.Ready? && RequestFormat(req.format.tag) == Some(req.format) && FieldNum(req, 0) == mem
    requires req.format.tag == READ_IMAGE || req.format.tag == WRITE_IMAGE
    ensures var a, s1 := Next(o, s), Measured(s, mem);
      ServerTakes(o, s, req) == Checked(if a.err != 0 then Finish(s1, [ErrorPacket(a.err)])
                                        else EventsThen(o, s1, req, a.num))
  {
  }

  /** Without an element size the handler replies before it reads the event list. */
  lemma UnmeasuredImage(o: Oracle, c: Cli, s: Srv, wants: seq<Want>, req: Packet, mem: nat, wait: seq<nat>)
    requires wants != [] && wants[0] != WantContext && s.stage.Ready?
      && RequestFormat(req.format.tag) == Some(req.format) && FieldNum(req, 0) == mem
    requires req.format.tag == READ_IMAGE || req.format.tag == WRITE_IMAGE
    requires Next(o, s).err != 0
    ensures var w := Failed(c, Measured(s, mem), Next(o, s).err);
      Converse(o, InCall(c, wants), s, [req] + WaitList(wait)) == if wait == [] then Settles(w.cli, w.srv) else Loses
  {
    var a, s1 := Next(o, s), Measured(s, mem);
    RegionTaken(o, s, req, mem);
    ServeFirst(o, s, req, WaitList(wait), Finish(s1, [ErrorPacket(a.err)]));
    CloseError(c, s1, wants, a.err);
    if wait == [] {
      OneRound(o, InCall(c, wants), s, [req] + WaitList(wait), Finish(s1, [ErrorPacket(a.err)]), Failed(c, s1, a.err));
    }
  }

  lemma ReadImageCommand(o: Oracle, s: Srv, req: Packet, queue: nat, mem: nat, origin: seq<nat>, region: seq<nat>,
                         pitches: seq<nat>, blocking: bool, listed: bool, want: bool, element: nat, events: seq<Obj>)
    requires Covers(req, queue, mem, origin, region, pitches, blocking, listed, want) && req.format.tag == READ_IMAGE
    ensures Command(o, s, req, element, events) == FinishCommand(
      s.Called(DriverCall(ReadImageFn, [s.Object(queue), s.Object(mem)], RegionOf(origin, region, pitches, blocking),
                          [], events)),
      Next(o, s), want, [PayloadOf(4, Resized(Next(o, s).data, RegionBytes(region, element)))])
  {
  }

  lemma ReadImageFinishes(c: Cli, s: Srv, b: Answer, want: bool, d: seq<byte>)
    ensures var st := FinishCommand(s, b, want, [PayloadOf(4, d)]);
      if b.err == 0 && want && !Room(s, b.event) then Checked(st) == None
      else Closes(st, InCall(c, EventWanted(want) + [WantData(4)]), Enqueued(c, Idle(s), b, want, Clipped(4, d)))
  {
    if b.err != 0 {
      CloseError(c, s, EventWanted(want) + [WantData(4)], b.err);
    } else if want ==> Room(s, b.event) {
      CloseCommand(c, s, b, want, PayloadOf(4, d), WantData(4), Clipped(4, d));
    }
  }

  lemma ReadImagePredicted(o: Oracle, c: Cli, s: Srv, queue: nat, mem: nat, origin: seq<nat>, region: seq<nat>,
                           pitches: seq<nat>, blocking: bool, wait: seq<nat>, want: bool)
    ensures var a, s1 := Next(o, s), Measured(s, mem);
      var b, d := Next(o, s1), Resized(Next(o, s1).data, RegionBytes(region, a.num));
      var s2 := s1.Called(DriverCall(ReadImageFn, [s.Object(queue), s.Object(mem)],
                                     RegionOf(origin, region, pitches, blocking), [], s.Objects(wait)));
      Predicted(o, c, s, ReadImage(queue, mem, origin, region, pitches, blocking, wait, want)) ==
        if a.err != 0 then if wait == [] then Settles(Failed(c, s1, a.err).cli, s1) else Loses
        else if b.err == 0 && want && !Room(s, b.event) then Loses
        else Settles(Enqueued(c, s2, b, want, Clipped(4, d)).cli, Enqueued(c, s2, b, want, Clipped(4, d)).srv)
  {
  }

  lemma MeasuredRead(o: Oracle, c: Cli, s: Srv, req: Packet, queue: nat, mem: nat, origin: seq<nat>, region: seq<nat>,
                     pitches: seq<nat>, blocking: bool, wait: seq<nat>, want: bool)
    requires s.stage.Ready? && Next(o, s).err == 0 && req.format == Format(READ_IMAGE, IMAGE_RW)
    requires Covers(req, queue, mem, origin, region, pitches, blocking, wait != [], want)
    ensures var s1, element := Measured(s, mem), Next(o, s).num;
      var b, d := Next(o, s1), Resized(Next(o, s1).data, RegionBytes(region, element));
      var s2 := s1.Called(DriverCall(ReadImageFn, [s.Object(queue), s.Object(mem)],
                                     RegionOf(origin, region, pitches, blocking), [], s.Objects(wait)));
      var w := Enqueued(c, s2, b, want, Clipped(4, d));
      Converse(o, InCall(c, EventWanted(want) + [WantData(4)]), s, [req] + WaitList(wait))
        == if b.err == 0 && want && !Room(s, b.event) then Loses else Settles(w.cli, w.srv)
  {
    var s1, element := Measured(s, mem), Next(o, s).num;
    RegionTaken(o, s, req, mem);
    EventListServed(o, s, s1, req, element, wait, []);
    assert [req] + WaitList(wait) + [] == [req] + WaitList(wait);
    ReadImageCommand(o, s1, req, queue, mem, origin, region, pitches, blocking, wait != [], want, element,
                     s1.Objects(wait));
    var b, d := Next(o, s1), Resized(Next(o, s1).data, RegionBytes(region, element));
    var s2 := s1.Called(DriverCall(ReadImageFn, [s.Object(queue), s.Object(mem)],
                                   RegionOf(origin, region, pitches, blocking), [], s.Objects(wait)));
    ReadImageFinishes(c, s2, b, want, d);
    OneRound(o, InCall(c, EventWanted(want) + [WantData(4)]), s, [req] + WaitList(wait),
             FinishCommand(s2, b, want, [PayloadOf(4, d)]), Enqueued(c, s2, b, want, Clipped(4, d)));
  }

  lemma ReadConversation(o: Oracle, c: Cli, s: Srv, queue: nat, mem: nat, origin: seq<nat>, region: seq<nat>,
                         pitches: seq<nat>, blocking: bool, wait: seq<nat>, want: bool)
    ensures var req := ImageRequest(READ_IMAGE, queue, mem, origin, region, pitches, blocking, wait, want);
      Conversation(o, c, s, ReadImage(queue, mem, origin, region, pitches, blocking, wait, want))
        == Converse(o, InCall(c, EventWanted(want) + [WantData(4)]), s, [req] + WaitList(wait))
  {
  }

  lemma ReadImageRefines(o: Oracle, c: Cli, s: Srv, queue: nat, mem: nat, origin: seq<nat>, region: seq<nat>,
                         pitches: seq<nat>, blocking: bool, wait: seq<nat>, want: bool)
    requires Rests(c, s)
    ensures var call := ReadImage(queue, mem, origin, region, pitches, blocking, wait, want);
      Conversation(o, c, s, call) == Predicted(o, c, s, call)
  {
    var call := ReadImage(queue, mem, origin, region, pitches, blocking, wait, want);
    var req := ImageRequest(READ_IMAGE, queue, mem, origin, region, pitches, blocking, wait, want);
    ReadConversation(o, c, s, queue, mem, origin, region, pitches, blocking, wait, want);
    RegionFields(READ_IMAGE, queue, mem, origin, region, pitches, blocking, wait, want);
    ReadImagePredicted(o, c, s, queue, mem, origin, region, pitches, blocking, wait, want);
    if Next(o, s).err != 0 {
      UnmeasuredImage(o, c, s, EventWanted(want) + [WantData(4)], req, mem, wait);
    } else {
      MeasuredRead(o, c, s, req, queue, mem, origin, region, pitches, blocking, wait, want);
    }
  }

  /** The reply to a region that was written: its event, or just success. */
  function WrittenReply(want: bool): Want { if want then WantId(true) else WantSuccess }

  lemma WriteImageData(o: Oracle, s: Srv, req: Packet, queue: nat, mem: nat, origin: seq<nat>, region: seq<nat>,
                       pitches: seq<nat>, blocking: bool, listed: bool, want: bool, element: nat, events: seq<Obj>,
                       d: seq<byte>)
    requires Covers(req, queue, mem, origin, region, pitches, blocking, listed, want) && req.format.tag == WRITE_IMAGE
    ensures Command(o, s, req, element, events)
      == AskClient(s, SmallPacket(4, Word(RegionBytes(region, element))), AwaitsData(req, element, events))
    ensures TakeData(o, s, req, element, events, d) == FinishCommand(
      s.Called(DriverCall(WriteImageFn, [s.Object(queue), s.Object(mem)],
                          RegionOf(origin, region, pitches, blocking), [d], events)),
      Next(o, s), want, if want then [] else [SuccessPacket()])
  {
  }

  lemma WriteImageFinishes(c: Cli, s: Srv, b: Answer, want: bool)
    ensures var st := FinishCommand(s, b, want, if want then [] else [SuccessPacket()]);
      if b.err == 0 && want && !Room(s, b.event) then Checked(st) == None
      else Closes(st, InCall(c, [WrittenReply(want)]), Enqueued(c, Idle(s), b, want, []))
  {
    if want {
      if b.err != 0 || Room(s, b.event) {
        CloseId(c, s, b.(obj := b.event), true);
        assert b.err == 0 ==> [IdPacket(Intern(s.table, b.event).0)] + [] == [IdPacket(Intern(s.table, b.event).0)];
      }
    } else {
      CloseCoded(c, s, b);
    }
  }

  lemma WriteImagePredicted(o: Oracle, c: Cli, s: Srv, queue: nat, mem: nat, origin: seq<nat>, region: seq<nat>,
                            pitches: seq<nat>, blocking: bool, host: seq<byte>, wait: seq<nat>, want: bool)
    ensures var a, s1 := Next(o, s), Measured(s, mem);
      var b, d := Next(o, s1), Resized(host, Word(RegionBytes(region, a.num)));
      var s2 := s1.Called(DriverCall(WriteImageFn, [s.Object(queue), s.Object(mem)],
                                     RegionOf(origin, region, pitches, blocking), [d], s.Objects(wait)));
      Predicted(o, c, s, WriteImage(queue, mem, origin, region, pitches, blocking, host, wait, want)) ==
        if a.err != 0 then if wait == [] then Settles(Failed(c, s1, a.err).cli, s1) else Loses
        else if b.err == 0 && want && !Room(s, b.event) then Loses
        else Settles(Enqueued(c, s2, b, want, []).cli, Enqueued(c, s2, b, want, []).srv)
  {
  }

  lemma MeasuredWrite(o: Oracle, c: Cli, s: Srv, req: Packet, queue: nat, mem: nat, origin: seq<nat>, region: seq<nat>,
                      pitches: seq<nat>, blocking: bool, host: seq<byte>, wait: seq<nat>, want: bool)
    requires s.stage.Ready? && Next(o, s).err == 0 && req.format == Format(WRITE_IMAGE, IMAGE_RW)
    requires Covers(req, queue, mem, origin, region, pitches, blocking, wait != [], want)
    ensures var s1, element := Measured(s, mem), Next(o, s).num;
      var b, d := Next(o, s1), Resized(host, Word(RegionBytes(region, element)));
      var s2 := s1.Called(DriverCall(WriteImageFn, [s.Object(queue), s.Object(mem)],
                                     RegionOf(origin, region, pitches, blocking), [d], s.Objects(wait)));
      var w := Enqueued(c, s2, b, want, []);
      Converse(o, InCall(c, [WantSize(host), WrittenReply(want)]), s, [req] + WaitList(wait))
        == if b.err == 0 && want && !Room(s, b.event) then Loses else Settles(w.cli, w.srv)
  {
    var s1, element := Measured(s, mem), Next(o, s).num;
    RegionTaken(o, s, req, mem);
    EventListServed(o, s, s1, req, element, wait, []);
    assert [req] + WaitList(wait) + [] == [req] + WaitList(wait);
    var n, events := Word(RegionBytes(region, element)), s1.Objects(wait);
    var s2, d := s1.(stage := AwaitsData(req, element, events)), Resized(host, n);
    WriteImageData(o, s1, req, queue, mem, origin, region, pitches, blocking, wait != [], want, element, events, d);
    WriteImageData(o, s2, req, queue, mem, origin, region, pitches, blocking, wait != [], want, element, events, d);
    var s3 := s2.Called(DriverCall(WriteImageFn, [s.Object(queue), s.Object(mem)],
                                   RegionOf(origin, region, pitches, blocking), [d], events));
    WriteImageFinishes(c, s3, Next(o, s2), want);
    ImageRounds(o, c, s, [req] + WaitList(wait), host, WrittenReply(want), s1, n, req, element, events,
                Enqueued(c, Idle(s3), Next(o, s2), want, []));
  }

  lemma WriteConversation(o: Oracle, c: Cli, s: Srv, queue: nat, mem: nat, origin: seq<nat>, region: seq<nat>,
                          pitches: seq<nat>, blocking: bool, host: seq<byte>, wait: seq<nat>, want: bool)
    ensures var req := ImageRequest(WRITE_IMAGE, queue, mem, origin, region, pitches, blocking, wait, want);
      Conversation(o, c, s, WriteImage(queue, mem, origin, region, pitches, blocking, host, wait, want))
        == Converse(o, InCall(c, [WantSize(host), WrittenReply(want)]), s, [req] + WaitList(wait))
  {
  }

  lemma WriteImageRefines(o: Oracle, c: Cli, s: Srv, queue: nat, mem: nat, origin: seq<nat>, region: seq<nat>,
                          pitches: seq<nat>, blocking: bool, host: seq<byte>, wait: seq<nat>, want: bool)
    requires Rests(c, s)
    ensures var call := WriteImage(queue, mem, origin, region, pitches, blocking, host, wait, want);
      Conversation(o, c, s, call) == Predicted(o, c, s, call)
  {
    var call := WriteImage(queue, mem, origin, region, pitches, blocking, host, wait, want);
    var req := ImageRequest(WRITE_IMAGE, queue, mem, origin, region, pitches, blocking, wait, want);
    WriteConversation(o, c, s, queue, mem, origin, region, pitches, blocking, host, wait, want);
    RegionFields(WRITE_IMAGE, queue, mem, origin, region, pitches, blocking, wait, want);
    WriteImagePredicted(o, c, s, queue, mem, origin, region, pitches, blocking, host, wait, want);
    if Next(o, s).err != 0 {
      UnmeasuredImage(o, c, s, [WantSize(host), WrittenReply(want)], req, mem, wait);
    } else {
      MeasuredWrite(o, c, s, req, queue, mem, origin, region, pitches, blocking, host, wait, want);
    }
  }
}
