/**
  Whole sessions. Any number of calls, performed over the connection, have the effect of the same
  calls performed one after the other where the driver is; and the session stays in lockstep exactly
  as long as every call `Keeps` it.
 */
module Sessions {
  import opened Options
  import opened Bytes
  import opened Codec
  import opened Packets
  import opened Lockstep
  import opened Wire
  import opened Breakdowns
  import opened Protocol
  import opened Dialogues
  import opened Effects
  import opened Refinement
  import opened RefineCommands
  import opened RefineImages

  // ---- one call ----

  lemma ConversationIsPredicted(o: Oracle, c: Cli, s: Srv, call: Call)
    requires Rests(c, s) && Valid(call)
    ensures Conversation(o, c, s, call) == Predicted(o, c, s, call)
  {
    match call
    case GetPlatformIds => GetPlatformIdsRefines(o, c, s);
    case CreateContext(properties, devices) => CreateContextRefines(o, c, s, properties, devices);
    case CreateKernel(program, name) => CreateKernelRefines(o, c, s, program, name);
    case CreateUserEvent(context) => CreateUserEventRefines(o, c, s, context);
    case CreateBuffer(context, flags, size, host) => CreateBufferRefines(o, c, s, context, flags, size, host);
    case RefCount(retain, objTy, id) => RefCountRefines(o, c, s, retain, objTy, id);
    case MemObjectInfo(mem, param) =>
      if IsObjectParam(param) { MemObjectRefines(o, c, s, mem, param); } else { MemDataRefines(o, c, s, mem, param); }
    case ReadBuffer(queue, mem, offset, size, blocking, wait, want) =>
      ReadBufferRefines(o, c, s, queue, mem, offset, size, blocking, wait, want);
    case WriteBuffer(queue, mem, offset, data, blocking, wait, want) =>
      WriteBufferRefines(o, c, s, queue, mem, offset, data, blocking, wait, want);
    case FillBuffer(queue, mem, offset, size, pattern, wait, want) =>
      FillBufferRefines(o, c, s, queue, mem, offset, size, pattern, wait, want);
    case EnqueueKernel(queue, kernel, dim, global, globalOffset, local, wait, want) =>
      EnqueueKernelRefines(o, c, s, queue, kernel, dim, global, globalOffset, local, wait, want);
    case WaitForEvents(wait) => WaitForEventsRefines(o, c, s, wait);
    case CreateImage(context, flags, desc, host) => CreateImageRefines(o, c, s, context, flags, desc, host);
    case ReadImage(queue, mem, origin, region, pitches, blocking, wait, want) =>
      ReadImageRefines(o, c, s, queue, mem, origin, region, pitches, blocking, wait, want);
    case WriteImage(queue, mem, origin, region, pitches, blocking, host, wait, want) =>
      WriteImageRefines(o, c, s, queue, mem, origin, region, pitches, blocking, host, wait, want);
    case SetKernelArg(kernel, index, arg) => SetKernelArgRefines(o, c, s, kernel, index, arg);
    case CreateKernels(program, count) =>
      if Word(count) == 0 { CountKernelsRefines(o, c, s, program, count); }
      else { CreateKernelsRefines(o, c, s, program, count); }
    case CreateProgram(context, devices, binaries) =>
      DevicesFit(context, devices, binaries);
      CreateProgramRefines(o, c, s, context, devices, binaries);
    case BuildProgram(program, options, devices) => BuildProgramRefines(o, c, s, program, options, devices);
    case SetEventCallback(event, callback, kind) =>
      if Next(o, s).err == 0 { AcceptedCallbackRefines(o, c, s, event, callback, kind); }
      else { RefusedCallbackLoses(o, c, s, event, callback, kind); }
  }

  lemma DevicesFit(context: nat, devices: seq<nat>, binaries: seq<seq<byte>>)
    requires AllWellFormed(Request(CreateProgram(context, devices, binaries)))
    ensures |devices| < 0x100
  {
    Ranges();
    assert WellFormed(Request(CreateProgram(context, devices, binaries))[1]);
  }

  /** So the large steps leave no valid call undecided. */
  lemma ConversationIsDecided(o: Oracle, c: Cli, s: Srv, call: Call)
    requires Rests(c, s) && Valid(call)
    ensures Conversation(o, c, s, call) != Open
    ensures Conversation(o, c, s, call) == Loses <==> !Keeps(o, s, call)
  {
    ConversationIsPredicted(o, c, s, call);
  }

  /**
    A call that begins when nothing is in flight ends with nothing in flight, its reply and every
    object and driver call as in `Effect`, if and only if `Keeps` holds.
   */
  lemma CallRefines(o: Oracle, c: Cli, s: Srv, call: Call)
    requires Rests(c, s) && Valid(call)
    ensures var e, w := TheEnds(o), Effect(o, c, s, call);
      End(e, Begin(e, Still(c, s), call)) == if Keeps(o, s, call) then Some(Still(w.cli, w.srv)) else None
  {
    ConversationIsPredicted(o, c, s, call);
    ConversationDecides(o, c, s, call);
  }

  lemma EffectRests(o: Oracle, c: Cli, s: Srv, call: Call)
    requires Rests(c, s)
    ensures var w := Effect(o, c, s, call); Rests(w.cli, w.srv)
  {
  }

  // ---- many calls ----

  ghost function Fold<W, I>(f: (W, I) -> W, w: W, xs: seq<I>): W {
    if xs == [] then w else f(Fold(f, w, xs[..|xs| - 1]), xs[|xs| - 1])
  }

  lemma {:induction false} FoldSplit<W, I>(f: (W, I) -> W, w: W, xs: seq<I>, i: nat)
    requires i <= |xs|
    ensures Fold(f, w, xs) == Fold(f, Fold(f, w, xs[..i]), xs[i..])
    decreases |xs|
  {
    if i == |xs| {
      assert xs[..i] == xs && xs[i..] == [];
    } else {
      var n := |xs| - 1;
      FoldSplit(f, w, xs[..n], i);
      assert xs[..n][..i] == xs[..i] && xs[i..][..n - i] == xs[..n][i..];
    }
  }

  /** Every step is taken in a state in which it is allowed. */
  ghost predicate AllHold<W, I>(f: (W, I) -> W, p: (W, I) -> bool, w: W, xs: seq<I>) {
    forall i :: 0 <= i < |xs| ==> p(Fold(f, w, xs[..i]), xs[i])
  }

  lemma AllHoldSnoc<W, I>(f: (W, I) -> W, p: (W, I) -> bool, w: W, xs: seq<I>)
    requires xs != []
    ensures var n := |xs| - 1;
      AllHold(f, p, w, xs) <==> AllHold(f, p, w, xs[..n]) && p(Fold(f, w, xs[..n]), xs[n])
  {
    var n := |xs| - 1;
    forall i | 0 <= i < n ensures p(Fold(f, w, xs[..n][..i]), xs[..n][i]) == p(Fold(f, w, xs[..i]), xs[i]) {
      assert xs[..n][..i] == xs[..i];
    }
  }

  ghost function Performs(o: Oracle): (World, Call) -> World {
    (w: World, call: Call) => Effect(o, w.cli, w.srv, call)
  }

  ghost function Keeping(o: Oracle): (World, Call) -> bool {
    (w: World, call: Call) => Keeps(o, w.srv, call)
  }

  /** The calls performed where the driver is, without any connection. */
  ghost function Local(o: Oracle, w: World, calls: seq<Call>): World {
    Fold(Performs(o), w, calls)
  }

  ghost predicate AllValid(calls: seq<Call>) {
    forall i :: 0 <= i < |calls| ==> Valid(calls[i])
  }

  /** Every call keeps the session in lockstep at the point where it is made. */
  ghost predicate AllKeep(o: Oracle, w: World, calls: seq<Call>) {
    AllHold(Performs(o), Keeping(o), w, calls)
  }

  /** Both ends rest, so that nothing is in progress. */
  ghost predicate Started(o: Oracle, w: World): (r: bool)
    ensures r ==> Quiet(TheEnds(o), Still(w.cli, w.srv))
  {
    Rests(w.cli, w.srv)
  }

  /** Each valid call, begun at rest, settles as `f` says if `p` holds, and loses the session if not. */
  ghost predicate SettlesAs(e: Ends<Packet, Cli, Srv, Call>, f: (World, Call) -> World, p: (World, Call) -> bool) {
    forall v: World, call: Call | Rests(v.cli, v.srv) && Valid(call) ::
      && Rests(f(v, call).cli, f(v, call).srv)
      && End(e, Begin(e, Still(v.cli, v.srv), call))
        == if p(v, call) then Some(Still(f(v, call).cli, f(v, call).srv)) else None
  }

  lemma TheEndsSettle(o: Oracle)
    ensures SettlesAs(TheEnds(o), Performs(o), Keeping(o))
  {
    forall v: World, call: Call | Rests(v.cli, v.srv) && Valid(call)
      ensures Rests(Performs(o)(v, call).cli, Performs(o)(v, call).srv)
      ensures End(TheEnds(o), Begin(TheEnds(o), Still(v.cli, v.srv), call))
        == if Keeping(o)(v, call) then Some(Still(Performs(o)(v, call).cli, Performs(o)(v, call).srv)) else None
    {
      CallRefines(o, v.cli, v.srv, call);
      EffectRests(o, v.cli, v.srv, call);
    }
  }

  lemma {:induction false} SerialIsFold(
      w: Wiring<Cli, Srv, Call>, f: (World, Call) -> World, p: (World, Call) -> bool, v: World, calls: seq<Call>)
    requires SettlesAs(w.ends, f, p) && Rests(v.cli, v.srv) && Quiet(w.ends, Still(v.cli, v.srv)) && AllValid(calls)
    requires forall c, call :: w.ends.begin(c, call).send == Request(call)
    ensures var u := Fold(f, v, calls);
      && Rests(u.cli, u.srv)
      && Serial(w, Still(v.cli, v.srv), calls) == if AllHold(f, p, v, calls) then Some(Still(u.cli, u.srv)) else None
    decreases |calls|
  {
    if calls != [] {
      var n := |calls| - 1;
      SerialIsFold(w, f, p, v, calls[..n]);
      AllHoldSnoc(f, p, v, calls);
      assert Valid(calls[n]);
    }
  }

  /** The calls over the connection, one at a time, against the calls where the driver is. */
  lemma SerialIsLocal(o: Oracle, z: Framing, w: World, calls: seq<Call>)
    requires Started(o, w) && AllValid(calls)
    ensures var v := Local(o, w, calls);
      Serial(TheWiring(o, z), Still(w.cli, w.srv), calls)
        == if AllKeep(o, w, calls) then Some(Still(v.cli, v.srv)) else None
  {
    TheEndsSettle(o);
    SerialIsFold(TheWiring(o, z), Performs(o), Keeping(o), w, calls);
  }

  /**
    The session. In every state of every run of the byte system, however the bytes are split and the
    ends are scheduled: whenever no call is in progress nothing is in flight, and the replies given
    so far, the objects on both sides and the driver's history are those of the same calls performed
    locally in the order in which they took the lock.
   */
  lemma SessionIsLocal(o: Oracle, z: Framing, w: World, ls: seq<Label<Call>>, b: Sys<Cli, Srv, Call>)
    requires Lossless(z) && Started(o, w)
    requires Exec(TheWiring(o, z), Fresh(w.cli, w.srv), ls) == Some(b)
    requires AllValid(b.log) && AllKeep(o, w, b.log) && AtBoundary(TheWiring(o, z), b)
    ensures !BytesInFlight(b)
    ensures b.client == Local(o, w, b.log).cli && b.server == Local(o, w, b.log).srv
  {
    WiringSound(o, z);
    SerialIsLocal(o, z, w, b.log);
    LockstepAtBoundaries(TheWiring(o, z), w.cli, w.srv, ls, b);
  }

  /** In every state: no wrong packet, and no end blocked with unflushed output. */
  lemma SessionMeetsAwaited(o: Oracle, z: Framing, w: World, ls: seq<Label<Call>>, b: Sys<Cli, Srv, Call>)
    requires Lossless(z) && Started(o, w)
    requires Exec(TheWiring(o, z), Fresh(w.cli, w.srv), ls) == Some(b)
    requires AllValid(b.log) && AllKeep(o, w, b.log)
    ensures ClientBlocks(TheWiring(o, z), b) ==> b.upBuffer == [] && ClientMeetsAwaited(TheWiring(o, z), b)
    ensures ServerBlocks(b) ==> b.downBuffer == [] && ServerMeetsAwaited(TheWiring(o, z), b)
  {
    WiringSound(o, z);
    SerialIsLocal(o, z, w, b.log);
    NeverMistyped(TheWiring(o, z), w.cli, w.srv, ls, b);
  }

  /** In every state one of the ends can move, unless no call is in progress and nothing is in flight. */
  lemma SessionNeverDeadlocks(o: Oracle, z: Framing, w: World, ls: seq<Label<Call>>, b: Sys<Cli, Srv, Call>)
      returns (l: Label<Call>)
    requires Lossless(z) && Started(o, w)
    requires Exec(TheWiring(o, z), Fresh(w.cli, w.srv), ls) == Some(b)
    requires AllValid(b.log) && AllKeep(o, w, b.log)
    ensures NothingLeft(TheWiring(o, z), b) || (!l.Begins? && !Spills(l) && Wire.Step(TheWiring(o, z), b, l).Some?)
  {
    WiringSound(o, z);
    SerialIsLocal(o, z, w, b.log);
    l := NoDeadlock(TheWiring(o, z), w.cli, w.srv, ls, b);
  }

  /** And such runs exist: any calls that keep the session can be performed to the end over the connection. */
  lemma SessionExists(o: Oracle, z: Framing, w: World, calls: seq<Call>)
      returns (ls: seq<Label<Call>>, b: Sys<Cli, Srv, Call>)
    requires Lossless(z) && Started(o, w) && AllValid(calls) && AllKeep(o, w, calls)
    ensures Exec(TheWiring(o, z), Fresh(w.cli, w.srv), ls) == Some(b)
    ensures b.log == calls && NothingLeft(TheWiring(o, z), b)
    ensures b.client == Local(o, w, calls).cli && b.server == Local(o, w, calls).srv
  {
    WiringSound(o, z);
    SerialIsLocal(o, z, w, calls);
    var x;
    ls, b, x := EverySessionRuns(TheWiring(o, z), w.cli, w.srv, calls);
    SessionIsLocal(o, z, w, ls, b);
  }

  /** After a fixed number of further steps, on whatever schedule, all calls begun so far have returned. */
  lemma SessionReturns(o: Oracle, z: Framing, w: World, ls: seq<Label<Call>>, b: Sys<Cli, Srv, Call>) returns (n: nat)
    requires Lossless(z) && Started(o, w)
    requires Exec(TheWiring(o, z), Fresh(w.cli, w.srv), ls) == Some(b)
    requires AllValid(b.log) && AllKeep(o, w, b.log)
    ensures forall more :: NoNewCalls(more) ==> ReturnsAfter(TheWiring(o, z), b, n, more)
  {
    WiringSound(o, z);
    SerialIsLocal(o, z, w, b.log);
    n := AllReturnTogether(TheWiring(o, z), w.cli, w.srv, ls, b);
  }

  // ---- calls that do not keep the session ----

  lemma ClientFlushes(c: Cli, p: Packet)
    requires ClientTakes(c, p).Some?
    ensures Flushes(ClientTakes(c, p).value) && |ClientTakes(c, p).value.next.wants| < |c.wants|
  {
  }

  lemma ServerFlushes(o: Oracle, s: Srv, p: Packet)
    requires ServerTakes(o, s, p).Some?
    ensures Flushes(ServerTakes(o, s, p).value)
  {
  }

  lemma TheEndsDisciplined(o: Oracle)
    ensures Disciplined(TheEnds(o))
  {
    forall c, p | ClientTakes(c, p).Some?
      ensures Flushes(ClientTakes(c, p).value) && |ClientTakes(c, p).value.next.wants| < |c.wants|
    {
      ClientFlushes(c, p);
    }
    forall s, p | ServerTakes(o, s, p).Some? ensures Flushes(ServerTakes(o, s, p).value) {
      ServerFlushes(o, s, p);
    }
  }

  /**
    `Keeps` is exact on the wire as well: valid calls have a run on bytes in which they break the
    session down if and only if one of them does not keep it.
   */
  lemma SessionBreaksDownIff(o: Oracle, z: Framing, w: World, calls: seq<Call>)
    requires Lossless(z) && Started(o, w) && AllValid(calls)
    ensures CanBreakDown(TheWiring(o, z), w.cli, w.srv, calls) <==> !AllKeep(o, w, calls)
  {
    WiringSound(o, z);
    TheEndsDisciplined(o);
    SerialIsLocal(o, z, w, calls);
    RequestsFit(o, z, calls);
    BreaksDownIff(TheWiring(o, z), w.cli, w.srv, calls);
  }

  lemma RequestsFit(o: Oracle, z: Framing, calls: seq<Call>)
    requires AllValid(calls)
    ensures forall c, k :: 0 <= k < |calls| ==> AllWellFormed(TheWiring(o, z).ends.begin(c, calls[k]).send)
  {
    forall c, k | 0 <= k < |calls| ensures AllWellFormed(TheWiring(o, z).ends.begin(c, calls[k]).send) {
      assert Valid(calls[k]);
    }
  }
}
