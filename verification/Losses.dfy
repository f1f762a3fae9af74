/**
  Calls that lose the session: for each path that does not keep the protocol, arguments and driver
  answers with which it happens, and what becomes of the next call.
 */
module Losses {
  import opened Options
  import opened Bytes
  import opened Codec
  import opened Packets
  import opened Lockstep
  import opened Wire
  import opened Tables
  import opened Protocol
  import opened Dialogues
  import opened Effects
  import opened Refinement
  import opened Sessions

  const FRESH_CLIENT := Cli([], NOTHING, Slots([], 0), [])
  const FRESH_SERVER := Srv(Ready, [], [])

  /** A driver that answers every call in the same way. */
  function Always(err: word, num: nat): Oracle { (n: nat) => Answer(err, 1, 1, [], num, []) }

  ghost predicate LosesSession(o: Oracle, call: Call) {
    Valid(call) && End(TheEnds(o), Begin(TheEnds(o), Still(FRESH_CLIENT, FRESH_SERVER), call)) == None
  }

  lemma LostUnlessKept(o: Oracle, call: Call)
    requires Valid(call) && !Keeps(o, FRESH_SERVER, call)
    ensures LosesSession(o, call)
  {
    CallRefines(o, FRESH_CLIENT, FRESH_SERVER, call);
  }

  lemma NumsFit(widths: seq<nat>, ns: seq<nat>)
    requires |widths| == |ns| && forall i :: 0 <= i < |ns| ==> ns[i] < Range(widths[i])
    ensures Fits(Nums(widths), Numbers(ns))
  {
  }

  /** A callback that the driver refuses to register: the handler replies Error and then Success. */
  lemma RefusedCallback()
    ensures LosesSession(Always(58, 0), SetEventCallback(0, 0, 0))
  {
    NumsFit([2, 2, 4], [0, 0, 0]);
    LostUnlessKept(Always(58, 0), SetEventCallback(0, 0, 0));
  }

  /**
    The second reply to a refused registration is taken for the reply to the next call. If that call
    awaits an object the assertion on the packet type fails.
   */
  lemma StaleSuccessIsMisread(z: Framing, rest: seq<byte>)
    ensures Receive(z, ID_FORMAT, Encode(z, SuccessPacket()) + rest) == Mistyped(SUCCESS)
  {
    assert (Encode(z, SuccessPacket()) + rest)[0] == SUCCESS;
  }

  /** If it awaits no more than success, its failure is reported as success, and it leaves a reply behind in turn. */
  lemma StaleSuccessIsBelieved(c: Cli, code: word)
    requires c.wants == []
    ensures Hear(InCall(c, Wants(RefCount(true, 77, 0))), [SuccessPacket()] + [ErrorPacket(code)])
      == Heard(c.Return(NOTHING), [], false, [ErrorPacket(code)])
  {
    var c1 := InCall(c, [WantSuccess]);
    assert ([SuccessPacket()] + [ErrorPacket(code)])[1..] == [ErrorPacket(code)];
    assert ClientTakes(c1, SuccessPacket()) == Some(Reaction([], false, c1.Return(NOTHING)));
  }

  /** A request for one pixel, with one event to wait for. */
  function PixelRequest(tag: byte): Packet { ImageRequest(tag, 0, 0, [0, 0, 0], [1, 1, 1], [0, 0], true, [0], false) }

  lemma PixelRequestFits(tag: byte)
    requires tag == READ_IMAGE || tag == WRITE_IMAGE
    ensures AllWellFormed([PixelRequest(tag)] + WaitList([0]))
  {
    Ranges();
    var ns := [0, 0, 0, 0, 0, 1, 1, 1, 0, 0, 0, 1, 1];
    NumsFit([2, 2, 4, 4, 4, 4, 4, 4, 4, 4, 1, 1, 1], ns);
    assert PixelRequest(tag).body == Numbers(ns);
    ListFits([0]);
  }

  /** An image whose element size is unknown: the error overtakes the event list, which stays unread. */
  lemma UnreadEventListOfRead()
    ensures LosesSession(Always(38, 0), ReadImage(0, 0, [0, 0, 0], [1, 1, 1], [0, 0], true, [0], false))
  {
    PixelRequestFits(READ_IMAGE);
    LostUnlessKept(Always(38, 0), ReadImage(0, 0, [0, 0, 0], [1, 1, 1], [0, 0], true, [0], false));
  }

  lemma UnreadEventListOfWrite()
    ensures LosesSession(Always(38, 0), WriteImage(0, 0, [0, 0, 0], [1, 1, 1], [0, 0], true, [], [0], false))
  {
    PixelRequestFits(WRITE_IMAGE);
    LostUnlessKept(Always(38, 0), WriteImage(0, 0, [0, 0, 0], [1, 1, 1], [0, 0], true, [], [0], false));
  }

  /** A value of four bytes for a kernel argument that the driver takes for a memory object. */
  lemma WrongArgumentSize()
    ensures LosesSession(Always(0, CL_KERNEL_ARG_ADDRESS_GLOBAL), SetKernelArg(0, 0, KernelArg(4, [1, 2, 3, 4], 0)))
  {
    Ranges();
    LostUnlessKept(Always(0, CL_KERNEL_ARG_ADDRESS_GLOBAL), SetKernelArg(0, 0, KernelArg(4, [1, 2, 3, 4], 0)));
  }
}
