/**
  Event callbacks. The client keeps its callbacks in a table and tells the server only their index;
  when the driver fires, the server sends the index and the status over a second stream, on which a
  thread of the client waits.
 */
module Callbacks {
  import opened Options
  import opened Bytes
  import opened Codec
  import opened Packets
  import opened PacketStreams
  import opened Tables

  /** An `EventCallback`: the event, the function to call and its argument. */
  datatype Callback = Callback(event: nat, notify: nat, userData: nat)

  /** The driver fires the callback with this registration number, with this status. */
  datatype Trigger = Trigger(registration: nat, code: int)

  /** An invocation of a callback on the client. */
  datatype Call = Call(callback: Callback, code: int)

  /** Conversion to the 16-bit type of IDs. */
  function Id(n: int): (r: nat)
    ensures r < ID_RANGE && (0 <= n ==> r <= n) && (r == n <==> 0 <= n < ID_RANGE)
  {
    n % ID_RANGE
  }

  function TriggerPacket(registration: nat): Packet { Packet(TRIGGER_FORMAT, N(Id(registration))) }
  function StatusPacket(code: int): Packet { Packet(EVENT_TRIGGER_FORMAT, N(Id(code))) }

  /** The bytes on the event stream for these triggers. */
  function TriggerBytes(z: Framing, ts: seq<Trigger>): seq<byte> {
    if ts == [] then [] else
    Encode(z, TriggerPacket(ts[0].registration)) + Encode(z, StatusPacket(ts[0].code)) + TriggerBytes(z, ts[1..])
  }

  /** The call that the client makes for a trigger. */
  function CallFor(callbacks: seq<Callback>, t: Trigger): Call
    requires t.registration < |callbacks|
  {
    Call(callbacks[Id(t.registration)], Id(t.code))
  }

  /** It is the registered callback with its status exactly for the first 65536 and for 16-bit codes. */
  lemma CallIsExact(callbacks: seq<Callback>, t: Trigger)
    requires t.registration < |callbacks|
    requires forall i, j :: 0 <= i < j < |callbacks| ==> callbacks[i] != callbacks[j]
    ensures CallFor(callbacks, t) == Call(callbacks[t.registration], t.code)
      <==> t.registration < ID_RANGE && 0 <= t.code < ID_RANGE
  {
  }

  /** A status that reports an error is negative and arrives as a positive number. */
  lemma ErrorStatusIsDistorted(callbacks: seq<Callback>)
    requires callbacks != []
    ensures CallFor(callbacks, Trigger(0, -14)).code == 65522
  {
  }

  lemma PacketsFit(registration: nat, code: int)
    ensures WellFormed(TriggerPacket(registration)) && WellFormed(StatusPacket(code))
  {
    Ranges();
  }

  lemma {:induction false} TriggerBytesSnoc(z: Framing, ts: seq<Trigger>, t: Trigger)
    ensures TriggerBytes(z, ts + [t])
      == TriggerBytes(z, ts) + (Encode(z, TriggerPacket(t.registration)) + Encode(z, StatusPacket(t.code)))
  {
    if ts == [] {
      assert TriggerBytes(z, [t]) == Encode(z, TriggerPacket(t.registration)) + Encode(z, StatusPacket(t.code)) + [];
    } else {
      assert (ts + [t])[1..] == ts[1..] + [t];
      TriggerBytesSnoc(z, ts[1..], t);
    }
  }

  // ---- registrations and triggers, interleaved ----

  /** What the client's thread is doing: waiting, inside the callback whose index it has read, or gone. */
  datatype Stage = Idle | Inside(index: nat) | Ended

  /**
    `blocks` holds the registration numbers that the server knows, `wire` the bytes that are under way
    and `arrived` those that the client has not read yet.
   */
  datatype State = State(
    callbacks: seq<Callback>, blocks: seq<nat>, fired: seq<Trigger>, wire: seq<byte>, arrived: seq<byte>,
    stage: Stage, calls: seq<Call>)

  datatype Event =
    | Registers(callback: Callback)   // the client adds a callback, under the mutex of the table
    | Accepts(registration: nat)      // the server has received the request
    | Fires(block: nat, code: int)    // the driver calls back
    | Arrives(n: nat)
    | Reads                           // the client's thread

  /** The thread reads the index, after a look at the packet type. */
  ghost function ReadIndex(z: Framing, st: State): Option<State> {
    if st.arrived == [] then None
    else if st.arrived[0] != CALLBACK_TRIGGER then Some(st.(stage := Ended))   // an unexpected packet
    else
      match Receive(z, TRIGGER_FORMAT, st.arrived)
      case Received(p, rest) =>
        if ValNum(p.body) >= |st.callbacks| then Some(st.(arrived := rest))   // an invalid trigger, ignored
        else Some(st.(arrived := rest, stage := Inside(ValNum(p.body))))
      case _ => None
  }

  /** The callback reads its status and calls the application. */
  ghost function ReadStatus(z: Framing, st: State, i: nat): Option<State> {
    match Receive(z, EVENT_TRIGGER_FORMAT, st.arrived)
    case Received(p, rest) =>
      if p.format.tag == ERROR || i >= |st.callbacks| then Some(st.(stage := Ended))
      else Some(st.(arrived := rest, stage := Idle, calls := st.calls + [Call(st.callbacks[i], ValNum(p.body))]))
    case Waiting => None
    case _ => Some(st.(stage := Ended))
  }

  ghost function Read(z: Framing, st: State): Option<State> {
    match st.stage
    case Ended => None
    case Idle => ReadIndex(z, st)
    case Inside(i) => ReadStatus(z, st, i)
  }

  ghost function Next(z: Framing, st: State, e: Event): Option<State> {
    match e
    case Registers(c) => if st.stage.Inside? then None else Some(st.(callbacks := st.callbacks + [c]))
    case Accepts(k) => if k >= |st.callbacks| then None else Some(st.(blocks := st.blocks + [k]))
    case Fires(b, code) =>
      if b >= |st.blocks| then None else
      var t := Trigger(st.blocks[b], code);
      Some(st.(fired := st.fired + [t],
               wire := st.wire + (Encode(z, TriggerPacket(t.registration)) + Encode(z, StatusPacket(code)))))
    case Arrives(n) =>
      if n > |st.wire| then None else Some(st.(wire := st.wire[n..], arrived := st.arrived + st.wire[..n]))
    case Reads => Read(z, st)
  }

  const START := State([], [], [], [], [], Idle, [])

  ghost function Happen(z: Framing, es: seq<Event>): Option<State> {
    if es == [] then Some(START) else
    match Happen(z, es[..|es| - 1])
    case None => None
    case Some(st) => Next(z, st, es[|es| - 1])
  }

  /** The calls made so far answer the first triggers. */
  ghost predicate Answered(st: State) {
    && |st.calls| <= |st.fired|
    && (forall k :: 0 <= k < |st.blocks| ==> st.blocks[k] < |st.callbacks|)
    && (forall k :: 0 <= k < |st.fired| ==> st.fired[k].registration < |st.callbacks|)
    && (forall k :: 0 <= k < |st.calls| ==> st.calls[k] == CallFor(st.callbacks, st.fired[k]))
  }

  /** And the stream holds the others, packet by packet. */
  ghost predicate Carried(z: Framing, st: State)
    requires |st.calls| <= |st.fired|
  {
    var done := |st.calls|;
    match st.stage
    case Ended => false
    case Idle => st.arrived + st.wire == TriggerBytes(z, st.fired[done..])
    case Inside(i) =>
      && done < |st.fired| && i == Id(st.fired[done].registration)
      && st.arrived + st.wire == Encode(z, StatusPacket(st.fired[done].code)) + TriggerBytes(z, st.fired[done + 1..])
  }

  ghost predicate Aligned(z: Framing, st: State) { Answered(st) && Carried(z, st) }

  /** A packet at the head of the stream is read as soon as all of it has arrived. */
  lemma HeadIsRead(z: Framing, expected: Format, p: Packet, arrived: seq<byte>, wire: seq<byte>, tail: seq<byte>)
    requires Lossless(z) && WellFormed(p) && p.format == expected && p.format.tag != ERROR && p.format.tag != TERMINATE
    requires arrived + wire == Encode(z, p) + tail && arrived != []
    ensures arrived[0] == p.format.tag
    ensures Receive(z, expected, arrived) == Waiting
      || (Receive(z, expected, arrived).Received? && Receive(z, expected, arrived).packet == p
          && Receive(z, expected, arrived).rest + wire == tail)
    ensures wire == [] ==> Receive(z, expected, arrived).Received?
  {
    assert arrived[0] == (arrived + wire)[0];
    ReceiveEncoded(z, expected, p, tail);
    ReceiveMonotone(z, expected, arrived, wire);
    if wire == [] { assert arrived + wire == arrived; }
  }

  lemma TriggersSplit(z: Framing, ts: seq<Trigger>, k: nat)
    requires k < |ts|
    ensures TriggerBytes(z, ts[k..])
      == Encode(z, TriggerPacket(ts[k].registration))
        + (Encode(z, StatusPacket(ts[k].code)) + TriggerBytes(z, ts[k + 1..]))
  {
    assert ts[k..][1..] == ts[k + 1..];
  }

  /** What the waiting thread sees: nothing complete yet, or the index of the next trigger. */
  lemma IndexComes(z: Framing, st: State)
    requires Lossless(z) && |st.calls| < |st.fired| && Carried(z, st) && st.stage == Idle && st.arrived != []
    ensures st.arrived[0] == CALLBACK_TRIGGER
    ensures var t, r := st.fired[|st.calls|], Receive(z, TRIGGER_FORMAT, st.arrived);
      && (st.wire == [] ==> r.Received?)
      && (r == Waiting || (r.Received? && ValNum(r.packet.body) == Id(t.registration)
          && r.rest + st.wire == Encode(z, StatusPacket(t.code)) + TriggerBytes(z, st.fired[|st.calls| + 1..])))
  {
    var t := st.fired[|st.calls|];
    PacketsFit(t.registration, t.code);
    TriggersSplit(z, st.fired, |st.calls|);
    HeadIsRead(z, TRIGGER_FORMAT, TriggerPacket(t.registration), st.arrived, st.wire,
               Encode(z, StatusPacket(t.code)) + TriggerBytes(z, st.fired[|st.calls| + 1..]));
  }

  /** What a callback sees that has been entered. */
  lemma StatusComes(z: Framing, st: State)
    requires Lossless(z) && |st.calls| < |st.fired| && Carried(z, st) && st.stage.Inside?
    ensures var t, r := st.fired[|st.calls|], Receive(z, EVENT_TRIGGER_FORMAT, st.arrived);
      && (st.wire == [] ==> r.Received?)
      && (r == Waiting || (r.Received? && r.packet == StatusPacket(t.code)
          && r.rest + st.wire == TriggerBytes(z, st.fired[|st.calls| + 1..])))
  {
    var t := st.fired[|st.calls|];
    PacketsFit(t.registration, t.code);
    if st.arrived != [] {
      HeadIsRead(z, EVENT_TRIGGER_FORMAT, StatusPacket(t.code), st.arrived, st.wire,
                 TriggerBytes(z, st.fired[|st.calls| + 1..]));
    }
  }

  lemma SomethingFired(z: Framing, st: State)
    requires |st.calls| <= |st.fired| && Carried(z, st) && st.stage == Idle && st.arrived != []
    ensures |st.calls| < |st.fired|
  {
    assert TriggerBytes(z, st.fired[|st.calls|..]) != [];
  }

  lemma EnteredAligned(z: Framing, st: State, rest: seq<byte>)
    requires Answered(st) && |st.calls| < |st.fired| && st.stage == Idle
    requires var t := st.fired[|st.calls|];
      rest + st.wire == Encode(z, StatusPacket(t.code)) + TriggerBytes(z, st.fired[|st.calls| + 1..])
    ensures Aligned(z, st.(arrived := rest, stage := Inside(Id(st.fired[|st.calls|].registration))))
  {
  }

  lemma ReadIndexAligned(z: Framing, st: State, st': State)
    requires Lossless(z) && Aligned(z, st) && st.stage == Idle && ReadIndex(z, st) == Some(st')
    ensures Aligned(z, st') && st'.stage.Inside? && st'.stage.index < |st.callbacks|
  {
    SomethingFired(z, st);
    IndexComes(z, st);
    var r := Receive(z, TRIGGER_FORMAT, st.arrived);
    assert r.Received?;
    EnteredAligned(z, st, r.rest);
  }

  lemma CalledAligned(z: Framing, st: State, rest: seq<byte>)
    requires Answered(st) && |st.calls| < |st.fired|
    requires rest + st.wire == TriggerBytes(z, st.fired[|st.calls| + 1..])
    ensures Aligned(z, st.(arrived := rest, stage := Idle,
                           calls := st.calls + [CallFor(st.callbacks, st.fired[|st.calls|])]))
  {
  }

  lemma ReadStatusAligned(z: Framing, st: State, i: nat, st': State)
    requires Lossless(z) && Aligned(z, st) && st.stage == Inside(i) && ReadStatus(z, st, i) == Some(st')
    ensures Aligned(z, st') && st'.stage == Idle && |st'.calls| == |st.calls| + 1
  {
    StatusComes(z, st);
    var r := Receive(z, EVENT_TRIGGER_FORMAT, st.arrived);
    assert r.Received?;
    CalledAligned(z, st, r.rest);
  }

  lemma FireCarried(z: Framing, st: State, t: Trigger, st': State)
    requires |st.calls| <= |st.fired| && Carried(z, st)
    requires st' == st.(fired := st.fired + [t],
      wire := st.wire + (Encode(z, TriggerPacket(t.registration)) + Encode(z, StatusPacket(t.code))))
    ensures Carried(z, st')
  {
    var more := Encode(z, TriggerPacket(t.registration)) + Encode(z, StatusPacket(t.code));
    Regroup(st.arrived, st.wire, more);
    if st.stage == Idle {
      FiredBehind(z, st.fired, t, |st.calls|, []);
    } else {
      FiredBehind(z, st.fired, t, |st.calls| + 1, Encode(z, StatusPacket(st.fired[|st.calls|].code)));
    }
  }

  lemma FiredBehind(z: Framing, fired: seq<Trigger>, t: Trigger, from: nat, head: seq<byte>)
    requires from <= |fired|
    ensures var more := Encode(z, TriggerPacket(t.registration)) + Encode(z, StatusPacket(t.code));
      head + TriggerBytes(z, fired[from..]) + more == head + TriggerBytes(z, (fired + [t])[from..])
      && (head == [] ==> TriggerBytes(z, fired[from..]) + more == TriggerBytes(z, (fired + [t])[from..]))
  {
    var more := Encode(z, TriggerPacket(t.registration)) + Encode(z, StatusPacket(t.code));
    TriggerBytesSnoc(z, fired[from..], t);
    assert (fired + [t])[from..] == fired[from..] + [t];
    Regroup(head, TriggerBytes(z, fired[from..]), more);
  }

  lemma RegisterAligned(z: Framing, st: State, c: Callback, st': State)
    requires Aligned(z, st) && Next(z, st, Registers(c)) == Some(st')
    ensures Aligned(z, st')
  {
  }

  lemma ArriveAligned(z: Framing, st: State, n: nat, st': State)
    requires Aligned(z, st) && Next(z, st, Arrives(n)) == Some(st')
    ensures Aligned(z, st')
  {
    MoveOn(st.arrived, st.wire, n);
  }

  lemma FireAligned(z: Framing, st: State, b: nat, code: int, st': State)
    requires Aligned(z, st) && Next(z, st, Fires(b, code)) == Some(st')
    ensures Aligned(z, st')
  {
    FireCarried(z, st, Trigger(st.blocks[b], code), st');
  }

  lemma OneMoreEvent(z: Framing, st: State, e: Event, st': State)
    requires Lossless(z) && Aligned(z, st) && Next(z, st, e) == Some(st')
    ensures Aligned(z, st')
  {
    match e
    case Registers(c) => RegisterAligned(z, st, c, st');
    case Accepts(k) =>
    case Fires(b, code) => FireAligned(z, st, b, code, st');
    case Arrives(n) => ArriveAligned(z, st, n, st');
    case Reads =>
      if st.stage == Idle { ReadIndexAligned(z, st, st'); } else { ReadStatusAligned(z, st, st.stage.index, st'); }
  }

  /**
    Under any interleaving of registrations, triggers and deliveries the event stream stays aligned:
    the client's thread never meets a packet it does not expect and never an invalid index, and it
    makes one call per trigger, in the order of the triggers.
   */
  lemma {:induction false} EventStreamStaysAligned(z: Framing, es: seq<Event>, st: State)
    requires Lossless(z) && Happen(z, es) == Some(st)
    ensures Aligned(z, st)
    decreases |es|
  {
    if es != [] {
      var n := |es| - 1;
      var before := Happen(z, es[..n]).value;
      EventStreamStaysAligned(z, es[..n], before);
      OneMoreEvent(z, before, es[n], st);
    }
  }

  /** The branch for an invalid trigger is never taken: every read of an index enters the callback. */
  lemma NoInvalidTrigger(z: Framing, es: seq<Event>, st: State, st': State)
    requires Lossless(z) && Happen(z, es) == Some(st) && Next(z, st, Reads) == Some(st')
    ensures st.stage == Idle ==> st'.stage.Inside? && st'.stage.index < |st.callbacks|
    ensures st.stage.Inside? ==> st'.stage == Idle && |st'.calls| == |st.calls| + 1
  {
    EventStreamStaysAligned(z, es, st);
    if st.stage == Idle { ReadIndexAligned(z, st, st'); } else { ReadStatusAligned(z, st, st.stage.index, st'); }
  }

  /**
    Dispatch. With at most 65536 registrations and status codes of 16 bits, the calls made so far are
    the first triggers, in order: each calls the callback registered under its number, with its status.
   */
  lemma CallbacksInTriggerOrder(z: Framing, es: seq<Event>, st: State, k: nat)
    requires Lossless(z) && Happen(z, es) == Some(st) && k < |st.calls|
    requires |st.callbacks| <= ID_RANGE
    ensures k < |st.fired| && st.fired[k].registration < |st.callbacks|
    ensures 0 <= st.fired[k].code < ID_RANGE ==>
      st.calls[k] == Call(st.callbacks[st.fired[k].registration], st.fired[k].code)
  {
    EventStreamStaysAligned(z, es, st);
    assert st.calls[k] == CallFor(st.callbacks, st.fired[k]);
  }

  /** Once everything has arrived and the thread waits, every trigger has been answered. */
  lemma NoTriggerIsLost(z: Framing, es: seq<Event>, st: State)
    requires Lossless(z) && Happen(z, es) == Some(st) && st.wire == [] && Next(z, st, Reads) == None
    ensures |st.calls| == |st.fired|
  {
    EventStreamStaysAligned(z, es, st);
    if |st.calls| < |st.fired| {
      if st.stage.Inside? {
        StatusComes(z, st);
      } else {
        IndexMustCome(z, st);
      }
    }
  }

  lemma TriggersNotEmpty(z: Framing, ts: seq<Trigger>)
    requires ts != []
    ensures TriggerBytes(z, ts) != []
  {
    assert Encode(z, TriggerPacket(ts[0].registration)) != [];
  }

  lemma IndexMustCome(z: Framing, st: State)
    requires Lossless(z) && |st.calls| < |st.fired| && Carried(z, st) && st.stage == Idle && st.wire == []
    ensures ReadIndex(z, st).Some?
  {
    TriggersNotEmpty(z, st.fired[|st.calls|..]);
    assert st.arrived + st.wire == st.arrived;
    IndexComes(z, st);
  }

  // ---- the server's function and the client's loop ----

  /** The server's end, called by the driver under the mutex of the event stream. */
  method TriggerEventCallback(events: PacketStream, code: int, callback: nat)
    requires events.stream.Valid()
    modifies events.stream`writeOffset, events.stream.writeBuffer, events.stream.socket`sent
    ensures events.stream.Valid() && events.stream.socket.sent == events.stream.Written()
    ensures events.stream.Written()
      == old(events.stream.Written()) + TriggerBytes(events.framing, [Trigger(callback, code)])
  {
    PacketsFit(callback, code);
    ghost var before := events.stream.Written();
    events.Write(TriggerPacket(callback));
    events.Write(StatusPacket(code));
    events.stream.Flush();
    TriggersSplit(events.framing, [Trigger(callback, code)], 0);
    assert [Trigger(callback, code)][0..] == [Trigger(callback, code)];
    assert TriggerBytes(events.framing, [Trigger(callback, code)][1..]) == [];
    assert before + Encode(events.framing, TriggerPacket(callback)) + Encode(events.framing, StatusPacket(code))
      == before + (Encode(events.framing, TriggerPacket(callback)) + (Encode(events.framing, StatusPacket(code)) + []));
  }

  ghost predicate AllRegistered(callbacks: seq<Callback>, ts: seq<Trigger>) {
    forall k :: 0 <= k < |ts| ==> ts[k].registration < |callbacks|
  }

  /** One call for each trigger, in order. */
  ghost function CallsFor(callbacks: seq<Callback>, ts: seq<Trigger>): seq<Call>
    requires AllRegistered(callbacks, ts)
  {
    if ts == [] then [] else [CallFor(callbacks, ts[0])] + CallsFor(callbacks, ts[1..])
  }

  lemma IndexReceived(z: Framing, registration: nat, rest: seq<byte>)
    requires Lossless(z)
    ensures var bs := Encode(z, TriggerPacket(registration)) + rest;
      bs != [] && bs[0] == CALLBACK_TRIGGER && Receive(z, TRIGGER_FORMAT, bs)
        == Received(TriggerPacket(registration), rest)
  {
    PacketsFit(registration, 0);
    ReceiveEncoded(z, TRIGGER_FORMAT, TriggerPacket(registration), rest);
  }

  lemma StatusReceived(z: Framing, code: int, rest: seq<byte>)
    requires Lossless(z)
    ensures Receive(z, EVENT_TRIGGER_FORMAT, Encode(z, StatusPacket(code)) + rest) == Received(StatusPacket(code), rest)
  {
    PacketsFit(0, code);
    ReceiveEncoded(z, EVENT_TRIGGER_FORMAT, StatusPacket(code), rest);
  }

  lemma TwoReads(z: Framing, ts: seq<Trigger>)
    requires Lossless(z) && ts != []
    ensures var bs, rest := TriggerBytes(z, ts), Encode(z, StatusPacket(ts[0].code)) + TriggerBytes(z, ts[1..]);
      && bs != [] && bs[0] == CALLBACK_TRIGGER
      && Receive(z, TRIGGER_FORMAT, bs) == Received(TriggerPacket(ts[0].registration), rest)
      && Receive(z, EVENT_TRIGGER_FORMAT, rest) == Received(StatusPacket(ts[0].code), TriggerBytes(z, ts[1..]))
  {
    TriggersSplit(z, ts, 0);
    assert ts[0..] == ts;
    IndexReceived(z, ts[0].registration, Encode(z, StatusPacket(ts[0].code)) + TriggerBytes(z, ts[1..]));
    StatusReceived(z, ts[0].code, TriggerBytes(z, ts[1..]));
  }

  /** One round of the client's thread: false when it is to end. */
  method HandleCallbacks(events: PacketStream, callbacks: seq<Callback>, ghost ts: seq<Trigger>)
      returns (more: bool, call: Option<Call>)
    requires events.stream.Valid() && Lossless(events.framing)
    requires events.stream.Pending() == TriggerBytes(events.framing, ts)
    requires AllRegistered(callbacks, ts)
    modifies events.stream`readOffset, events.stream`available, events.stream.readBuffer, events.stream.socket`incoming
    ensures events.stream.Valid() && more == (ts != [])
    ensures more ==> call == Some(CallFor(callbacks, ts[0]))
    ensures more ==> events.stream.Pending() == TriggerBytes(events.framing, ts[1..])
  {
    var tag := events.NextPacketType();
    if ts != [] {
      TwoReads(events.framing, ts);
    }
    if tag != CALLBACK_TRIGGER {
      return false, None;
    }
    var r := events.Read(TRIGGER_FORMAT);
    if !r.Got? {
      return false, None;
    }
    var index := ValNum(r.packet.body);
    if index >= |callbacks| {
      return true, None;
    }
    var status := events.Read(EVENT_TRIGGER_FORMAT);
    if !status.Got? {
      return false, None;
    }
    return true, Some(Call(callbacks[index], ValNum(status.packet.body)));
  }

  lemma CallsStep(callbacks: seq<Callback>, ts: seq<Trigger>, calls: seq<Call>)
    requires AllRegistered(callbacks, ts) && ts != []
    ensures calls + CallsFor(callbacks, ts) == calls + [CallFor(callbacks, ts[0])] + CallsFor(callbacks, ts[1..])
  {
  }

  /** The client's thread, on an event stream that carries these triggers and then ends. */
  method CallbackThreadMain(events: PacketStream, callbacks: seq<Callback>, ghost ts: seq<Trigger>)
      returns (calls: seq<Call>)
    requires events.stream.Valid() && Lossless(events.framing)
    requires events.stream.Pending() == TriggerBytes(events.framing, ts)
    requires AllRegistered(callbacks, ts)
    modifies events.stream`readOffset, events.stream`available, events.stream.readBuffer, events.stream.socket`incoming
    ensures calls == CallsFor(callbacks, ts)
  {
    calls := [];
    ghost var left := ts;
    var more, call := HandleCallbacks(events, callbacks, left);
    while more
      invariant events.stream.Valid() && AllRegistered(callbacks, left) && more == (left != [])
      invariant more ==> call == Some(CallFor(callbacks, left[0]))
      invariant more ==> events.stream.Pending() == TriggerBytes(events.framing, left[1..])
      invariant calls + CallsFor(callbacks, left) == CallsFor(callbacks, ts)
      decreases |left|
    {
      CallsStep(callbacks, left, calls);
      calls, left := calls + [call.value], left[1..];
      more, call := HandleCallbacks(events, callbacks, left);
    }
  }
}
