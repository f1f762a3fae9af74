/**
  The buffered byte stream over a socket.

  Two buffers of 1024 bytes sit over a socket that may deliver its bytes in pieces of any size.
  Large transfers bypass the buffers. Seen from outside, the stream is an unbounded queue of bytes in
  each direction: `Written()` is all that was ever written, `Pending()` all that is still to be read.
 */
module SocketStreams {
  import opened Bytes

  const BUFFER_SIZE: nat := 1024

  /**
    One end of a connection. `incoming` is everything that the peer has sent or will send and that has
    not been received yet; after that the connection is closed, in order or by an error (`reset`).
   */
  class Socket {
    var sent: seq<byte>
    var incoming: seq<byte>
    const reset: bool

    constructor (incoming: seq<byte>, reset: bool)
      ensures this.sent == [] && this.incoming == incoming && this.reset == reset
    {
      this.sent, this.incoming, this.reset := [], incoming, reset;
    }

    method Send(d: seq<byte>)
      modifies this`sent
      ensures sent == old(sent) + d
    {
      sent := sent + d;
    }

    /** At least one byte and at most `n`, unless the connection is closed. */
    method Receive(n: nat) returns (d: seq<byte>, ok: bool)
      requires n > 0
      modifies this`incoming
      ensures d + incoming == old(incoming) && |d| <= n
      ensures d == [] <==> old(incoming) == []
      ensures ok <==> old(incoming) != [] || !reset
    {
      if incoming == [] {
        return [], !reset;
      }
      var k: nat :| 1 <= k <= n && k <= |incoming|;
      d, ok := incoming[..k], true;
      incoming := incoming[k..];
    }
  }

  /** How a read ends: in the caller's memory, in an exception, or never. */
  datatype Outcome = Done | Failed | Spins

  /** Exactly `got` has been put into a memory, from `at` on. */
  ghost predicate Delivered(before: seq<byte>, now: seq<byte>, at: nat, got: seq<byte>) {
    && |now| == |before| && at + |got| <= |now|
    && now[..at + |got|] == before[..at] + got && now[at + |got|..] == before[at + |got|..]
  }

  lemma DeliverMore(m0: seq<byte>, m1: seq<byte>, m2: seq<byte>, at: nat, got: seq<byte>, more: seq<byte>,
                    pending: seq<byte>, pending': seq<byte>)
    requires Delivered(m0, m1, at, got) && Delivered(m1, m2, at + |got|, more) && more + pending' == pending
    ensures Delivered(m0, m2, at, got + more) && got + pending == got + more + pending'
  {
    assert m2[at + |got + more|..] == m1[at + |got|..][|more|..] == m0[at + |got|..][|more|..];
  }

  class SocketStream {
    const socket: Socket
    const writeBuffer: array<byte>
    var writeOffset: nat
    const readBuffer: array<byte>
    var readOffset: nat
    var available: nat

    ghost predicate Valid()
      reads this
    {
      && writeBuffer.Length == BUFFER_SIZE && readBuffer.Length == BUFFER_SIZE && writeBuffer != readBuffer
      && writeOffset < BUFFER_SIZE
      && readOffset + available <= BUFFER_SIZE
    }

    ghost function Written(): seq<byte>
      requires Valid()
      reads this, writeBuffer, socket
    {
      socket.sent + writeBuffer[..writeOffset]
    }

    ghost function Cached(): seq<byte>
      requires Valid()
      reads this, readBuffer
    {
      readBuffer[readOffset..readOffset + available]
    }

    ghost function Pending(): seq<byte>
      requires Valid()
      reads this, readBuffer, socket
    {
      Cached() + socket.incoming
    }

    constructor (socket: Socket)
      ensures Valid() && this.socket == socket && fresh(writeBuffer) && fresh(readBuffer)
      ensures writeOffset == 0 && available == 0
      ensures Written() == socket.sent && Pending() == socket.incoming
    {
      this.socket := socket;
      writeBuffer, writeOffset := new byte[BUFFER_SIZE](i => 0), 0;
      readBuffer, readOffset, available := new byte[BUFFER_SIZE](i => 0), 0, 0;
    }

    // ---- writing ----

    method FlushWriteBuffer()
      requires writeBuffer.Length == BUFFER_SIZE && 0 < writeOffset <= BUFFER_SIZE
      modifies this`writeOffset, socket`sent
      ensures writeOffset == 0 && socket.sent == old(socket.sent) + old(writeBuffer[..writeOffset])
    {
      socket.Send(writeBuffer[..writeOffset]);
      writeOffset := 0;
    }

    method Flush()
      requires Valid()
      modifies this`writeOffset, socket`sent
      ensures Valid() && writeOffset == 0
      ensures socket.sent == Written() == old(Written())
    {
      if writeOffset != 0 {
        FlushWriteBuffer();
      }
    }

    /**
      Appends `d` behind everything written before, whether it is buffered or sent directly, and
      leaves room in the buffer. The copy loop runs at most twice.
     */
    method Write(d: seq<byte>) returns (ghost rounds: nat)
      requires Valid()
      modifies this`writeOffset, writeBuffer, socket`sent
      ensures Valid() && Written() == old(Written()) + d
      ensures writeOffset == HeldAfter(old(writeOffset), Put(d))
      ensures rounds <= 2 && old(socket.sent) <= socket.sent
    {
      rounds := 0;
      if |d| >= BUFFER_SIZE {
        if writeOffset != 0 {
          FlushWriteBuffer();
        }
        socket.Send(d);
        return;
      }
      var i: nat, left: nat := 0, |d|;
      while left != 0
        invariant Valid() && i + left == |d|
        invariant Written() + d[i..] == old(Written()) + d
        invariant old(socket.sent) <= socket.sent
        invariant writeOffset ==
          if old(writeOffset) + i < BUFFER_SIZE then old(writeOffset) + i else old(writeOffset) + i - BUFFER_SIZE
        invariant rounds == 0 || (rounds == 1 && (left == 0 || writeOffset == 0)) || (rounds == 2 && left == 0)
      {
        var room := BUFFER_SIZE - writeOffset;
        var size := if room < left then room else left;
        Append(d[i..i + size]);
        assert d[i..] == d[i..i + size] + d[i + size..];
        i := i + size;
        left := left - size;
        rounds := rounds + 1;
      }
    }

    /** One round of the copy loop, with data that fits the buffer. */
    method Append(d: seq<byte>)
      requires Valid() && writeOffset + |d| <= BUFFER_SIZE
      modifies this`writeOffset, writeBuffer, socket`sent
      ensures Valid() && Written() == old(Written()) + d
      ensures writeOffset == if old(writeOffset) + |d| == BUFFER_SIZE then 0 else old(writeOffset) + |d|
      ensures old(socket.sent) <= socket.sent
    {
      forall k | 0 <= k < |d| {
        writeBuffer[writeOffset + k] := d[k];
      }
      assert writeBuffer[..writeOffset + |d|] == old(writeBuffer[..writeOffset]) + d;
      writeOffset := writeOffset + |d|;
      if writeOffset == BUFFER_SIZE {
        FlushWriteBuffer();
      }
    }

    // ---- reading ----

    method ReadMoreData() returns (ok: bool)
      requires Valid() && available == 0
      modifies this`readOffset, this`available, readBuffer, socket`incoming
      ensures Valid() && Pending() == old(Pending())
      ensures ok <==> old(Pending()) != [] || !socket.reset
      ensures available == 0 <==> old(Pending()) == []
    {
      readOffset := 0;
      var d;
      d, ok := socket.Receive(BUFFER_SIZE);
      forall k | 0 <= k < |d| {
        readBuffer[k] := d[k];
      }
      assert readBuffer[..|d|] == d;
      available := |d|;
    }

    /** The next byte, which stays unread; 255 (the char -1) when there is none. */
    method Peek() returns (b: byte)
      requires Valid()
      modifies this`readOffset, this`available, readBuffer, socket`incoming
      ensures Valid() && Pending() == old(Pending())
      ensures b == if Pending() == [] then 255 else Pending()[0]
    {
      if available == 0 {
        var ok := ReadMoreData();
        if !ok || available == 0 {
          return 255;
        }
      }
      b := readBuffer[readOffset];
      assert Cached()[0] == b;
    }

    /** Moves bytes from the buffer to the caller's memory. */
    method TakeCached(memory: array<byte>, at: nat, size: nat) returns (ghost d: seq<byte>)
      requires Valid() && size <= available && at + size <= memory.Length
      requires memory != readBuffer && memory != writeBuffer
      modifies this`readOffset, this`available, memory
      ensures Valid() && available == old(available) - size
      ensures |d| == size && d + Pending() == old(Pending())
      ensures Delivered(old(memory[..]), memory[..], at, d)
    {
      ghost var cached := Cached();
      d := cached[..size];
      forall k | 0 <= k < size {
        memory[at + k] := readBuffer[readOffset + k];
      }
      readOffset := readOffset + size;
      available := available - size;
      assert Cached() == cached[size..] && d + cached[size..] == cached;
    }

    /** Moves bytes from the socket to the caller's memory, past the buffer. */
    method ReceiveInto(memory: array<byte>, at: nat, count: nat) returns (size: nat, ok: bool, ghost d: seq<byte>)
      requires Valid() && available == 0 && 0 < count && at + count <= memory.Length
      requires memory != readBuffer && memory != writeBuffer
      modifies socket`incoming, memory
      ensures Valid() && size == |d| <= count && d + Pending() == old(Pending())
      ensures Delivered(old(memory[..]), memory[..], at, d)
      ensures size == 0 <==> old(Pending()) == []
      ensures ok <==> old(Pending()) != [] || !socket.reset
    {
      var bytes;
      bytes, ok := socket.Receive(count);
      size, d := |bytes|, bytes;
      forall k | 0 <= k < |bytes| {
        memory[at + k] := bytes[k];
      }
    }

    /**
      Delivers exactly the next `count` bytes, however the socket splits them, through the buffer or
      past it. When the connection ends before that, the read fails; but if 1024 bytes or more are
      still missing and the connection was closed in order, the direct path receives zero bytes again
      and again and the read never returns.
     */
    method Read(memory: array<byte>, at: nat, count: nat) returns (outcome: Outcome, ghost got: seq<byte>)
      requires Valid() && at + count <= memory.Length
      requires memory != readBuffer && memory != writeBuffer
      modifies this`readOffset, this`available, readBuffer, socket`incoming, memory
      ensures Valid()
      ensures outcome == Done <==> count <= |old(Pending())|
      ensures outcome == Spins <==> count >= |old(Pending())| + BUFFER_SIZE && !socket.reset
      ensures |got| == (if outcome == Done then count else |old(Pending())|) && got + Pending() == old(Pending())
      ensures Delivered(old(memory[..]), memory[..], at, got)
    {
      var s: nat, left: nat := at, count;
      got := [];
      while left != 0
        invariant Valid() && s == at + |got| && s + left == at + count
        invariant got + Pending() == old(Pending())
        invariant Delivered(old(memory[..]), memory[..], at, got)
        decreases left
      {
        ghost var m, p := memory[..], Pending();
        if available == 0 {
          if left >= BUFFER_SIZE {
            var size, ok, d := ReceiveInto(memory, s, left);
            DeliverMore(old(memory[..]), m, memory[..], at, got, d, p, Pending());
            got := got + d;
            if !ok {
              return Failed, got;
            }
            if size == 0 {
              return Spins, got;   // nothing has changed, and nothing ever will
            }
            s, left := s + size, left - size;
            continue;
          }
          var ok := ReadMoreData();
          if !ok || available == 0 {
            return Failed, got;
          }
        }
        var size := if left < available then left else available;
        var d := TakeCached(memory, s, size);
        DeliverMore(old(memory[..]), m, memory[..], at, got, d, p, Pending());
        s, left, got := s + size, left - size, got + d;
      }
      outcome := Done;
    }

    /** Reads into memory of the stream operators' own. */
    method Get(count: nat) returns (d: seq<byte>, outcome: Outcome)
      requires Valid()
      modifies this`readOffset, this`available, readBuffer, socket`incoming
      ensures Valid()
      ensures outcome == Done <==> count <= |old(Pending())|
      ensures outcome == Spins <==> count >= |old(Pending())| + BUFFER_SIZE && !socket.reset
      ensures outcome == Done ==> |d| == count && d + Pending() == old(Pending())
      ensures outcome != Done ==> d == [] && Pending() == []
    {
      var memory := new byte[count](i => 0);
      ghost var got;
      outcome, got := Read(memory, 0, count);
      d := if outcome == Done then memory[..] else [];
    }
  }

  // ---- two streams, end to end ----

  /** What the writing side does. */
  datatype Put = Put(data: seq<byte>) | Flush

  /** What the reading side does, and what it sees. */
  datatype Take = Take(count: nat) | Look

  datatype Seen = Taken(data: seq<byte>) | Looked(next: byte) | Broken | Stuck

  /** A plain queue: everything that was put in, in order. */
  function Queue(puts: seq<Put>): seq<byte> {
    if puts == [] then [] else
    (match puts[0] case Put(d) => d case Flush => []) + Queue(puts[1..])
  }

  /** A plain queue: what one sees when one takes from it. */
  function SeenOf(q: seq<byte>, reset: bool, t: Take): Seen {
    match t
    case Look => Looked(if q == [] then 255 else q[0])
    case Take(n) => if n <= |q| then Taken(q[..n]) else if n >= |q| + BUFFER_SIZE && !reset then Stuck else Broken
  }

  function LeftOf(q: seq<byte>, t: Take): seq<byte> {
    if t.Take? && t.count <= |q| then q[t.count..] else q
  }

  predicate Over(seen: Seen) { seen.Broken? || seen.Stuck? }

  function Dequeue(q: seq<byte>, reset: bool, takes: seq<Take>): seq<Seen> {
    if takes == [] then [] else
    var seen := SeenOf(q, reset, takes[0]);
    [seen] + if Over(seen) then [] else Dequeue(LeftOf(q, takes[0]), reset, takes[1..])
  }

  lemma QueueStep(puts: seq<Put>, i: nat)
    requires i < |puts|
    ensures Queue(puts[i..]) == (match puts[i] case Put(d) => d case Flush => []) + Queue(puts[i + 1..])
  {
    assert puts[i..][1..] == puts[i + 1..];
  }

  /** How many bytes the write buffer holds back after an operation, if it held `h` before. */
  function HeldAfter(h: nat, put: Put): (r: nat)
    requires h < BUFFER_SIZE
    ensures r < BUFFER_SIZE
  {
    match put
    case Flush => 0
    case Put(d) => if |d| >= BUFFER_SIZE then 0 else if h + |d| < BUFFER_SIZE then h + |d| else h + |d| - BUFFER_SIZE
  }

  function HeldFrom(h: nat, puts: seq<Put>): (r: nat)
    requires h < BUFFER_SIZE
    ensures r < BUFFER_SIZE && r <= h + |Queue(puts)|
    decreases puts
  {
    if puts == [] then h else HeldFrom(HeldAfter(h, puts[0]), puts[1..])
  }

  /** After a flush nothing is held back. */
  lemma {:induction false} FlushDeliversAll(h: nat, puts: seq<Put>)
    requires h < BUFFER_SIZE && puts != [] && puts[|puts| - 1] == Flush
    ensures HeldFrom(h, puts) == 0
    decreases puts
  {
    if |puts| > 1 {
      FlushDeliversAll(HeldAfter(h, puts[0]), puts[1..]);
    } else {
      assert puts[1..] == [];
    }
  }

  method PutAll(stream: SocketStream, puts: seq<Put>)
    requires stream.Valid()
    modifies stream`writeOffset, stream.writeBuffer, stream.socket`sent
    ensures stream.Valid() && stream.Written() == old(stream.Written()) + Queue(puts)
    ensures stream.writeOffset == HeldFrom(old(stream.writeOffset), puts)
  {
    var i: nat := 0;
    assert puts[0..] == puts;
    while i < |puts|
      invariant i <= |puts| && stream.Valid()
      invariant stream.Written() + Queue(puts[i..]) == old(stream.Written()) + Queue(puts)
      invariant HeldFrom(stream.writeOffset, puts[i..]) == HeldFrom(old(stream.writeOffset), puts)
    {
      QueueStep(puts, i);
      match puts[i] {
        case Put(d) => var _ := stream.Write(d);
        case Flush => stream.Flush();
      }
      i := i + 1;
    }
  }

  method TakeOne(stream: SocketStream, t: Take) returns (seen: Seen)
    requires stream.Valid()
    modifies stream`readOffset, stream`available, stream.readBuffer, stream.socket`incoming
    ensures stream.Valid() && seen == SeenOf(old(stream.Pending()), stream.socket.reset, t)
    ensures !Over(seen) ==> stream.Pending() == LeftOf(old(stream.Pending()), t)
  {
    match t {
      case Look =>
        var b := stream.Peek();
        seen := Looked(b);
      case Take(n) =>
        var d, outcome := stream.Get(n);
        seen := match outcome case Done => Taken(d) case Failed => Broken case Spins => Stuck;
        assert outcome == Done ==> old(stream.Pending())[..n] == d && old(stream.Pending())[n..] == stream.Pending();
    }
  }

  lemma DequeueStep(q: seq<byte>, reset: bool, takes: seq<Take>, i: nat, before: seq<Seen>)
    requires i < |takes|
    ensures var seen := SeenOf(q, reset, takes[i]);
      before + Dequeue(q, reset, takes[i..])
        == if Over(seen) then before + [seen] else before + [seen] + Dequeue(LeftOf(q, takes[i]), reset, takes[i + 1..])
  {
    assert takes[i..][1..] == takes[i + 1..];
  }

  method TakeAll(stream: SocketStream, takes: seq<Take>) returns (seen: seq<Seen>)
    requires stream.Valid()
    modifies stream`readOffset, stream`available, stream.readBuffer, stream.socket`incoming
    ensures stream.Valid() && seen == Dequeue(old(stream.Pending()), stream.socket.reset, takes)
  {
    seen := [];
    var i: nat := 0;
    assert takes[0..] == takes;
    ghost var all := Dequeue(stream.Pending(), stream.socket.reset, takes);
    assert [] + all == all;
    while i < |takes|
      invariant i <= |takes| && stream.Valid()
      invariant seen + Dequeue(stream.Pending(), stream.socket.reset, takes[i..]) == all
    {
      DequeueStep(stream.Pending(), stream.socket.reset, takes, i, seen);
      var one := TakeOne(stream, takes[i]);
      seen := seen + [one];
      if Over(one) {
        return;
      }
      i := i + 1;
    }
  }

  /**
    Whatever is written on one side, in pieces of any size and with flushes anywhere, and however the
    network splits it, what the other side reads and peeks at is what a plain queue would give it. Only
    what the write buffer still holds at the end is missing: less than 1024 bytes, and none after a flush.
   */
  method EndToEnd(puts: seq<Put>, takes: seq<Take>, reset: bool) returns (seen: seq<Seen>)
    ensures seen == Dequeue(Queue(puts)[..|Queue(puts)| - HeldFrom(0, puts)], reset, takes)
  {
    var here := new Socket([], reset);
    var writer := new SocketStream(here);
    PutAll(writer, puts);
    assert [] + Queue(puts) == Queue(puts);
    assert here.sent == writer.Written()[..|writer.Written()| - writer.writeOffset];
    var there := new Socket(here.sent, reset);
    var reader := new SocketStream(there);
    seen := TakeAll(reader, takes);
  }
}
