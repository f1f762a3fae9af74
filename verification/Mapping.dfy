/**
  Mapped buffers. The server is never told about a mapping: the client reads the buffer into memory of
  its own, keeps a list of such memories, and writes one back when it is unmapped. The buffer is
  retained for as long as it is mapped.
 */
module Mappings {
  import opened Options
  import opened Bytes
  import opened Packets
  import opened Protocol
  import opened Effects

  // OpenCL error codes and map flags.
  const CL_SUCCESS: int := 0
  const CL_INVALID_VALUE: int := -30
  const CL_INVALID_OPERATION: int := -59
  const CL_MAP_READ: nat := 1
  const CL_MAP_WRITE: nat := 2

  predicate MapsForReading(flags: nat) { flags / CL_MAP_READ % 2 == 1 }
  predicate MapsForWriting(flags: nat) { flags / CL_MAP_WRITE % 2 == 1 }

  lemma FlagsMean(flags: nat)
    requires flags < 4
    ensures MapsForReading(flags) <==> flags == 1 || flags == 3
    ensures MapsForWriting(flags) <==> flags == 2 || flags == 3
  {
  }

  // ---- the buffer on the server ----

  /** What a read of the buffer returns, offset and size having been converted to 32 bits. */
  function Fetched(bytes: seq<byte>, offset: nat, size: nat): Option<seq<byte>> {
    if Word(offset) + Word(size) <= |bytes| then Some(bytes[Word(offset)..Word(offset) + Word(size)]) else None
  }

  /** The buffer after a write, if it is within bounds. */
  function Stored(bytes: seq<byte>, offset: nat, data: seq<byte>): (r: Option<seq<byte>>)
    ensures r.Some? ==> |r.value| == |bytes|
  {
    var d := Clipped(4, data);
    if Word(offset) + |d| <= |bytes| then Some(bytes[..Word(offset)] + d + bytes[Word(offset) + |d|..]) else None
  }

  /** What a driver does to the bytes of a buffer when it executes a call. */
  function BufferAfter(bytes: seq<byte>, d: DriverCall): seq<byte> {
    if d.fn == WriteBufferFn && |d.numbers| == 3 && |d.blobs| == 1 && d.numbers[1] + |d.blobs[0]| <= |bytes|
    then bytes[..d.numbers[1]] + d.blobs[0] + bytes[d.numbers[1] + |d.blobs[0]|..]
    else bytes
  }

  /** `Fetched` is what the caller of a buffer read gets from such a driver. */
  lemma ReadBufferFetches(o: Oracle, c: Cli, s: Srv, queue: nat, mem: nat, offset: nat, size: nat, bytes: seq<byte>)
    requires Fetched(bytes, offset, size).Some? && Next(o, s).err == 0
    requires Next(o, s).data == bytes[Word(offset)..Word(offset) + Word(size)]
    ensures var w := Effect(o, c, s, ReadBuffer(queue, mem, offset, size, true, [], false));
      && |w.cli.out| == |c.out| + 1 && w.cli.out[|c.out|].code == 0
      && Some(w.cli.out[|c.out|].data) == Fetched(bytes, offset, size)
  {
    assert Resized(Next(o, s).data, Word(size)) == Next(o, s).data;
  }

  /** `Stored` is what a buffer write leaves behind. */
  lemma WriteBufferStores(o: Oracle, c: Cli, s: Srv, queue: nat, mem: nat, offset: nat, data: seq<byte>,
                          bytes: seq<byte>)
    requires Stored(bytes, offset, data).Some?
    ensures var log := Effect(o, c, s, WriteBuffer(queue, mem, offset, data, true, [], false)).srv.log;
      |log| == |s.log| + 1 && Some(BufferAfter(bytes, log[|s.log|])) == Stored(bytes, offset, data)
  {
  }

  /**
    The server's buffer, with its bytes and the references that mappings hold to it. A call may fail
    for any reason: `fault` is the error in that case, and 0 otherwise.
   */
  class Device {
    var bytes: seq<byte>
    var references: int

    constructor (bytes: seq<byte>)
      ensures this.bytes == bytes && references == 0
    {
      this.bytes, references := bytes, 0;
    }

    method ReadBuffer(offset: nat, size: nat, fault: int) returns (err: int, data: seq<byte>)
      ensures err == CL_SUCCESS <==> fault == 0 && Fetched(bytes, offset, size).Some?
      ensures err == CL_SUCCESS ==> Some(data) == Fetched(bytes, offset, size)
    {
      if fault != 0 {
        return fault, [];
      }
      match Fetched(bytes, offset, size) {
        case None => return CL_INVALID_VALUE, [];
        case Some(d) => return CL_SUCCESS, d;
      }
    }

    method WriteBuffer(offset: nat, data: seq<byte>, fault: int) returns (err: int)
      modifies this`bytes
      ensures err == CL_SUCCESS <==> fault == 0 && Stored(old(bytes), offset, data).Some?
      ensures err == CL_SUCCESS ==> Some(bytes) == Stored(old(bytes), offset, data)
      ensures err != CL_SUCCESS ==> bytes == old(bytes)
    {
      if fault != 0 {
        return fault;
      }
      match Stored(bytes, offset, data) {
        case None => return CL_INVALID_VALUE;
        case Some(after) =>
          bytes := after;
          return CL_SUCCESS;
      }
    }

    method Retain()
      modifies this`references
      ensures references == old(references) + 1
    {
      references := references + 1;
    }

    method Release()
      modifies this`references
      ensures references == old(references) - 1
    {
      references := references - 1;
    }
  }

  // ---- the memory object on the client ----

  datatype Mapping = Mapping(memory: array<byte>, size: nat, offset: nat, flags: nat)

  /** The first mapping at this address, or the length when there is none. */
  ghost function Place(mappings: seq<Mapping>, ptr: array<byte>): (i: nat)
    ensures i <= |mappings| && (i < |mappings| ==> mappings[i].memory == ptr)
    ensures forall j :: 0 <= j < i ==> mappings[j].memory != ptr
  {
    if mappings == [] || mappings[0].memory == ptr then 0 else
    var i := Place(mappings[1..], ptr);
    assert forall j :: 0 < j < 1 + i ==> mappings[j] == mappings[1..][j - 1];
    1 + i
  }

  lemma PlaceIs(mappings: seq<Mapping>, ptr: array<byte>, i: nat)
    requires i <= |mappings| && (i < |mappings| ==> mappings[i].memory == ptr)
    requires forall j :: 0 <= j < i ==> mappings[j].memory != ptr
    ensures Place(mappings, ptr) == i
  {
  }

  ghost predicate Mapped(mappings: seq<Mapping>, ptr: array<byte>) { Place(mappings, ptr) < |mappings| }

  ghost function Without(mappings: seq<Mapping>, i: nat): seq<Mapping>
    requires i < |mappings|
  {
    mappings[..i] + mappings[i + 1..]
  }

  class MemObject {
    var mappings: seq<Mapping>
    const device: Device

    constructor (device: Device)
      ensures mappings == [] && this.device == device
    {
      mappings := [];
      this.device := device;
    }

    ghost predicate Valid()
      reads this
    {
      forall i :: 0 <= i < |mappings| ==> mappings[i].memory.Length == mappings[i].size && mappings[i].flags < 4
    }

    method NewMapping(size: nat, offset: nat, flags: nat) returns (m: Mapping)
      requires Valid() && flags < 4
      modifies this`mappings
      ensures Valid() && fresh(m.memory) && m == Mapping(m.memory, size, offset, flags) && m.memory.Length == size
      ensures mappings == old(mappings) + [m]
    {
      var memory := new byte[size];
      m := Mapping(memory, size, offset, flags);
      mappings := mappings + [m];
    }

    method GetMapping(ptr: array<byte>) returns (m: Option<Mapping>)
      ensures m == if Mapped(mappings, ptr) then Some(mappings[Place(mappings, ptr)]) else None
    {
      var i: nat := 0;
      while i < |mappings|
        invariant i <= |mappings| && forall j :: 0 <= j < i ==> mappings[j].memory != ptr
      {
        if mappings[i].memory == ptr {
          PlaceIs(mappings, ptr, i);
          return Some(mappings[i]);
        }
        i := i + 1;
      }
      PlaceIs(mappings, ptr, i);
      m := None;
    }

    method DropMapping(ptr: array<byte>) returns (found: bool)
      requires Valid()
      modifies this`mappings
      ensures Valid() && found == Mapped(old(mappings), ptr)
      ensures mappings == if found then Without(old(mappings), Place(old(mappings), ptr)) else old(mappings)
    {
      var i: nat := 0;
      while i < |mappings|
        invariant i <= |mappings| && mappings == old(mappings)
        invariant forall j :: 0 <= j < i ==> mappings[j].memory != ptr
      {
        if mappings[i].memory == ptr {
          PlaceIs(mappings, ptr, i);
          mappings := mappings[..i] + mappings[i + 1..];
          return true;
        }
        i := i + 1;
      }
      PlaceIs(mappings, ptr, i);
      found := false;
    }

    /**
      Succeeds exactly when the flags are known (1 for reading, 2 for writing, 3 for both, 0 for neither)
      and the read, if the mapping is for reading, succeeds. A failure
      changes nothing; a success adds one mapping and one reference, and the memory holds what was read.
     */
    method MapBuffer(flags: nat, offset: nat, size: nat, fault: int) returns (err: int, ptr: array?<byte>)
      requires Valid()
      modifies this`mappings, device`references
      ensures Valid() && (err == CL_SUCCESS <==> ptr != null)
      ensures err == CL_SUCCESS <==>
        flags < 4 && (flags == 1 || flags == 3 ==> fault == 0 && Fetched(device.bytes, offset, size).Some?)
      ensures err != CL_SUCCESS ==> mappings == old(mappings) && device.references == old(device.references)
      ensures err == CL_SUCCESS ==>
        && fresh(ptr) && ptr.Length == size && mappings == old(mappings) + [Mapping(ptr, size, offset, flags)]
        && device.references == old(device.references) + 1
        && (flags == 1 || flags == 3 ==> ptr[..Word(size)] == Fetched(device.bytes, offset, size).value)
    {
      if flags >= 4 {
        return CL_INVALID_VALUE, null;
      }
      FlagsMean(flags);
      var m := NewMapping(size, offset, flags);
      if MapsForReading(flags) {
        var ret, data := device.ReadBuffer(offset, size, fault);
        if ret != CL_SUCCESS {
          LastPlace(old(mappings), m);
          var _ := DropMapping(m.memory);
          return CL_INVALID_VALUE, null;
        }
        forall k | 0 <= k < |data| {
          m.memory[k] := data[k];
        }
        assert m.memory[..|data|] == data;
      }
      device.Retain();
      return CL_SUCCESS, m.memory;
    }

    /**
      Unmapping an unknown pointer, or asking for an event where there is none, or a failing write,
      changes nothing. A success removes the mapping and its reference, and leaves the buffer with the
      mapped bytes if the mapping was for writing.
     */
    method UnmapMemObject(ptr: array<byte>, wantsEvent: bool, fault: int) returns (err: int)
      requires Valid()
      modifies this`mappings, device
      ensures Valid()
      ensures !Mapped(old(mappings), ptr) ==> err == CL_INVALID_VALUE
      ensures Mapped(old(mappings), ptr) ==>
        var m := old(mappings)[Place(old(mappings), ptr)];
        err == CL_SUCCESS <==>
          if m.flags == 2 || m.flags == 3
          then fault == 0 && Stored(old(device.bytes), m.offset, ptr[..]).Some?
          else !wantsEvent
      ensures err != CL_SUCCESS ==>
        mappings == old(mappings) && device.references == old(device.references) && device.bytes == old(device.bytes)
      ensures err == CL_SUCCESS ==>
        var m := old(mappings)[Place(old(mappings), ptr)];
        && mappings == Without(old(mappings), Place(old(mappings), ptr))
        && device.references == old(device.references) - 1
        && Some(device.bytes) ==
             if m.flags == 2 || m.flags == 3
             then Stored(old(device.bytes), m.offset, ptr[..])
             else Some(old(device.bytes))
    {
      var found := GetMapping(ptr);
      if found == None {
        return CL_INVALID_VALUE;
      }
      var m := found.value;
      assert m.memory[..m.size] == ptr[..];
      FlagsMean(m.flags);
      if MapsForWriting(m.flags) {
        var ret := device.WriteBuffer(m.offset, m.memory[..m.size], fault);
        if ret != CL_SUCCESS {
          return ret;
        }
      } else if wantsEvent {
        return CL_INVALID_OPERATION;
      }
      var _ := DropMapping(ptr);
      device.Release();
      err := CL_SUCCESS;
    }
  }

  lemma LastPlace(mappings: seq<Mapping>, m: Mapping)
    requires forall j :: 0 <= j < |mappings| ==> mappings[j].memory != m.memory
    ensures Place(mappings + [m], m.memory) == |mappings|
    ensures Without(mappings + [m], |mappings|) == mappings
  {
    PlaceIs(mappings + [m], m.memory, |mappings|);
  }

  // ---- map, modify, unmap ----

  /** The application writes to its mapping. */
  method Edit(memory: array<byte>, edits: seq<byte>)
    requires |edits| == memory.Length
    modifies memory
    ensures memory[..] == edits
  {
    forall k | 0 <= k < |edits| {
      memory[k] := edits[k];
    }
  }

  lemma In32Bits(bytes: seq<byte>, offset: nat, size: nat, edits: seq<byte>)
    requires |edits| == size && offset < 0x1_0000_0000 && size < 0x1_0000_0000
    ensures var there := offset + size <= |bytes|;
      && (Fetched(bytes, offset, size) == if there then Some(bytes[offset..offset + size]) else None)
      && (Stored(bytes, offset, edits)
           == if there then Some(bytes[..offset] + edits + bytes[offset + size..]) else None)
  {
    Ranges();
  }

  /**
    A successful map, any edits and a successful unmap. Mapped for writing (flags 2 or 3), the edited bytes
    are in the buffer at [offset, offset + size) and the others are as they were, provided offset and size
    fit 32 bits; otherwise (flags 0 or 1) all bytes are as they were. Mapped for reading (flags 1 or 3) the
    memory held the bytes of the buffer at first.
   */
  method MapEditUnmap(obj: MemObject, flags: nat, offset: nat, size: nat, edits: seq<byte>, mapFault: int,
                      unmapFault: int)
      returns (mapped: int, unmapped: int, ghost seen: seq<byte>)
    requires obj.Valid() && |edits| == size
    modifies obj`mappings, obj.device
    ensures obj.Valid()
    ensures mapped == CL_SUCCESS ==> flags in {0, 1, 2, 3}
    ensures mapped == CL_SUCCESS && unmapped == CL_SUCCESS ==>
      obj.mappings == old(obj.mappings) && obj.device.references == old(obj.device.references)
    ensures mapped == CL_SUCCESS && unmapped == CL_SUCCESS && flags in {2, 3} ==>
      Some(obj.device.bytes) == Stored(old(obj.device.bytes), offset, edits)
    ensures mapped == CL_SUCCESS && unmapped == CL_SUCCESS && flags in {2, 3} ==>
      offset < 0x1_0000_0000 && size < 0x1_0000_0000 ==>
      offset + size <= |old(obj.device.bytes)|
      && obj.device.bytes == old(obj.device.bytes)[..offset] + edits + old(obj.device.bytes)[offset + size..]
    ensures mapped == CL_SUCCESS && flags in {0, 1} ==> obj.device.bytes == old(obj.device.bytes)
    ensures mapped == CL_SUCCESS && flags in {1, 3} && offset < 0x1_0000_0000 && size < 0x1_0000_0000 ==>
      offset + size <= |old(obj.device.bytes)| && seen == old(obj.device.bytes)[offset..offset + size]
    // Of a mapping that is not for writing, an unmap that asks for no event always succeeds.
    ensures mapped == CL_SUCCESS && flags in {0, 1} ==> unmapped == CL_SUCCESS
  {
    var ptr;
    mapped, ptr := obj.MapBuffer(flags, offset, size, mapFault);
    if mapped != CL_SUCCESS {
      return mapped, mapped, [];
    }
    seen := ptr[..];
    Edit(ptr, edits);
    LastPlace(old(obj.mappings), Mapping(ptr, size, offset, flags));
    unmapped := obj.UnmapMemObject(ptr, false, unmapFault);
    if offset < 0x1_0000_0000 && size < 0x1_0000_0000 {
      In32Bits(old(obj.device.bytes), offset, size, edits);
    }
  }

  /** Whatever the application writes to its mapping, a successful unmap puts it into the mapped range. */
  ghost predicate WritesBack(bytes: seq<byte>, offset: nat, size: nat) {
    forall edits :: |edits| == size && Stored(bytes, offset, edits).Some? ==>
      && offset + size <= |bytes|
      && Stored(bytes, offset, edits) == Some(bytes[..offset] + edits + bytes[offset + size..])
  }

  /**
    A mapping is written back exactly when its offset and size fit 32 bits, unless the server refuses
    it for being out of bounds after the conversion to 32 bits. An empty one has nothing to write back,
    but is accepted beyond the end of the buffer.
   */
  lemma WrittenBackIff(bytes: seq<byte>, offset: nat, size: nat)
    ensures WritesBack(bytes, offset, size) <==>
      || Word(offset) + Word(size) > |bytes|
      || (if size > 0 then offset < 0x1_0000_0000 && size < 0x1_0000_0000 else offset <= |bytes|)
  {
    Ranges();
    if Word(offset) + Word(size) > |bytes| {
      assert forall edits: seq<byte> :: |edits| == size ==> |Clipped(4, edits)| == Word(size);
    } else if size == 0 {
      var none: seq<byte> := [];
      assert bytes[..Word(offset)] + none + bytes[Word(offset)..] == bytes;
      assert Stored(bytes, offset, none) == Some(bytes);
      assert offset <= |bytes| ==> bytes[..offset] + none + bytes[offset..] == bytes;
      assert forall edits: seq<byte> :: |edits| == size ==> edits == none;
    } else if offset < 0x1_0000_0000 && size < 0x1_0000_0000 {
      forall edits: seq<byte> | |edits| == size && Stored(bytes, offset, edits).Some?
        ensures Stored(bytes, offset, edits) == Some(bytes[..offset] + edits + bytes[offset + size..])
      {
        assert Clipped(4, edits) == edits;
      }
    } else {
      LargeMappingIsNotWrittenBack(bytes, offset, size);
    }
  }

  /** Beyond 32 bits there are always edits, to the last byte of the mapping, that are not written back. */
  lemma LargeMappingIsNotWrittenBack(bytes: seq<byte>, offset: nat, size: nat)
    requires Fetched(bytes, offset, size).Some? && size > 0
    requires offset >= 0x1_0000_0000 || size >= 0x1_0000_0000
    ensures !WritesBack(bytes, offset, size)
  {
    Ranges();
    var k := offset + size - 1;
    var changed: byte := if k < |bytes| && bytes[k] == 0 then 1 else 0;
    var edits := seq(size, i => changed);
    var d := Clipped(4, edits);
    assert |d| == Word(size) && Stored(bytes, offset, edits).Some?;
    if offset + size <= |bytes| {
      assert Word(offset) + |d| <= k;
      assert Stored(bytes, offset, edits).value[k] == bytes[k] != changed;
      assert (bytes[..offset] + edits + bytes[offset + size..])[k] == changed;
    }
  }

  /** For instance, nothing of a mapping of 4 GiB is ever written back. */
  lemma NothingOfFourGiB(bytes: seq<byte>, edits: seq<byte>)
    requires |edits| == 0x1_0000_0000
    ensures Stored(bytes, 0, edits) == Some(bytes)
  {
    Ranges();
    assert Clipped(4, edits) == [];
    assert bytes[..0] + [] + bytes[0..] == bytes;
  }

  // ---- any sequence of calls ----

  /** `Unmap(k, ...)` unmaps the k-th pointer that was ever returned, or a pointer from elsewhere. */
  datatype Op =
    | Map(flags: nat, offset: nat, size: nat, mapFault: int)
    | Unmap(k: nat, wantsEvent: bool, unmapFault: int)

  /**
    After any sequence of map and unmap calls, failing ones and repeated ones included, the server
    holds as many references on account of mappings as there are mappings.
   */
  method MapCount(obj: MemObject, ops: seq<Op>)
    requires obj.Valid()
    modifies obj`mappings, obj.device
    ensures obj.Valid()
    ensures obj.device.references - |obj.mappings| == old(obj.device.references) - |old(obj.mappings)|
  {
    var elsewhere := new byte[1];
    var ptrs: seq<array<byte>> := [];
    var i := 0;
    while i < |ops|
      invariant obj.Valid()
      invariant obj.device.references - |obj.mappings| == old(obj.device.references) - |old(obj.mappings)|
    {
      match ops[i] {
        case Map(flags, offset, size, fault) =>
          var err, ptr := obj.MapBuffer(flags, offset, size, fault);
          if err == CL_SUCCESS {
            ptrs := ptrs + [ptr];
          }
        case Unmap(k, wantsEvent, fault) =>
          var _ := obj.UnmapMemObject(if k < |ptrs| then ptrs[k] else elsewhere, wantsEvent, fault);
      }
      i := i + 1;
    }
  }
}
