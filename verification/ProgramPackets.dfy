/** The request to compile a program, whose last field is there only if a callback is. */
module ProgramPackets {
  import opened Options
  import opened Bytes
  import opened Codec
  import opened Packets
  import opened SocketStreams
  import opened PacketStreams

  datatype CompileProgram = CompileProgram(
    program: nat, options: seq<nat>, devices: seq<nat>, headers: seq<nat>, headerNames: seq<seq<nat>>,
    callback: Option<nat>)

  const FIELDS: seq<Schema> := [Num(2), TEXT, IDS, IDS, List(1, TEXT), Flagged(Num(2))]

  function Texts(texts: seq<seq<nat>>): Val {
    Vs(seq(|texts|, i requires 0 <= i < |texts| => Numbers(texts[i])))
  }

  function CallbackField(callback: Option<nat>): Val {
    if callback.Some? then Present(N(callback.value)) else Absent
  }

  function ValuesOf(p: CompileProgram): seq<Val> {
    [N(p.program), Numbers(p.options), Ids(p.devices), Ids(p.headers), Texts(p.headerNames), CallbackField(p.callback)]
  }

  function ProgramOf(vs: seq<Val>): CompileProgram
    requires |vs| == 6
  {
    CompileProgram(ValNum(vs[0]), ValNums(vs[1]), ValNums(vs[2]), ValNums(vs[3]), TextsOf(vs[4]),
                   if vs[5].Present? then Some(ValNum(vs[5].inner)) else None)
  }

  function TextsOf(v: Val): seq<seq<nat>> {
    if v.Vs? then seq(|v.vals|, i requires 0 <= i < |v.vals| => ValNums(v.vals[i])) else []
  }

  lemma ProgramBack(p: CompileProgram)
    ensures ProgramOf(ValuesOf(p)) == p
  {
    forall i | 0 <= i < |p.headerNames| ensures ValNums(Texts(p.headerNames).vals[i]) == p.headerNames[i] {
    }
    assert TextsOf(Texts(p.headerNames)) == p.headerNames;
    assert ValNums(Numbers(p.options)) == p.options;
    assert ValNums(Ids(p.devices)) == p.devices && ValNums(Ids(p.headers)) == p.headers;
  }

  ghost predicate Sendable(p: CompileProgram) { WellFormed(Packet(COMPILE_FORMAT, Vs(ValuesOf(p)))) }

  /** Writes the fields in order, and the callback's ID only behind a flag that announces it. */
  method PutCompileProgram(s: SocketStream, z: Framing, p: CompileProgram)
    requires s.Valid() && Sendable(p)
    modifies s`writeOffset, s.writeBuffer, s.socket`sent
    ensures s.Valid() && s.Written() == old(s.Written()) + Print(z, COMPILE_FORMAT.schema, Vs(ValuesOf(p)))
  {
    PutFields(s, z, FIELDS, ValuesOf(p));
  }

  /** Reads the fields in the same order. */
  method GetCompileProgram(s: SocketStream, z: Framing) returns (p: CompileProgram, outcome: Outcome)
    requires s.Valid()
    modifies s`readOffset, s`available, s.readBuffer, s.socket`incoming
    ensures s.Valid() && (outcome == Done <==> Parse(z, COMPILE_FORMAT.schema, old(s.Pending())).Some?)
    ensures outcome == Done ==>
      var (v, rest) := Parse(z, COMPILE_FORMAT.schema, old(s.Pending())).value;
      v.Vs? && |v.vals| == 6 && p == ProgramOf(v.vals) && rest == s.Pending()
  {
    var vs;
    vs, outcome := GetFields(s, z, FIELDS);
    FieldCount(z, FIELDS, old(s.Pending()));
    p := if outcome == Done then ProgramOf(vs) else CompileProgram(0, [], [], [], [], None);
  }

  lemma {:induction false} FieldCount(z: Framing, fs: seq<Schema>, bs: seq<byte>)
    ensures ParseFields(z, fs, bs).Some? ==> |ParseFields(z, fs, bs).value.0| == |fs|
  {
    if fs != [] && Parse(z, fs[0], bs).Some? {
      FieldCount(z, fs[1..], Parse(z, fs[0], bs).value.1);
    }
  }

  /** The request arrives as it was sent, with or without a callback, and the stream goes on behind it. */
  method TransferCompileProgram(z: Framing, p: CompileProgram, rest: seq<byte>)
      returns (q: CompileProgram, left: seq<byte>)
    requires Lossless(z) && Sendable(p)
    ensures q == p && left == rest
  {
    var here := new Socket([], false);
    var writer := new SocketStream(here);
    PutCompileProgram(writer, z, p);
    assert writer.Written() == [] + Print(z, COMPILE_FORMAT.schema, Vs(ValuesOf(p)))
      == Print(z, COMPILE_FORMAT.schema, Vs(ValuesOf(p)));
    var _ := writer.Write(rest);
    writer.Flush();
    RoundTrip(z, COMPILE_FORMAT.schema, Vs(ValuesOf(p)), rest);
    ProgramBack(p);
    q, left := ReceiveProgram(z, here.sent, |rest|);
  }

  method ReceiveProgram(z: Framing, bytes: seq<byte>, next: nat) returns (q: CompileProgram, left: seq<byte>)
    requires var r := Parse(z, COMPILE_FORMAT.schema, bytes); r.Some? && |r.value.1| == next
    ensures var (v, rest) := Parse(z, COMPILE_FORMAT.schema, bytes).value;
      v.Vs? && |v.vals| == 6 && q == ProgramOf(v.vals) && left == rest
  {
    var socket := new Socket(bytes, false);
    var reader := new SocketStream(socket);
    var outcome;
    q, outcome := GetCompileProgram(reader, z);
    left, outcome := reader.Get(next);
    assert left + reader.Pending() == left;
  }
}
