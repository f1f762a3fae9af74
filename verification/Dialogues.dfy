/**
  Dialogues in large steps: the server serves a burst of packets, the client hears the replies, and
  so on until the call returns. `ConverseDecides` ties this to the small steps of `Lockstep`.
 */
module Dialogues {
  import opened Options
  import opened Packets
  import opened Lockstep
  import opened Wire
  import opened Protocol

  /** What the server makes of the packets sent to it, up to its first flush. */
  datatype Served = Stuck | Unclear | Served(srv: Srv, replies: seq<Packet>, unread: seq<Packet>)

  ghost function Serve(o: Oracle, s: Srv, ps: seq<Packet>): Served
    decreases |ps|
  {
    if ps == [] then Stuck else
    match ServerTakes(o, s, ps[0])
    case None => Stuck
    case Some(r) =>
      if r.flush then Served(r.next, r.send, ps[1..])
      else if r.send == [] then Serve(o, r.next, ps[1..])
      else Unclear
  }

  /** What the client makes of the replies, up to its return or its next burst. */
  datatype Heard = Deaf | Heard(cli: Cli, send: seq<Packet>, flush: bool, unread: seq<Packet>)

  ghost function Hear(c: Cli, ps: seq<Packet>): Heard
    decreases |ps|
  {
    if c.wants == [] || ps == [] then Heard(c, [], false, ps) else
    match ClientTakes(c, ps[0])
    case None => Deaf
    case Some(r) =>
      if r.flush || r.send != [] then Heard(r.next, r.send, r.flush, ps[1..]) else Hear(r.next, ps[1..])
  }

  datatype Verdict = Loses | Open | Settles(cli: Cli, srv: Srv)

  /** The rest of a dialogue, from a burst of the client on. */
  ghost function Converse(o: Oracle, c: Cli, s: Srv, burst: seq<Packet>): Verdict
    decreases |c.wants|
  {
    match Serve(o, s, burst)
    case Stuck => Loses
    case Unclear => Open
    case Served(s', replies, unserved) =>
      match Hear(c, replies)
      case Deaf => Loses
      case Heard(c', send, flush, unheard) =>
        if c'.wants == [] && send == [] && !flush then
          if unserved == [] && unheard == [] && s'.stage.Ready? then Settles(c', s') else Loses
        else if flush && unserved == [] && unheard == [] && 0 < |c'.wants| < |c.wants| then
          Converse(o, c', s', send)
        else
          Open
  }

  /** The client has sent a burst and blocks; the server has nothing left to do. */
  ghost function Asked(c: Cli, s: Srv, up: seq<Packet>): Net<Packet, Cli, Srv> {
    Net(c, [], false, up, false, s, [], false, [], false)
  }

  lemma {:induction false} ServeRuns(o: Oracle, c: Cli, s: Srv, up: seq<Packet>)
    requires c.wants != []
    ensures var e, x := TheEnds(o), Asked(c, s, up);
      match Serve(o, s, up)
      case Stuck => End(e, x) == None
      case Unclear => true
      case Served(s', replies, unread) => End(e, x) == End(e, x.(server := s', up := unread, down := replies))
    decreases |up|
  {
    var e, x := TheEnds(o), Asked(c, s, up);
    if up == [] {
      assert Run(e, x) == Lost;
    } else {
      assert ClientStep(e, x) == None;
      match ServerTakes(o, s, up[0])
      case None => StuckServer(e, x);
      case Some(r) =>
        var y := ServerStep(e, x).value;
        assert End(e, x) == End(e, y);
        if r.flush {
          ServerBurst(e, y);
          assert [] + r.send == r.send;
        } else if r.send == [] {
          ServeRuns(o, c, r.next, up[1..]);
        }
    }
  }

  lemma {:induction false} HearRuns(o: Oracle, x: Net<Packet, Cli, Srv>)
    requires x.outbox == [] && !x.flushing && !x.upHeld
    ensures var e := TheEnds(o);
      match Hear(x.client, x.down)
      case Deaf => End(e, x) == None
      case Heard(c', send, flush, unread) =>
        End(e, x) == End(e, x.(client := c', outbox := send, flushing := flush, down := unread))
    decreases |x.down|
  {
    var e := TheEnds(o);
    if x.client.wants == [] || x.down == [] {
    } else {
      match ClientTakes(x.client, x.down[0])
      case None => StuckClient(e, x);
      case Some(r) =>
        var y := ClientStep(e, x).value;
        if !r.flush && r.send == [] { HearRuns(o, y); }
    }
  }

  /** The large steps decide whether the session stays in lockstep, and where it settles. */
  lemma {:induction false} ConverseDecides(o: Oracle, c: Cli, s: Srv, burst: seq<Packet>)
    requires c.wants != []
    ensures var e, x := TheEnds(o), Asked(c, s, burst);
      match Converse(o, c, s, burst)
      case Settles(c', s') => End(e, x) == Some(Still(c', s'))
      case Loses => End(e, x) == None
      case Open => true
    decreases |c.wants|
  {
    var e, x := TheEnds(o), Asked(c, s, burst);
    ServeRuns(o, c, s, burst);
    var served := Serve(o, s, burst);
    if served.Served? {
      var y := x.(server := served.srv, up := served.unread, down := served.replies);
      HearRuns(o, y);
      var heard := Hear(c, served.replies);
      if heard.Heard? {
        var w := y.(client := heard.cli, outbox := heard.send, flushing := heard.flush, down := heard.unread);
        if heard.cli.wants == [] && heard.send == [] && !heard.flush {
          assert Boundary(e, w) && ClientStep(e, w) == None;
          assert w.up == [] && w.down == [] ==> ServerStep(e, w) == None;
        } else if heard.flush && served.unread == [] && heard.unread == [] && 0 < |heard.cli.wants| < |c.wants| {
          ClientBurst(e, w);
          assert [] + heard.send == heard.send;
          ConverseDecides(o, heard.cli, served.srv, heard.send);
        }
      }
    }
  }

  /** A whole call, from its beginning at a quiet moment. */
  ghost function Conversation(o: Oracle, c: Cli, s: Srv, call: Call): Verdict {
    Converse(o, BeginCall(c, call).next, s, Request(call))
  }

  lemma ConversationDecides(o: Oracle, c: Cli, s: Srv, call: Call)
    ensures var e := TheEnds(o);
      match Conversation(o, c, s, call)
      case Settles(c', s') => End(e, Begin(e, Still(c, s), call)) == Some(Still(c', s'))
      case Loses => End(e, Begin(e, Still(c, s), call)) == None
      case Open => true
  {
    var e := TheEnds(o);
    var x := Begin(e, Still(c, s), call);
    ClientBurst(e, x);
    assert [] + Request(call) == Request(call);
    ConverseDecides(o, BeginCall(c, call).next, s, Request(call));
  }
}
