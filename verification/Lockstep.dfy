/**
  Two ends that talk over one connection, seen one packet at a time.

  Each end alternates between emitting a burst of packets into its write buffer, optionally
  flushing it, and blocking in a read. The two ends run concurrently; `ClientStep` and
  `ServerStep` are their single steps. `Run` follows one fixed schedule (the client moves
  whenever it can) until both ends rest with nothing in flight. It is `Lost` as soon as an end meets
  a packet it does not expect, blocks with unflushed output, or lets a call return with something
  still unread.

  The lemmas say that the schedule does not matter: once `Run` settles, every other order of the
  same steps reaches the very same end state, in the same number of steps.
 */
module Lockstep {
  import opened Options

  /** What an end does after a read: fill its write buffer, flush it or not, and go on. */
  datatype Reaction<+P, +T> = Reaction(send: seq<P>, flush: bool, next: T)

  /** The behaviour of the two ends, given as functions of their states. */
  datatype Ends<!P, !C, !S, !I> = Ends(
    atRest: C -> bool,                          // no API call in progress
    begin: (C, I) -> Reaction<P, C>,            // an API call starts
    clientTakes: (C, P) -> Option<Reaction<P, C>>,
    left: C -> nat,                             // reads the call in progress still has to make
    serverTakes: (S, P) -> Option<Reaction<P, S>>,
    ready: S -> bool)                           // the server is back in its dispatch loop

  /**
    `up` holds the packets written by the client and not yet read by the server, whether they sit in
    the client's write buffer, on the wire or in the server's read buffer. `upHeld` says that some
    of them may still be in the write buffer. `down` and `downHeld` are the other direction.
   */
  datatype Net<+P, +C, +S> = Net(
    client: C, outbox: seq<P>, flushing: bool, up: seq<P>, upHeld: bool,
    server: S, replies: seq<P>, replyFlushing: bool, down: seq<P>, downHeld: bool)

  datatype Outcome<+P, +C, +S> = Lost | Settled(net: Net<P, C, S>, steps: nat) {
    function Later(): Outcome<P, C, S> {
      match this
      case Lost => Lost
      case Settled(x, n) => Settled(x, n + 1)
    }
  }

  ghost function ClientStep<P, C, S, I>(e: Ends<P, C, S, I>, x: Net<P, C, S>): Option<Net<P, C, S>> {
    if x.outbox != [] then
      Some(x.(outbox := x.outbox[1..], up := x.up + [x.outbox[0]], upHeld := true))
    else if x.flushing then
      Some(x.(flushing := false, upHeld := false))
    else if e.atRest(x.client) || x.down == [] || x.upHeld then
      None
    else
      match e.clientTakes(x.client, x.down[0])
      case None => None
      case Some(r) =>
        if e.left(r.next) < e.left(x.client) then
          Some(x.(client := r.next, outbox := r.send, flushing := r.flush, down := x.down[1..]))
        else
          None
  }

  ghost function ServerStep<P, C, S, I>(e: Ends<P, C, S, I>, x: Net<P, C, S>): Option<Net<P, C, S>> {
    if x.replies != [] then
      Some(x.(replies := x.replies[1..], down := x.down + [x.replies[0]], downHeld := true))
    else if x.replyFlushing then
      Some(x.(replyFlushing := false, downHeld := false))
    else if x.up == [] || x.downHeld then
      None
    else
      match e.serverTakes(x.server, x.up[0])
      case None => None
      case Some(r) =>
        Some(x.(server := r.next, replies := r.send, replyFlushing := r.flush, up := x.up[1..]))
  }

  /** The client is between two API calls. */
  ghost predicate Boundary<P, C, S, I>(e: Ends<P, C, S, I>, x: Net<P, C, S>) {
    e.atRest(x.client) && x.outbox == [] && !x.flushing
  }

  /** Nothing is unread, unflushed or left to do on either side. */
  ghost predicate Quiet<P, C, S, I>(e: Ends<P, C, S, I>, x: Net<P, C, S>) {
    && Boundary(e, x) && x.up == [] && !x.upHeld
    && e.ready(x.server) && x.replies == [] && !x.replyFlushing && x.down == [] && !x.downHeld
  }

  ghost function Chores(packets: nat, flush: bool): nat {
    packets + if flush then 1 else 0
  }

  ghost function Run<P, C, S, I>(e: Ends<P, C, S, I>, x: Net<P, C, S>): (r: Outcome<P, C, S>)
    ensures r.Settled? ==> Quiet(e, r.net)
    decreases e.left(x.client), Chores(|x.outbox|, x.flushing), |x.up|, Chores(|x.replies|, x.replyFlushing)
  {
    match ClientStep(e, x)
    case Some(y) => Run(e, y).Later()
    case None =>
      if Boundary(e, x) && (x.up != [] || x.upHeld || x.down != []) then
        Lost   // the call returned with something unread
      else
        match ServerStep(e, x)
        case Some(y) => Run(e, y).Later()
        case None => if Quiet(e, x) then Settled(x, 0) else Lost
  }

  /** Where the session ends up, if it stays in lockstep. */
  ghost function End<P, C, S, I>(e: Ends<P, C, S, I>, x: Net<P, C, S>): Option<Net<P, C, S>> {
    match Run(e, x)
    case Lost => None
    case Settled(z, _) => Some(z)
  }

  /** A call starts; the client has taken the lock on the connection. */
  ghost function Begin<P, C, S, I>(e: Ends<P, C, S, I>, x: Net<P, C, S>, i: I): Net<P, C, S> {
    var r := e.begin(x.client, i);
    x.(client := r.next, outbox := r.send, flushing := r.flush)
  }

  // ---- the schedule does not matter ----

  /** A client step and a server step from the same state commute. */
  lemma Diamond<P, C, S, I>(e: Ends<P, C, S, I>, x: Net<P, C, S>, c: Net<P, C, S>, s: Net<P, C, S>)
    requires ClientStep(e, x) == Some(c) && ServerStep(e, x) == Some(s)
    ensures ServerStep(e, c).Some? && ClientStep(e, s) == ServerStep(e, c)
  {
    if x.outbox != [] && x.up != [] {
      assert (x.up + [x.outbox[0]])[1..] == x.up[1..] + [x.outbox[0]];
    }
    if x.replies != [] && x.down != [] {
      assert (x.down + [x.replies[0]])[1..] == x.down[1..] + [x.replies[0]];
    }
  }

  /** Emitting or flushing a reply never changes the outcome. */
  lemma {:induction false} ReplyStep<P, C, S, I>(e: Ends<P, C, S, I>, x: Net<P, C, S>)
    requires x.replies != [] || x.replyFlushing
    ensures Run(e, x) == Run(e, ServerStep(e, x).value).Later()
    decreases e.left(x.client), Chores(|x.outbox|, x.flushing), |x.up|, Chores(|x.replies|, x.replyFlushing)
  {
    var y := ServerStep(e, x).value;
    match ClientStep(e, x)
    case Some(c) =>
      Diamond(e, x, c, y);
      ReplyStep(e, c);
    case None =>
  }

  /** Whatever the server does while the session is in lockstep, it ends in the same state. */
  lemma {:induction false} ServerStepKeeps<P, C, S, I>(e: Ends<P, C, S, I>, x: Net<P, C, S>, y: Net<P, C, S>)
    requires Run(e, x).Settled? && ServerStep(e, x) == Some(y)
    ensures Run(e, x) == Run(e, y).Later()
    decreases e.left(x.client), Chores(|x.outbox|, x.flushing), |x.up|, Chores(|x.replies|, x.replyFlushing)
  {
    match ClientStep(e, x)
    case Some(c) =>
      Diamond(e, x, c, y);
      ServerStepKeeps(e, c, ServerStep(e, c).value);
    case None =>
  }

  /** So does every client step. */
  lemma ClientStepKeeps<P, C, S, I>(e: Ends<P, C, S, I>, x: Net<P, C, S>, y: Net<P, C, S>)
    requires ClientStep(e, x) == Some(y)
    ensures Run(e, x) == Run(e, y).Later()
  {
  }

  /** When a call has returned, at most a flush of the server is still to come. */
  lemma SettledBoundary<P, C, S, I>(e: Ends<P, C, S, I>, x: Net<P, C, S>)
    requires Boundary(e, x) && End(e, x).Some?
    ensures x.up == [] && x.down == []
    ensures End(e, x).value.client == x.client && End(e, x).value.server == x.server
  {
    assert ClientStep(e, x) == None;
    assert x.up == [] && !x.upHeld && x.down == [];   // or the run would be lost
    match ServerStep(e, x)
    case None => assert Run(e, x) == Settled(x, 0);
    case Some(y) =>
      assert Run(e, x) == Run(e, y).Later();
      assert Boundary(e, y) && ClientStep(e, y) == None;
      assert y.down == [];
      assert x.replies != [] ==> y.down != [];
      assert x.replies == [] && ServerStep(e, y) == None;
      assert Run(e, y) == Settled(y, 0);
  }

  /**
    A call that starts while the server is still leaving its last handler goes the same way as one
    that starts after the server has come to rest.
   */
  lemma BeginKeeps<P, C, S, I>(e: Ends<P, C, S, I>, x: Net<P, C, S>, i: I)
    requires Boundary(e, x) && End(e, x).Some?
    ensures var z := End(e, x).value;
      z.client == x.client && z.server == x.server && End(e, Begin(e, x, i)) == End(e, Begin(e, z, i))
  {
    var z := End(e, x).value;
    if x != z {
      var y := ServerStep(e, x).value;
      assert y.down != [] ==> Run(e, y) == Lost;
      assert x.replies != [] ==> y.down != [];
      assert Run(e, x) == Run(e, y).Later();
      assert x.replies == [] && ServerStep(e, y) == None;
      assert y == z;
      ReplyStep(e, Begin(e, x, i));
    }
  }

  /** No step is left to count exactly when neither end can move. */
  lemma NoStepsLeft<P, C, S, I>(e: Ends<P, C, S, I>, x: Net<P, C, S>)
    requires Run(e, x).Settled?
    ensures Run(e, x).steps == 0 <==> ClientStep(e, x) == None && ServerStep(e, x) == None
  {
  }

  // ---- an end that cannot go on loses the session ----

  /** A client that blocks in a read with unflushed output, or on a packet it does not expect. */
  lemma {:induction false} StuckClient<P, C, S, I>(e: Ends<P, C, S, I>, x: Net<P, C, S>)
    requires !Boundary(e, x) && ClientStep(e, x) == None && (x.upHeld || x.down != [])
    ensures Run(e, x) == Lost
    decreases |x.up|, Chores(|x.replies|, x.replyFlushing)
  {
    match ServerStep(e, x)
    case Some(y) => StuckClient(e, y);
    case None =>
  }

  /** A server that blocks with unflushed output, or on a packet it does not expect. */
  lemma {:induction false} StuckServer<P, C, S, I>(e: Ends<P, C, S, I>, x: Net<P, C, S>)
    requires x.replies == [] && !x.replyFlushing && ServerStep(e, x) == None && (x.downHeld || x.up != [])
    ensures Run(e, x) == Lost
    decreases e.left(x.client), Chores(|x.outbox|, x.flushing)
  {
    match ClientStep(e, x)
    case Some(y) => StuckServer(e, y);
    case None =>
  }

  // ---- bursts, for following a dialogue ----

  lemma {:induction false} ClientBurst<P, C, S, I>(e: Ends<P, C, S, I>, x: Net<P, C, S>)
    requires x.flushing
    ensures End(e, x) == End(e, x.(outbox := [], flushing := false, up := x.up + x.outbox, upHeld := false))
    decreases |x.outbox|
  {
    if x.outbox == [] {
      assert x.up + x.outbox == x.up;
    } else {
      var y := ClientStep(e, x).value;
      ClientBurst(e, y);
      assert x.up + [x.outbox[0]] + x.outbox[1..] == x.up + x.outbox;
    }
  }

  lemma {:induction false} ServerBurst<P, C, S, I>(e: Ends<P, C, S, I>, x: Net<P, C, S>)
    requires x.replyFlushing
    ensures End(e, x)
      == End(e, x.(replies := [], replyFlushing := false, down := x.down + x.replies, downHeld := false))
    decreases |x.replies|
  {
    ReplyStep(e, x);
    if x.replies == [] {
      assert x.down + x.replies == x.down;
    } else {
      var y := ServerStep(e, x).value;
      ServerBurst(e, y);
      assert x.down + [x.replies[0]] + x.replies[1..] == x.down + x.replies;
    }
  }

  // ---- what it means to be lost ----

  /**
    A call has returned with something still unread or unflushed, or neither end can move although
    not everything is done.
   */
  ghost predicate Trouble<P, C, S, I>(e: Ends<P, C, S, I>, x: Net<P, C, S>) {
    || (Boundary(e, x) && (x.up != [] || x.upHeld || x.down != []))
    || (ClientStep(e, x) == None && ServerStep(e, x) == None && !Quiet(e, x))
  }

  datatype Party = Client | Server

  /** The steps of the two ends in the given order; `None` when one of them is not possible. */
  ghost function Perform<P, C, S, I>(e: Ends<P, C, S, I>, x: Net<P, C, S>, order: seq<Party>): Option<Net<P, C, S>>
    decreases |order|
  {
    if order == [] then Some(x) else
    match if order[0].Client? then ClientStep(e, x) else ServerStep(e, x)
    case None => None
    case Some(y) => Perform(e, y, order[1..])
  }

  lemma {:induction false} SettlesWithoutTrouble<P, C, S, I>(e: Ends<P, C, S, I>, x: Net<P, C, S>, order: seq<Party>)
    requires Run(e, x).Settled? && Perform(e, x, order).Some?
    ensures !Trouble(e, Perform(e, x, order).value)
    decreases |order|
  {
    if order != [] {
      var y := (if order[0].Client? then ClientStep(e, x) else ServerStep(e, x)).value;
      if order[0].Client? { ClientStepKeeps(e, x, y); } else { ServerStepKeeps(e, x, y); }
      SettlesWithoutTrouble(e, y, order[1..]);
    }
  }

  lemma {:induction false} LostInTrouble<P, C, S, I>(e: Ends<P, C, S, I>, x: Net<P, C, S>) returns (order: seq<Party>)
    requires Run(e, x) == Lost
    ensures Perform(e, x, order).Some? && Trouble(e, Perform(e, x, order).value)
    decreases e.left(x.client), Chores(|x.outbox|, x.flushing), |x.up|, Chores(|x.replies|, x.replyFlushing)
  {
    order := [];
    if !Trouble(e, x) {
      var who := if ClientStep(e, x).Some? then Client else Server;
      var y := (if who.Client? then ClientStep(e, x) else ServerStep(e, x)).value;
      var rest := LostInTrouble(e, y);
      order := [who] + rest;
      assert order[1..] == rest;
    }
  }

  /** The fixed schedule settles if and only if no order of the steps whatever leads into trouble. */
  lemma SettlesIffNoTrouble<P(!new), C(!new), S(!new), I(!new)>(e: Ends<P, C, S, I>, x: Net<P, C, S>)
    ensures Run(e, x).Settled?
      <==> forall order :: Perform(e, x, order).Some? ==> !Trouble(e, Perform(e, x, order).value)
  {
    if Run(e, x).Settled? {
      forall order | Perform(e, x, order).Some? ensures !Trouble(e, Perform(e, x, order).value) {
        SettlesWithoutTrouble(e, x, order);
      }
    } else {
      var order := LostInTrouble(e, x);
      assert Perform(e, x, order).Some? && Trouble(e, Perform(e, x, order).value);
    }
  }
}
