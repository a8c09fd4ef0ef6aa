/**
 * One exchange with the device, as the proxy and both clients do it: dial if there is no
 * connection, write the request, read until a new parser completes. What the network will bring
 * is a script; every operation on a socket takes the next entry of it.
 */
module Exchanges {
  import opened Bytes
  import opened Frame
  import opened Receive
  import opened ParserTheory
  import opened Network

  /** How an operation on a socket ends; a write that fails may have been delivered all the same. */
  datatype How = Fine(size: nat) | Expired(delivered: bool) | Broken(delivered: bool)

  /** What happens up to the end of an operation: moves of the device, then the operation's end. */
  datatype Fate = Fate(moves: seq<Move>, how: How)

  datatype World = World(net: Net, fates: seq<Fate>)

  datatype Failure = NotConnected(expired: bool) | NotSent(expired: bool) | NoAnswer | ReadBroken | BadFrame(fault: Fault)

  /** How an exchange ends; a panic in the parser unwinds through it. */
  datatype Outcome = Answer(rx: Rx) | Failure(why: Failure) | Unwound

  /** The next entry of the script; when there is none left, everything times out. */
  function NextHow(w: World): How {
    if w.fates == [] then Expired(false) else w.fates[0].how
  }

  function Advance(w: World): (v: World)
    ensures |v.net.down| == |w.net.down| && |v.net.log| == |w.net.log|
    ensures w.fates != [] ==> |v.fates| == |w.fates| - 1
  {
    if w.fates == [] then w else World(PlayAll(w.net, w.fates[0].moves), w.fates[1..])
  }

  /** The most a read returns. */
  const CHUNK: nat := 256

  /** The bytes a read returns; none at all is how a closed connection reads. */
  function Arriving(w: World, link: nat): (count: nat)
    requires link < |w.net.down|
    ensures count <= |Advance(w).net.down[link]|
  {
    if NextHow(w).Fine? then
      var d := |Advance(w).net.down[link]|;
      if NextHow(w).size <= d && NextHow(w).size <= CHUNK then NextHow(w).size else if d <= CHUNK then d else CHUNK
    else 0
  }

  datatype Awaited = Awaited(world: World, outcome: Outcome)

  /** The read loop. */
  function Await(w: World, link: nat, rx: Rx): (r: Awaited)
    requires link < |w.net.down| && rx.Shaped()
    ensures |r.world.net.down| == |w.net.down| && |r.world.net.log| == |w.net.log|
    decreases |w.fates|
  {
    var v, count := Advance(w), Arriving(w, link);
    if NextHow(w).Broken? then Awaited(v, Failure(ReadBroken))
    else if count == 0 then Awaited(v, Failure(NoAnswer))
    else
      var f := Feed(rx, v.net.down[link][..count]);
      var u := v.(net := Drained(v.net, link, count));
      match f.verdict
      case More => Await(u, link, f.rx)
      case Done => Awaited(u, Answer(f.rx))
      case Failed(fault) => Awaited(u, Failure(BadFrame(fault)))
      case Panicked => Awaited(u, Unwound)
  }

  /** A parser that goes on is not complete, one that is done is. */
  lemma {:induction false} FeedCompletes(s: Rx, d: seq<byte>)
    requires s.Shaped() && !s.complete
    ensures var f := Feed(s, d);
            (f.verdict.More? ==> !f.rx.complete) && (f.verdict.Done? ==> f.rx.complete)
    decreases |d|
  {
    if d == [] {
    } else {
      StepCompletes(s, d[0]);
      hide Step;
      if Step(s, d[0]).verdict.More? {
        FeedCompletes(Step(s, d[0]).rx, d[1..]);
      }
    }
  }

  lemma StepCompletes(s: Rx, c: byte)
    requires s.Shaped() && !s.complete
    ensures var t := Step(s, c);
            (t.verdict.More? ==> !t.rx.complete) && (t.verdict.Done? ==> t.rx.complete)
  {
  }

  lemma AwaitNext(w: World, link: nat, rx: Rx)
    requires link < |w.net.down| && rx.Shaped()
    ensures var v, count := Advance(w), Arriving(w, link);
            Await(w, link, rx) ==
            if NextHow(w).Broken? then Awaited(v, Failure(ReadBroken))
            else if count == 0 then Awaited(v, Failure(NoAnswer))
            else
              var f := Feed(rx, v.net.down[link][..count]);
              var u := v.(net := Drained(v.net, link, count));
              match f.verdict
              case More => Await(u, link, f.rx)
              case Done => Awaited(u, Answer(f.rx))
              case Failed(fault) => Awaited(u, Failure(BadFrame(fault)))
              case Panicked => Awaited(u, Unwound)
  {
  }

  lemma FewerFates(w: World, link: nat)
    requires link < |w.net.down| && Arriving(w, link) > 0
    ensures |Advance(w).fates| < |w.fates|
  {
  }

  /** The error that `consume` reports. */
  function FaultOf(r: Consumed): Fault
    requires !r.Consumed? && !r.Panic?
  {
    match r
    case Invalid(cmd, _) => InvalidCommand(cmd)
    case CrcMismatch(received, calculated, _) => FrameCrcMismatch(received, calculated)
    case LengthExceeded(_) => FrameLengthExceeded
  }

  /** A verdict, as the caller of `consume` sees it. */
  lemma ReportedVerdict(v: Verdict, used: nat)
    ensures var r := Reported(v, used);
            && (r.Panic? <==> v.Panicked?) && (r.Consumed? <==> v.More? || v.Done?)
            && (v.Failed? ==> FaultOf(r) == v.fault)
  {
  }

  /** The read loop that ends every exchange. */
  method AwaitFrame(world: World, link: nat) returns (after: World, outcome: Outcome)
    requires link < |world.net.down|
    ensures Awaited(after, outcome) == Await(world, link, Fresh(false))
  {
    var rx := new ReceiveFrame(false);
    after := world;
    assert !rx.complete && rx.State().Shaped();
    hide Feed, Await, Advance, Arriving, NextHow, Fresh, Reported, FaultOf;
    while !rx.complete
      invariant rx.State().Shaped() && link < |after.net.down|
      invariant Await(world, link, Fresh(false)) ==
                if rx.complete then Awaited(after, Answer(rx.State())) else Await(after, link, rx.State())
      decreases |after.fates|
    {
      var how, count := NextHow(after), Arriving(after, link);
      AwaitNext(after, link, rx.State());
      ghost var before := after;
      after := Advance(after);
      if how.Broken? {
        return after, Failure(ReadBroken);
      }
      if count == 0 {
        return after, Failure(NoAnswer);
      }
      FewerFates(before, link);
      var chunk := after.net.down[link][..count];
      after := after.(net := Drained(after.net, link, count));
      FeedCompletes(rx.State(), chunk);
      ghost var f := Feed(rx.State(), chunk);
      ReportedVerdict(f.verdict, f.used);
      var r := rx.Consume(chunk);
      if r.Panic? {
        return after, Unwound;
      }
      if !r.Consumed? {
        return after, Failure(BadFrame(FaultOf(r)));
      }
    }
    outcome := Answer(rx.State());
  }

  /** A connection, what the network will bring, and the requests that exchanges were tried for. */
  datatype Held = Held(conn: Option<nat>, world: World, tried: seq<seq<byte>>) {
    predicate Wired() {
      conn.Some? ==> conn.value < |world.net.down|
    }
  }

  datatype Conversed = Conversed(held: Held, outcome: Outcome)

  /** Dials if there is no connection. */
  function Dialled(h: Held): (d: Held)
    ensures h.Wired() ==> d.Wired()
  {
    if h.conn.Some? then h
    else
      var v := Advance(h.world);
      if NextHow(h.world).Fine? then h.(conn := Some(|v.net.down|), world := v.(net := Opened(v.net)))
      else h.(world := v)
  }

  /** Writes a request and waits for the answer. */
  function Spoken(w: World, link: nat, wire: seq<byte>): (r: Awaited)
    requires link < |w.net.down|
    ensures |r.world.net.down| == |w.net.down|
  {
    var v := Advance(w);
    var sent := v.(net := Sent(v.net, link, wire));
    match NextHow(w)
    case Fine(_) => Await(sent, link, Fresh(false))
    case Expired(delivered) => Awaited(if delivered then sent else v, Failure(NotSent(true)))
    case Broken(delivered) => Awaited(if delivered then sent else v, Failure(NotSent(false)))
  }

  /** An exchange, before anything is decided about the connection. */
  function Converse(h: Held, wire: seq<byte>): (r: Conversed)
    requires h.Wired()
    ensures r.held.Wired()
    ensures r.held.tried == h.tried + [wire]
    ensures r.outcome.Answer? || r.outcome.Unwound? ==> r.held.conn.Some?
  {
    var d := Dialled(h).(tried := h.tried + [wire]);
    if d.conn.None? then Conversed(d, Failure(NotConnected(NextHow(h.world).Expired?)))
    else
      var a := Spoken(d.world, d.conn.value, wire);
      Conversed(d.(world := a.world), a.outcome)
  }

  /** Nothing is outstanding on the connection held. */
  predicate Ready(h: Held): (b: bool)
    ensures b ==> h.Wired()
  {
    Linked(h.world.net) && (h.conn.Some? ==> Quiet(h.world.net, h.conn.value))
  }

  lemma AdvanceKeeps(w: World, link: nat, rx: Rx, fed: seq<byte>)
    requires Linked(w.net)
    ensures var v := Advance(w);
            && Grew(w.net, v.net) && Linked(v.net)
            && (Quiet(w.net, link) ==> Quiet(v.net, link))
            && (Awaiting(w.net, link, rx, fed) ==> Awaiting(v.net, link, rx, fed))
  {
    hide PlayAll, Quiet, Awaiting;
    if w.fates != [] {
      PlayAllKeeps(w.net, w.fates[0].moves, link, rx, fed);
      GrewLinked(w.net, PlayAll(w.net, w.fates[0].moves));
    }
  }

  /** The last request of `net` has the answer that the parser `rx` was done with, and `link` is quiet. */
  ghost predicate Settles(net: Net, link: nat, rx: Rx, verdict: Verdict) {
    && Quiet(net, link)
    && net.log != [] && net.log[|net.log| - 1].answer.Some?
    && AccountOf(rx, verdict, net.log[|net.log| - 1].answer.value)
  }

  /** A read of the answer. */
  lemma ReadSettles(net: Net, link: nat, rx: Rx, fed: seq<byte>, count: nat)
    requires Linked(net) && Awaiting(net, link, rx, fed) && rx.Shaped() && 0 < count <= |net.down[link]|
    ensures var after, chunk := Drained(net, link, count), net.down[link][..count];
            var f := Feed(rx, chunk);
            && Grew(net, after) && Linked(after)
            && match f.verdict
               case More => Awaiting(after, link, f.rx, fed + chunk)
               case Done => Settles(after, link, f.rx, Done)
               case Failed(_) => true
               case Panicked => Quiet(after, link) && !AnswersSound(after)
  {
    DrainedAwaits(net, link, rx, fed, count);
    DrainedGrows(net, link, count);
    GrewLinked(net, Drained(net, link, count));
    var after := Drained(net, link, count);
    if Feed(rx, net.down[link][..count]).verdict.Panicked? {
      PanicsExactly(false, after.log[|after.log| - 1].answer.value);
      hide Feed, Grew, Linked, Quiet, DeclaresThree;
      assert !Sound(after.log[|after.log| - 1].answer.value);
    }
    hide Feed, Grew, Linked, Quiet;
  }

  lemma AwaitingLink(net: Net, link: nat, rx: Rx, fed: seq<byte>)
    requires Awaiting(net, link, rx, fed)
    ensures link < |net.down|
  {
  }

  /** An exchange that waits for the answer to the last request gets that one, whole, or none. */
  lemma {:induction false} AwaitSettles(w: World, link: nat, rx: Rx, fed: seq<byte>)
    requires Linked(w.net) && rx.Shaped() && Awaiting(w.net, link, rx, fed)
    ensures link < |w.net.down|
    ensures var r := Await(w, link, rx);
            && Grew(w.net, r.world.net) && Linked(r.world.net)
            && (r.outcome.Answer? ==> Settles(r.world.net, link, r.outcome.rx, Done))
            && (r.outcome.Unwound? ==> Quiet(r.world.net, link) && !AnswersSound(r.world.net))
    decreases |w.fates|
  {
    hide *;
    AwaitingLink(w.net, link, rx, fed);
    AdvanceKeeps(w, link, rx, fed);
    AwaitNext(w, link, rx);
    var v, count := Advance(w), Arriving(w, link);
    if !NextHow(w).Broken? && count > 0 {
      var u := v.(net := Drained(v.net, link, count));
      ReadSettles(v.net, link, rx, fed, count);
      FewerFates(w, link);
      DrainedNet(v.net, link, count);
      GrewTrans(w.net, v.net, u.net);
      var f := Feed(rx, v.net.down[link][..count]);
      if f.verdict.More? {
        AwaitSettles(u, link, f.rx, fed + v.net.down[link][..count]);
        GrewTrans(w.net, u.net, Await(u, link, f.rx).world.net);
      }
    }
  }

  lemma DrainedNet(net: Net, link: nat, count: nat)
    requires link < |net.down| && count <= |net.down[link]|
    ensures |Drained(net, link, count).down| == |net.down|
  {
  }

  /** The request just sent, and nothing but its answer, was exchanged on the connection held. */
  ghost predicate Paired(before: Net, wire: seq<byte>, after: Held, rx: Rx) {
    && after.conn.Some?
    && |after.world.net.log| == |before.log| + 1
    && after.world.net.log[|before.log|].wire == wire
    && after.world.net.log[|before.log|].link == after.conn.value
    && Settles(after.world.net, after.conn.value, rx, Done)
  }

  /** The connection held stays, or a new one has been opened. */
  predicate SameOrNewer(before: Held, after: Held) {
    if before.conn.Some? then after.conn == before.conn
    else after.conn.Some? ==> after.conn.value == |before.world.net.down|
  }

  lemma DialledKeeps(h: Held)
    requires Ready(h)
    ensures var d := Dialled(h);
            && Ready(d) && Grew(h.world.net, d.world.net) && |d.world.net.log| == |h.world.net.log|
            && SameOrNewer(h, d)
  {
    var w := h.world;
    AdvanceKeeps(w, 0, Fresh(false), []);
    if h.conn.None? && NextHow(w).Fine? {
      OpenedQuiet(Advance(w).net);
      assert Linked(Opened(Advance(w).net));
      GrewTrans(w.net, Advance(w).net, Opened(Advance(w).net));
    }
  }

  /** A request and its answer on a quiet connection. */
  lemma SpokenSettles(w: World, link: nat, wire: seq<byte>)
    requires Linked(w.net) && Quiet(w.net, link)
    ensures var r := Spoken(w, link, wire);
            && Grew(w.net, r.world.net) && Linked(r.world.net)
            && |r.world.net.log| <= |w.net.log| + 1
            && (r.outcome.Answer? ==> Paired(w.net, wire, Held(Some(link), r.world, []), r.outcome.rx))
            && (r.outcome.Unwound? ==> Quiet(r.world.net, link) && !AnswersSound(r.world.net))
  {
    var v := Advance(w);
    AdvanceKeeps(w, link, Fresh(false), []);
    SentAwaits(v.net, link, wire);
    SentGrows(v.net, link, wire);
    var sent := v.(net := Sent(v.net, link, wire));
    GrewTrans(w.net, v.net, sent.net);
    assert Linked(sent.net);
    assert sent.net.log[|w.net.log|] == Request(wire, link, None);
    hide Advance, Await, Feed;
    if NextHow(w).Fine? {
      AwaitSettles(sent, link, Fresh(false), []);
      var after := Await(sent, link, Fresh(false)).world.net;
      GrewTrans(w.net, sent.net, after);
      assert Kept(sent.net.log[|w.net.log|], after.log[|w.net.log|]);
    }
  }

  /** Whatever the network does, an exchange that starts ready is answered with the answer to its own request. */
  lemma ConverseKeeps(h: Held, wire: seq<byte>)
    requires Ready(h)
    ensures var c := Converse(h, wire);
            && Grew(h.world.net, c.held.world.net) && Linked(c.held.world.net)
            && |c.held.world.net.log| <= |h.world.net.log| + 1
            && SameOrNewer(h, c.held)
            && (c.outcome.Answer? ==> Paired(h.world.net, wire, c.held, c.outcome.rx))
            && (c.outcome.Answer? || c.outcome.Unwound? ==> Ready(c.held))
            && (c.outcome.Unwound? ==> !AnswersSound(c.held.world.net))
  {
    var d := Dialled(h);
    DialledKeeps(h);
    hide Dialled, Spoken, Grew, Linked, Quiet, Settles;
    if d.conn.Some? {
      SpokenSettles(d.world, d.conn.value, wire);
      var after := Spoken(d.world, d.conn.value, wire);
      GrewTrans(h.world.net, d.world.net, after.world.net);
      assert after.outcome.Answer? ==> Paired(d.world.net, wire, Held(d.conn, after.world, []), after.outcome.rx);
    }
  }

  // Whatever the state of the connection

  lemma DrainedLinked(net: Net, link: nat, count: nat)
    requires link < |net.down| && count <= |net.down[link]| && Linked(net)
    ensures Linked(Drained(net, link, count)) && Grew(net, Drained(net, link, count))
  {
    DrainedGrows(net, link, count);
    GrewLinked(net, Drained(net, link, count));
  }

  lemma {:induction false} AwaitLinked(w: World, link: nat, rx: Rx)
    requires Linked(w.net) && link < |w.net.down| && rx.Shaped()
    ensures Linked(Await(w, link, rx).world.net) && Grew(w.net, Await(w, link, rx).world.net)
    decreases |w.fates|
  {
    hide *;
    AdvanceKeeps(w, link, rx, []);
    AwaitNext(w, link, rx);
    var v, count := Advance(w), Arriving(w, link);
    if !NextHow(w).Broken? && count > 0 {
      var u, f := v.(net := Drained(v.net, link, count)), Feed(rx, v.net.down[link][..count]);
      DrainedLinked(v.net, link, count);
      DrainedNet(v.net, link, count);
      FewerFates(w, link);
      GrewTrans(w.net, v.net, u.net);
      if f.verdict.More? {
        AwaitLinked(u, link, f.rx);
        GrewTrans(w.net, u.net, Await(u, link, f.rx).world.net);
      }
    }
  }

  lemma SpokenLinked(w: World, link: nat, wire: seq<byte>)
    requires Linked(w.net) && link < |w.net.down|
    ensures var r := Spoken(w, link, wire); Linked(r.world.net) && Grew(w.net, r.world.net)
  {
    var v := Advance(w);
    AdvanceKeeps(w, link, Fresh(false), []);
    SentGrows(v.net, link, wire);
    var sent := v.(net := Sent(v.net, link, wire));
    GrewTrans(w.net, v.net, sent.net);
    assert Linked(sent.net);
    hide Advance, Await, Grew, Linked;
    if NextHow(w).Fine? {
      AwaitLinked(sent, link, Fresh(false));
      GrewTrans(w.net, sent.net, Await(sent, link, Fresh(false)).world.net);
    }
  }

  lemma DialledLinked(h: Held)
    requires Linked(h.world.net)
    ensures Linked(Dialled(h).world.net) && Grew(h.world.net, Dialled(h).world.net)
  {
    var w := h.world;
    GrewSame(w.net);
    AdvanceKeeps(w, 0, Fresh(false), []);
    if h.conn.None? && NextHow(w).Fine? {
      OpenedQuiet(Advance(w).net);
      assert Linked(Opened(Advance(w).net));
      GrewTrans(w.net, Advance(w).net, Opened(Advance(w).net));
    }
  }

  /** Even on a connection with something outstanding, an exchange only adds to what is known. */
  lemma ConverseLinked(h: Held, wire: seq<byte>)
    requires Linked(h.world.net) && h.Wired()
    ensures var c := Converse(h, wire); Linked(c.held.world.net) && Grew(h.world.net, c.held.world.net)
  {
    var d := Dialled(h);
    DialledLinked(h);
    hide Dialled, Spoken, Grew, Linked;
    if d.conn.Some? {
      SpokenLinked(d.world, d.conn.value, wire);
      GrewTrans(h.world.net, d.world.net, Spoken(d.world, d.conn.value, wire).world.net);
    }
  }

  /** A request whose answer has not been sent leaves no start token behind, however its exchange ends. */
  lemma {:induction false} AwaitUnanswered(w: World, link: nat, rx: Rx, fed: seq<byte>)
    requires Linked(w.net) && rx.Shaped() && Awaiting(w.net, link, rx, fed)
    ensures link < |w.net.down|
    ensures var net := Await(w, link, rx).world.net;
            net.log != [] && (net.log[|net.log| - 1].answer.None? ==> START !in net.down[link])
    decreases |w.fates|
  {
    hide *;
    AwaitingLink(w.net, link, rx, fed);
    AdvanceKeeps(w, link, rx, fed);
    AwaitNext(w, link, rx);
    var v, count := Advance(w), Arriving(w, link);
    AwaitingUnanswered(v.net, link, rx, fed);
    if !NextHow(w).Broken? && count > 0 {
      var u, f := v.(net := Drained(v.net, link, count)), Feed(rx, v.net.down[link][..count]);
      ReadSettles(v.net, link, rx, fed, count);
      DrainedUnanswered(v.net, link, count);
      FewerFates(w, link);
      if f.verdict.More? {
        AwaitUnanswered(u, link, f.rx, fed + v.net.down[link][..count]);
      }
    }
  }

  lemma AwaitingUnanswered(net: Net, link: nat, rx: Rx, fed: seq<byte>)
    requires Awaiting(net, link, rx, fed)
    ensures link < |net.down| && net.log != []
    ensures net.log[|net.log| - 1].answer.None? ==> START !in net.down[link]
  {
    assert (fed + net.down[link])[|fed|..] == net.down[link];
    hide Feed;
  }

  lemma DrainedUnanswered(net: Net, link: nat, count: nat)
    requires link < |net.down| && count <= |net.down[link]|
    ensures Drained(net, link, count).log == net.log && |Drained(net, link, count).down| == |net.down|
    ensures START !in net.down[link] ==> START !in Drained(net, link, count).down[link]
  {
  }

  /** The last request is `wire`, on this connection. */
  predicate LastIs(net: Net, wire: seq<byte>, link: nat) {
    net.log != [] && net.log[|net.log| - 1].wire == wire && net.log[|net.log| - 1].link == link
  }

  lemma SpokenUnanswered(w: World, link: nat, wire: seq<byte>)
    requires Linked(w.net) && Quiet(w.net, link)
    ensures var net := Spoken(w, link, wire).world.net;
            |net.log| > |w.net.log| ==>
              LastIs(net, wire, link) && (net.log[|net.log| - 1].answer.None? ==> START !in net.down[link])
  {
    var v := Advance(w);
    AdvanceKeeps(w, link, Fresh(false), []);
    SentAwaits(v.net, link, wire);
    var sent := v.(net := Sent(v.net, link, wire));
    assert Linked(sent.net) && LastIs(sent.net, wire, link);
    hide Advance, Await, Feed, AnsweredBefore;
    if NextHow(w).Fine? {
      AwaitUnanswered(sent, link, Fresh(false), []);
      AwaitLinked(sent, link, Fresh(false));
      assert Kept(sent.net.log[|sent.net.log| - 1], Await(sent, link, Fresh(false)).world.net.log[|sent.net.log| - 1]);
    }
  }

  /** What an exchange leaves on its connection when its request arrives but the answer does not. */
  lemma ConverseUnanswered(h: Held, wire: seq<byte>)
    requires Ready(h)
    ensures var c := Converse(h, wire).held;
            var net := c.world.net;
            c.conn.Some? && |net.log| > |h.world.net.log| ==>
              LastIs(net, wire, c.conn.value)
              && (net.log[|net.log| - 1].answer.None? ==> START !in net.down[c.conn.value])
  {
    var d := Dialled(h);
    DialledKeeps(h);
    hide Dialled, Spoken, Grew, Linked, Quiet, LastIs;
    if d.conn.Some? {
      SpokenUnanswered(d.world, d.conn.value, wire);
    }
  }

  /** A device that never makes the parser panic, neither so far nor in what is to come. */
  ghost predicate Calm(w: World) {
    AnswersSound(w.net) && forall f :: f in w.fates ==> MovesSound(f.moves)
  }

  lemma AdvanceCalm(w: World)
    requires Calm(w)
    ensures Calm(Advance(w))
  {
    if w.fates != [] {
      PlayAllSound(w.net, w.fates[0].moves);
    }
  }

  lemma {:induction false} AwaitCalm(w: World, link: nat, rx: Rx)
    requires Calm(w) && link < |w.net.down| && rx.Shaped()
    ensures Calm(Await(w, link, rx).world)
    decreases |w.fates|
  {
    AdvanceCalm(w);
    var v, count := Advance(w), Arriving(w, link);
    if !NextHow(w).Broken? && count > 0 {
      var u := v.(net := Drained(v.net, link, count));
      assert Calm(u);
      hide Advance, Calm, Feed;
      var f := Feed(rx, v.net.down[link][..count]);
      if f.verdict.More? {
        AwaitCalm(u, link, f.rx);
      }
    }
  }

  lemma SpokenCalm(w: World, link: nat, wire: seq<byte>)
    requires Calm(w) && link < |w.net.down|
    ensures Calm(Spoken(w, link, wire).world)
  {
    AdvanceCalm(w);
    var v := Advance(w);
    var sent := v.(net := Sent(v.net, link, wire));
    assert Calm(sent);
    hide Calm, Advance;
    if NextHow(w).Fine? {
      AwaitCalm(sent, link, Fresh(false));
    }
  }

  lemma ConverseCalm(h: Held, wire: seq<byte>)
    requires Ready(h) && Calm(h.world)
    ensures Calm(Converse(h, wire).held.world) && !Converse(h, wire).outcome.Unwound?
  {
    ConverseKeeps(h, wire);
    AdvanceCalm(h.world);
    var d := Dialled(h);
    assert Calm(d.world);
    hide Advance, Spoken;
    if d.conn.Some? {
      SpokenCalm(d.world, d.conn.value, wire);
    }
  }

  /** The write and the read loop of an exchange. */
  method Speak(world: World, link: nat, wire: seq<byte>) returns (after: World, outcome: Outcome)
    requires link < |world.net.down|
    ensures Awaited(after, outcome) == Spoken(world, link, wire)
  {
    var how := NextHow(world);
    after := Advance(world);
    if how.Fine? || how.delivered {
      after := after.(net := Sent(after.net, link, wire));
    }
    if !how.Fine? {
      return after, Failure(NotSent(how.Expired?));
    }
    after, outcome := AwaitFrame(after, link);
  }

  /** The cell that holds the connection, if there is one: the proxy's shared one, or a client's own. */
  class Line {
    var conn: Option<nat>
    var world: World
    var tried: seq<seq<byte>>

    function State(): Held
      reads this
    {
      Held(conn, world, tried)
    }

    constructor (world: World)
      ensures State() == Held(None, world, [])
    {
      this.conn, this.world, this.tried := None, world, [];
    }

    method Connect() returns (expired: bool)
      requires conn.None?
      modifies this`conn, this`world
      ensures State() == Dialled(old(State()))
      ensures expired == NextHow(old(world)).Expired?
    {
      var how := NextHow(world);
      world := Advance(world);
      if how.Fine? {
        conn := Some(|world.net.down|);
        world := world.(net := Opened(world.net));
      }
      expired := how.Expired?;
    }

    /** Connects if need be, and speaks. */
    method Exchange(wire: seq<byte>) returns (outcome: Outcome)
      requires State().Wired()
      modifies this
      ensures Conversed(State(), outcome) == Converse(old(State()), wire)
    {
      ghost var h := State();
      tried := tried + [wire];
      var expired := false;
      if conn.None? {
        expired := Connect();
      }
      ghost var d := Dialled(h).(tried := h.tried + [wire]);
      assert State() == d;
      if conn.None? {
        return Failure(NotConnected(expired));
      }
      world, outcome := Speak(world, conn.value, wire);
    }

    method Drop()
      modifies this`conn
      ensures State() == old(State()).(conn := None)
    {
      conn := None;
    }
  }

  // What must not follow the frame in an answer

  /** The device makes no move. */
  ghost predicate Still(w: World) {
    forall f :: f in w.fates ==> f.moves == []
  }

  /** However the answer is read, an exchange that completes, or panics, leaves no start token unread. */
  ghost predicate LeavesNoStart(answer: seq<byte>) {
    forall w, link: nat ::
      Still(w) && link < |w.net.down| && w.net.down[link] == answer ==>
        var r := Await(w, link, Fresh(false));
        r.outcome.Answer? || r.outcome.Unwound? ==> START !in r.world.net.down[link]
  }

  lemma AdvanceStill(w: World)
    requires Still(w)
    ensures Still(Advance(w)) && Advance(w).net == w.net
  {
    if w.fates != [] {
      assert w.fates[0] in w.fates && forall f :: f in w.fates[1..] ==> f in w.fates;
    }
  }

  predicate EndOf(a: seq<byte>, b: seq<byte>) {
    |a| <= |b| && b[|b| - |a|..] == a
  }

  lemma {:induction false} AwaitReads(w: World, link: nat, rx: Rx)
    requires Still(w) && link < |w.net.down| && rx.Shaped()
    ensures var r, f := Await(w, link, rx), Feed(rx, w.net.down[link]);
            r.outcome.Answer? || r.outcome.Unwound? ==>
              && (f.verdict.Done? || f.verdict.Panicked?)
              && EndOf(r.world.net.down[link], w.net.down[link][f.used..])
    decreases |w.fates|
  {
    AdvanceStill(w);
    var v, count, d := Advance(w), Arriving(w, link), w.net.down[link];
    if !NextHow(w).Broken? && count > 0 {
      var u := v.(net := Drained(v.net, link, count));
      assert Still(u);
      FeedAppend(rx, d[..count], d[count..]);
      assert d == d[..count] + d[count..];
      hide Feed, Still, Advance;
      var f := Feed(rx, d[..count]);
      if f.verdict.More? {
        AwaitReads(u, link, f.rx);
      }
    }
  }

  function OneByteReads(n: nat): seq<Fate> {
    seq(n, i => Fate([], Fine(1)))
  }

  lemma {:induction false} ReadOneByOne(net: Net, n: nat, link: nat, rx: Rx)
    requires link < |net.down| && rx.Shaped() && Feed(rx, net.down[link]).used <= n
    requires var v := Feed(rx, net.down[link]).verdict; v.Done? || v.Panicked?
    ensures var r, f := Await(World(net, OneByteReads(n)), link, rx), Feed(rx, net.down[link]);
            && r.outcome == (if f.verdict.Done? then Answer(f.rx) else Unwound)
            && r.world.net == net.(down := net.down[link := net.down[link][f.used..]])
    decreases n
  {
    hide *;
    var d, w := net.down[link], World(net, OneByteReads(n));
    FeedNothing(rx);
    FeedUses(rx, d);
    FeedCons(rx, d);
    FeedOne(rx, d[0]);
    OneByteArrives(net, n, link);
    OneByteDrained(net, link);
    AwaitNext(w, link, rx);
    if Step(rx, d[0]).verdict.More? {
      ReadOneByOne(Drained(net, link, 1), n - 1, link, Step(rx, d[0]).rx);
      LaterDrained(net, link, Feed(Step(rx, d[0]).rx, d[1..]).used);
    }
  }

  lemma OneByteArrives(net: Net, n: nat, link: nat)
    requires link < |net.down| && net.down[link] != [] && n > 0
    ensures var w := World(net, OneByteReads(n));
            Advance(w) == World(net, OneByteReads(n - 1)) && NextHow(w) == Fine(1) && Arriving(w, link) == 1
  {
    var w := World(net, OneByteReads(n));
    assert w.fates[0] == Fate([], Fine(1)) && w.fates[1..] == OneByteReads(n - 1) && PlayAll(net, []) == net;
  }

  lemma OneByteDrained(net: Net, link: nat)
    requires link < |net.down| && net.down[link] != []
    ensures var u, d := Drained(net, link, 1), net.down[link];
            d[..1] == [d[0]] && |u.down| == |net.down| && u.down[link] == d[1..]
            && u == net.(down := net.down[link := d[1..]])
  {
  }

  lemma LaterDrained(net: Net, link: nat, used: nat)
    requires link < |net.down| && net.down[link] != [] && used < |net.down[link]|
    ensures net.down[link][1..][used..] == net.down[link][used + 1..]
    ensures net.down[link := net.down[link][1..]][link := net.down[link][used + 1..]]
         == net.down[link := net.down[link][used + 1..]]
  {
  }

  /** Reads of any sizes, the device making no move. */
  function PieceReads(sizes: seq<nat>): seq<Fate> {
    seq(|sizes|, i requires 0 <= i < |sizes| => Fate([], Fine(sizes[i])))
  }

  lemma PieceArrives(net: Net, sizes: seq<nat>, link: nat)
    requires link < |net.down| && net.down[link] != [] && sizes != [] && sizes[0] > 0
    ensures var w := World(net, PieceReads(sizes));
            && Advance(w) == World(net, PieceReads(sizes[1..])) && !NextHow(w).Broken?
            && 0 < Arriving(w, link) <= |net.down[link]|
  {
    var w := World(net, PieceReads(sizes));
    assert w.fates[0] == Fate([], Fine(sizes[0])) && w.fates[1..] == PieceReads(sizes[1..]);
    assert PlayAll(net, []) == net;
  }

  /** An answer read in pieces of any sizes completes as if read at once. */
  lemma {:induction false} ReadInPieces(net: Net, sizes: seq<nat>, link: nat, rx: Rx)
    requires link < |net.down| && rx.Shaped() && forall k :: k in sizes ==> k > 0
    requires var f := Feed(rx, net.down[link]); f.verdict.Done? && f.used <= |sizes| && net.down[link] != []
    ensures var r := Await(World(net, PieceReads(sizes)), link, rx);
            r.outcome == Answer(Feed(rx, net.down[link]).rx) && r.world.net.log == net.log
    decreases |sizes|
  {
    var d, w := net.down[link], World(net, PieceReads(sizes));
    FeedUses(rx, d);
    assert sizes[0] in sizes && forall k :: k in sizes[1..] ==> k in sizes;
    PieceArrives(net, sizes, link);
    var count := Arriving(w, link);
    var u := Drained(net, link, count);
    assert d == d[..count] + d[count..] && u.down[link] == d[count..] && u.log == net.log;
    FeedAppend(rx, d[..count], d[count..]);
    hide Feed, Advance, Arriving, NextHow, PieceReads, Drained, Await;
    AwaitNext(w, link, rx);
    var f := Feed(rx, d[..count]);
    if f.verdict.More? {
      FeedNothing(f.rx);
      ReadInPieces(u, sizes[1..], link, f.rx);
    }
  }

  lemma FeedUses(rx: Rx, d: seq<byte>)
    requires rx.Shaped() && d != []
    ensures Feed(rx, d).used > 0
  {
  }

  lemma FeedNothing(rx: Rx)
    requires rx.Shaped()
    ensures Feed(rx, []) == Fed(rx, More, 0)
  {
  }

  /** A write that goes through, then the wait. */
  lemma SpokenFine(w: World, link: nat, wire: seq<byte>)
    requires link < |w.net.down| && NextHow(w).Fine?
    ensures Spoken(w, link, wire) == Await(Advance(w).(net := Sent(Advance(w).net, link, wire)), link, Fresh(false))
  {
    hide Advance, Await;
  }

  /** Exactly the safe answers leave no start token behind, whatever reads an exchange takes to complete on them. */
  lemma SafeExactly(answer: seq<byte>)
    ensures Safe(answer) <==> LeavesNoStart(answer)
  {
    var f := Feed(Fresh(false), answer);
    hide Feed, Await, Still;
    if Safe(answer) {
      forall w, link: nat | Still(w) && link < |w.net.down| && w.net.down[link] == answer
        ensures var r := Await(w, link, Fresh(false));
                r.outcome.Answer? || r.outcome.Unwound? ==> START !in r.world.net.down[link]
      {
        AwaitReads(w, link, Fresh(false));
      }
    } else {
      var w := World(Net([], [answer]), OneByteReads(f.used));
      ReadOneByOne(w.net, f.used, 0, Fresh(false));
      OneByteStill(w.net, f.used);
      assert w.net.down[0] == answer;
    }
  }

  lemma OneByteStill(net: Net, n: nat)
    ensures Still(World(net, OneByteReads(n)))
  {
  }

  /**
   * If what follows the frame in an answer holds another one, that is taken for the answer to the
   * next request, even if the device never answers that one.
   */
  lemma TrailingFrameMispairs(answer: seq<byte>, first: seq<byte>, second: seq<byte>)
    requires Feed(Fresh(false), answer).verdict.Done?
    requires Feed(Fresh(false), answer[Feed(Fresh(false), answer).used..]).verdict.Done?
    ensures var f := Feed(Fresh(false), answer);
            var g := Feed(Fresh(false), answer[f.used..]);
            var net := Net([Request(first, 0, Some(answer))], [answer]);
            var one := Await(World(net, OneByteReads(f.used)), 0, Fresh(false));
            var two := Spoken(World(one.world.net, [Fate([], Fine(0))] + OneByteReads(g.used)), 0, second);
            && one.outcome == Answer(f.rx) && two.outcome == Answer(g.rx)
            && two.world.net.log == [Request(first, 0, Some(answer)), Request(second, 0, None)]
  {
    hide Feed, Await;
    var f := Feed(Fresh(false), answer);
    var g := Feed(Fresh(false), answer[f.used..]);
    var net := Net([Request(first, 0, Some(answer))], [answer]);
    ReadOneByOne(net, f.used, 0, Fresh(false));
    var left := Net([Request(first, 0, Some(answer))], [answer[f.used..]]);
    assert Await(World(net, OneByteReads(f.used)), 0, Fresh(false)).world.net == left;
    var w := World(left, [Fate([], Fine(0))] + OneByteReads(g.used));
    assert Advance(w) == World(left, OneByteReads(g.used));
    ReadOneByOne(Sent(left, 0, second), g.used, 0, Fresh(false));
  }
}
