/**
 * The proxy's methods and the proxy as a state machine agree: whatever serving a client comes to, among
 * any number of others and under any script of the network, is how a run of the machine goes on.
 */
module TaskRuns {
  import opened Bytes
  import opened Frame
  import opened Receive
  import opened ParserTheory
  import opened FrameTheory
  import opened Session
  import opened Network
  import opened Exchanges
  import opened PromptAnswers
  import opened Multiplexer
  import opened Proxy

  // Runs

  function RunOn(s: State, events: seq<Event>): State
    decreases |events|
  {
    if events == [] then s else RunOn(Next(s, events[0]), events[1..])
  }

  lemma {:induction false} RunAppend(events: seq<Event>, more: seq<Event>)
    ensures Run(events + more) == RunOn(Run(events), more)
    decreases |more|
  {
    if more == [] {
      assert events + more == events;
    } else {
      assert (events + [more[0]])[..|events|] == events;
      assert events + more == (events + [more[0]]) + more[1..];
      hide Next;
      RunAppend(events + [more[0]], more[1..]);
    }
  }

  lemma {:induction false} RunOnAppend(s: State, a: seq<Event>, b: seq<Event>)
    ensures RunOn(s, a + b) == RunOn(RunOn(s, a), b)
    decreases |a|
  {
    if a == [] {
      assert a + b == b;
    } else {
      assert (a + b)[0] == a[0] && (a + b)[1..] == a[1..] + b;
      hide Next;
      RunOnAppend(Next(s, a[0]), a[1..], b);
    }
  }

  lemma RunOnOne(s: State, e: Event)
    ensures RunOn(s, [e]) == Next(s, e)
  {
    hide Next;
    assert [e][1..] == [];
  }

  /** One event after others. */
  lemma RunOnLast(s: State, events: seq<Event>, e: Event)
    ensures RunOn(s, events + [e]) == Next(RunOn(s, events), e)
  {
    hide *;
    RunOnAppend(s, events, [e]);
    RunOnOne(RunOn(s, events), e);
  }

  // The network

  function DeviceEvents(moves: seq<Move>): seq<Event> {
    if moves == [] then [] else [Device(moves[0])] + DeviceEvents(moves[1..])
  }

  lemma {:induction false} DeviceRuns(s: State, moves: seq<Move>)
    ensures RunOn(s, DeviceEvents(moves)) == s.(net := PlayAll(s.net, moves))
    decreases |moves|
  {
    if moves == [] {
    } else {
      var e := DeviceEvents(moves);
      assert e[0] == Device(moves[0]) && e[1..] == DeviceEvents(moves[1..]);
      hide Play;
      DeviceRuns(s.(net := Play(s.net, moves[0])), moves[1..]);
    }
  }

  /** What the device does up to the end of the next operation. */
  function Meanwhile(w: World): seq<Event> {
    if w.fates == [] then [] else DeviceEvents(w.fates[0].moves)
  }

  lemma MeanwhileRuns(s: State, w: World)
    requires s.net == w.net
    ensures RunOn(s, Meanwhile(w)) == s.(net := Advance(w).net)
  {
    if w.fates != [] {
      DeviceRuns(s, w.fates[0].moves);
    }
    hide PlayAll, DeviceEvents;
  }

  // An exchange

  /** A task, with the lock and a connection, where it waits for its answer. */
  predicate Waits(s: State, t: nat, link: nat, rx: Rx) {
    && t < |s.tasks| && s.holder == Some(t) && s.kept == Some(link) && link < |s.net.down|
    && s.tasks[t].phase.Reading? && s.tasks[t].phase.rx == rx
  }

  /** Where the end of an exchange leaves it. */
  function Left(s: State, t: nat, request: nat, r: Awaited): State
    requires t < |s.tasks|
  {
    var u := s.(net := r.world.net);
    match r.outcome
    case Answer(rx) => Released(u, t, Replying(Reply(request, rx.raw)))
    case Failure(_) => Disconnected(u, t)
    case Unwound => Released(u, t, Gone)
  }

  lemma GivesUp(s: State, t: nat, link: nat, rx: Rx)
    requires Waits(s, t, link, rx)
    ensures Next(s, At(t, GiveUp)) == Disconnected(s, t)
  {
    hide Disconnected;
  }

  lemma ReadReturns(s: State, t: nat, link: nat, rx: Rx, count: nat)
    requires Waits(s, t, link, rx) && 0 < count <= |s.net.down[link]| && count <= CHUNK
    ensures rx.Shaped()
    ensures var chunk, u, phase := s.net.down[link][..count], s.(net := Drained(s.net, link, count)), s.tasks[t].phase;
            var f := Feed(rx, chunk);
            Next(s, At(t, Upstream(count))) ==
            match f.verdict
            case More => Moved(u, t, Reading(phase.request, f.rx, phase.fed + chunk))
            case Done => Released(u, t, Replying(Reply(phase.request, f.rx.raw)))
            case Failed(_) => Disconnected(u, t)
            case Panicked => Released(u, t, Gone)
  {
    hide Feed, Disconnected, Moved, Released, Drained;
  }

  lemma StillWaits(s: State, t: nat, link: nat, rx: Rx, net: Net)
    requires Waits(s, t, link, rx) && |net.down| == |s.net.down|
    ensures Waits(s.(net := net), t, link, rx)
  {
  }

  lemma WaitsOn(s: State, t: nat, link: nat, rx: Parser, fed: seq<byte>)
    requires t < |s.tasks| && s.holder == Some(t) && s.kept == Some(link) && link < |s.net.down|
    requires s.tasks[t].phase.Reading?
    ensures var request := s.tasks[t].phase.request;
            var u := Moved(s, t, Reading(request, rx, fed));
            Waits(u, t, link, rx) && u.tasks[t].phase.request == request && u.net == s.net
            && forall r :: Left(u, t, request, r) == Left(s, t, request, r)
  {
  }

  lemma LeftIs(s: State, t: nat, request: nat, r: Awaited, net: Net)
    requires t < |s.tasks|
    ensures Left(s.(net := net), t, request, r) == Left(s, t, request, r)
  {
  }

  lemma LeftBy(s: State, t: nat, request: nat, net: Net, fates: seq<Fate>, outcome: Outcome)
    requires t < |s.tasks|
    ensures Left(s, t, request, Awaited(World(net, fates), outcome)) ==
            match outcome
            case Answer(rx) => Released(s.(net := net), t, Replying(Reply(request, rx.raw)))
            case Failure(_) => Disconnected(s.(net := net), t)
            case Unwound => Released(s.(net := net), t, Gone)
  {
  }

  lemma WaitsLink(s: State, t: nat, link: nat, rx: Rx)
    requires Waits(s, t, link, rx)
    ensures link < |s.net.down| && t < |s.tasks| && s.tasks[t].phase.Reading? && s.kept == Some(link)
  {
  }

  lemma DrainedDown(net: Net, link: nat, count: nat)
    requires link < |net.down| && count <= |net.down[link]|
    ensures |Drained(net, link, count).down| == |net.down|
  {
  }

  lemma ChunkLimit(w: World, link: nat)
    requires link < |w.net.down|
    ensures Arriving(w, link) <= CHUNK
  {
  }

  /** The read loop is a run. */
  lemma {:induction false} AwaitRuns(s: State, t: nat, w: World, link: nat, rx: Rx) returns (events: seq<Event>)
    requires Waits(s, t, link, rx) && rx.Shaped() && s.net == w.net && link < |w.net.down|
    ensures t < |s.tasks| && s.tasks[t].phase.Reading?
    ensures RunOn(s, events) == Left(s, t, s.tasks[t].phase.request, Await(w, link, rx))
    decreases |w.fates|
  {
    hide *;
    WaitsLink(s, t, link, rx);
    MeanwhileRuns(s, w);
    AwaitNext(w, link, rx);
    var v, count, request := Advance(w), Arriving(w, link), s.tasks[t].phase.request;
    var s1 := s.(net := v.net);
    StillWaits(s, t, link, rx, v.net);
    if NextHow(w).Broken? || count == 0 {
      events := Meanwhile(w) + [At(t, GiveUp)];
      RunOnLast(s, Meanwhile(w), At(t, GiveUp));
      GivesUp(s1, t, link, rx);
      LeftBy(s, t, request, v.net, v.fates, Await(w, link, rx).outcome);
    } else {
      ChunkLimit(w, link);
      var u, f := Drained(v.net, link, count), Feed(rx, v.net.down[link][..count]);
      events := Meanwhile(w) + [At(t, Upstream(count))];
      RunOnLast(s, Meanwhile(w), At(t, Upstream(count)));
      ReadReturns(s1, t, link, rx, count);
      LeftBy(s, t, request, u, v.fates, Await(w, link, rx).outcome);
      if f.verdict.More? {
        DrainedDown(v.net, link, count);
        FewerFates(w, link);
        var fed := s.tasks[t].phase.fed + v.net.down[link][..count];
        var s2 := s.(net := u);
        StillWaits(s1, t, link, rx, u);
        WaitsLink(s2, t, link, rx);
        WaitsHolder(s2, t, link, rx);
        WaitsOn(s2, t, link, f.rx, fed);
        var s3 := Moved(s2, t, Reading(request, f.rx, fed));
        var more := AwaitRuns(s3, t, v.(net := u), link, f.rx);
        RunOnAppend(s, events, more);
        LeftIs(s, t, request, Await(v.(net := u), link, f.rx), u);
        events := events + more;
      }
    }
  }

  lemma WaitsHolder(s: State, t: nat, link: nat, rx: Rx)
    requires Waits(s, t, link, rx)
    ensures s.holder == Some(t)
  {
  }

  /** One task has moved to another phase; it is as before otherwise, and so are the other tasks. */
  predicate OnlyPhase(s: State, u: State, t: nat) {
    t < |s.tasks| == |u.tasks| && u.tasks == s.tasks[t := s.tasks[t].(phase := u.tasks[t].phase)]
  }

  /** Where the end of an exchange leaves a task, seen from outside; `request` is the number of its request. */
  predicate ExchangeEnded(s: State, u: State, t: nat, net: Net, conn: Option<nat>, outcome: Outcome, request: nat) {
    && OnlyPhase(s, u, t) && u.holder.None? && u.net == net && u.kept == conn
    && match outcome
       case Answer(rx) => u.tasks[t].phase == Replying(Reply(request, rx.raw))
       case Failure(_) => u.tasks[t].phase.Parsing?
       case Unwound => u.tasks[t].phase.Gone?
  }

  lemma LeftEnds(s: State, t: nat, request: nat, r: Awaited)
    requires t < |s.tasks|
    ensures ExchangeEnded(s, Left(s, t, request, r), t, r.world.net, if r.outcome.Failure? then None else s.kept,
                          r.outcome, request)
  {
  }

  /** A task, with the lock and its frame. */
  predicate Holds(s: State, t: nat, wire: seq<byte>) {
    t < |s.tasks| && s.holder == Some(t) && s.tasks[t].phase == Holding(wire)
  }

  lemma WriteReturns(s: State, t: nat, link: nat, wire: seq<byte>)
    requires Holds(s, t, wire) && s.kept == Some(link) && link < |s.net.down|
    ensures var u := Next(s, At(t, WriteDone));
            && Waits(u, t, link, Fresh(false)) && u.net == Sent(s.net, link, wire) && u.kept == s.kept
            && OnlyPhase(s, u, t) && u.tasks[t].phase.Reading? && u.tasks[t].phase.request == |s.net.log|
  {
    hide Frames;
  }

  lemma WriteLost(s: State, t: nat, link: nat, wire: seq<byte>, delivered: bool, failure: Failure)
    requires Holds(s, t, wire) && s.kept == Some(link)
    ensures var u := Next(s, At(t, WriteFails(delivered)));
            ExchangeEnded(s, u, t, if delivered then Sent(s.net, link, wire) else s.net, None, Outcome.Failure(failure),
                          |s.net.log|)
  {
    hide Frames;
  }

  lemma HoldsStill(s: State, t: nat, wire: seq<byte>, net: Net)
    requires Holds(s, t, wire)
    ensures Holds(s.(net := net), t, wire)
  {
  }

  lemma SpokenIs(w: World, link: nat, wire: seq<byte>)
    requires link < |w.net.down|
    ensures var v := Advance(w);
            var sent := v.(net := Sent(v.net, link, wire));
            |sent.net.down| == |w.net.down|
            && Spoken(w, link, wire) ==
            match NextHow(w)
            case Fine(_) => Await(sent, link, Fresh(false))
            case Expired(delivered) => Awaited(if delivered then sent else v, Outcome.Failure(NotSent(true)))
            case Broken(delivered) => Awaited(if delivered then sent else v, Outcome.Failure(NotSent(false)))
  {
    hide Await, Advance;
  }

  lemma EndedThrough(s: State, m: State, u: State, t: nat, net: Net, conn: Option<nat>, outcome: Outcome, request: nat)
    requires ExchangeEnded(m, u, t, net, conn, outcome, request) && OnlyPhase(s, m, t)
    ensures ExchangeEnded(s, u, t, net, conn, outcome, request)
  {
  }

  /** A write and its read loop are a run. */
  lemma SpokenRuns(s: State, t: nat, w: World, link: nat, wire: seq<byte>) returns (events: seq<Event>)
    requires Holds(s, t, wire) && s.kept == Some(link) && s.net == w.net && link < |w.net.down|
    ensures var r := Spoken(w, link, wire);
            ExchangeEnded(s, RunOn(s, events), t, r.world.net, if r.outcome.Failure? then None else Some(link), r.outcome,
                          |s.net.log|)
  {
    hide *;
    MeanwhileRuns(s, w);
    SpokenIs(w, link, wire);
    var v := Advance(w);
    var s1 := s.(net := v.net);
    HoldsStill(s, t, wire, v.net);
    NetOnly(s, t, wire, v.net);
    var request := |s.net.log|;
    match NextHow(w)
    case Fine(_) =>
      WriteReturns(s1, t, link, wire);
      var s2 := Next(s1, At(t, WriteDone));
      RunOnLast(s, Meanwhile(w), At(t, WriteDone));
      var more := AwaitRuns(s2, t, v.(net := Sent(v.net, link, wire)), link, Fresh(false));
      var r := Await(v.(net := Sent(v.net, link, wire)), link, Fresh(false));
      LeftEnds(s2, t, request, r);
      OnlyPhaseTrans(s, s1, s2, t);
      events := (Meanwhile(w) + [At(t, WriteDone)]) + more;
      RunOnAppend(s, Meanwhile(w) + [At(t, WriteDone)], more);
      EndedThrough(s, s2, RunOn(s, events), t, r.world.net, if r.outcome.Failure? then None else Some(link), r.outcome,
                   request);
    case Expired(delivered) =>
      events := Meanwhile(w) + [At(t, WriteFails(delivered))];
      RunOnLast(s, Meanwhile(w), At(t, WriteFails(delivered)));
      WriteLost(s1, t, link, wire, delivered, NotSent(true));
      var r := Spoken(w, link, wire);
      EndedThrough(s, s1, RunOn(s, events), t, r.world.net, None, r.outcome, request);
    case Broken(delivered) =>
      events := Meanwhile(w) + [At(t, WriteFails(delivered))];
      RunOnLast(s, Meanwhile(w), At(t, WriteFails(delivered)));
      WriteLost(s1, t, link, wire, delivered, NotSent(false));
      var r := Spoken(w, link, wire);
      EndedThrough(s, s1, RunOn(s, events), t, r.world.net, None, r.outcome, request);
  }

  lemma OnlyPhaseTrans(s: State, m: State, u: State, t: nat)
    requires OnlyPhase(s, m, t) && OnlyPhase(m, u, t)
    ensures OnlyPhase(s, u, t)
  {
  }

  lemma NetOnly(s: State, t: nat, wire: seq<byte>, net: Net)
    requires Holds(s, t, wire)
    ensures OnlyPhase(s, s.(net := net), t)
  {
  }

  /** A task, queued with a frame before the shared connection. */
  predicate Queues(s: State, t: nat, h: Held, wire: seq<byte>) {
    && t < |s.tasks| && s.holder.None? && s.tasks[t].phase == Queued(wire)
    && s.net == h.world.net && s.kept == h.conn
  }

  lemma Acquires(s: State, t: nat, h: Held, wire: seq<byte>)
    requires Queues(s, t, h, wire)
    ensures var u := Next(s, At(t, Acquire));
            && Holds(u, t, wire) && u.net == s.net && u.kept == s.kept
            && OnlyPhase(s, u, t)
  {
  }

  lemma Connects(s: State, t: nat, wire: seq<byte>)
    requires Holds(s, t, wire) && s.kept.None?
    ensures var u := Next(s, At(t, Connect(true)));
            && Holds(u, t, wire) && u.net == Opened(s.net) && u.kept == Some(|s.net.down|) && u.tasks == s.tasks
            && |u.net.log| == |s.net.log|
  {
  }

  lemma ConnectLost(s: State, t: nat, wire: seq<byte>, failure: Failure)
    requires Holds(s, t, wire) && s.kept.None?
    ensures ExchangeEnded(s, Next(s, At(t, Connect(false))), t, s.net, None, Outcome.Failure(failure), |s.net.log|)
  {
  }

  lemma RelayedIs(h: Held, wire: seq<byte>)
    requires h.Wired()
    ensures var r, v := Relayed(h, wire), Advance(h.world);
            match h.conn
            case Some(link) =>
              link < |h.world.net.down|
              && var a := Spoken(h.world, link, wire);
              r.outcome == a.outcome && r.held.world == a.world
              && r.held.conn == if a.outcome.Failure? then None else Some(link)
            case None =>
              if NextHow(h.world).Fine? then
                var link, w := |v.net.down|, v.(net := Opened(v.net));
                link < |w.net.down|
                && var a := Spoken(w, link, wire);
                r.outcome == a.outcome && r.held.world == a.world
                && r.held.conn == if a.outcome.Failure? then None else Some(link)
              else r.outcome.Failure? && r.held.world == v && r.held.conn.None?
  {
    hide Spoken, Advance;
  }

  /** An exchange of the proxy is a run, from taking the lock to giving it back. */
  lemma RelayRuns(s: State, t: nat, h: Held, wire: seq<byte>) returns (events: seq<Event>)
    requires Queues(s, t, h, wire) && h.Wired()
    ensures var r := Relayed(h, wire);
            ExchangeEnded(s, RunOn(s, events), t, r.held.world.net, r.held.conn, r.outcome, |s.net.log|)
  {
    hide *;
    RelayedIs(h, wire);
    Acquires(s, t, h, wire);
    QueuesParts(s, t, h, wire);
    var request := |s.net.log|;
    var r, w := Relayed(h, wire), h.world;
    var s1 := Next(s, At(t, Acquire));
    RunOnOne(s, At(t, Acquire));
    events := [At(t, Acquire)];
    if h.conn.Some? {
      var more := SpokenRuns(s1, t, w, h.conn.value, wire);
      RunOnAppend(s, events, more);
      events := events + more;
      EndedThrough(s, s1, RunOn(s, events), t, r.held.world.net, r.held.conn, r.outcome, request);
    } else {
      var v := Advance(w);
      MeanwhileRuns(s1, w);
      RunOnAppend(s, events, Meanwhile(w));
      events := events + Meanwhile(w);
      var s2 := s1.(net := v.net);
      HoldsStill(s1, t, wire, v.net);
      SameTasks(s, s1, s2, t);
      var ok := NextHow(w).Fine?;
      RunOnLast(s, events, At(t, Connect(ok)));
      events := events + [At(t, Connect(ok))];
      if ok {
        Connects(s2, t, wire);
        var s3, u := Next(s2, At(t, Connect(true))), v.(net := Opened(v.net));
        SameTasks(s, s2, s3, t);
        var more := SpokenRuns(s3, t, u, |v.net.down|, wire);
        RunOnAppend(s, events, more);
        events := events + more;
        EndedThrough(s, s3, RunOn(s, events), t, r.held.world.net, r.held.conn, r.outcome, request);
      } else {
        ConnectLost(s2, t, wire, r.outcome.why);
        EndedThrough(s, s2, RunOn(s, events), t, r.held.world.net, r.held.conn, r.outcome, request);
      }
    }
  }

  lemma SameTasks(s: State, m: State, u: State, t: nat)
    requires OnlyPhase(s, m, t) && u.tasks == m.tasks
    ensures OnlyPhase(s, u, t)
  {
  }

  lemma QueuesParts(s: State, t: nat, h: Held, wire: seq<byte>)
    requires Queues(s, t, h, wire)
    ensures t < |s.tasks| && s.net == h.world.net && s.kept == h.conn
  {
  }

  // A session

  function Answers(delivered: seq<Delivery>): seq<seq<byte>> {
    if delivered == [] then [] else Answers(delivered[..|delivered| - 1]) + [delivered[|delivered| - 1].reply.bytes]
  }

  /** Nothing has happened to the other tasks. */
  predicate OnlyTask(s: State, u: State, t: nat) {
    t < |s.tasks| == |u.tasks| && u.tasks == s.tasks[t := u.tasks[t]]
  }

  lemma OnlyTaskTrans(s: State, m: State, u: State, t: nat)
    requires OnlyTask(s, m, t) && OnlyTask(m, u, t)
    ensures OnlyTask(s, u, t)
  {
  }

  /** A task shows what the methods have come to. */
  predicate Shows(s: State, t: nat, v: Served) {
    && t < |s.tasks| && s.holder.None?
    && s.net == v.held.world.net && s.kept == v.held.conn
    && v.pump == s.tasks[t].stream.(running := v.pump.running)
    && (if v.pump.running then s.tasks[t].phase.Parsing? && s.tasks[t].stream.running else s.tasks[t].phase.Gone?)
    && Answers(s.tasks[t].delivered) == v.delivered
  }

  /** It shows it but for a frame that has been cut off and waits for its exchange. */
  predicate ShowsQueued(s: State, t: nat, v: Served, wire: seq<byte>) {
    && Queues(s, t, v.held, wire) && v.pump == s.tasks[t].stream && v.pump.running
    && Answers(s.tasks[t].delivered) == v.delivered
  }

  lemma AnswersLast(delivered: seq<Delivery>, d: Delivery)
    ensures Answers(delivered + [d]) == Answers(delivered) + [d.reply.bytes]
  {
    assert (delivered + [d])[..|delivered|] == delivered;
  }

  /** A byte that completes no frame. */
  lemma TakesByte(s: State, t: nat, v: Served, c: byte)
    requires Shows(s, t, v) && Serving(v) && v.pump.running
    ensures var u := Next(s, At(t, Downstream(c)));
            var q := v.(pump := Take(v.pump, c));
            if Step(v.pump.rx, c).verdict.Done? then ShowsQueued(u, t, q, Step(v.pump.rx, c).rx.raw) else Shows(u, t, q)
    ensures OnlyTask(s, Next(s, At(t, Downstream(c))), t)
  {
    var task := s.tasks[t];
    assert task.stream == v.pump;
    StillRuns(v.pump, c);
    hide Step, Take;
  }

  lemma StillRuns(p: Pump, c: byte)
    requires p.rx.Shaped() && p.running
    ensures Step(p.rx, c).verdict.Done? ==> Take(p, c).running
  {
    hide Step;
  }

  /** The answer is on its way to the client. */
  lemma DeliversAnswer(s: State, u: State, t: nat, v: Served, wire: seq<byte>, r: Conversed, request: nat)
    requires ShowsQueued(s, t, v, wire) && Serving(v) && r == Relayed(v.held, wire) && r.outcome.Answer?
    requires ExchangeEnded(s, u, t, r.held.world.net, r.held.conn, r.outcome, request)
    ensures Shows(Next(u, At(t, Deliver(Writable(v.writes)))), t, Handed(v, wire))
    ensures OnlyTask(s, Next(u, At(t, Deliver(Writable(v.writes)))), t)
  {
    hide Relayed, Answers, Handled, Writable, Later;
    AnswersLast(u.tasks[t].delivered, Delivery(Handled(u.tasks[t]), u.tasks[t].phase.reply));
  }

  lemma DeliversNone(s: State, u: State, t: nat, v: Served, wire: seq<byte>, r: Conversed, request: nat)
    requires ShowsQueued(s, t, v, wire) && Serving(v) && r == Relayed(v.held, wire) && !r.outcome.Answer?
    requires ExchangeEnded(s, u, t, r.held.world.net, r.held.conn, r.outcome, request)
    ensures Shows(u, t, Handed(v, wire)) && OnlyTask(s, u, t)
  {
    hide Relayed, Answers;
  }

  /** The answer delivered, or not. */
  lemma Delivers(s: State, u: State, t: nat, v: Served, wire: seq<byte>, r: Conversed, request: nat)
    returns (events: seq<Event>)
    requires ShowsQueued(s, t, v, wire) && Serving(v) && r == Relayed(v.held, wire)
    requires ExchangeEnded(s, u, t, r.held.world.net, r.held.conn, r.outcome, request)
    ensures Shows(RunOn(u, events), t, Handed(v, wire)) && OnlyTask(s, RunOn(u, events), t)
  {
    hide *;
    if r.outcome.Answer? {
      var e := At(t, Deliver(Writable(v.writes)));
      events := [e];
      RunOnOne(u, e);
      DeliversAnswer(s, u, t, v, wire, r, request);
    } else {
      events := [];
      RunOnNothing(u);
      DeliversNone(s, u, t, v, wire, r, request);
    }
  }

  lemma RunOnNothing(s: State)
    ensures RunOn(s, []) == s
  {
  }

  lemma HandedRuns(s: State, t: nat, v: Served, wire: seq<byte>) returns (events: seq<Event>)
    requires ShowsQueued(s, t, v, wire) && Serving(v)
    ensures Shows(RunOn(s, events), t, Handed(v, wire)) && OnlyTask(s, RunOn(s, events), t)
  {
    hide *;
    ServingWired(v);
    QueuedQueues(s, t, v, wire);
    events := RelayRuns(s, t, v.held, wire);
    var more := Delivers(s, RunOn(s, events), t, v, wire, Relayed(v.held, wire), |s.net.log|);
    RunOnAppend(s, events, more);
    events := events + more;
  }

  lemma ServingWired(v: Served)
    requires Serving(v)
    ensures v.held.Wired() && v.pump.rx.Shaped()
  {
  }

  lemma QueuedQueues(s: State, t: nat, v: Served, wire: seq<byte>)
    requires ShowsQueued(s, t, v, wire)
    ensures Queues(s, t, v.held, wire)
  {
  }

  lemma ServeByteIs(v: Served, c: byte)
    requires Serving(v)
    ensures v.pump.rx.Shaped()
    ensures var q, step := v.(pump := Take(v.pump, c)), Step(v.pump.rx, c);
            Serving(q) && ServeByte(v, c) == if step.verdict.Done? then Handed(q, step.rx.raw) else q
  {
    hide Step, Take, Handed;
  }

  lemma ByteRuns(s: State, t: nat, v: Served, c: byte) returns (events: seq<Event>)
    requires Shows(s, t, v) && Serving(v) && v.pump.running
    ensures Shows(RunOn(s, events), t, ServeByte(v, c)) && OnlyTask(s, RunOn(s, events), t)
  {
    hide *;
    ServeByteIs(v, c);
    TakesByte(s, t, v, c);
    var e := At(t, Downstream(c));
    RunOnOne(s, e);
    events := [e];
    if Step(v.pump.rx, c).verdict.Done? {
      var u := RunOn(s, events);
      var more := HandedRuns(u, t, v.(pump := Take(v.pump, c)), Step(v.pump.rx, c).rx.raw);
      RunOnAppend(s, events, more);
      OnlyTaskTrans(s, u, RunOn(u, more), t);
      events := events + more;
    }
  }

  lemma ShowsTask(s: State, t: nat, v: Served)
    requires Shows(s, t, v)
    ensures OnlyTask(s, RunOn(s, []), t) && RunOn(s, []) == s
  {
  }

  lemma {:induction false} AllRuns(s: State, t: nat, v: Served, d: seq<byte>) returns (events: seq<Event>)
    requires Shows(s, t, v) && Serving(v)
    ensures Shows(RunOn(s, events), t, ServeAll(v, d)) && OnlyTask(s, RunOn(s, events), t)
    decreases |d|
  {
    hide *;
    ServeAllNext(v, d);
    ShowsTask(s, t, v);
    if d == [] || !v.pump.running {
      events := [];
    } else {
      events := ByteRuns(s, t, v, d[0]);
      var u := RunOn(s, events);
      var more := AllRuns(u, t, ServeByte(v, d[0]), d[1..]);
      RunOnAppend(s, events, more);
      OnlyTaskTrans(s, u, RunOn(u, more), t);
      events := events + more;
    }
  }

  lemma {:induction false} ChunksRun(s: State, t: nat, v: Served, chunks: seq<seq<byte>>) returns (events: seq<Event>)
    requires Shows(s, t, v) && Serving(v)
    ensures Shows(RunOn(s, events), t, ServeChunks(v, chunks)) && OnlyTask(s, RunOn(s, events), t)
    decreases |chunks|
  {
    hide *;
    ServeChunksNext(v, chunks);
    ShowsTask(s, t, v);
    if chunks == [] || chunks[0] == [] {
      events := [];
    } else {
      events := AllRuns(s, t, v, chunks[0]);
      var u := RunOn(s, events);
      var more := ChunksRun(u, t, ServeAll(v, chunks[0]), chunks[1..]);
      RunOnAppend(s, events, more);
      OnlyTaskTrans(s, u, RunOn(u, more), t);
      events := events + more;
    }
  }

  /** The shared connection as a run has left it, before a script of the network. */
  function Shared(s: State, fates: seq<Fate>, tried: seq<seq<byte>>): Held {
    Held(s.kept, World(s.net, fates), tried)
  }

  lemma SharedReady(events: seq<Event>, fates: seq<Fate>, tried: seq<seq<byte>>)
    requires Run(events).holder.None?
    ensures Ready(Shared(Run(events), fates, tried))
  {
    RunKeeps(events);
    hide Run, TaskOk, Quiet, Awaiting;
  }

  /** A new client is one task more, with an empty session; nothing else changes. */
  lemma AcceptAdds(events: seq<Event>)
    ensures Run(events + [Accept])
         == Run(events).(tasks := Run(events).tasks + [Task(START_UP, [], Parsing, [])])
  {
    assert (events + [Accept])[..|events|] == events;
  }

  lemma NewcomerShows(s: State, h: Held, writable: seq<bool>)
    requires s.holder.None? && h.conn == s.kept && h.world.net == s.net && h.Wired()
    ensures var v := Served(START_UP, h, [], writable);
            Shows(s.(tasks := s.tasks + [Task(START_UP, [], Parsing, [])]), |s.tasks|, v) && Serving(v)
  {
  }

  /**
   * Any number of clients: whatever run there has been, if the lock is free then, and a client connects,
   * then whatever it sends, however that is cut into reads, and whatever the network does: what the
   * methods of the proxy come to is how the run goes on. The other clients' tasks stay as they are.
   */
  lemma ServedIsRun(events: seq<Event>, fates: seq<Fate>, tried: seq<seq<byte>>, chunks: seq<seq<byte>>,
                    writable: seq<bool>)
    returns (more: seq<Event>)
    requires Run(events).holder.None?
    ensures var s := Run(events);
            Shared(s, fates, tried).Wired()
            && var v := Served(START_UP, Shared(s, fates, tried), [], writable);
               var u := Run(events + [Accept] + more);
               && Shows(u, |s.tasks|, ServeChunks(v, chunks))
               && |u.tasks| == |s.tasks| + 1 && u.tasks[..|s.tasks|] == s.tasks
  {
    hide *;
    var s := Run(events);
    SharedReady(events, fates, tried);
    AcceptAdds(events);
    var h := Shared(s, fates, tried);
    SharedIs(s, fates, tried);
    NewcomerShows(s, h, writable);
    var m := Run(events + [Accept]);
    more := ChunksRun(m, |s.tasks|, Served(START_UP, h, [], writable), chunks);
    RunAppend(events + [Accept], more);
    Before(s, m, RunOn(m, more));
  }

  lemma SharedIs(s: State, fates: seq<Fate>, tried: seq<seq<byte>>)
    ensures Shared(s, fates, tried) == Held(s.kept, World(s.net, fates), tried)
  {
  }

  lemma Before(s: State, m: State, u: State)
    requires |m.tasks| == |s.tasks| + 1 && m.tasks[..|s.tasks|] == s.tasks && OnlyTask(m, u, |s.tasks|)
    ensures |u.tasks| == |s.tasks| + 1 && u.tasks[..|s.tasks|] == s.tasks
  {
  }

  // An undisturbed client

  /** The beginning of a frame is only taken. */
  lemma {:induction false} ServeWaiting(v: Served, d: seq<byte>)
    requires Serving(v) && v.pump.running && Feed(v.pump.rx, d).verdict.More?
    requires v.pump.rx.buffer != [] || d == [] || d[0] == START
    ensures ServeAll(v, d) == v.(pump := v.pump.(rx := Feed(v.pump.rx, d).rx))
    decreases |d|
  {
    ServeAllNext(v, d);
    if d == [] {
    } else {
      FeedCons(v.pump.rx, d);
      ServesBy(v, d[0]);
      StepBuffers(v.pump.rx, d[0]);
      hide Step, Feed, ServeAll, ServeByte;
      assert v.pump.segments + [] == v.pump.segments;
      ServeWaiting(ServeByte(v, d[0]), d[1..]);
    }
  }

  lemma {:induction false} ServeAllAppend(v: Served, a: seq<byte>, b: seq<byte>)
    requires Serving(v)
    ensures ServeAll(v, a + b) == ServeAll(ServeAll(v, a), b)
    decreases |a|
  {
    if a == [] {
      assert a + b == b;
    } else if v.pump.running {
      assert (a + b)[0] == a[0] && (a + b)[1..] == a[1..] + b;
      hide ServeByte;
      ServeAllAppend(ServeByte(v, a[0]), a[1..], b);
    }
  }

  lemma {:induction false} ServeChunksIsAll(v: Served, chunks: seq<seq<byte>>)
    requires Serving(v) && forall k :: k in chunks ==> k != []
    ensures ServeChunks(v, chunks) == ServeAll(v, Concat(chunks))
    decreases |chunks|
  {
    ServeChunksNext(v, chunks);
    if chunks == [] {
    } else {
      assert chunks[0] in chunks && forall k :: k in chunks[1..] ==> k in chunks;
      hide ServeAll, ServeChunks;
      ServeChunksIsAll(ServeAll(v, chunks[0]), chunks[1..]);
      ServeAllAppend(v, chunks[0], Concat(chunks[1..]));
    }
  }

  lemma RelayedAnswer(h: Held, wire: seq<byte>)
    requires h.Wired() && Converse(h, wire).outcome.Answer?
    ensures Relayed(h, wire) == Converse(h, wire)
  {
    hide Converse;
  }

  lemma AccountRaw(rx: Rx, verdict: Verdict, answer: seq<byte>)
    requires AccountOf(rx, verdict, answer)
    ensures rx.raw == Feed(Fresh(false), answer).rx.raw
  {
    hide Feed;
  }

  /**
   * A client that sends a frame, in any chunks, while nothing is outstanding upstream, and is not
   * disturbed, gets the answer, whatever it is and in whatever pieces it is read: the frame goes to
   * the device as it is, and the frame in the device's answer goes back.
   */
  lemma UndisturbedServed(h: Held, wire: seq<byte>, chunks: seq<seq<byte>>, others: seq<Move>, answer: seq<byte>,
                          sizes: seq<nat>)
    requires Genuine(Forwarded(wire)) && Concat(chunks) == wire && forall k :: k in chunks ==> k != []
    requires Ready(h) && Safe(answer) && Feed(Fresh(false), answer).verdict.Done?
    requires sizes != [] && (forall k :: k in sizes ==> k > 0)
    requires Unread(h) + Feed(Fresh(false), answer).used <= |sizes|
    ensures PieceReads(sizes) != [] && Prompted(h, others, answer, PieceReads(sizes)).Wired()
    ensures var t := ServeChunks(Served(START_UP, Prompted(h, others, answer, PieceReads(sizes)), [], []), chunks);
            && t.pump.running && t.delivered == [Feed(Fresh(false), answer).rx.raw]
            && t.held.world.net.log == PlayAll(NetOf(h), others).log + [Request(wire, LinkOf(h), Some(answer))]
  {
    hide *;
    PiecesStill(sizes, []);
    StillNotEmpty(PieceReads(sizes));
    PromptConverse(h, wire, others, answer, sizes);
    var g := Prompted(h, others, answer, PieceReads(sizes));
    RelayedAnswer(g, wire);
    AccountRaw(Converse(g, wire).outcome.rx, Done, answer);
    var v := Served(START_UP, g, [], []);
    ServingAtFirst(g);
    FrameCut(wire);
    var init, c := wire[..|wire| - 1], wire[|wire| - 1];
    assert wire == init + [c];
    ServeChunksIsAll(v, chunks);
    ServeAllAppend(v, init, [c]);
    ServeWaiting(v, init);
    var u := v.(pump := v.pump.(rx := Feed(Fresh(false), init).rx));
    ServeOneByte(u, c);
    ServesBy(u, c);
    ServingWith(u, Pump(Fresh(false), u.pump.segments + [Forwarded(wire)], true));
    HandedAnswer(u.(pump := Pump(Fresh(false), u.pump.segments + [Forwarded(wire)], true)), wire);
  }

  lemma ServingAtFirst(h: Held)
    requires h.Wired()
    ensures Serving(Served(START_UP, h, [], [])) && START_UP.rx == Fresh(false) && START_UP.running
  {
  }

  lemma ServingWith(v: Served, pump: Pump)
    requires Serving(v) && pump.rx.Shaped()
    ensures Serving(v.(pump := pump))
  {
  }

  lemma ServeOneByte(v: Served, c: byte)
    requires Serving(v) && v.pump.running
    ensures ServeAll(v, [c]) == ServeByte(v, c)
  {
    hide ServeByte;
    assert [c][1..] == [];
    assert ServeAll(v, [c]) == ServeAll(ServeByte(v, c), []);
  }

  /** An answer that can be written to the client is delivered. */
  lemma HandedAnswer(v: Served, wire: seq<byte>)
    requires Serving(v) && v.writes == [] && Relayed(v.held, wire).outcome.Answer?
    ensures var r := Relayed(v.held, wire);
            Handed(v, wire) == v.(held := r.held, delivered := v.delivered + [r.outcome.rx.raw])
  {
    hide Relayed;
  }

  /** A frame is decided by its last byte. */
  lemma FrameCut(wire: seq<byte>)
    requires Genuine(Forwarded(wire))
    ensures wire != [] && wire[0] == START
    ensures var init, c := wire[..|wire| - 1], wire[|wire| - 1];
            var f := Feed(Fresh(false), init);
            && f.verdict.More?
            && Step(f.rx, c).verdict.Done? && Step(f.rx, c).rx.raw == wire
  {
    hide *;
    ForwardedParts(wire);
    var init, c := wire[..|wire| - 1], wire[|wire| - 1];
    assert wire == init + [c];
    FeedAppend(Fresh(false), init, [c]);
    FeedOne(Feed(Fresh(false), init).rx, c);
  }

  lemma ForwardedParts(wire: seq<byte>)
    requires Genuine(Forwarded(wire))
    ensures wire != [] && wire[0] == START
    ensures var f := Feed(Fresh(false), wire);
            f.verdict.Done? && f.used == |wire| && f.rx.raw == wire
  {
    FreshLive(false);
    FeedReaches(Fresh(false), wire);
    hide Feed, Live, Reached;
    WholeWire(Fresh(false), wire, Feed(Fresh(false), wire));
  }

  /** And that is how every run goes on in which the lock is free and a client connects. */
  lemma UndisturbedAnswers(events: seq<Event>, wire: seq<byte>, chunks: seq<seq<byte>>, others: seq<Move>,
                           answer: seq<byte>, sizes: seq<nat>)
    returns (more: seq<Event>)
    requires Run(events).holder.None?
    requires Genuine(Forwarded(wire)) && Concat(chunks) == wire && forall k :: k in chunks ==> k != []
    requires Safe(answer) && Feed(Fresh(false), answer).verdict.Done?
    requires sizes != [] && (forall k :: k in sizes ==> k > 0)
    requires var h := Shared(Run(events), [], []); h.Wired() ==> Unread(h) + Feed(Fresh(false), answer).used <= |sizes|
    ensures var s, u := Run(events), Run(events + [Accept] + more);
            var h := Shared(s, [], []);
            && |u.tasks| == |s.tasks| + 1 && u.tasks[..|s.tasks|] == s.tasks && u.holder.None?
            && u.tasks[|s.tasks|].phase.Parsing?
            && Answers(u.tasks[|s.tasks|].delivered) == [Feed(Fresh(false), answer).rx.raw]
            && u.net.log == PlayAll(NetOf(h), others).log + [Request(wire, LinkOf(h), Some(answer))]
  {
    hide *;
    var s := Run(events);
    var h := Shared(s, [], []);
    SharedReady(events, [], []);
    UndisturbedServed(h, wire, chunks, others, answer, sizes);
    var g := Prompted(h, others, answer, PieceReads(sizes));
    PromptedShared(s, others, answer, PieceReads(sizes));
    more := ServedIsRun(events, g.world.fates, [], chunks, []);
    ServingAtFirst(g);
    ShownParts(Run(events + [Accept] + more), |s.tasks|, ServeChunks(Served(START_UP, g, [], []), chunks));
  }

  lemma PromptedShared(s: State, others: seq<Move>, answer: seq<byte>, pieces: seq<Fate>)
    requires pieces != []
    ensures var g := Prompted(Shared(s, [], []), others, answer, pieces);
            g == Shared(s, g.world.fates, [])
  {
    hide Prompt;
  }

  lemma ShownParts(s: State, t: nat, v: Served)
    requires Shows(s, t, v)
    ensures t < |s.tasks| && s.net == v.held.world.net && Answers(s.tasks[t].delivered) == v.delivered && s.holder.None?
    ensures v.pump.running ==> s.tasks[t].phase.Parsing?
  {
  }
}
