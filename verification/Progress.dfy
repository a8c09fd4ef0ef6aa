/**
 * What the proxy can always do, with any number of clients: from every run a client can connect and send
 * a frame, the lock can be given back, and every frame that waits can be answered.
 */
module Progress {
  import opened Bytes
  import opened Frame
  import opened Receive
  import opened ParserTheory
  import opened Session
  import opened Network
  import opened Exchanges
  import opened PromptAnswers
  import opened Multiplexer
  import opened Proxy
  import opened TaskRuns

  // A client sends a frame

  function BytesOf(t: nat, d: seq<byte>): seq<Event> {
    seq(|d|, i requires 0 <= i < |d| => At(t, Downstream(d[i])))
  }

  lemma ByteOf(t: nat, d: seq<byte>)
    requires d != []
    ensures BytesOf(t, d) != [] && BytesOf(t, d)[0] == At(t, Downstream(d[0])) && BytesOf(t, d)[1..] == BytesOf(t, d[1..])
  {
  }

  /** A task that has taken the beginning of a frame. */
  function Took(task: Task, d: seq<byte>): Task
    requires Feed(task.stream.rx, d).rx.Shaped()
  {
    task.(stream := task.stream.(rx := Feed(task.stream.rx, d).rx), taken := task.taken + d)
  }

  predicate Listens(s: State, t: nat) {
    t < |s.tasks| && s.tasks[t].phase.Parsing? && s.tasks[t].stream.running
  }

  /** A byte that decides nothing. */
  lemma TakesOne(s: State, t: nat, c: byte)
    requires Listens(s, t)
    requires var rx := s.tasks[t].stream.rx; Step(rx, c).verdict.More? && (rx.buffer != [] || c == START)
    ensures var task := s.tasks[t];
            Step(task.stream.rx, c).rx.Shaped()
            && Next(s, At(t, Downstream(c)))
               == s.(tasks := s.tasks[t := task.(stream := task.stream.(rx := Step(task.stream.rx, c).rx),
                                                  taken := task.taken + [c])])
  {
    hide Step;
    var p := s.tasks[t].stream;
    assert p.segments + [] == p.segments;
  }

  lemma {:induction false} TakesStart(s: State, t: nat, d: seq<byte>)
    requires Listens(s, t) && Feed(s.tasks[t].stream.rx, d).verdict.More?
    requires s.tasks[t].stream.rx.buffer != [] || d == [] || d[0] == START
    ensures Feed(s.tasks[t].stream.rx, d).rx.Shaped()
    ensures RunOn(s, BytesOf(t, d)) == s.(tasks := s.tasks[t := Took(s.tasks[t], d)])
    decreases |d|
  {
    hide *;
    ListensIs(s, t);
    if d == [] {
      FeedNothing(s.tasks[t].stream.rx);
      TookNothing(s, t);
    } else {
      var task := s.tasks[t];
      var rx, next := task.stream.rx, Step(task.stream.rx, d[0]).rx;
      FeedCons(rx, d);
      TakesOne(s, t, d[0]);
      StepBuffers(rx, d[0]);
      ByteOf(t, d);
      var one := task.(stream := task.stream.(rx := next), taken := task.taken + [d[0]]);
      var u := s.(tasks := s.tasks[t := one]);
      RunOnNext(s, BytesOf(t, d));
      StillListens(s, t, one);
      TakesStart(u, t, d[1..]);
      TookTwice(s, t, d, one);
    }
  }

  lemma TookNothing(s: State, t: nat)
    requires t < |s.tasks|
    ensures Feed(s.tasks[t].stream.rx, []).rx.Shaped()
    ensures RunOn(s, BytesOf(t, [])) == s.(tasks := s.tasks[t := Took(s.tasks[t], [])])
  {
    FeedNothing(s.tasks[t].stream.rx);
    assert s.tasks[t].taken + [] == s.tasks[t].taken && BytesOf(t, []) == [];
    hide Feed;
  }

  lemma RunOnNext(s: State, events: seq<Event>)
    requires events != []
    ensures RunOn(s, events) == RunOn(Next(s, events[0]), events[1..])
  {
    hide Next;
  }

  lemma StillListens(s: State, t: nat, task: Task)
    requires Listens(s, t) && task.phase == s.tasks[t].phase && task.stream.running
    ensures Listens(s.(tasks := s.tasks[t := task]), t)
  {
  }

  lemma TookTwice(s: State, t: nat, d: seq<byte>, one: Task)
    requires t < |s.tasks| && d != [] && Feed(s.tasks[t].stream.rx, d).rx.Shaped()
    requires one.stream.rx.Shaped() && Feed(one.stream.rx, d[1..]).rx == Feed(s.tasks[t].stream.rx, d).rx
    requires one == s.tasks[t].(stream := s.tasks[t].stream.(rx := one.stream.rx), taken := s.tasks[t].taken + [d[0]])
    ensures s.tasks[t := one][t := Took(one, d[1..])] == s.tasks[t := Took(s.tasks[t], d)]
  {
    hide Feed;
    assert (s.tasks[t].taken + [d[0]]) + d[1..] == s.tasks[t].taken + d;
  }

  lemma TakesLast(s: State, t: nat, c: byte)
    requires Listens(s, t) && Step(s.tasks[t].stream.rx, c).verdict.Done?
    ensures var task := s.tasks[t];
            var wire := Step(task.stream.rx, c).rx.raw;
            Next(s, At(t, Downstream(c)))
            == s.(tasks := s.tasks[t := Task(Pump(Fresh(false), task.stream.segments + [Forwarded(wire)], true),
                                              task.taken + [c], Queued(wire), task.delivered)])
  {
    hide Step;
  }

  /** A task that has taken a whole frame and waits for the lock. */
  function QueuedWith(task: Task, wire: seq<byte>): Task {
    Task(Pump(Fresh(false), task.stream.segments + [Forwarded(wire)], true), task.taken + wire, Queued(wire), task.delivered)
  }

  /** Whoever holds the lock: a client that sends a frame has it queued, byte for byte, and nothing else happens. */
  lemma FrameQueues(s: State, t: nat, wire: seq<byte>)
    requires Listens(s, t) && s.tasks[t].stream.rx == Fresh(false) && Genuine(Forwarded(wire))
    ensures RunOn(s, BytesOf(t, wire)) == s.(tasks := s.tasks[t := QueuedWith(s.tasks[t], wire)])
  {
    hide *;
    ListensIs(s, t);
    FrameCut(wire);
    var init, c := wire[..|wire| - 1], wire[|wire| - 1];
    LastByte(t, wire);
    TakesStart(s, t, init);
    RunOnLast(s, BytesOf(t, init), At(t, Downstream(c)));
    TookListens(s, t, init);
    TakesLast(s.(tasks := s.tasks[t := Took(s.tasks[t], init)]), t, c);
    TookThenQueued(s, t, init, c);
    assert wire == init + [c];
  }

  lemma ListensIs(s: State, t: nat)
    requires Listens(s, t)
    ensures t < |s.tasks| && s.tasks[t].phase.Parsing? && s.tasks[t].stream.running
  {
  }

  lemma LastByte(t: nat, wire: seq<byte>)
    requires wire != []
    ensures var init, c := wire[..|wire| - 1], wire[|wire| - 1];
            BytesOf(t, wire) == BytesOf(t, init) + [At(t, Downstream(c))] && (init != [] ==> init[0] == wire[0])
  {
  }

  lemma TookListens(s: State, t: nat, d: seq<byte>)
    requires Listens(s, t) && Feed(s.tasks[t].stream.rx, d).rx.Shaped()
    ensures var u := s.(tasks := s.tasks[t := Took(s.tasks[t], d)]);
            Listens(u, t) && u.tasks[t].stream.rx == Feed(s.tasks[t].stream.rx, d).rx
  {
    hide Feed;
  }

  lemma TookThenQueued(s: State, t: nat, init: seq<byte>, c: byte)
    requires t < |s.tasks| && Feed(s.tasks[t].stream.rx, init).rx.Shaped()
    ensures var u, wire := Took(s.tasks[t], init), init + [c];
            && QueuedWith(s.tasks[t], wire)
               == Task(Pump(Fresh(false), u.stream.segments + [Forwarded(wire)], true), u.taken + [c], Queued(wire),
                       u.delivered)
            && s.tasks[t := u][t := QueuedWith(s.tasks[t], wire)] == s.tasks[t := QueuedWith(s.tasks[t], wire)]
  {
    hide Feed;
    assert (s.tasks[t].taken + init) + [c] == s.tasks[t].taken + (init + [c]);
  }

  /** A client that goes ends its own task and changes nothing else; nothing happens to that task after that. */
  lemma ClientLeaves(s: State, t: nat, act: Act)
    requires Listens(s, t)
    ensures var u := Next(s, At(t, Leave));
            && u == s.(tasks := s.tasks[t := s.tasks[t].(phase := Gone)])
            && Next(u, At(t, act)) == u
  {
    hide Acted;
    assert Acted(s, t, Leave) == Moved(s, t, Gone) by {
      Leaving(s, t);
    }
  }

  lemma Leaving(s: State, t: nat)
    requires Listens(s, t)
    ensures Acted(s, t, Leave) == Moved(s, t, Gone)
  {
  }

  // The lock

  /** The lock given back by a task that gives up its frame. */
  function Freed(s: State, v: nat): State
    requires v < |s.tasks|
  {
    s.(tasks := s.tasks[v := s.tasks[v].(phase := Parsing)], holder := None, kept := None, open := {})
  }

  /** Whoever holds the lock, wherever it is: it can give it back, whatever the device does. */
  lemma LockReleases(s: State) returns (e: Event)
    requires Inv(s) && s.holder.Some?
    ensures s.holder.value < |s.tasks| && e.At? && e.task == s.holder.value && Next(s, e) == Freed(s, s.holder.value)
  {
    hide TaskOk, Linked, Quiet, Awaiting;
    var v := s.holder.value;
    assert Critical(s.tasks[v].phase);
    if s.tasks[v].phase.Reading? {
      e := At(v, GiveUp);
    } else if s.kept.Some? {
      e := At(v, WriteFails(false));
    } else {
      e := At(v, Connect(false));
    }
  }

  // Frames that wait are answered

  /** A task whose frame has been answered. */
  function AnsweredWith(task: Task, request: nat, answer: seq<byte>): Task {
    var reply := Reply(request, Feed(Fresh(false), answer).rx.raw);
    task.(phase := Parsing, delivered := task.delivered + [Delivery(Handled(task), reply)])
  }

  lemma DeliversTo(s: State, u: State, t: nat, net: Net, conn: Option<nat>, rx: Rx, request: nat, answer: seq<byte>)
    requires ExchangeEnded(s, u, t, net, conn, Answer(rx), request) && AccountOf(rx, Done, answer)
    ensures Next(u, At(t, Deliver(true)))
         == u.(tasks := s.tasks[t := AnsweredWith(s.tasks[t], request, answer)]) && u.holder.None? && u.net == net
  {
    hide Feed, Frames;
  }

  lemma QueuedNow(s: State, t: nat, h: Held)
    requires t < |s.tasks| && s.tasks[t].phase.Queued? && s.holder.None? && h.world.net == s.net && h.conn == s.kept
    ensures Queues(s, t, h, s.tasks[t].phase.wire)
  {
  }

  lemma StateReady(s: State, fates: seq<Fate>)
    requires Inv(s) && s.holder.None?
    ensures Ready(Shared(s, fates, []))
  {
    hide TaskOk, Quiet, Awaiting;
  }

  /**
   * Every frame that waits for the lock, of whichever client, can be answered as soon as the lock is free:
   * there are events after which its own answer, read in pieces of any sizes, has been delivered to that
   * client. Its request is added to the log, and the other tasks stay as they are.
   */
  lemma AnswerQueued(s: State, t: nat, others: seq<Move>, answer: seq<byte>, sizes: seq<nat>) returns (events: seq<Event>)
    requires Inv(s) && s.holder.None? && t < |s.tasks| && s.tasks[t].phase.Queued?
    requires Safe(answer) && Feed(Fresh(false), answer).verdict.Done?
    requires sizes != [] && forall k :: k in sizes ==> k > 0
    requires var h := Shared(s, [], []); h.Wired() ==> Unread(h) + Feed(Fresh(false), answer).used <= |sizes|
    ensures var u, h := RunOn(s, events), Shared(s, [], []);
            && Inv(u) && u.holder.None?
            && u.tasks == s.tasks[t := AnsweredWith(s.tasks[t], |s.net.log|, answer)]
            && u.net.log == PlayAll(NetOf(h), others).log + [Request(s.tasks[t].phase.wire, LinkOf(h), Some(answer))]
  {
    hide *;
    var h, wire := Shared(s, [], []), s.tasks[t].phase.wire;
    StateReady(s, []);
    PiecesStill(sizes, []);
    StillNotEmpty(PieceReads(sizes));
    PromptConverse(h, wire, others, answer, sizes);
    var g := Prompted(h, others, answer, PieceReads(sizes));
    PromptedShared(s, others, answer, PieceReads(sizes));
    SharedIs(s, g.world.fates, []);
    RelayedAnswer(g, wire);
    QueuedNow(s, t, g);
    events := RelayRuns(s, t, g, wire);
    var r, u := Relayed(g, wire), RunOn(s, events);
    DeliversTo(s, u, t, r.held.world.net, r.held.conn, r.outcome.rx, |s.net.log|, answer);
    RunOnLast(s, events, At(t, Deliver(true)));
    events := events + [At(t, Deliver(true))];
    RunOnKeeps(s, events);
  }

  lemma {:induction false} RunOnKeeps(s: State, events: seq<Event>)
    requires Inv(s)
    ensures Inv(RunOn(s, events))
    decreases |events|
  {
    if events != [] {
      NextKeeps(s, events[0]);
      hide Inv, Next;
      RunOnKeeps(Next(s, events[0]), events[1..]);
    }
  }

  /** What became of a task whose frame waited: the frame in this answer to its request has been delivered. */
  ghost predicate ServedWith(net: Net, before: Task, after: Task, answer: seq<byte>)
    requires before.phase.Queued?
  {
    exists request: nat ::
      && request < |net.log| && after == AnsweredWith(before, request, answer)
      && net.log[request].wire == before.phase.wire && net.log[request].answer == Some(answer)
  }

  lemma ServedStays(net: Net, later: Net, before: Task, after: Task, answer: seq<byte>)
    requires before.phase.Queued? && ServedWith(net, before, after, answer) && net.log <= later.log
    ensures ServedWith(later, before, after, answer)
  {
    var request: nat :| && request < |net.log| && after == AnsweredWith(before, request, answer)
                        && net.log[request].wire == before.phase.wire && net.log[request].answer == Some(answer);
    assert later.log[request] == net.log[request];
    hide AnsweredWith;
  }

  /** The tasks before the k-th whose frames waited have been served, and nothing has happened to the others. */
  ghost predicate AllServed(s: State, u: State, answers: seq<seq<byte>>, k: nat) {
    && |u.tasks| == |s.tasks| == |answers|
    && forall t :: 0 <= t < |s.tasks| ==>
         if t < k && s.tasks[t].phase.Queued? then ServedWith(u.net, s.tasks[t], u.tasks[t], answers[t])
         else u.tasks[t] == s.tasks[t]
  }

  predicate AllGood(answers: seq<seq<byte>>) {
    forall a :: a in answers ==> Safe(a) && Feed(Fresh(false), a).verdict.Done?
  }

  lemma Good(answers: seq<seq<byte>>, t: nat)
    requires AllGood(answers) && t < |answers|
    ensures Safe(answers[t]) && Feed(Fresh(false), answers[t]).verdict.Done?
  {
    hide Safe, Feed;
    assert answers[t] in answers;
  }

  lemma ServesNext(s: State, u: State, v: State, answers: seq<seq<byte>>, k: nat, link: nat)
    requires AllServed(s, u, answers, k) && k < |s.tasks| && s.tasks[k].phase.Queued?
    requires v.tasks == u.tasks[k := AnsweredWith(u.tasks[k], |u.net.log|, answers[k])]
    requires v.net.log == u.net.log + [Request(u.tasks[k].phase.wire, link, Some(answers[k]))]
    ensures AllServed(s, v, answers, k + 1)
  {
    hide AnsweredWith, ServedWith;
    assert u.tasks[k] == s.tasks[k];
    forall t | 0 <= t < |s.tasks|
      ensures if t < k + 1 && s.tasks[t].phase.Queued? then ServedWith(v.net, s.tasks[t], v.tasks[t], answers[t])
              else v.tasks[t] == s.tasks[t]
    {
      if t < k && s.tasks[t].phase.Queued? {
        ServedStays(u.net, v.net, s.tasks[t], u.tasks[t], answers[t]);
      } else if t == k {
        ServedNow(v.net, s.tasks[t], v.tasks[t], answers[t], |u.net.log|);
      }
    }
  }

  lemma ServedNow(net: Net, before: Task, after: Task, answer: seq<byte>, request: nat)
    requires before.phase.Queued? && request < |net.log| && after == AnsweredWith(before, request, answer)
    requires net.log[request].wire == before.phase.wire && net.log[request].answer == Some(answer)
    ensures ServedWith(net, before, after, answer)
  {
    hide AnsweredWith;
  }

  lemma ServesNone(s: State, u: State, answers: seq<seq<byte>>, k: nat)
    requires AllServed(s, u, answers, k) && k < |s.tasks| && !s.tasks[k].phase.Queued?
    ensures AllServed(s, u, answers, k + 1)
  {
    hide ServedWith;
  }

  /** As many reads, of one byte each, as an answer can take. */
  lemma EnoughReads(h: Held, answer: seq<byte>) returns (sizes: seq<nat>)
    requires h.Wired()
    ensures sizes != [] && (forall k :: k in sizes ==> k > 0)
    ensures Unread(h) + Feed(Fresh(false), answer).used <= |sizes|
  {
    sizes := seq(Unread(h) + Feed(Fresh(false), answer).used + 1, i => 1);
    hide Feed;
  }

  lemma NothingElse(s: State)
    ensures PlayAll(NetOf(Shared(s, [], [])), []).log == s.net.log
  {
  }

  lemma ServedParts(s: State, u: State, answers: seq<seq<byte>>, k: nat)
    requires AllServed(s, u, answers, k) && k < |s.tasks|
    ensures |u.tasks| == |s.tasks| && u.tasks[k] == s.tasks[k]
  {
    hide ServedWith;
  }

  lemma {:induction false} ServeUpTo(s: State, answers: seq<seq<byte>>, k: nat) returns (events: seq<Event>)
    requires Inv(s) && s.holder.None? && k <= |s.tasks| == |answers| && AllGood(answers)
    ensures var u := RunOn(s, events); Inv(u) && u.holder.None? && AllServed(s, u, answers, k)
    decreases k
  {
    hide *;
    if k == 0 {
      events := [];
      RunOnNothing(s);
      NoneServed(s, answers);
    } else {
      events := ServeUpTo(s, answers, k - 1);
      var u := RunOn(s, events);
      ServedParts(s, u, answers, k - 1);
      if s.tasks[k - 1].phase.Queued? {
        Good(answers, k - 1);
        StateReady(u, []);
        var sizes := EnoughReads(Shared(u, [], []), answers[k - 1]);
        var more := AnswerQueued(u, k - 1, [], answers[k - 1], sizes);
        NothingElse(u);
        RunOnAppend(s, events, more);
        ServesNext(s, u, RunOn(u, more), answers, k - 1, LinkOf(Shared(u, [], [])));
        events := events + more;
      } else {
        ServesNone(s, u, answers, k - 1);
      }
    }
  }

  lemma NoneServed(s: State, answers: seq<seq<byte>>)
    requires |answers| == |s.tasks|
    ensures AllServed(s, s, answers, 0)
  {
  }

  /** The lock free: given back by whoever held it, and nothing else. */
  function Unlocked(s: State): State {
    if s.holder.Some? && s.holder.value < |s.tasks| then Freed(s, s.holder.value) else s
  }

  lemma Unlocks(s: State) returns (events: seq<Event>)
    requires Inv(s)
    ensures RunOn(s, events) == Unlocked(s) && Inv(Unlocked(s)) && Unlocked(s).holder.None?
  {
    hide *;
    if s.holder.Some? {
      var e := LockReleases(s);
      events := [e];
      RunOnOne(s, e);
      NextKeeps(s, e);
    } else {
      events := [];
      RunOnNothing(s);
    }
    UnlockedIs(s);
  }

  lemma UnlockedIs(s: State)
    ensures |Unlocked(s).tasks| == |s.tasks| && Unlocked(s).net == s.net
    ensures Unlocked(s) == if s.holder.Some? && s.holder.value < |s.tasks| then Freed(s, s.holder.value) else s
    ensures s.holder.Some? && s.holder.value < |s.tasks| ==> Unlocked(s).holder.None?
  {
  }

  /**
   * No frame is stuck, however many clients there are: every run can go on so that every frame that
   * waits then is answered, each with an answer of its own. Nothing happens to the other tasks, except
   * that one that holds the lock may give up its frame.
   */
  lemma EveryFrameAnswered(events: seq<Event>, answers: seq<seq<byte>>) returns (more: seq<Event>)
    requires |answers| == |Run(events).tasks| && AllGood(answers)
    ensures var s, u := Unlocked(Run(events)), Run(events + more);
            u.holder.None? && AllServed(s, u, answers, |answers|)
  {
    hide *;
    RunKeeps(events);
    var s := Run(events);
    var first := Unlocks(s);
    UnlockedIs(s);
    var rest := ServeUpTo(Unlocked(s), answers, |answers|);
    RunOnAppend(s, first, rest);
    more := first + rest;
    RunAppend(events, more);
  }

  /** A client that has connected, sent one frame, and got its answer. */
  function FirstServed(wire: seq<byte>, request: nat, answer: seq<byte>): Task {
    Task(Pump(Fresh(false), [Forwarded(wire)], true), wire, Parsing,
         [Delivery(0, Reply(request, Feed(Fresh(false), answer).rx.raw))])
  }

  lemma FirstServedIs(wire: seq<byte>, request: nat, answer: seq<byte>)
    ensures var newcomer := Task(START_UP, [], Parsing, []);
            && AnsweredWith(QueuedWith(newcomer, wire), request, answer) == FirstServed(wire, request, answer)
            && QueuedWith(newcomer, wire).phase == Queued(wire)
  {
    hide Feed;
    FramesLast([], Forwarded(wire));
    assert [] + [Forwarded(wire)] == [Forwarded(wire)] && [] + wire == wire;
  }

  lemma NewcomerListens(s: State)
    ensures var u := s.(tasks := s.tasks + [Task(START_UP, [], Parsing, [])]);
            Listens(u, |s.tasks|) && u.tasks[|s.tasks|].stream.rx == Fresh(false)
  {
  }

  lemma NewcomerQueued(s: State, wire: seq<byte>)
    ensures var newcomer := Task(START_UP, [], Parsing, []);
            var q := QueuedWith(newcomer, wire);
            (s.tasks + [newcomer])[|s.tasks| := q] == s.tasks + [q]
  {
    hide QueuedWith;
  }

  lemma NewcomerAnswered(s: State, q: Task, a: Task)
    ensures (s.tasks + [q])[|s.tasks| := a] == s.tasks + [a]
  {
  }

  lemma UnlockedLater(s: State, q: Task)
    requires Inv(s)
    ensures Unlocked(s.(tasks := s.tasks + [q])) == Unlocked(s).(tasks := Unlocked(s).tasks + [q])
  {
    hide TaskOk, Linked, Quiet, Awaiting;
  }

  /**
   * In every run, however many clients there are and whoever holds the lock: a client can connect, send a
   * frame, and be answered. Its request is added to the log with its own answer, that answer is what the
   * client gets, and the other clients' tasks stay as they are, but for one that held the lock.
   */
  lemma NewClientServed(events: seq<Event>, wire: seq<byte>, answer: seq<byte>) returns (more: seq<Event>, link: nat)
    requires Genuine(Forwarded(wire)) && Safe(answer) && Feed(Fresh(false), answer).verdict.Done?
    ensures var s, u := Unlocked(Run(events)), Run(events + [Accept] + more);
            && u.tasks == s.tasks + [FirstServed(wire, |s.net.log|, answer)] && u.holder.None?
            && u.net.log == s.net.log + [Request(wire, link, Some(answer))]
  {
    hide *;
    RunKeeps(events);
    var s, n := Run(events), |Run(events).tasks|;
    AcceptAdds(events);
    RunKeeps(events + [Accept]);
    var m := Run(events + [Accept]);
    NewcomerListens(s);
    FrameQueues(m, n, wire);
    NewcomerQueued(s, wire);
    var q := QueuedWith(Task(START_UP, [], Parsing, []), wire);
    FirstServedIs(wire, |s.net.log|, answer);
    var v := s.(tasks := s.tasks + [q]);
    RunOnKeeps(m, BytesOf(n, wire));
    var first := Unlocks(v);
    UnlockedLater(s, q);
    UnlockedIs(s);
    UnlockedIs(v);
    StateReady(Unlocked(v), []);
    var sizes := EnoughReads(Shared(Unlocked(v), [], []), answer);
    var rest := AnswerQueued(Unlocked(v), n, [], answer, sizes);
    NothingElse(Unlocked(v));
    NewcomerAnswered(Unlocked(s), q, FirstServed(wire, |s.net.log|, answer));
    RunOnAppend(m, BytesOf(n, wire), first);
    RunOnAppend(m, BytesOf(n, wire) + first, rest);
    more := BytesOf(n, wire) + first + rest;
    RunAppend(events + [Accept], more);
    link := LinkOf(Shared(Unlocked(v), [], []));
  }
}
