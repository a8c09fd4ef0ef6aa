/**
 * The proxy as a whole: any number of client tasks that share one connection under a lock, a
 * device that answers when it likes, and a network that may fail anywhere. A run is a sequence
 * of events; an event that is not possible in a state leaves it as it is.
 */
module Proxy {
  import opened Bytes
  import opened Receive
  import opened Session
  import opened Network
  import opened Exchanges

  type Parser = r: Rx | r.Shaped() witness Fresh(false)

  type Stream = p: Pump | p.rx.Shaped() witness START_UP

  /** Where a task is. */
  datatype Phase =
    | Parsing
    | Queued(wire: seq<byte>)
    | Holding(wire: seq<byte>)
    | Reading(request: nat, rx: Parser, fed: seq<byte>)
    | Replying(reply: Reply)
    | Gone

  /** An answer for a client, and the number of the request that it was received for. */
  datatype Reply = Reply(request: nat, bytes: seq<byte>)

  /** An answer delivered, and the number of the frame that was being handled then. */
  datatype Delivery = Delivery(frame: nat, reply: Reply)

  /** A task: its session, the bytes taken so far, where it is, and the answers delivered. */
  datatype Task = Task(stream: Stream, taken: seq<byte>, phase: Phase, delivered: seq<Delivery>)

  /** Who sent a request: which task, and the number of the frame in its session. */
  datatype Sender = Sender(task: nat, frame: nat)

  /** All tasks, the lock, the connection it guards, the connections open, the device's side, and who sent what. */
  datatype State = State(
    tasks: seq<Task>,
    holder: Option<nat>,
    kept: Option<nat>,
    open: set<nat>,
    net: Net,
    senders: seq<Sender>
  )

  const INITIAL: State := State([], None, None, {}, Net([], []), [])

  /** What can happen to a task. */
  datatype Act =
    | Downstream(c: byte)
    | Leave
    | Acquire
    | Connect(ok: bool)
    | WriteDone
    | WriteFails(delivered: bool)
    | Upstream(count: nat)
    | GiveUp
    | Deliver(ok: bool)

  /** A client connects, the device makes a move, or something happens to a task. */
  datatype Event = Accept | Device(move: Move) | At(task: nat, act: Act)

  function Moved(s: State, t: nat, phase: Phase): State
    requires t < |s.tasks|
  {
    s.(tasks := s.tasks[t := s.tasks[t].(phase := phase)])
  }

  /** A task gives the lock back. */
  function Released(s: State, t: nat, phase: Phase): State
    requires t < |s.tasks|
  {
    Moved(s, t, phase).(holder := None)
  }

  /** The connection is dropped and the lock given back: what follows an error. */
  function Disconnected(s: State, t: nat): State
    requires t < |s.tasks|
  {
    Released(s, t, Parsing).(kept := None, open := if s.kept.Some? then s.open - {s.kept.value} else s.open)
  }

  /** A byte from the client. */
  function Taking(task: Task, c: byte): Task {
    var step, next := Step(task.stream.rx, c), Take(task.stream, c);
    var phase := if step.verdict.Done? then Queued(step.rx.raw) else if next.running then Parsing else Gone;
    Task(next, task.taken + [c], phase, task.delivered)
  }

  /** The number of the frame that a task handles: the last one its session has cut off. */
  function Handled(task: Task): nat {
    var n := |Frames(task.stream.segments)|;
    if n > 0 then n - 1 else 0
  }

  /** The request of a task reaches the device. */
  function Requested(s: State, t: nat, wire: seq<byte>): State
    requires t < |s.tasks| && s.kept.Some?
  {
    s.(net := Sent(s.net, s.kept.value, wire), senders := s.senders + [Sender(t, Handled(s.tasks[t]))])
  }

  /** A read of the answer returns. */
  function OnRead(s: State, t: nat, count: nat): State
    requires t < |s.tasks| && s.tasks[t].phase.Reading? && s.kept.Some?
    requires s.kept.value < |s.net.down| && count <= |s.net.down[s.kept.value]|
  {
    var c, phase := s.kept.value, s.tasks[t].phase;
    var chunk := s.net.down[c][..count];
    var u := s.(net := Drained(s.net, c, count));
    var f := Feed(phase.rx, chunk);
    match f.verdict
    case More => Moved(u, t, Reading(phase.request, f.rx, phase.fed + chunk))
    case Done => Released(u, t, Replying(Reply(phase.request, f.rx.raw)))
    case Failed(_) => Disconnected(u, t)
    case Panicked => Released(u, t, Gone)
  }

  /** The answer has been written to the client. */
  function Delivered(task: Task): Task
    requires task.phase.Replying?
  {
    task.(phase := Parsing, delivered := task.delivered + [Delivery(Handled(task), task.phase.reply)])
  }

  /** Whether it can happen in the phase a task is in. */
  predicate Enabled(s: State, t: nat, act: Act)
    requires t < |s.tasks|
  {
    var phase := s.tasks[t].phase;
    match act
    case Downstream(_) => phase.Parsing?
    case Leave => phase.Parsing?
    case Acquire => phase.Queued? && s.holder.None?
    case Connect(_) => phase.Holding? && s.kept.None?
    case WriteDone => phase.Holding? && s.kept.Some?
    case WriteFails(_) => phase.Holding? && s.kept.Some?
    case Upstream(count) =>
      phase.Reading? && s.kept.Some? && s.kept.value < |s.net.down|
      && 0 < count <= |s.net.down[s.kept.value]| && count <= CHUNK
    case GiveUp => phase.Reading?
    case Deliver(_) => phase.Replying?
  }

  function Acted(s: State, t: nat, act: Act): State
    requires t < |s.tasks| && Enabled(s, t, act)
  {
    var task := s.tasks[t];
    match act
    case Downstream(c) => s.(tasks := s.tasks[t := Taking(task, c)])
    case Leave => Moved(s, t, Gone)
    case Acquire => Moved(s, t, Holding(task.phase.wire)).(holder := Some(t))
    case Connect(ok) =>
      if ok then s.(net := Opened(s.net), kept := Some(|s.net.down|), open := s.open + {|s.net.down|})
      else Released(s, t, Parsing)
    case WriteDone => Moved(Requested(s, t, task.phase.wire), t, Reading(|s.net.log|, Fresh(false), []))
    case WriteFails(delivered) => Disconnected(if delivered then Requested(s, t, task.phase.wire) else s, t)
    case Upstream(count) => OnRead(s, t, count)
    case GiveUp => Disconnected(s, t)
    case Deliver(ok) =>
      if ok then s.(tasks := s.tasks[t := Delivered(task)])
      else Moved(s, t, Gone)
  }

  function Next(s: State, e: Event): State {
    match e
    case Accept => s.(tasks := s.tasks + [Task(START_UP, [], Parsing, [])])
    case Device(move) => s.(net := Play(s.net, move))
    case At(t, act) => if t < |s.tasks| && Enabled(s, t, act) then Acted(s, t, act) else s
  }

  function Run(events: seq<Event>): State {
    if events == [] then INITIAL else Next(Run(events[..|events| - 1]), events[|events| - 1])
  }

  // What every step keeps

  predicate Critical(phase: Phase) {
    phase.Holding? || phase.Reading?
  }

  /** One task at most is between taking the lock and giving it back. */
  predicate Locked(s: State) {
    && (s.holder.Some? ==> s.holder.value < |s.tasks|)
    && forall t :: 0 <= t < |s.tasks| ==> (Critical(s.tasks[t].phase) <==> s.holder == Some(t))
  }

  /** One connection at most is open: the one that is kept. */
  predicate OneOpen(s: State) {
    s.open == if s.kept.Some? then {s.kept.value} else {}
  }

  /** Without an exchange under way nothing is outstanding on the connection kept; otherwise only its answer is. */
  ghost predicate Orderly(s: State) {
    if s.holder.Some? && s.holder.value < |s.tasks| && s.tasks[s.holder.value].phase.Reading? then
      var phase := s.tasks[s.holder.value].phase;
      && s.kept.Some? && phase.request == |s.net.log| - 1 && phase.request < |s.senders|
      && s.senders[phase.request].task == s.holder.value
      && Awaiting(s.net, s.kept.value, phase.rx, phase.fed)
    else s.kept.Some? ==> Quiet(s.net, s.kept.value)
  }

  /** How many frames of a task have been taken to the connection. */
  function Started(task: Task): int {
    |Frames(task.stream.segments)| - if task.phase.Queued? || task.phase.Holding? then 1 else 0
  }

  /** The n-th request, if it is task t's, is a frame of it, and a later one than those before. */
  ghost predicate InOrder(net: Net, senders: seq<Sender>, t: nat, task: Task, n: nat)
    requires n < |senders| == |net.log|
  {
    senders[n].task == t ==>
      && senders[n].frame < Started(task)
      && senders[n].frame < |Frames(task.stream.segments)|
      && net.log[n].wire == Frames(task.stream.segments)[senders[n].frame]
      && forall m :: 0 <= m < n && senders[m].task == t ==> senders[m].frame < senders[n].frame
  }

  /** A reply is what the device answered to a request of task t. */
  ghost predicate Earned(net: Net, senders: seq<Sender>, t: nat, reply: Reply) {
    && reply.request < |senders| == |net.log|
    && senders[reply.request].task == t
    && net.log[reply.request].answer.Some?
    && var f := Feed(Fresh(false), net.log[reply.request].answer.value);
       f.verdict.Done? && reply.bytes == f.rx.raw
  }

  /** Requests from here on are later than those of the replies delivered. */
  function Limit(net: Net, task: Task): nat {
    match task.phase
    case Reading(n, _, _) => n
    case Replying(r) => r.request
    case _ => |net.log|
  }

  /** The i-th delivery answers the request that was sent for the frame being handled, and is in order. */
  ghost predicate Replied(net: Net, senders: seq<Sender>, t: nat, task: Task, i: nat)
    requires i < |task.delivered|
  {
    var d := task.delivered;
    && Earned(net, senders, t, d[i].reply)
    && senders[d[i].reply.request].frame == d[i].frame
    && d[i].reply.request < (if i + 1 < |d| then d[i + 1].reply.request else Limit(net, task))
  }

  /** The request of an exchange under way, or just answered, is the one sent for the frame being handled. */
  ghost predicate Handling(senders: seq<Sender>, t: nat, task: Task, phase: Phase) {
    phase.Reading? || phase.Replying? ==>
      var request := if phase.Reading? then phase.request else phase.reply.request;
      request < |senders| && senders[request] == Sender(t, Handled(task))
  }

  ghost predicate Streams(task: Task) {
    && task.stream == TakeAll(START_UP, task.taken)
    && (!task.phase.Gone? ==> task.stream.running)
    && (task.phase.Queued? || task.phase.Holding? ==>
          var frames := Frames(task.stream.segments);
          frames != [] && frames[|frames| - 1] == task.phase.wire)
  }

  ghost predicate TaskOk(net: Net, senders: seq<Sender>, t: nat, task: Task)
    requires |senders| == |net.log|
  {
    && Streams(task)
    && (forall n :: 0 <= n < |senders| ==> InOrder(net, senders, t, task, n))
    && (forall i :: 0 <= i < |task.delivered| ==> Replied(net, senders, t, task, i))
    && Handling(senders, t, task, task.phase)
    && (task.phase.Replying? ==> Earned(net, senders, t, task.phase.reply))
  }

  ghost predicate Inv(s: State) {
    && |s.senders| == |s.net.log|
    && (forall n :: 0 <= n < |s.senders| ==> s.senders[n].task < |s.tasks|)
    && Linked(s.net) && Locked(s) && OneOpen(s) && Orderly(s)
    && forall t :: 0 <= t < |s.tasks| ==> TaskOk(s.net, s.senders, t, s.tasks[t])
  }

  // Tasks

  /** The log goes on: answers and requests are added. */
  ghost predicate Extends(net: Net, senders: seq<Sender>, after: Net, later: seq<Sender>) {
    Grew(net, after) && senders <= later && |senders| == |net.log| && |later| == |after.log|
  }

  /** The requests added are not task t's. */
  ghost predicate OthersOnly(senders: seq<Sender>, later: seq<Sender>, t: nat) {
    forall n :: |senders| <= n < |later| ==> later[n].task != t
  }

  lemma InOrderExtends(net: Net, senders: seq<Sender>, after: Net, later: seq<Sender>, t: nat, task: Task, n: nat)
    requires Extends(net, senders, after, later) && OthersOnly(senders, later, t) && n < |later|
    requires n < |senders| ==> InOrder(net, senders, t, task, n)
    ensures InOrder(after, later, t, task, n)
  {
    hide Frames, Started;
    if n < |senders| {
      assert Kept(net.log[n], after.log[n]);
    }
  }

  lemma EarnedExtends(net: Net, senders: seq<Sender>, after: Net, later: seq<Sender>, t: nat, reply: Reply)
    requires Extends(net, senders, after, later) && Earned(net, senders, t, reply)
    ensures Earned(after, later, t, reply)
    ensures reply.request < |senders| && later[reply.request] == senders[reply.request]
  {
    hide Feed;
    assert Kept(net.log[reply.request], after.log[reply.request]);
  }

  lemma TaskExtends(net: Net, senders: seq<Sender>, after: Net, later: seq<Sender>, t: nat, task: Task)
    requires Extends(net, senders, after, later) && OthersOnly(senders, later, t)
    requires TaskOk(net, senders, t, task)
    ensures TaskOk(after, later, t, task)
  {
    hide InOrder, Earned, Streams;
    forall n | 0 <= n < |later|
      ensures InOrder(after, later, t, task, n)
    {
      InOrderExtends(net, senders, after, later, t, task, n);
    }
    forall i | 0 <= i < |task.delivered|
      ensures Replied(after, later, t, task, i)
    {
      assert Replied(net, senders, t, task, i);
      EarnedExtends(net, senders, after, later, t, task.delivered[i].reply);
    }
    if task.phase.Replying? {
      EarnedExtends(net, senders, after, later, t, task.phase.reply);
    }
  }

  /** A task moves on within its frame. */
  lemma TaskMoves(net: Net, senders: seq<Sender>, t: nat, task: Task, phase: Phase)
    requires |senders| == |net.log| && TaskOk(net, senders, t, task)
    requires Streams(task.(phase := phase))
    requires Started(task) <= Started(task.(phase := phase)) && Limit(net, task) <= Limit(net, task.(phase := phase))
    requires phase.Replying? ==> Earned(net, senders, t, phase.reply)
    requires Handling(senders, t, task, phase)
    ensures TaskOk(net, senders, t, task.(phase := phase))
  {
    hide Streams, Earned, Frames, Started, Limit;
    var moved := task.(phase := phase);
    assert Handled(moved) == Handled(task);
    forall n | 0 <= n < |senders|
      ensures InOrder(net, senders, t, moved, n)
    {
      assert InOrder(net, senders, t, task, n);
    }
    forall i | 0 <= i < |moved.delivered|
      ensures Replied(net, senders, t, moved, i)
    {
      assert Replied(net, senders, t, task, i);
    }
  }

  /** A task gives up its frame, or ends. */
  lemma TaskLeaves(net: Net, senders: seq<Sender>, t: nat, task: Task, phase: Phase)
    requires |senders| == |net.log| && TaskOk(net, senders, t, task)
    requires phase.Gone? || (phase.Parsing? && !task.phase.Gone?)
    requires Limit(net, task) <= |net.log|
    ensures TaskOk(net, senders, t, task.(phase := phase))
  {
    TaskMoves(net, senders, t, task, phase);
  }

  /** A step of one task keeps everything in order if it does so for that task and for the shared parts. */
  lemma StepKeeps(s: State, u: State, t: nat)
    requires Inv(s) && t < |s.tasks| && |u.tasks| == |s.tasks| && u.tasks == s.tasks[t := u.tasks[t]]
    requires Grew(s.net, u.net) && s.senders <= u.senders && |u.senders| == |u.net.log|
    requires forall n :: |s.senders| <= n < |u.senders| ==> u.senders[n].task == t
    requires Linked(u.net) && Locked(u) && OneOpen(u) && Orderly(u)
    requires TaskOk(u.net, u.senders, t, u.tasks[t])
    ensures Inv(u)
  {
    hide TaskOk, Linked, Locked, OneOpen, Orderly, Grew;
    forall v | 0 <= v < |u.tasks|
      ensures TaskOk(u.net, u.senders, v, u.tasks[v])
    {
      if v != t {
        assert u.tasks[v] == s.tasks[v] && TaskOk(s.net, s.senders, v, s.tasks[v]);
        assert Extends(s.net, s.senders, u.net, u.senders) && OthersOnly(s.senders, u.senders, v);
        TaskExtends(s.net, s.senders, u.net, u.senders, v, u.tasks[v]);
      }
    }
  }

  // Events of the device and the listener

  lemma DeviceKeeps(s: State, move: Move)
    requires Inv(s)
    ensures Inv(Next(s, Device(move)))
  {
    var u := Next(s, Device(move));
    PlayGrows(s.net, move);
    GrewLinked(s.net, u.net);
    DeviceOrderly(s, move);
    hide TaskOk, Linked, OneOpen, Orderly, Grew, Play;
    forall t | 0 <= t < |u.tasks|
      ensures TaskOk(u.net, u.senders, t, u.tasks[t])
    {
      assert Extends(s.net, s.senders, u.net, u.senders) && OthersOnly(s.senders, u.senders, t);
      TaskExtends(s.net, s.senders, u.net, u.senders, t, u.tasks[t]);
    }
  }

  lemma DeviceOrderly(s: State, move: Move)
    requires |s.senders| == |s.net.log| && Orderly(s)
    ensures Orderly(s.(net := Play(s.net, move)))
  {
    hide Play, Awaiting, Quiet;
    if s.kept.Some? {
      if Quiet(s.net, s.kept.value) {
        PlayQuiet(s.net, move, s.kept.value);
      }
      if s.holder.Some? && s.holder.value < |s.tasks| && s.tasks[s.holder.value].phase.Reading? {
        var phase := s.tasks[s.holder.value].phase;
        PlayAwaiting(s.net, move, s.kept.value, phase.rx, phase.fed);
      }
    }
  }

  lemma AcceptKeeps(s: State)
    requires Inv(s)
    ensures Inv(Next(s, Accept))
  {
    var u := Next(s, Accept);
    hide TaskOk, Linked, Quiet, Awaiting;
    forall t | 0 <= t < |u.tasks|
      ensures TaskOk(u.net, u.senders, t, u.tasks[t])
    {
      if t < |s.tasks| {
        assert u.tasks[t] == s.tasks[t] && TaskOk(s.net, s.senders, t, s.tasks[t]);
      } else {
        NewTask(s.net, s.senders, t);
      }
    }
  }

  lemma NewTask(net: Net, senders: seq<Sender>, t: nat)
    requires |senders| == |net.log| && forall n :: 0 <= n < |senders| ==> senders[n].task < t
    ensures TaskOk(net, senders, t, Task(START_UP, [], Parsing, []))
  {
  }

  // Events of a task

  lemma TakingFrames(task: Task, c: byte)
    requires task.stream.running
    ensures var step := Step(task.stream.rx, c);
            Frames(Taking(task, c).stream.segments)
            == Frames(task.stream.segments) + (if step.verdict.Done? then [step.rx.raw] else [])
  {
    var step, segments := Step(task.stream.rx, c), task.stream.segments;
    if step.verdict.More? {
      assert segments + [] == segments && Frames(segments) + [] == Frames(segments);
      FramesLast(segments, Junk([c]));
    } else {
      FramesLast(segments, Cut(step.verdict, step.rx.raw));
    }
    hide Step, Frames;
  }

  lemma TakingStreams(task: Task, c: byte)
    requires Streams(task) && task.phase.Parsing?
    ensures Streams(Taking(task, c))
  {
    hide Frames, TakeAll, Take, Step;
    TakeAppend(START_UP, task.taken, [c]);
    hide START_UP;
    TakingFrames(task, c);
    TakeOne(task.stream, c);
    TakeRuns(task.stream, c);
  }

  lemma TakeRuns(p: Pump, c: byte)
    requires p.rx.Shaped() && p.running
    ensures Step(p.rx, c).verdict.Done? ==> Take(p, c).running
  {
    hide Step;
  }

  lemma TakeOne(p: Pump, c: byte)
    requires p.rx.Shaped() && p.running
    ensures TakeAll(p, [c]) == Take(p, c)
  {
    hide Take;
  }

  lemma TakingOk(net: Net, senders: seq<Sender>, t: nat, task: Task, c: byte)
    requires |senders| == |net.log| && TaskOk(net, senders, t, task) && task.phase.Parsing?
    ensures TaskOk(net, senders, t, Taking(task, c))
  {
    TakingStreams(task, c);
    TakingFrames(task, c);
    var next := Taking(task, c);
    assert next.delivered == task.delivered && !next.phase.Replying? && Limit(net, next) == Limit(net, task);
    assert Started(next) == Started(task);
    hide Streams, Earned, Frames, Taking, Limit, Started;
    forall n | 0 <= n < |senders|
      ensures InOrder(net, senders, t, next, n)
    {
      assert InOrder(net, senders, t, task, n);
    }
    forall i | 0 <= i < |next.delivered|
      ensures Replied(net, senders, t, next, i)
    {
      assert Replied(net, senders, t, task, i);
    }
  }

  /** A task outside the lock moves to another place outside it. */
  lemma IdleKeeps(s: State, t: nat, next: Task)
    requires Inv(s) && t < |s.tasks| && !Critical(s.tasks[t].phase) && !Critical(next.phase)
    requires TaskOk(s.net, s.senders, t, next)
    ensures Inv(s.(tasks := s.tasks[t := next]))
  {
    hide TaskOk, Linked, Grew, Quiet, Awaiting;
    GrewSame(s.net);
    StepKeeps(s, s.(tasks := s.tasks[t := next]), t);
  }

  lemma DownstreamKeeps(s: State, t: nat, c: byte)
    requires Inv(s) && t < |s.tasks| && s.tasks[t].phase.Parsing?
    ensures Inv(Acted(s, t, Downstream(c)))
  {
    TakingOk(s.net, s.senders, t, s.tasks[t], c);
    assert !Critical(Taking(s.tasks[t], c).phase);
    hide TaskOk, Linked, Locked, OneOpen, Orderly, Taking;
    IdleKeeps(s, t, Taking(s.tasks[t], c));
  }

  lemma LeaveKeeps(s: State, t: nat)
    requires Inv(s) && t < |s.tasks| && s.tasks[t].phase.Parsing?
    ensures Inv(Acted(s, t, Leave))
  {
    hide TaskOk, Linked, Locked, OneOpen, Orderly;
    TaskLeaves(s.net, s.senders, t, s.tasks[t], Gone);
    IdleKeeps(s, t, s.tasks[t].(phase := Gone));
  }

  lemma AcquireKeeps(s: State, t: nat)
    requires Inv(s) && t < |s.tasks| && s.tasks[t].phase.Queued? && s.holder.None?
    ensures Inv(Acted(s, t, Acquire))
  {
    GrewSame(s.net);
    TaskMoves(s.net, s.senders, t, s.tasks[t], Holding(s.tasks[t].phase.wire));
    hide TaskOk, Linked, Grew, Quiet, Awaiting;
    StepKeeps(s, Acted(s, t, Acquire), t);
  }

  lemma ConnectFailsKeeps(s: State, t: nat)
    requires Inv(s) && t < |s.tasks| && s.tasks[t].phase.Holding? && s.kept.None?
    ensures Inv(Acted(s, t, Connect(false)))
  {
    GrewSame(s.net);
    TaskMoves(s.net, s.senders, t, s.tasks[t], Parsing);
    hide TaskOk, Linked, Grew, Quiet, Awaiting;
    StepKeeps(s, Acted(s, t, Connect(false)), t);
  }

  lemma ConnectKeeps(s: State, t: nat)
    requires Inv(s) && t < |s.tasks| && s.tasks[t].phase.Holding? && s.kept.None?
    ensures Inv(Acted(s, t, Connect(true)))
  {
    var u := Acted(s, t, Connect(true));
    OpenedQuiet(s.net);
    assert Linked(u.net);
    assert u.tasks == s.tasks[t := u.tasks[t]];
    assert Extends(s.net, s.senders, u.net, u.senders) && OthersOnly(s.senders, u.senders, t);
    TaskExtends(s.net, s.senders, u.net, u.senders, t, s.tasks[t]);
    hide TaskOk, Linked, Grew, Quiet, Awaiting;
    StepKeeps(s, u, t);
  }

  /** Its request sent, a task waits for the answer, or goes on without. */
  lemma RequestedOk(net: Net, senders: seq<Sender>, t: nat, task: Task, link: nat, phase: Phase)
    requires |senders| == |net.log| && TaskOk(net, senders, t, task) && task.phase.Holding?
    requires phase.Parsing? || (phase.Reading? && phase.request == |net.log|)
    ensures Frames(task.stream.segments) != []
    ensures var after := Sent(net, link, task.phase.wire);
            TaskOk(after, senders + [Sender(t, Handled(task))], t, task.(phase := phase))
  {
    var next, after := task.(phase := phase), Sent(net, link, task.phase.wire);
    var later := senders + [Sender(t, Handled(task))];
    SentGrows(net, link, task.phase.wire);
    assert Streams(next);
    hide Streams, Earned, Frames, Grew;
    forall n | 0 <= n < |later|
      ensures InOrder(after, later, t, next, n)
    {
      if n < |senders| {
        assert InOrder(net, senders, t, task, n);
      } else {
        forall m | 0 <= m < |senders|
          ensures senders[m].task == t ==> senders[m].frame < |Frames(task.stream.segments)| - 1
        {
          assert InOrder(net, senders, t, task, m);
        }
      }
    }
    forall i | 0 <= i < |next.delivered|
      ensures Replied(after, later, t, next, i)
    {
      assert Replied(net, senders, t, task, i);
      EarnedExtends(net, senders, after, later, t, next.delivered[i].reply);
    }
  }

  lemma WriteKeeps(s: State, t: nat)
    requires Inv(s) && t < |s.tasks| && s.tasks[t].phase.Holding? && s.kept.Some?
    ensures Inv(Acted(s, t, WriteDone))
  {
    var u, wire := Acted(s, t, WriteDone), s.tasks[t].phase.wire;
    RequestedOk(s.net, s.senders, t, s.tasks[t], s.kept.value, Reading(|s.net.log|, Fresh(false), []));
    SentGrows(s.net, s.kept.value, wire);
    SentAwaits(s.net, s.kept.value, wire);
    assert Linked(u.net);
    hide TaskOk, Linked, Grew, Quiet, Awaiting;
    StepKeeps(s, u, t);
  }

  lemma WriteFailsKeeps(s: State, t: nat, delivered: bool)
    requires Inv(s) && t < |s.tasks| && s.tasks[t].phase.Holding? && s.kept.Some?
    ensures Inv(Acted(s, t, WriteFails(delivered)))
  {
    var u := Acted(s, t, WriteFails(delivered));
    if delivered {
      RequestedOk(s.net, s.senders, t, s.tasks[t], s.kept.value, Parsing);
      SentGrows(s.net, s.kept.value, s.tasks[t].phase.wire);
    } else {
      TaskMoves(s.net, s.senders, t, s.tasks[t], Parsing);
      GrewSame(s.net);
    }
    assert Linked(u.net);
    hide TaskOk, Linked, Grew, Quiet, Awaiting;
    StepKeeps(s, u, t);
  }

  lemma GiveUpKeeps(s: State, t: nat)
    requires Inv(s) && t < |s.tasks| && s.tasks[t].phase.Reading?
    ensures Inv(Acted(s, t, GiveUp))
  {
    GrewSame(s.net);
    assert Orderly(s);
    TaskMoves(s.net, s.senders, t, s.tasks[t], Parsing);
    hide TaskOk, Linked, Grew, Quiet, Awaiting;
    StepKeeps(s, Acted(s, t, GiveUp), t);
  }

  lemma DeliverKeeps(s: State, t: nat)
    requires Inv(s) && t < |s.tasks| && s.tasks[t].phase.Replying?
    ensures Inv(Acted(s, t, Deliver(true)))
  {
    hide TaskOk, Linked, Locked, OneOpen, Orderly;
    var task := s.tasks[t];
    DeliveredOk(s.net, s.senders, t, task);
    IdleKeeps(s, t, Delivered(task));
  }

  lemma DeliverFailsKeeps(s: State, t: nat)
    requires Inv(s) && t < |s.tasks| && s.tasks[t].phase.Replying?
    ensures Inv(Acted(s, t, Deliver(false)))
  {
    hide TaskOk, Linked, Locked, OneOpen, Orderly, Limit;
    ReplyBelow(s.net, s.senders, t, s.tasks[t]);
    TaskLeaves(s.net, s.senders, t, s.tasks[t], Gone);
    IdleKeeps(s, t, s.tasks[t].(phase := Gone));
  }

  lemma ReplyBelow(net: Net, senders: seq<Sender>, t: nat, task: Task)
    requires |senders| == |net.log| && TaskOk(net, senders, t, task) && task.phase.Replying?
    ensures Limit(net, task) <= |net.log|
  {
  }

  lemma DeliveredOk(net: Net, senders: seq<Sender>, t: nat, task: Task)
    requires |senders| == |net.log| && TaskOk(net, senders, t, task) && task.phase.Replying?
    ensures TaskOk(net, senders, t, Delivered(task))
  {
    var next := Delivered(task);
    assert Streams(next);
    hide Streams, Frames, Feed;
    forall n | 0 <= n < |senders|
      ensures InOrder(net, senders, t, next, n)
    {
      assert InOrder(net, senders, t, task, n);
    }
    forall i | 0 <= i < |next.delivered|
      ensures Replied(net, senders, t, next, i)
    {
      assert i < |task.delivered| ==> Replied(net, senders, t, task, i);
    }
  }

  /** A read leaves the requests as they are. */
  lemma DrainedTask(s: State, t: nat, count: nat)
    requires Inv(s) && t < |s.tasks| && Enabled(s, t, Upstream(count))
    ensures var net := Drained(s.net, s.kept.value, count);
            && Grew(s.net, net) && Linked(net) && TaskOk(net, s.senders, t, s.tasks[t])
            && s.holder == Some(t) && s.tasks[t].phase.request == |s.net.log| - 1
            && s.senders[|s.net.log| - 1].task == t
            && Awaiting(s.net, s.kept.value, s.tasks[t].phase.rx, s.tasks[t].phase.fed)
  {
    var net := Drained(s.net, s.kept.value, count);
    DrainedGrows(s.net, s.kept.value, count);
    assert Locked(s) && Orderly(s) && Linked(net);
    hide TaskOk, Awaiting, Grew, Linked;
    assert TaskOk(s.net, s.senders, t, s.tasks[t]);
    assert Extends(s.net, s.senders, net, s.senders) && OthersOnly(s.senders, s.senders, t);
    TaskExtends(s.net, s.senders, net, s.senders, t, s.tasks[t]);
  }

  /** A task has read some of its answer; `net` is the network after that. */
  ghost predicate HasRead(s: State, t: nat, net: Net) {
    && Inv(s) && t < |s.tasks| && s.kept.Some? && s.holder == Some(t) && s.tasks[t].phase.Reading?
    && s.net.log != [] && s.tasks[t].phase.request == |s.net.log| - 1 && s.senders[|s.net.log| - 1].task == t
    && Grew(s.net, net) && |net.log| == |s.net.log| && Linked(net) && TaskOk(net, s.senders, t, s.tasks[t])
  }

  lemma ReadsOn(s: State, t: nat, net: Net, rx: Rx, fed: seq<byte>)
    requires HasRead(s, t, net) && rx.Shaped() && Awaiting(net, s.kept.value, rx, fed)
    ensures Inv(Moved(s.(net := net), t, Reading(s.tasks[t].phase.request, rx, fed)))
  {
    var phase := Reading(s.tasks[t].phase.request, rx, fed);
    TaskMoves(net, s.senders, t, s.tasks[t], phase);
    hide TaskOk, Awaiting, Grew, Linked;
    StepKeeps(s, Moved(s.(net := net), t, phase), t);
  }

  lemma ReadsAll(s: State, t: nat, net: Net, rx: Rx)
    requires HasRead(s, t, net) && Quiet(net, s.kept.value)
    requires Settles(net, s.kept.value, rx, Done)
    ensures Inv(Released(s.(net := net), t, Replying(Reply(s.tasks[t].phase.request, rx.raw))))
  {
    var phase := Replying(Reply(s.tasks[t].phase.request, rx.raw));
    assert Earned(net, s.senders, t, phase.reply);
    hide Feed;
    TaskMoves(net, s.senders, t, s.tasks[t], phase);
    hide TaskOk, Quiet, Awaiting, Grew, Linked;
    StepKeeps(s, Released(s.(net := net), t, phase), t);
  }

  lemma ReadsBad(s: State, t: nat, net: Net)
    requires HasRead(s, t, net)
    ensures Inv(Disconnected(s.(net := net), t))
  {
    hide TaskOk, Awaiting, Quiet, Grew, Linked;
    TaskLeaves(net, s.senders, t, s.tasks[t], Parsing);
    StepKeeps(s, Disconnected(s.(net := net), t), t);
  }

  lemma ReadsFatal(s: State, t: nat, net: Net)
    requires HasRead(s, t, net) && Quiet(net, s.kept.value)
    ensures Inv(Released(s.(net := net), t, Gone))
  {
    hide TaskOk, Awaiting, Quiet, Grew, Linked;
    TaskLeaves(net, s.senders, t, s.tasks[t], Gone);
    StepKeeps(s, Released(s.(net := net), t, Gone), t);
  }

  lemma UpstreamKeeps(s: State, t: nat, count: nat)
    requires Inv(s) && t < |s.tasks| && Enabled(s, t, Upstream(count))
    ensures Inv(Acted(s, t, Upstream(count)))
  {
    var c, phase := s.kept.value, s.tasks[t].phase;
    var net, chunk := Drained(s.net, c, count), s.net.down[c][..count];
    var f := Feed(phase.rx, chunk);
    DrainedTask(s, t, count);
    DrainedAwaits(s.net, c, phase.rx, phase.fed, count);
    hide Inv, TaskOk, Awaiting, Quiet, Grew, Linked, Feed;
    assert HasRead(s, t, net);
    match f.verdict
    case More => ReadsOn(s, t, net, f.rx, phase.fed + chunk);
    case Done => ReadsAll(s, t, net, f.rx);
    case Failed(_) => ReadsBad(s, t, net);
    case Panicked => ReadsFatal(s, t, net);
  }

  // Runs

  lemma NextKeeps(s: State, e: Event)
    requires Inv(s)
    ensures Inv(Next(s, e))
  {
    hide Inv;
    match e
    case Accept => AcceptKeeps(s);
    case Device(move) => DeviceKeeps(s, move);
    case At(t, act) =>
      if t < |s.tasks| && Enabled(s, t, act) {
        match act
        case Downstream(c) => DownstreamKeeps(s, t, c);
        case Leave => LeaveKeeps(s, t);
        case Acquire => AcquireKeeps(s, t);
        case Connect(ok) => if ok { ConnectKeeps(s, t); } else { ConnectFailsKeeps(s, t); }
        case WriteDone => WriteKeeps(s, t);
        case WriteFails(delivered) => WriteFailsKeeps(s, t, delivered);
        case Upstream(count) => UpstreamKeeps(s, t, count);
        case GiveUp => GiveUpKeeps(s, t);
        case Deliver(ok) => if ok { DeliverKeeps(s, t); } else { DeliverFailsKeeps(s, t); }
      }
  }

  lemma {:induction false} RunKeeps(events: seq<Event>)
    ensures Inv(Run(events))
    decreases |events|
  {
    if events == [] {
    } else {
      hide Inv, Next;
      RunKeeps(events[..|events| - 1]);
      NextKeeps(Run(events[..|events| - 1]), events[|events| - 1]);
    }
  }

  /**
   * In every run: one connection at most is open, the one kept; and whenever the lock is free it
   * has no outstanding request and no unread start token.
   */
  lemma QuietWhenFree(events: seq<Event>)
    ensures var s := Run(events);
            && s.open == (if s.kept.Some? then {s.kept.value} else {})
            && (s.holder.None? && s.kept.Some? ==> Quiet(s.net, s.kept.value))
  {
    RunKeeps(events);
    hide Quiet, Run;
  }

  /** In every run a session depends on the bytes of its own client alone. */
  lemma SessionsApart(events: seq<Event>, t: nat)
    requires t < |Run(events).tasks|
    ensures var task := Run(events).tasks[t];
            task.stream == TakeAll(START_UP, task.taken)
  {
    RunKeeps(events);
    hide Run, TakeAll, Frames, Linked, Locked, Orderly;
    var s := Run(events);
    assert TaskOk(s.net, s.senders, t, s.tasks[t]);
  }

  /** In every run each request that reaches the device is a frame of the client it is sent for. */
  lemma RequestOnRecord(events: seq<Event>, n: nat)
    requires n < |Run(events).net.log|
    ensures var s := Run(events);
            && |s.senders| == |s.net.log|
            && s.senders[n].task < |s.tasks|
            && var frames := Frames(s.tasks[s.senders[n].task].stream.segments);
               s.senders[n].frame < |frames| && s.net.log[n].wire == frames[s.senders[n].frame]
  {
    RunKeeps(events);
    hide Run, Frames, Linked, Locked, Orderly;
    var s := Run(events);
    var t := s.senders[n].task;
    assert TaskOk(s.net, s.senders, t, s.tasks[t]);
    assert InOrder(s.net, s.senders, t, s.tasks[t], n);
  }

  /**
   * In every run the requests that reach the device are a merge of the clients' frames: of one
   * client's frames the later ones are sent later, so none is sent twice.
   */
  lemma RequestsMerge(events: seq<Event>, m: nat, n: nat)
    requires m < n < |Run(events).net.log|
    ensures var s := Run(events);
            |s.senders| == |s.net.log|
            && (s.senders[m].task == s.senders[n].task ==> s.senders[m].frame < s.senders[n].frame)
  {
    RunKeeps(events);
    hide Run, Frames, Linked, Locked, Orderly;
    var s := Run(events);
    var t := s.senders[n].task;
    assert TaskOk(s.net, s.senders, t, s.tasks[t]);
    assert InOrder(s.net, s.senders, t, s.tasks[t], n);
  }

  /**
   * In every run an answer delivered to a client while it handles a frame is the frame in the
   * device's answer to the request sent for that very frame, and answers are delivered in order.
   */
  lemma RepliesPaired(events: seq<Event>, t: nat, i: nat)
    requires t < |Run(events).tasks| && i < |Run(events).tasks[t].delivered|
    ensures var s := Run(events);
            var d := s.tasks[t].delivered;
            var frame, request := d[i].frame, d[i].reply.request;
            && |s.senders| == |s.net.log| && request < |s.net.log|
            && s.senders[request] == Sender(t, frame)
            && s.net.log[request].answer.Some?
            && (var f := Feed(Fresh(false), s.net.log[request].answer.value);
                f.verdict.Done? && d[i].reply.bytes == f.rx.raw)
            && (i > 0 ==> d[i - 1].reply.request < request && d[i - 1].frame < frame)
  {
    RunKeeps(events);
    hide Run, Frames, Linked, Locked, Orderly, Feed, Limit;
    var s := Run(events);
    var d := s.tasks[t].delivered;
    assert TaskOk(s.net, s.senders, t, s.tasks[t]);
    assert Replied(s.net, s.senders, t, s.tasks[t], i);
    if i > 0 {
      assert Replied(s.net, s.senders, t, s.tasks[t], i - 1);
      RequestsMerge(events, d[i - 1].reply.request, d[i].reply.request);
    }
  }
}
