/**
 * How an attempt of either client ends, error by error, and the verified writes that succeed
 * although the answer to the WRITE does not come, comes late, or is empty.
 */
module VerifiedWrites {
  import opened Bytes
  import opened Frame
  import opened Receive
  import opened ParserTheory
  import opened Network
  import opened Exchanges
  import opened PromptAnswers
  import opened Codec
  import opened Clients
  import opened LateAnswers

  // Which operation decides, and what it becomes

  /** How the k-th operation of a script ends. */
  function HowAt(fates: seq<Fate>, k: nat): How {
    if k < |fates| then fates[k].how else Expired(false)
  }

  /** The operations before the k-th succeed, and the script is left behind the k-th. */
  predicate EndsAt(fates: seq<Fate>, left: seq<Fate>, k: nat) {
    && k <= |fates| && (forall i :: 0 <= i < k ==> fates[i].how.Fine?)
    && left == if k < |fates| then fates[k + 1..] else []
  }

  /** What the read that ends a wait comes to; one that succeeds and brings nothing is how a closed connection reads. */
  predicate ReadEnds(how: How, left: seq<byte>, o: Outcome) {
    match how
    case Broken(_) => o == Failure(ReadBroken)
    case Expired(_) => o == Failure(NoAnswer)
    case Fine(n) => (o.Failure? ==> o.why.BadFrame? || (o.why.NoAnswer? && (n == 0 || left == [])))
  }

  lemma LaterOne(w: World, left: seq<Fate>, k: nat)
    requires NextHow(w).Fine? && EndsAt(Advance(w).fates, left, k)
    ensures EndsAt(w.fates, left, k + 1) && HowAt(w.fates, k + 1) == HowAt(Advance(w).fates, k)
  {
    hide PlayAll;
  }

  lemma FirstOne(w: World)
    ensures EndsAt(w.fates, Advance(w).fates, 0) && HowAt(w.fates, 0) == NextHow(w)
  {
    hide PlayAll;
  }

  lemma NothingArrives(w: World, link: nat)
    requires link < |w.net.down| && Arriving(w, link) == 0
    ensures NextHow(w).Fine? ==> NextHow(w).size == 0 || Advance(w).net.down[link] == []
  {
    hide Advance, NextHow;
  }

  lemma ArrivesFine(w: World, link: nat)
    requires link < |w.net.down| && Arriving(w, link) > 0
    ensures NextHow(w).Fine?
  {
  }

  /** A read returns as many bytes as the network brings at once, what is there, and 256, whichever is least. */
  lemma ReadSizes(w: World, link: nat)
    requires link < |w.net.down| && NextHow(w).Fine?
    ensures var n, count, d := NextHow(w).size, Arriving(w, link), |Advance(w).net.down[link]|;
            count <= n && count <= d && count <= 256 && (count == n || count == d || count == 256)
  {
  }

  lemma {:induction false} AwaitEnds(w: World, link: nat, rx: Rx) returns (k: nat)
    requires link < |w.net.down| && rx.Shaped()
    ensures var r := Await(w, link, rx);
            EndsAt(w.fates, r.world.fates, k) && ReadEnds(HowAt(w.fates, k), r.world.net.down[link], r.outcome)
    decreases |w.fates|
  {
    hide *;
    AwaitNext(w, link, rx);
    FirstOne(w);
    var v, count := Advance(w), Arriving(w, link);
    k := 0;
    if !NextHow(w).Broken? && count > 0 {
      var u, f := v.(net := Drained(v.net, link, count)), Feed(rx, v.net.down[link][..count]);
      DrainedNet(v.net, link, count);
      FewerFates(w, link);
      ArrivesFine(w, link);
      if f.verdict.More? {
        k := AwaitEnds(u, link, f.rx);
        LaterOne(w, Await(u, link, f.rx).world.fates, k);
        k := k + 1;
      } else {
        Ends(NextHow(w), u.net.down[link], Await(w, link, rx).outcome);
      }
    } else {
      if !NextHow(w).Broken? {
        NothingArrives(w, link);
      }
      Ends(NextHow(w), v.net.down[link], Await(w, link, rx).outcome);
    }
  }

  lemma Ends(how: How, left: seq<byte>, o: Outcome)
    ensures ReadEnds(how, left, o) <==>
            match how
            case Broken(_) => o == Failure(ReadBroken)
            case Expired(_) => o == Failure(NoAnswer)
            case Fine(n) => (o.Failure? ==> o.why.BadFrame? || (o.why.NoAnswer? && (n == 0 || left == [])))
  {
  }

  /** The operations in front of the write: dialling, if there is no connection. */
  function Dials(h: Held): nat {
    if h.conn.None? then 1 else 0
  }

  /**
   * What the operation that ends an exchange comes to: the first `dials` operations dial, the next
   * one writes, and the later ones read.
   */
  predicate OutcomeOf(how: How, k: nat, dials: nat, left: seq<byte>, o: Outcome) {
    if k < dials then o == Failure(NotConnected(how.Expired?)) && !how.Fine?
    else if k == dials then o == Failure(NotSent(how.Expired?)) && !how.Fine?
    else ReadEnds(how, left, o)
  }

  /** Every exchange ends with the first operation that does not succeed, or with a read. */
  lemma ConverseEnds(h: Held, wire: seq<byte>) returns (k: nat)
    requires h.Wired()
    ensures var c := Converse(h, wire);
            && EndsAt(h.world.fates, c.held.world.fates, k)
            && c.held.conn == (if k < Dials(h) then None else Some(LinkOf(h)))
            && (c.held.conn.Some? ==> LinkOf(h) < |c.held.world.net.down|)
            && OutcomeOf(HowAt(h.world.fates, k), k, Dials(h),
                         if c.held.conn.Some? then c.held.world.net.down[LinkOf(h)] else [], c.outcome)
  {
    var d, c := Dialled(h), Converse(h, wire);
    FirstOne(h.world);
    hide Await, Advance, NextHow, ReadEnds, EndsAt, HowAt, Sent;
    k := 0;
    if d.conn.Some? {
      var link, w := d.conn.value, d.world;
      FirstOne(w);
      if NextHow(w).Fine? {
        var sent := Advance(w).(net := Sent(Advance(w).net, link, wire));
        SentParts(Advance(w).net, link, wire);
        k := AwaitEnds(sent, link, Fresh(false));
        LaterOne(w, Await(sent, link, Fresh(false)).world.fates, k);
        k := k + 1;
      }
      if h.conn.None? {
        LaterOne(h.world, c.held.world.fates, k);
        k := k + 1;
      }
    }
  }

  /**
   * Every attempt of either client, on any script. With the operation that ends it: a broken one is an
   * I/O error; an expired one is a timeout, except that to the sync client an expired dial or write is
   * an I/O error too; and one that succeeds leads to a timeout only when a read brings nothing. The async
   * client keeps no connection after an error, the other one all but that of a value it cannot decode.
   */
  lemma HowItEnds(kind: Kind, h: Held, wire: seq<byte>, t: DataType) returns (k: nat)
    requires h.Wired()
    ensures var r, how, link := Try(kind, h, wire, t), HowAt(h.world.fates, k), LinkOf(h);
            && EndsAt(h.world.fates, r.held.world.fates, k)
            && (how.Broken? ==> r.call == Error(Io))
            && (how.Expired? ==> r.call == Error(if kind.Async? || k > Dials(h) then Timeout else Io))
            && (how.Fine? ==> k > Dials(h) && r.call != Error(Io))
            && (how.Fine? && r.call == Error(Timeout) ==>
                  how.size == 0 || (link < |r.held.world.net.down| && r.held.world.net.down[link] == []))
            && (r.call.Error? ==>
                  r.held.conn == if kind.Async? || k < Dials(h) || r.call.e.BadValue? then None else Some(link))
            && (!r.call.Error? ==> r.held.conn == Some(link))
  {
    hide *;
    k := ConverseEnds(h, wire);
    var c, how, dials := Converse(h, wire), HowAt(h.world.fates, k), Dials(h);
    TryParts(kind, h, wire, t);
    var left := if c.held.conn.Some? then c.held.world.net.down[LinkOf(h)] else [];
    CallOf(kind, how, k, dials, left, c.outcome, t);
  }

  /** What a caller makes of the operation that ends an exchange. */
  lemma CallOf(kind: Kind, how: How, k: nat, dials: nat, left: seq<byte>, o: Outcome, t: DataType)
    requires OutcomeOf(how, k, dials, left, o)
    ensures var call := Interpreted(kind, o, t);
            && (how.Broken? ==> call == Error(Io))
            && (how.Expired? ==> call == Error(if kind.Async? || k > dials then Timeout else Io))
            && (how.Fine? ==> k > dials && call != Error(Io) && (call == Error(Timeout) ==> how.size == 0 || left == []))
            && (k <= dials ==> call.Error? && !call.e.BadValue?)
  {
    hide DecodeValue;
  }

  // Answers that do not come

  /** No answer to the last request that holds a start token, if the request was sent at all. */
  predicate Unanswered(before: Net, after: Net) {
    |after.log| > |before.log| ==> Silent(after.log[|after.log| - 1].answer)
  }

  predicate Silent(answer: Option<seq<byte>>) {
    answer.Some? ==> START !in answer.value
  }

  /** A parser that has taken all there is of a silent answer goes on. */
  lemma SilentGoesOn(net: Net, link: nat, rx: Rx, fed: seq<byte>, count: nat)
    requires Awaiting(net, link, rx, fed) && rx.Shaped() && Silent(net.log[|net.log| - 1].answer)
    requires count <= |net.down[link]|
    ensures Feed(rx, net.down[link][..count]).verdict.More?
  {
    hide Feed, Safe, AnsweredBefore;
    var d := net.down[link];
    FedOn(fed, rx, d, count);
    var answer := net.log[|net.log| - 1].answer;
    if answer.Some? {
      EndsInParts(fed + d, answer.value);
    }
    assert START !in fed + d;
    SkipJunk(Fresh(false), fed + d);
  }

  lemma AwaitingLog(net: Net, link: nat, rx: Rx, fed: seq<byte>)
    requires Awaiting(net, link, rx, fed)
    ensures link < |net.down| && net.log != []
  {
    hide Feed;
  }

  lemma {:induction false} AwaitSilent(w: World, link: nat, rx: Rx, fed: seq<byte>)
    requires Linked(w.net) && rx.Shaped() && Awaiting(w.net, link, rx, fed)
    ensures link < |w.net.down| && w.net.log != []
    ensures var r := Await(w, link, rx);
            && |r.world.net.log| == |w.net.log|
            && (Silent(r.world.net.log[|r.world.net.log| - 1].answer) ==>
                  r.outcome == Failure(NoAnswer) || r.outcome == Failure(ReadBroken))
    decreases |w.fates|
  {
    hide *;
    AwaitingLog(w.net, link, rx, fed);
    AdvanceKeeps(w, link, rx, fed);
    AwaitNext(w, link, rx);
    var v, count := Advance(w), Arriving(w, link);
    if !NextHow(w).Broken? && count > 0 {
      var u, f := v.(net := Drained(v.net, link, count)), Feed(rx, v.net.down[link][..count]);
      ReadSettles(v.net, link, rx, fed, count);
      FewerFates(w, link);
      DrainedParts(v.net, link, count);
      if f.verdict.More? {
        AwaitSilent(u, link, f.rx, fed + v.net.down[link][..count]);
      } else if Silent(v.net.log[|v.net.log| - 1].answer) {
        SilentGoesOn(v.net, link, rx, fed, count);
      }
    }
  }

  lemma ConverseSilent(h: Held, wire: seq<byte>)
    requires Ready(h)
    ensures var c := Converse(h, wire);
            Unanswered(h.world.net, c.held.world.net) ==> c.outcome.Failure? && !c.outcome.why.BadFrame?
  {
    var d := Dialled(h);
    DialledKeeps(h);
    hide Dialled, Await, Grew, Linked, Quiet, Silent, Advance;
    if d.conn.Some? && NextHow(d.world).Fine? {
      var link, v := d.conn.value, Advance(d.world);
      AdvanceKeeps(d.world, link, Fresh(false), []);
      SentAwaits(v.net, link, wire);
      SentIsLinked(v.net, link, wire);
      AwaitSilent(v.(net := Sent(v.net, link, wire)), link, Fresh(false), []);
    }
  }

  lemma SentIsLinked(net: Net, link: nat, wire: seq<byte>)
    requires Linked(net) && link < |net.down|
    ensures Linked(Sent(net, link, wire))
  {
  }

  /** An attempt that starts with nothing outstanding and whose answer does not come ends in a timeout or an I/O error. */
  lemma SilenceEnds(kind: Kind, h: Held, wire: seq<byte>, t: DataType)
    requires Ready(h)
    ensures var r := Try(kind, h, wire, t);
            Unanswered(h.world.net, r.held.world.net) ==> r.call == Error(Timeout) || r.call == Error(Io)
  {
    ConverseSilent(h, wire);
    hide Converse, Unanswered, DecodeValue, Ready;
  }

  /**
   * The async client: an attempt whose answer does not come, on a network where nothing breaks, ends in
   * a timeout, without a connection and with nothing outstanding on the next one.
   */
  lemma SilenceTimesOut(h: Held, wire: seq<byte>, t: DataType)
    requires Ready(h) && forall f :: f in h.world.fates ==> !f.how.Broken?
    ensures var r := Try(Async, h, wire, t);
            Unanswered(h.world.net, r.held.world.net) ==>
              r.call == Error(Timeout) && r.held.conn.None? && Ready(r.held)
  {
    SilenceEnds(Async, h, wire, t);
    var k := HowItEnds(Async, h, wire, t);
    TryKeeps(h, wire, t, 0);
    assert k < |h.world.fates| ==> h.world.fates[k] in h.world.fates;
    hide Try, Unanswered, Confirms, Quiet, Grew;
  }

  // Verified writes

  /** The first attempt decides, unless it timed out or brought an answer without data; then it is the read-backs. */
  lemma {:induction false} ReadBackErrors(kind: Kind, h: Held, wire: seq<byte>, obj: ObjectInfo, value: DataValue,
                                          retries: nat, k: nat)
    requires h.Wired()
    ensures var r := Verified(kind, h, wire, obj, value, retries, k);
            (r.call.Error? ==> r.call == Error(Timeout)) && (r.call.Value? ==> ValueEq(value, r.call.v))
    decreases Attempts(retries) - k
  {
    hide Try, ReadObject, Attempts, ValueEq;
    if k < Attempts(retries) {
      var w := if k > 0 then Try(kind, h, wire, obj.responseType) else Tried(h, Error(Timeout));
      if !w.call.Crashed? {
        ReadBackErrors(kind, ReadObject(kind, w.held, obj, retries).held, wire, obj, value, retries, k + 1);
      }
    }
  }

  /**
   * The errors of a verified write: an I/O error, a bad frame or a bad value only from the first
   * attempt, which is then the only one; whatever comes after a lost answer, a timeout.
   */
  lemma VerifiedErrors(kind: Kind, h: Held, obj: ObjectInfo, value: DataValue, casts: Casts, retries: nat)
    requires h.Wired() && EncodeFor(obj.requestType, value, casts).Ok?
    ensures var wire := WriteWire(obj, EncodeFor(obj.requestType, value, casts).value);
            var first := Try(kind, h, wire, obj.responseType);
            var r := WriteVerified(kind, h, obj, value, casts, retries);
            if first.call.Error? && (first.call.e.Timeout? || first.call.e.EmptyPayload?)
            then (r.call.Error? ==> r.call == Error(Timeout)) && (r.call.Value? ==> ValueEq(value, r.call.v))
            else r == first && r.held.tried == h.tried + [wire]
  {
    hide Try, EncodeFor, WriteWire, ValueEq, Verified;
    var wire := WriteWire(obj, EncodeFor(obj.requestType, value, casts).value);
    ReadBackErrors(kind, Try(kind, h, wire, obj.responseType).held, wire, obj, value, retries, 0);
  }

  /**
   * When the rounds end in a timeout every one of them was gone through: from the second on the WRITE
   * was sent again, and no read-back confirmed the value. `starts` are the states before the read-backs.
   */
  lemma {:induction false} GivesUp(kind: Kind, h: Held, wire: seq<byte>, obj: ObjectInfo, value: DataValue,
                                   retries: nat, k: nat)
    returns (starts: seq<Held>)
    requires h.Wired() && k <= Attempts(retries) && Verified(kind, h, wire, obj, value, retries, k).call.Error?
    ensures |starts| == Attempts(retries) - k
    ensures forall g :: g in starts ==> g.Wired() && Unconfirmed(ReadObject(kind, g, obj, retries).call, value)
    ensures starts != [] ==> starts[0].tried == h.tried + if k > 0 then [wire] else []
    ensures forall i :: 0 <= i < |starts| - 1 ==>
              starts[i].Wired() && starts[i + 1].tried == ReadObject(kind, starts[i], obj, retries).held.tried + [wire]
    decreases Attempts(retries) - k
  {
    hide Try, ReadObject, Attempts, ValueEq, Verified;
    VerifiedNext(kind, h, wire, obj, value, retries, k);
    starts := [];
    if k < Attempts(retries) {
      var w := Rewritten(kind, h, wire, obj.responseType, k);
      var r := ReadObject(kind, w.held, obj, retries);
      var rest := GivesUp(kind, r.held, wire, obj, value, retries, k + 1);
      starts := [w.held] + rest;
    }
  }

  predicate Unconfirmed(call: Call, value: DataValue) {
    call.Error? || (call.Value? && !ValueEq(value, call.v))
  }

  lemma AnswersIs(answer: seq<byte>, t: DataType, v: DataValue)
    requires Answers(answer, t, v)
    ensures var f := Feed(Fresh(false), answer);
            Safe(answer) && f.verdict.Done? && f.rx.data != [] && DecodeValue(t, f.rx.data) == Ok(v)
  {
    hide Feed, DecodeValue;
  }

  lemma TryIs(kind: Kind, h: Held, wire: seq<byte>, t: DataType, data: seq<byte>)
    requires h.Wired() && var c := Converse(h, wire); c.outcome.Answer? && c.outcome.rx.data == data
    ensures var r, held := Try(kind, h, wire, t), Converse(h, wire).held;
            if data == [] then r == Tried(if kind.Async? then held.(conn := None) else held, Error(EmptyPayload))
            else DecodeValue(t, data).Ok? ==> r == Tried(held, Value(DecodeValue(t, data).value))
  {
    hide Converse, DecodeValue;
  }

  lemma AccountData(rx: Rx, verdict: Verdict, answer: seq<byte>)
    requires AccountOf(rx, verdict, answer)
    ensures rx.data == Feed(Fresh(false), answer).rx.data
  {
    hide Feed;
  }

  /** A request that is answered in time, from every state with nothing outstanding. */
  lemma PromptTry(kind: Kind, h: Held, wire: seq<byte>, t: DataType, others: seq<Move>, answer: seq<byte>,
                  sizes: seq<nat>, v: DataValue)
    requires Ready(h) && Answers(answer, t, v)
    requires sizes != [] && (forall k :: k in sizes ==> k > 0)
    requires Unread(h) + Feed(Fresh(false), answer).used <= |sizes|
    ensures Prompted(h, others, answer, PieceReads(sizes)).Wired()
    ensures var r := Try(kind, Prompted(h, others, answer, PieceReads(sizes)), wire, t);
            && r.call == Value(v) && r.held.conn == Some(LinkOf(h))
            && r.held.world.net.log == PlayAll(NetOf(h), others).log + [Request(wire, LinkOf(h), Some(answer))]
  {
    hide *;
    AnswersIs(answer, t, v);
    PiecesStill(sizes, []);
    StillNotEmpty(PieceReads(sizes));
    PromptConverse(h, wire, others, answer, sizes);
    var g := Prompted(h, others, answer, PieceReads(sizes));
    var rx := Converse(g, wire).outcome.rx;
    AccountData(rx, Done, answer);
    TryIs(kind, g, wire, t, rx.data);
  }

  lemma RetriedFirst(kind: Kind, h: Held, wire: seq<byte>, t: DataType, attempts: nat, last: ClientError)
    requires h.Wired() && attempts > 0 && !Try(kind, h, wire, t).call.Error?
    ensures Retried(kind, h, wire, t, attempts, last) == Try(kind, h, wire, t)
  {
    hide Try;
  }

  /** A read of either client that is answered in time: one READ of the object, and the value in its answer. */
  lemma ReadAnswered(kind: Kind, h: Held, obj: ObjectInfo, retries: nat, others: seq<Move>, answer: seq<byte>,
                     sizes: seq<nat>, v: DataValue)
    requires Ready(h) && Answers(answer, obj.responseType, v)
    requires sizes != [] && (forall k :: k in sizes ==> k > 0)
    requires Unread(h) + Feed(Fresh(false), answer).used <= |sizes|
    ensures PieceReads(sizes) != [] && Prompted(h, others, answer, PieceReads(sizes)).Wired()
    ensures var wire := Printed(Read, obj.id, [], 0, Standard);
            var r := ReadObject(kind, Prompted(h, others, answer, PieceReads(sizes)), obj, retries);
            && r.call == Value(v) && r.held.conn == Some(LinkOf(h))
            && r.held.world.net.log == PlayAll(NetOf(h), others).log + [Request(wire, LinkOf(h), Some(answer))]
  {
    PiecesNotEmpty(sizes);
    hide Try, Retried, Answers, Prompted, PlayAll, Feed, Unread, Printed, Ready, PieceReads, NetOf, LinkOf;
    PromptTry(kind, h, ReadWire(obj), obj.responseType, others, answer, sizes, v);
    var g := Prompted(h, others, answer, PieceReads(sizes));
    RetriedFirst(kind, g, ReadWire(obj), obj.responseType, Attempts(retries), Timeout);
  }

  /** The same for a write: one WRITE of the encoded value. */
  lemma WriteAnswered(kind: Kind, h: Held, obj: ObjectInfo, value: DataValue, casts: Casts, retries: nat,
                      others: seq<Move>, answer: seq<byte>, sizes: seq<nat>, v: DataValue)
    requires Ready(h) && Answers(answer, obj.responseType, v) && EncodeFor(obj.requestType, value, casts).Ok?
    requires sizes != [] && (forall k :: k in sizes ==> k > 0)
    requires Unread(h) + Feed(Fresh(false), answer).used <= |sizes|
    ensures PieceReads(sizes) != [] && Prompted(h, others, answer, PieceReads(sizes)).Wired()
    ensures var wire := Printed(Write, obj.id, EncodeFor(obj.requestType, value, casts).value, 0, Standard);
            var g := Prompted(h, others, answer, PieceReads(sizes));
            var r := WriteObject(kind, g, obj, value, casts, retries);
            && r.call == Value(v) && r.held.conn == Some(LinkOf(h))
            && r.held.world.net.log == PlayAll(NetOf(h), others).log + [Request(wire, LinkOf(h), Some(answer))]
  {
    PiecesNotEmpty(sizes);
    hide Try, Retried, Answers, Prompted, PlayAll, Feed, Unread, Printed, EncodeFor, Ready, PieceReads, NetOf, LinkOf;
    var wire := WriteWire(obj, EncodeFor(obj.requestType, value, casts).value);
    PromptTry(kind, h, wire, obj.responseType, others, answer, sizes, v);
    var g := Prompted(h, others, answer, PieceReads(sizes));
    RetriedFirst(kind, g, wire, obj.responseType, Attempts(retries), Timeout);
  }

  lemma FirstLost(h: Held, wire: seq<byte>, t: DataType)
    requires Ready(h)
    requires var r := Try(Async, h, wire, t); r.call.Error? && MayBeApplied(r.call.e)
    ensures var g := Try(Async, h, wire, t).held;
            Ready(g) && g.conn.None? && Grew(h.world.net, g.world.net) && |g.world.net.log| <= |h.world.net.log| + 1
  {
    ConverseKeeps(h, wire);
    hide Converse, DecodeValue, Quiet, Linked, Grew;
  }

  lemma SameScript(g: Held, others: seq<Move>, answer: seq<byte>, pieces: seq<Fate>)
    requires g.conn.None? && pieces != []
    requires g.world.fates == Prompt(false, others, |g.world.net.log|, answer, pieces)
    ensures Prompted(g, others, answer, pieces) == g && LinkOf(g) == |g.world.net.down|
    ensures NetOf(g) == Opened(g.world.net)
    ensures g.Wired() && Unread(g) == 0
  {
    hide Prompt;
  }

  lemma PiecesNotEmpty(sizes: seq<nat>)
    requires sizes != []
    ensures PieceReads(sizes) != []
  {
  }

  lemma ReadsBackAtOnce(kind: Kind, h: Held, obj: ObjectInfo, value: DataValue, casts: Casts, retries: nat)
    requires h.Wired() && EncodeFor(obj.requestType, value, casts).Ok?
    requires var first := Try(kind, h, WriteWire(obj, EncodeFor(obj.requestType, value, casts).value), obj.responseType);
             && first.call.Error? && MayBeApplied(first.call.e)
             && var r := Try(kind, first.held, ReadWire(obj), obj.responseType);
                r.call.Value? && ValueEq(value, r.call.v)
    ensures var first := Try(kind, h, WriteWire(obj, EncodeFor(obj.requestType, value, casts).value), obj.responseType);
            WriteVerified(kind, h, obj, value, casts, retries) == Try(kind, first.held, ReadWire(obj), obj.responseType)
  {
    hide Try, EncodeFor, WriteWire, ReadWire, ValueEq, MayBeApplied;
    var wire := WriteWire(obj, EncodeFor(obj.requestType, value, casts).value);
    var first := Try(kind, h, wire, obj.responseType);
    var r := Try(kind, first.held, ReadWire(obj), obj.responseType);
    assert ReadObject(kind, first.held, obj, retries) == r;
    assert Verified(kind, first.held, wire, obj, value, retries, 0) == r;
  }

  /**
   * The verified write of the async client. Whatever became of its WRITE, in every run: if the first
   * attempt timed out or brought an answer without data, and the READ that follows on a new connection
   * is answered, in pieces of any sizes, with a value equal to the one written, the call returns that
   * value. The device may answer the WRITE late, or make any other moves, in the meantime; one READ is
   * added to the log, on the new connection, with its own answer.
   */
  lemma CompletesByReading(h: Held, obj: ObjectInfo, value: DataValue, casts: Casts, retries: nat,
                           others: seq<Move>, answer: seq<byte>, sizes: seq<nat>, v: DataValue)
    requires Ready(h) && EncodeFor(obj.requestType, value, casts).Ok?
    requires Answers(answer, obj.responseType, v) && ValueEq(value, v)
    requires sizes != [] && (forall k :: k in sizes ==> k > 0) && Feed(Fresh(false), answer).used <= |sizes|
    requires var wire := WriteWire(obj, EncodeFor(obj.requestType, value, casts).value);
             var first := Try(Async, h, wire, obj.responseType);
             && first.call.Error? && MayBeApplied(first.call.e)
             && first.held.world.fates
                == Prompt(false, others, |first.held.world.net.log|, answer, PieceReads(sizes))
    ensures var wire := WriteWire(obj, EncodeFor(obj.requestType, value, casts).value);
            var before := Try(Async, h, wire, obj.responseType).held.world.net;
            var r := WriteVerified(Async, h, obj, value, casts, retries);
            && r.call == Value(v) && r.held.conn == Some(|before.down|)
            && r.held.world.net.log
               == PlayAll(Opened(before), others).log + [Request(ReadWire(obj), |before.down|, Some(answer))]
  {
    hide *;
    var wire := WriteWire(obj, EncodeFor(obj.requestType, value, casts).value);
    var g := Try(Async, h, wire, obj.responseType).held;
    FirstLost(h, wire, obj.responseType);
    PiecesNotEmpty(sizes);
    SameScript(g, others, answer, PieceReads(sizes));
    PromptTry(Async, g, ReadWire(obj), obj.responseType, others, answer, sizes, v);
    ReadsBackAtOnce(Async, h, obj, value, casts, retries);
  }

  /** The log of a verified write that took one READ: that WRITE and that READ, and what was there before. */
  ghost predicate WroteAndRead(before: Net, after: Net, write: seq<byte>, link: nat, read: seq<byte>, newer: nat,
                               answer: seq<byte>)
  {
    && Grew(before, after) && |after.log| == |before.log| + 2
    && after.log[|before.log|].wire == write && after.log[|before.log|].link == link < newer
    && after.log[|before.log| + 1] == Request(read, newer, Some(answer))
  }

  lemma LogOfBoth(before: Net, middle: Net, others: seq<Move>, after: Net, write: seq<byte>, link: nat, read: seq<byte>,
                  answer: seq<byte>)
    requires Grew(before, middle) && |middle.log| == |before.log| + 1 && link < |middle.down| <= |after.down|
    requires middle.log[|before.log|].wire == write && middle.log[|before.log|].link == link
    requires after.log == PlayAll(Opened(middle), others).log + [Request(read, |middle.down|, Some(answer))]
    ensures WroteAndRead(before, after, write, link, read, |middle.down|, answer)
  {
    hide PlayAll;
    PlayAllKeeps(Opened(middle), others, 0, Fresh(false), []);
    var now := PlayAll(Opened(middle), others);
    hide Quiet, Awaiting;
    assert Kept(middle.log[|before.log|], now.log[|before.log|]);
    forall n | 0 <= n < |before.log|
      ensures Kept(before.log[n], after.log[n])
    {
      assert Kept(before.log[n], middle.log[n]) && Kept(middle.log[n], now.log[n]);
    }
  }

  /** A request goes out, on a connection opened for it if need be, and no answer comes in time. */
  function Lost(connected: bool, a: seq<Move>, b: seq<Move>, later: seq<Fate>): seq<Fate> {
    (if connected then [] else [Fate([], Fine(0))]) + ([Fate(a, Fine(0))] + ([Fate(b, Expired(false))] + later))
  }

  function AtLost(h: Held, a: seq<Move>, b: seq<Move>, later: seq<Fate>): Held {
    h.(world := World(h.world.net, Lost(h.conn.Some?, a, b, later)))
  }

  lemma LostDials(h: Held, a: seq<Move>, b: seq<Move>, later: seq<Fate>)
    ensures Dialled(AtLost(h, a, b, later))
         == h.(conn := Some(LinkOf(h)),
               world := World(NetOf(h), [Fate(a, Fine(0))] + ([Fate(b, Expired(false))] + later)))
  {
    var rest := [Fate(a, Fine(0))] + ([Fate(b, Expired(false))] + later);
    if h.conn.None? {
      FirstFate(h.world.net, [], Fine(0), rest);
      assert PlayAll(h.world.net, []) == h.world.net;
    } else {
      assert [] + rest == rest;
    }
    hide PlayAll, Advance, NextHow;
  }

  /** The network after a request that no answer came to in time: it may have been answered all the same. */
  function LostNet(net: Net, link: nat, wire: seq<byte>, a: seq<Move>, b: seq<Move>): Net {
    PlayAll(Sent(PlayAll(net, a), link, wire), b)
  }

  lemma LostSpoken(net: Net, link: nat, wire: seq<byte>, a: seq<Move>, b: seq<Move>, later: seq<Fate>)
    requires link < |net.down|
    ensures Spoken(World(net, [Fate(a, Fine(0))] + ([Fate(b, Expired(false))] + later)), link, wire)
         == Awaited(World(LostNet(net, link, wire, a, b), later), Failure(NoAnswer))
  {
    var rest := [Fate(b, Expired(false))] + later;
    FirstFate(net, a, Fine(0), rest);
    FirstFate(Sent(PlayAll(net, a), link, wire), b, Expired(false), later);
    SpokenFine(World(net, [Fate(a, Fine(0))] + rest), link, wire);
    AwaitNext(World(Sent(PlayAll(net, a), link, wire), rest), link, Fresh(false));
    hide PlayAll, Advance, NextHow, Await, Spoken;
  }

  /** The async client's attempt then times out, and the script goes on behind it. */
  lemma LostTry(h: Held, wire: seq<byte>, t: DataType, a: seq<Move>, b: seq<Move>, later: seq<Fate>)
    requires Ready(h)
    ensures Try(Async, AtLost(h, a, b, later), wire, t)
         == Tried(Held(None, World(LostNet(NetOf(h), LinkOf(h), wire, a, b), later), h.tried + [wire]), Error(Timeout))
  {
    ReadyQuiet(h);
    LostDials(h, a, b, later);
    ConverseIs(AtLost(h, a, b, later), wire);
    LostSpoken(NetOf(h), LinkOf(h), wire, a, b, later);
    hide Spoken, Dialled, Converse, Linked, Lost, LostNet, DecodeValue;
  }

  lemma LostLog(net: Net, link: nat, wire: seq<byte>, a: seq<Move>, b: seq<Move>)
    ensures var after := LostNet(net, link, wire, a, b);
            && Grew(net, after) && |after.log| == |net.log| + 1 && |after.down| == |net.down|
            && after.log[|net.log|].wire == wire && after.log[|net.log|].link == link
  {
    hide PlayAll;
    var now := PlayAll(net, a);
    var sent := Sent(now, link, wire);
    PlayAllKeeps(net, a, 0, Fresh(false), []);
    PlayAllKeeps(sent, b, 0, Fresh(false), []);
    hide Quiet, Awaiting;
    SentGrows(now, link, wire);
    assert Kept(sent.log[|net.log|], PlayAll(sent, b).log[|net.log|]);
    hide Grew;
    GrewTrans(net, now, sent);
    GrewTrans(net, sent, PlayAll(sent, b));
  }

  lemma NetOfGrew(h: Held)
    requires Ready(h)
    ensures Grew(h.world.net, NetOf(h)) && LinkOf(h) < |NetOf(h).down| && |NetOf(h).log| == |h.world.net.log|
  {
    OpenedQuiet(h.world.net);
    GrewSame(h.world.net);
  }

  /**
   * So from every state with nothing outstanding: the WRITE goes out and is never answered, or answered
   * late (`a`, `b` and `c` are any moves of the device, before and after the attempt times out), and
   * then the READ is answered. The call returns the value read, and its requests are one WRITE and one READ.
   */
  lemma CompletesAfterSilence(h: Held, obj: ObjectInfo, value: DataValue, casts: Casts, retries: nat,
                              a: seq<Move>, b: seq<Move>, c: seq<Move>, answer: seq<byte>, sizes: seq<nat>, v: DataValue)
    requires Ready(h) && EncodeFor(obj.requestType, value, casts).Ok?
    requires Answers(answer, obj.responseType, v) && ValueEq(value, v)
    requires sizes != [] && (forall k :: k in sizes ==> k > 0) && Feed(Fresh(false), answer).used <= |sizes|
    ensures PieceReads(sizes) != []
    ensures var wire := WriteWire(obj, EncodeFor(obj.requestType, value, casts).value);
            var script := Prompt(false, c, |h.world.net.log| + 1, answer, PieceReads(sizes));
            var r := WriteVerified(Async, AtLost(h, a, b, script), obj, value, casts, retries);
            && r.call == Value(v) && r.held.conn == Some(|NetOf(h).down|)
            && WroteAndRead(h.world.net, r.held.world.net, wire, LinkOf(h), ReadWire(obj), |NetOf(h).down|, answer)
  {
    hide *;
    PiecesNotEmpty(sizes);
    var wire := WriteWire(obj, EncodeFor(obj.requestType, value, casts).value);
    var script := Prompt(false, c, |h.world.net.log| + 1, answer, PieceReads(sizes));
    var g := AtLost(h, a, b, script);
    AtLostReady(h, a, b, script);
    LostTry(h, wire, obj.responseType, a, b, script);
    NetOfGrew(h);
    LostLog(NetOf(h), LinkOf(h), wire, a, b);
    var middle := LostNet(NetOf(h), LinkOf(h), wire, a, b);
    GrewTrans(h.world.net, NetOf(h), middle);
    TimeoutMayBeApplied();
    CompletesByReading(g, obj, value, casts, retries, c, answer, sizes, v);
    WiredLink(WriteVerified(Async, g, obj, value, casts, retries).held);
    LogOfBoth(h.world.net, middle, c, WriteVerified(Async, g, obj, value, casts, retries).held.world.net, wire, LinkOf(h),
              ReadWire(obj), answer);
  }

  lemma TimeoutMayBeApplied()
    ensures MayBeApplied(Timeout) && MayBeApplied(EmptyPayload)
  {
  }

  lemma AtLostReady(h: Held, a: seq<Move>, b: seq<Move>, later: seq<Fate>)
    requires Ready(h)
    ensures var g := AtLost(h, a, b, later); Ready(g) && g.world.net == h.world.net
  {
    hide Quiet, Linked, Lost;
  }

  /** A request is answered without data, in pieces of any sizes; `j` of them is what it takes. */
  lemma EmptyTry(h: Held, wire: seq<byte>, t: DataType, a: seq<Move>, empty: seq<byte>, sizes: seq<nat>, later: seq<Fate>)
    returns (j: nat)
    requires Ready(h) && Safe(empty) && Feed(Fresh(false), empty).verdict.Done? && Feed(Fresh(false), empty).rx.data == []
    requires sizes != [] && (forall k :: k in sizes ==> k > 0)
    requires Unread(h) + Feed(Fresh(false), empty).used <= |sizes|
    ensures 0 < j <= |sizes| && PieceReads(sizes[..j]) + later != []
    ensures Prompted(h, a, empty, PieceReads(sizes[..j]) + later).Wired()
    ensures var r := Try(Async, Prompted(h, a, empty, PieceReads(sizes[..j]) + later), wire, t);
            && r.call == Error(EmptyPayload) && r.held.conn.None? && r.held.world.fates == later
            && r.held.world.net.log == PlayAll(NetOf(h), a).log + [Request(wire, LinkOf(h), Some(empty))]
            && LinkOf(h) < |r.held.world.net.down|
  {
    hide *;
    j := PromptExactly(h, wire, a, empty, sizes, later);
    var g := Prompted(h, a, empty, PieceReads(sizes[..j]) + later);
    var c := Converse(g, wire);
    AccountData(c.outcome.rx, Done, empty);
    TryIs(Async, g, wire, t, c.outcome.rx.data);
    WiredLink(c.held);
  }

  lemma EmptyLog(net: Net, a: seq<Move>, link: nat, wire: seq<byte>, empty: seq<byte>, before: Net, after: Net)
    requires Grew(before, net) && |net.log| == |before.log| && |after.down| >= |before.down|
    requires after.log == PlayAll(net, a).log + [Request(wire, link, Some(empty))]
    ensures Grew(before, after) && |after.log| == |before.log| + 1
    ensures after.log[|before.log|].wire == wire && after.log[|before.log|].link == link
  {
    hide PlayAll;
    PlayAllKeeps(net, a, 0, Fresh(false), []);
    hide Quiet, Awaiting;
    forall n | 0 <= n < |before.log|
      ensures Kept(before.log[n], after.log[n])
    {
      assert Kept(before.log[n], net.log[n]) && Kept(net.log[n], PlayAll(net, a).log[n]);
    }
  }

  lemma PromptedReady(h: Held, a: seq<Move>, answer: seq<byte>, pieces: seq<Fate>)
    requires Ready(h) && pieces != []
    ensures Ready(Prompted(h, a, answer, pieces)) && Prompted(h, a, answer, pieces).world.net == h.world.net
  {
    hide Quiet, Linked, Prompt;
  }

  lemma FirstGrew(h: Held, wire: seq<byte>, t: DataType)
    requires Ready(h)
    ensures |h.world.net.down| <= |Try(Async, h, wire, t).held.world.net.down|
  {
    TryKeeps(h, wire, t, 0);
    hide Try, Confirms, Quiet;
  }

  /** The same when the WRITE is answered without data. */
  lemma CompletesAfterEmpty(h: Held, obj: ObjectInfo, value: DataValue, casts: Casts, retries: nat,
                            a: seq<Move>, empty: seq<byte>, first: seq<nat>,
                            c: seq<Move>, answer: seq<byte>, sizes: seq<nat>, v: DataValue)
    returns (j: nat)
    requires Ready(h) && EncodeFor(obj.requestType, value, casts).Ok?
    requires Safe(empty) && Feed(Fresh(false), empty).verdict.Done? && Feed(Fresh(false), empty).rx.data == []
    requires first != [] && (forall k :: k in first ==> k > 0) && Unread(h) + Feed(Fresh(false), empty).used <= |first|
    requires Answers(answer, obj.responseType, v) && ValueEq(value, v)
    requires sizes != [] && (forall k :: k in sizes ==> k > 0) && Feed(Fresh(false), answer).used <= |sizes|
    ensures PieceReads(sizes) != [] && 0 < j <= |first| && PieceReads(first[..j]) != []
    ensures var script := PieceReads(first[..j]) + Prompt(false, c, |h.world.net.log| + 1, answer, PieceReads(sizes));
            var wire := WriteWire(obj, EncodeFor(obj.requestType, value, casts).value);
            var r := WriteVerified(Async, Prompted(h, a, empty, script), obj, value, casts, retries);
            && r.call == Value(v) && r.held.conn.Some?
            && WroteAndRead(h.world.net, r.held.world.net, wire, LinkOf(h), ReadWire(obj), r.held.conn.value, answer)
  {
    hide *;
    PiecesNotEmpty(sizes);
    var wire := WriteWire(obj, EncodeFor(obj.requestType, value, casts).value);
    var later := Prompt(false, c, |h.world.net.log| + 1, answer, PieceReads(sizes));
    j := EmptyTry(h, wire, obj.responseType, a, empty, first, later);
    PiecesNotEmpty(first[..j]);
    var g := Prompted(h, a, empty, PieceReads(first[..j]) + later);
    PromptedReady(h, a, empty, PieceReads(first[..j]) + later);
    FirstGrew(g, wire, obj.responseType);
    var middle := Try(Async, g, wire, obj.responseType).held.world.net;
    NetOfGrew(h);
    EmptyLog(NetOf(h), a, LinkOf(h), wire, empty, h.world.net, middle);
    TimeoutMayBeApplied();
    CompletesByReading(g, obj, value, casts, retries, c, answer, sizes, v);
    WiredLink(WriteVerified(Async, g, obj, value, casts, retries).held);
    LogOfBoth(h.world.net, middle, c, WriteVerified(Async, g, obj, value, casts, retries).held.world.net, wire, LinkOf(h),
              ReadWire(obj), answer);
  }
}
