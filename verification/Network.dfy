/**
 * Connections to a device. The device reads the requests of a connection in order and answers
 * each one at most once, on the connection it came from, at any time, even after the other side
 * has dropped that connection.
 */
module Network {
  import opened Bytes
  import opened Frame
  import opened Receive
  import opened ParserTheory

  /** A request that has reached the device: its wire bytes, its connection, the answer sent so far. */
  datatype Request = Request(wire: seq<byte>, link: nat, answer: Option<seq<byte>>)

  /** Every request so far, in the order of arrival, and the unread bytes of every connection ever opened. */
  datatype Net = Net(log: seq<Request>, down: seq<seq<byte>>)

  /**
   * An answer with nothing behind its frame that could start another one. It may be empty, cut
   * short, damaged, start with junk, or end in junk without a start token.
   */
  predicate Safe(answer: seq<byte>) {
    var f := Feed(Fresh(false), answer);
    f.verdict.Done? || f.verdict.Panicked? ==> START !in answer[f.used..]
  }

  lemma SafeIs(answer: seq<byte>)
    ensures var f := Feed(Fresh(false), answer);
            Safe(answer) <==> (f.verdict.Done? || f.verdict.Panicked? ==> START !in answer[f.used..])
  {
    hide Feed;
  }

  /** A frame with junk behind it is such an answer. */
  lemma SafeWithJunk(frame: seq<byte>, junk: seq<byte>)
    requires var f := Feed(Fresh(false), frame); f.verdict.Done? && f.used == |frame|
    ensures Safe(frame + junk) <==> START !in junk
  {
    hide *;
    FeedAppend(Fresh(false), frame, junk);
    SafeIs(frame + junk);
    assert (frame + junk)[|frame|..] == junk;
  }

  /** A move of the device: the answer to one request. An empty answer is none at all. */
  datatype Move = Move(request: nat, answer: seq<byte>)

  predicate CanAnswer(net: Net, move: Move) {
    && move.request < |net.log|
    && net.log[move.request].answer.None?
    && net.log[move.request].link < |net.down|
    && Safe(move.answer)
    && AnsweredBefore(net, move.request, net.log[move.request].link)
  }

  /** The requests of a connection before the n-th request have been dealt with. */
  predicate AnsweredBefore(net: Net, n: nat, link: nat)
    requires n <= |net.log|
  {
    forall m :: 0 <= m < n && net.log[m].link == link ==> net.log[m].answer.Some?
  }

  /** The device makes a move if it can. */
  function Play(net: Net, move: Move): (after: Net)
    ensures |after.down| == |net.down| && |after.log| == |net.log|
  {
    if CanAnswer(net, move) then
      var r := net.log[move.request];
      Net(net.log[move.request := r.(answer := Some(move.answer))],
          net.down[r.link := net.down[r.link] + move.answer])
    else net
  }

  function PlayAll(net: Net, moves: seq<Move>): (after: Net)
    ensures |after.down| == |net.down| && |after.log| == |net.log|
    decreases |moves|
  {
    if moves == [] then net else PlayAll(Play(net, moves[0]), moves[1..])
  }

  function Opened(net: Net): Net {
    net.(down := net.down + [[]])
  }

  /** A request arrives at the device. */
  function Sent(net: Net, link: nat, wire: seq<byte>): Net {
    net.(log := net.log + [Request(wire, link, None)])
  }

  /** The first bytes of a connection are read. */
  function Drained(net: Net, link: nat, count: nat): Net
    requires link < |net.down| && count <= |net.down[link]|
  {
    net.(down := net.down[link := net.down[link][count..]])
  }

  /** A connection with nothing outstanding: no request without its answer, no unread start token. */
  predicate Quiet(net: Net, link: nat) {
    link < |net.down| && START !in net.down[link] && AnsweredBefore(net, |net.log|, link)
  }

  /** The bytes end in the answer, and nothing before it could start a frame. */
  predicate EndsIn(all: seq<byte>, answer: seq<byte>) {
    |answer| <= |all| && all[|all| - |answer|..] == answer && START !in all[..|all| - |answer|]
  }

  /**
   * The last request waits for its answer on a connection, everything before it is dealt with,
   * and a parser has taken `fed`: what was left unread before it, and the answer's beginning.
   */
  ghost predicate Awaiting(net: Net, link: nat, rx: Rx, fed: seq<byte>) {
    && net.log != [] && net.log[|net.log| - 1].link == link && link < |net.down|
    && AnsweredBefore(net, |net.log| - 1, link)
    && Feed(Fresh(false), fed) == Fed(rx, More, |fed|)
    && match net.log[|net.log| - 1].answer
       case None => START !in fed + net.down[link]
       case Some(a) => EndsIn(fed + net.down[link], a) && Safe(a)
  }

  /** What is known of the past stays as it was; only answers are added. */
  ghost predicate Grew(before: Net, after: Net) {
    && |before.log| <= |after.log| && |before.down| <= |after.down|
    && forall n :: 0 <= n < |before.log| ==> Kept(before.log[n], after.log[n])
  }

  predicate Kept(r: Request, s: Request) {
    s.wire == r.wire && s.link == r.link && (r.answer.Some? ==> s.answer == r.answer)
  }

  lemma GrewTrans(a: Net, b: Net, c: Net)
    requires Grew(a, b) && Grew(b, c)
    ensures Grew(a, c)
  {
    forall n | 0 <= n < |a.log|
      ensures Kept(a.log[n], c.log[n])
    {
      assert Kept(a.log[n], b.log[n]) && Kept(b.log[n], c.log[n]);
    }
  }

  lemma GrewSame(net: Net)
    ensures Grew(net, net)
  {
  }

  lemma PlayGrows(net: Net, move: Move)
    ensures Grew(net, Play(net, move))
  {
  }

  lemma PlayQuiet(net: Net, move: Move, link: nat)
    requires Quiet(net, link)
    ensures Quiet(Play(net, move), link)
  {
    hide Safe;
  }

  lemma PlayAwaiting(net: Net, move: Move, link: nat, rx: Rx, fed: seq<byte>)
    requires Awaiting(net, link, rx, fed)
    ensures Awaiting(Play(net, move), link, rx, fed)
  {
    hide Safe, Feed;
    if CanAnswer(net, move) && net.log[move.request].link == link {
      assert move.request == |net.log| - 1;
      var before := fed + net.down[link];
      Associates(fed, net.down[link], move.answer);
      assert (before + move.answer)[..|before|] == before && (before + move.answer)[|before|..] == move.answer;
    }
  }

  /** The device's moves keep a quiet connection quiet, and a parser's account of an answer true. */
  lemma {:induction false} PlayAllKeeps(net: Net, moves: seq<Move>, link: nat, rx: Rx, fed: seq<byte>)
    ensures var after := PlayAll(net, moves);
            && Grew(net, after)
            && (Quiet(net, link) ==> Quiet(after, link))
            && (Awaiting(net, link, rx, fed) ==> Awaiting(after, link, rx, fed))
    decreases |moves|
  {
    if moves == [] {
    } else {
      var next := Play(net, moves[0]);
      PlayGrows(net, moves[0]);
      if Quiet(net, link) {
        PlayQuiet(net, moves[0], link);
      }
      if Awaiting(net, link, rx, fed) {
        PlayAwaiting(net, moves[0], link, rx, fed);
      }
      hide Grew, Quiet, Awaiting, Play;
      PlayAllKeeps(next, moves[1..], link, rx, fed);
      GrewTrans(net, next, PlayAll(next, moves[1..]));
    }
  }

  /** The device adds nothing to a connection with nothing outstanding. */
  lemma {:induction false} QuietUntouched(net: Net, moves: seq<Move>, link: nat)
    requires Quiet(net, link)
    ensures PlayAll(net, moves).down[link] == net.down[link]
    decreases |moves|
  {
    if moves == [] {
    } else {
      PlayQuiet(net, moves[0], link);
      hide Safe, AnsweredBefore;
      assert Play(net, moves[0]).down[link] == net.down[link] by {
        QuietUnmoved(net, moves[0], link);
      }
      hide Play;
      QuietUntouched(Play(net, moves[0]), moves[1..], link);
    }
  }

  lemma QuietUnmoved(net: Net, move: Move, link: nat)
    requires Quiet(net, link)
    ensures Play(net, move).down[link] == net.down[link]
  {
    hide Safe;
  }

  /** A request sent on a quiet connection is the only one its answer can be for. */
  lemma SentAwaits(net: Net, link: nat, wire: seq<byte>)
    requires Quiet(net, link)
    ensures Awaiting(Sent(net, link, wire), link, Fresh(false), [])
  {
    hide Safe;
  }

  lemma SentGrows(net: Net, link: nat, wire: seq<byte>)
    ensures Grew(net, Sent(net, link, wire))
  {
  }

  /** Every request came on a connection that was opened. */
  predicate Linked(net: Net) {
    forall n :: 0 <= n < |net.log| ==> net.log[n].link < |net.down|
  }

  lemma GrewLinked(before: Net, after: Net)
    requires Grew(before, after) && |after.log| == |before.log| && Linked(before)
    ensures Linked(after)
  {
    forall n | 0 <= n < |after.log|
      ensures after.log[n].link < |after.down|
    {
      assert Kept(before.log[n], after.log[n]);
    }
  }

  lemma OpenedQuiet(net: Net)
    requires Linked(net)
    ensures Quiet(Opened(net), |net.down|) && Grew(net, Opened(net))
  {
  }

  /** A parser's account of an answer, up to the count of bytes consumed before it. */
  ghost predicate AccountOf(rx: Rx, verdict: Verdict, answer: seq<byte>) {
    var f := Feed(Fresh(false), answer);
    f.verdict == verdict && rx == f.rx.(consumedBytes := rx.consumedBytes)
  }

  lemma NoStartBehind(junk: seq<byte>, answer: seq<byte>, used: nat, taken: nat)
    requires used <= |answer| && |junk| + used <= taken <= |junk| + |answer| && START !in answer[used..]
    ensures START !in (junk + answer)[taken..]
  {
    assert (junk + answer)[taken..] == answer[used..][taken - |junk| - used..];
  }

  lemma SafeRest(answer: seq<byte>)
    requires Safe(answer)
    ensures var f := Feed(Fresh(false), answer);
            f.verdict.Done? || f.verdict.Panicked? ==> START !in answer[f.used..]
  {
  }

  lemma AccountKept(rx: Rx, verdict: Verdict, answer: seq<byte>)
    requires var f := Feed(Fresh(false), answer);
             verdict == f.verdict && rx == f.rx.(consumedBytes := rx.consumedBytes)
    ensures AccountOf(rx, verdict, answer)
  {
  }

  lemma EndsInParts(all: seq<byte>, answer: seq<byte>)
    requires EndsIn(all, answer)
    ensures |answer| <= |all| && START !in all[..|all| - |answer|] && all == all[..|all| - |answer|] + answer
  {
  }

  /** What is left when a parser has decided on an answer within the bytes taken. */
  lemma AnswerDecided(all: seq<byte>, answer: seq<byte>, taken: nat)
    requires EndsIn(all, answer) && Safe(answer) && Feed(Fresh(false), all).used <= taken <= |all|
    ensures var f := Feed(Fresh(false), all);
            f.verdict.Done? || f.verdict.Panicked? ==> START !in all[taken..] && AccountOf(f.rx, f.verdict, answer)
  {
    hide *;
    EndsInParts(all, answer);
    var junk := all[..|all| - |answer|];
    FeedAfterJunk(false, junk, answer);
    SafeRest(answer);
    var f, g := Feed(Fresh(false), all), Feed(Fresh(false), answer);
    if f.verdict.Done? || f.verdict.Panicked? {
      NoStartBehind(junk, answer, g.used, taken);
      AccountKept(f.rx, f.verdict, answer);
    }
  }

  /** What a parser that has taken `fed`, and then some of the unread bytes, makes of all of them. */
  lemma FedOn(fed: seq<byte>, rx: Rx, d: seq<byte>, count: nat)
    requires Feed(Fresh(false), fed) == Fed(rx, More, |fed|) && rx.Shaped() && count <= |d|
    ensures var f := Feed(rx, d[..count]);
            && fed + d == (fed + d[..count]) + d[count..]
            && (fed + d)[|fed| + count..] == d[count..]
            && Feed(Fresh(false), fed + d[..count]) == f.(used := |fed| + f.used)
            && (!f.verdict.More? ==> Feed(Fresh(false), fed + d) == f.(used := |fed| + f.used))
  {
    hide *;
    Joined(fed, d, count);
    FeedAppend(Fresh(false), fed, d[..count]);
    FeedAppend(Fresh(false), fed + d[..count], d[count..]);
  }

  lemma Joined(a: seq<byte>, b: seq<byte>, count: nat)
    requires count <= |b|
    ensures a + b == (a + b[..count]) + b[count..] && (a + b)[|a| + count..] == b[count..]
  {
    assert b == b[..count] + b[count..];
  }

  /**
   * Reading the answer on: either the account of it stays true, or the parser has its verdict; and
   * when it completes, or panics, that is the verdict on the whole answer and the connection is quiet.
   */
  lemma DrainedAwaits(net: Net, link: nat, rx: Rx, fed: seq<byte>, count: nat)
    requires Awaiting(net, link, rx, fed) && 0 < count <= |net.down[link]| && rx.Shaped()
    ensures var after, chunk := Drained(net, link, count), net.down[link][..count];
            var f, answer := Feed(rx, chunk), net.log[|net.log| - 1].answer;
            match f.verdict
            case More => Awaiting(after, link, f.rx, fed + chunk)
            case Failed(_) => true
            case _ => Quiet(after, link) && answer.Some? && AccountOf(f.rx, f.verdict, answer.value)
  {
    hide Feed, Safe, EndsIn, AccountOf;
    var d := net.down[link];
    FedOn(fed, rx, d, count);
    if net.log[|net.log| - 1].answer.None? {
      SkipJunk(Fresh(false), fed + d);
    } else if !Feed(rx, d[..count]).verdict.More? {
      AnswerDecided(fed + d, net.log[|net.log| - 1].answer.value, |fed| + count);
    }
  }

  lemma DrainedGrows(net: Net, link: nat, count: nat)
    requires link < |net.down| && count <= |net.down[link]|
    ensures Grew(net, Drained(net, link, count))
  {
  }

  /** The first frame of an answer does not declare a length of 3; so the parser does not panic on it. */
  predicate Sound(answer: seq<byte>) {
    !DeclaresThree(answer)
  }

  ghost predicate AnswersSound(net: Net) {
    forall n :: 0 <= n < |net.log| && net.log[n].answer.Some? ==> Sound(net.log[n].answer.value)
  }

  ghost predicate MovesSound(moves: seq<Move>) {
    forall m :: m in moves ==> Sound(m.answer)
  }

  /** Whatever is true of every answer sent so far, and of those in the moves, stays true. */
  ghost predicate AllAnswers(net: Net, good: seq<byte> -> bool) {
    forall n :: 0 <= n < |net.log| && net.log[n].answer.Some? ==> good(net.log[n].answer.value)
  }

  lemma {:induction false} PlayAllAnswers(net: Net, moves: seq<Move>, good: seq<byte> -> bool)
    requires AllAnswers(net, good) && forall m :: m in moves ==> good(m.answer)
    ensures AllAnswers(PlayAll(net, moves), good)
    decreases |moves|
  {
    if moves == [] {
    } else {
      hide CanAnswer;
      assert moves[0] in moves && forall m :: m in moves[1..] ==> m in moves;
      PlayAllAnswers(Play(net, moves[0]), moves[1..], good);
    }
  }

  lemma PlayAllSound(net: Net, moves: seq<Move>)
    requires AnswersSound(net) && MovesSound(moves)
    ensures AnswersSound(PlayAll(net, moves))
  {
    hide Sound, PlayAll, CanAnswer;
    PlayAllAnswers(net, moves, a => Sound(a));
  }

  // Requests that wait

  lemma PlayOne(net: Net, move: Move)
    requires CanAnswer(net, move)
    ensures var r, after := net.log[move.request], PlayAll(net, [move]);
            && after.log == net.log[move.request := r.(answer := Some(move.answer))]
            && after.down[r.link] == net.down[r.link] + move.answer
  {
    assert [move][1..] == [];
    assert PlayAll(net, [move]) == PlayAll(Play(net, move), []);
    hide CanAnswer;
  }

  /** The first request of a connection that waits for its answer. */
  ghost predicate FirstWaiting(net: Net, link: nat, m: nat) {
    && m < |net.log| && net.log[m].link == link && net.log[m].answer.None? && link < |net.down|
    && AnsweredBefore(net, m, link)
  }

  lemma {:induction false} FindWaiting(net: Net, link: nat, n: nat) returns (m: nat)
    requires link < |net.down| && n <= |net.log| && !AnsweredBefore(net, n, link)
    ensures m < n && FirstWaiting(net, link, m)
    decreases n
  {
    if AnsweredBefore(net, n - 1, link) {
      m := n - 1;
    } else {
      m := FindWaiting(net, link, n - 1);
    }
  }

  lemma WaitingIsSafe(net: Net, link: nat, m: nat, answer: seq<byte>)
    requires FirstWaiting(net, link, m) && Safe(answer)
    ensures CanAnswer(net, Move(m, answer))
  {
    hide Safe;
  }

  /** A request sent later changes nothing about the first one that waits. */
  lemma StillFirst(net: Net, link: nat, m: nat, wire: seq<byte>)
    requires FirstWaiting(net, link, m)
    ensures FirstWaiting(Sent(net, link, wire), link, m)
  {
  }
}
