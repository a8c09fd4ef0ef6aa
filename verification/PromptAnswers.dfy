/** Exchanges that go well: dialling, writing, and an answer that comes and is read in pieces of any sizes. */
module PromptAnswers {
  import opened Bytes
  import opened Frame
  import opened Receive
  import opened ParserTheory
  import opened Network
  import opened Exchanges

  /**
   * Dialling succeeds, if it is needed; then the write, before which the device may make other moves;
   * then the device answers request `n`, and the reads come.
   */
  function Prompt(connected: bool, others: seq<Move>, n: nat, answer: seq<byte>, pieces: seq<Fate>): seq<Fate>
    requires pieces != []
  {
    (if connected then [] else [Fate([], Fine(0))]) + WriteAndReads(others, n, answer, pieces)
  }

  function WriteAndReads(others: seq<Move>, n: nat, answer: seq<byte>, pieces: seq<Fate>): seq<Fate>
    requires pieces != []
  {
    [Fate(others, Fine(0))] + AnswerAndReads(n, answer, pieces)
  }

  function AnswerAndReads(n: nat, answer: seq<byte>, pieces: seq<Fate>): seq<Fate>
    requires pieces != []
  {
    [Fate([Move(n, answer)], pieces[0].how)] + pieces[1..]
  }

  /** The device makes no move before the first of these reads returns. */
  predicate StillAtFirst(pieces: seq<Fate>) {
    pieces != [] && pieces[0].moves == []
  }

  lemma StillNotEmpty(pieces: seq<Fate>)
    requires StillAtFirst(pieces)
    ensures pieces != []
  {
  }

  lemma FirstFate(net: Net, moves: seq<Move>, how: How, rest: seq<Fate>)
    ensures var w := World(net, [Fate(moves, how)] + rest);
            Advance(w) == World(PlayAll(net, moves), rest) && NextHow(w) == how
  {
    var w := World(net, [Fate(moves, how)] + rest);
    assert w.fates[1..] == rest;
  }

  lemma StillFate(net: Net, pieces: seq<Fate>)
    requires StillAtFirst(pieces)
    ensures Advance(World(net, pieces)) == World(net, pieces[1..]) && NextHow(World(net, pieces)) == pieces[0].how
  {
    assert PlayAll(net, []) == net;
  }

  lemma ArrivesAlike(v: World, w: World, link: nat)
    requires Advance(v) == Advance(w) && NextHow(v) == NextHow(w) && link < |v.net.down| == |w.net.down|
    ensures Arriving(v, link) == Arriving(w, link)
  {
    hide Advance, NextHow;
  }

  /** The device's move just before the first read is one before all of them. */
  lemma AnswerFirst(net: Net, n: nat, answer: seq<byte>, pieces: seq<Fate>, link: nat)
    requires StillAtFirst(pieces) && link < |net.down|
    ensures Await(World(net, AnswerAndReads(n, answer, pieces)), link, Fresh(false))
         == Await(World(PlayAll(net, [Move(n, answer)]), pieces), link, Fresh(false))
  {
    hide *;
    StillNotEmpty(pieces);
    var v := World(net, AnswerAndReads(n, answer, pieces));
    var w := World(PlayAll(net, [Move(n, answer)]), pieces);
    AnswerAndReadsIs(n, answer, pieces);
    FirstFate(net, [Move(n, answer)], pieces[0].how, pieces[1..]);
    StillFate(w.net, pieces);
    ArrivesAlike(v, w, link);
    AwaitNext(v, link, Fresh(false));
    AwaitNext(w, link, Fresh(false));
  }

  lemma AnswerAndReadsIs(n: nat, answer: seq<byte>, pieces: seq<Fate>)
    requires pieces != []
    ensures AnswerAndReads(n, answer, pieces) == [Fate([Move(n, answer)], pieces[0].how)] + pieces[1..]
  {
  }

  /** A request sent on a quiet connection is the first there that waits. */
  lemma SentIsFirst(net: Net, link: nat, wire: seq<byte>)
    requires Quiet(net, link)
    ensures FirstWaiting(Sent(net, link, wire), link, |net.log|)
  {
  }

  lemma QuietParts(net: Net, link: nat)
    requires Quiet(net, link)
    ensures link < |net.down| && START !in net.down[link]
  {
  }

  lemma SentParts(net: Net, link: nat, wire: seq<byte>)
    ensures Sent(net, link, wire).down == net.down && Sent(net, link, wire).log == net.log + [Request(wire, link, None)]
  {
  }

  lemma LastAnswered(log: seq<Request>, wire: seq<byte>, link: nat, answer: seq<byte>)
    ensures var all := log + [Request(wire, link, None)];
            all[|log| := all[|log|].(answer := Some(answer))] == log + [Request(wire, link, Some(answer))]
  {
  }

  /** The network when the answer to the request of an exchange has arrived. */
  function Arrived(net: Net, link: nat, wire: seq<byte>, others: seq<Move>, answer: seq<byte>): (after: Net)
    ensures |after.down| == |net.down|
  {
    PlayAll(Sent(PlayAll(net, others), link, wire), [Move(|net.log|, answer)])
  }

  lemma ArrivedParts(net: Net, link: nat, wire: seq<byte>, others: seq<Move>, answer: seq<byte>)
    requires Quiet(net, link) && Safe(answer)
    ensures link < |net.down| && START !in net.down[link]
    ensures var after := Arrived(net, link, wire, others, answer);
            && after.down[link] == net.down[link] + answer
            && after.log == PlayAll(net, others).log + [Request(wire, link, Some(answer))]
  {
    hide *;
    QuietParts(net, link);
    var now := PlayAll(net, others);
    PlayAllKeeps(net, others, link, Fresh(false), []);
    QuietUntouched(net, others, link);
    SentIsFirst(now, link, wire);
    WaitingIsSafe(Sent(now, link, wire), link, |net.log|, answer);
    PlayOne(Sent(now, link, wire), Move(|net.log|, answer));
    SentParts(now, link, wire);
    LastAnswered(now.log, wire, link, answer);
    ArrivedIs(net, link, wire, others, answer);
  }

  lemma ArrivedIs(net: Net, link: nat, wire: seq<byte>, others: seq<Move>, answer: seq<byte>)
    ensures Arrived(net, link, wire, others, answer)
         == PlayAll(Sent(PlayAll(net, others), link, wire), [Move(|net.log|, answer)])
  {
    hide PlayAll, Sent;
  }

  /** An exchange in which the write goes through is a wait for what has arrived. */
  lemma PromptSpoken(net: Net, link: nat, wire: seq<byte>, others: seq<Move>, answer: seq<byte>, pieces: seq<Fate>)
    requires link < |net.down| && StillAtFirst(pieces)
    ensures Spoken(World(net, WriteAndReads(others, |net.log|, answer, pieces)), link, wire)
         == Await(World(Arrived(net, link, wire, others, answer), pieces), link, Fresh(false))
  {
    hide *;
    StillNotEmpty(pieces);
    var n, w := |net.log|, World(net, WriteAndReads(others, |net.log|, answer, pieces));
    WriteAndReadsIs(others, n, answer, pieces);
    FirstFate(net, others, Fine(0), AnswerAndReads(n, answer, pieces));
    SpokenFine(w, link, wire);
    SentParts(PlayAll(net, others), link, wire);
    AnswerFirst(Sent(PlayAll(net, others), link, wire), n, answer, pieces, link);
    ArrivedIs(net, link, wire, others, answer);
  }

  lemma WriteAndReadsIs(others: seq<Move>, n: nat, answer: seq<byte>, pieces: seq<Fate>)
    requires pieces != []
    ensures WriteAndReads(others, n, answer, pieces) == [Fate(others, Fine(0))] + AnswerAndReads(n, answer, pieces)
  {
  }

  lemma DoneIsLong(answer: seq<byte>)
    requires Feed(Fresh(false), answer).verdict.Done?
    ensures answer != []
  {
  }

  /** The bytes left unread on the connection held. */
  function Unread(h: Held): nat
    requires h.Wired()
  {
    if h.conn.Some? then |h.world.net.down[h.conn.value]| else 0
  }

  /** The connection an exchange will use, and the network with it. */
  function LinkOf(h: Held): nat {
    if h.conn.Some? then h.conn.value else |h.world.net.down|
  }

  function NetOf(h: Held): Net {
    if h.conn.Some? then h.world.net else Opened(h.world.net)
  }

  /** The same state before a script in which the exchange is answered. */
  function Prompted(h: Held, others: seq<Move>, answer: seq<byte>, pieces: seq<Fate>): Held
    requires pieces != []
  {
    h.(world := World(h.world.net, Prompt(h.conn.Some?, others, |h.world.net.log|, answer, pieces)))
  }

  lemma DialsFine(h: Held, others: seq<Move>, answer: seq<byte>, pieces: seq<Fate>)
    requires pieces != []
    ensures Dialled(Prompted(h, others, answer, pieces))
         == h.(conn := Some(LinkOf(h)),
               world := World(NetOf(h), WriteAndReads(others, |h.world.net.log|, answer, pieces)))
  {
    if h.conn.None? {
      var net, rest := h.world.net, WriteAndReads(others, |h.world.net.log|, answer, pieces);
      FirstFate(net, [], Fine(0), rest);
      assert PlayAll(net, []) == net;
    } else {
      assert [] + WriteAndReads(others, |h.world.net.log|, answer, pieces)
          == WriteAndReads(others, |h.world.net.log|, answer, pieces);
    }
    hide WriteAndReads, PlayAll, Advance, NextHow;
  }

  lemma ReadyQuiet(h: Held)
    requires Ready(h)
    ensures Quiet(NetOf(h), LinkOf(h)) && Linked(NetOf(h)) && |NetOf(h).log| == |h.world.net.log|
    ensures |NetOf(h).down[LinkOf(h)]| == Unread(h)
  {
    OpenedQuiet(h.world.net);
  }

  lemma ConverseIs(h: Held, wire: seq<byte>)
    requires h.Wired() && Dialled(h).conn.Some?
    ensures var d := Dialled(h);
            d.conn.value < |d.world.net.down|
            && var a := Spoken(d.world, d.conn.value, wire);
               Converse(h, wire) == Conversed(Held(d.conn, a.world, h.tried + [wire]), a.outcome)
  {
    hide Spoken;
  }

  lemma PromptedWired(h: Held, others: seq<Move>, answer: seq<byte>, pieces: seq<Fate>)
    requires h.Wired() && pieces != []
    ensures Prompted(h, others, answer, pieces).Wired() && Prompted(h, others, answer, pieces).tried == h.tried
  {
    hide Prompt;
  }

  /** The same for a whole exchange. */
  lemma PromptAwaits(h: Held, wire: seq<byte>, others: seq<Move>, answer: seq<byte>, pieces: seq<Fate>)
    requires Ready(h) && StillAtFirst(pieces)
    ensures LinkOf(h) < |NetOf(h).down| && Prompted(h, others, answer, pieces).Wired()
    ensures var a := Await(World(Arrived(NetOf(h), LinkOf(h), wire, others, answer), pieces), LinkOf(h), Fresh(false));
            Converse(Prompted(h, others, answer, pieces), wire)
            == Conversed(Held(Some(LinkOf(h)), a.world, h.tried + [wire]), a.outcome)
  {
    hide *;
    StillNotEmpty(pieces);
    ReadyQuiet(h);
    QuietParts(NetOf(h), LinkOf(h));
    DialsFine(h, others, answer, pieces);
    PromptedWired(h, others, answer, pieces);
    ConverseIs(Prompted(h, others, answer, pieces), wire);
    PromptSpoken(NetOf(h), LinkOf(h), wire, others, answer, pieces);
  }

  lemma PiecesStill(sizes: seq<nat>, later: seq<Fate>)
    requires sizes != []
    ensures StillAtFirst(PieceReads(sizes)) && StillAtFirst(PieceReads(sizes) + later)
  {
  }

  /**
   * From every state with nothing outstanding: if dialling, where it is needed, and writing succeed and
   * the answer comes, in pieces of any sizes, the exchange completes with it, whatever else the device
   * does before; and exactly its own request is added to the log.
   */
  lemma PromptConverse(h: Held, wire: seq<byte>, others: seq<Move>, answer: seq<byte>, sizes: seq<nat>)
    requires Ready(h) && Safe(answer) && Feed(Fresh(false), answer).verdict.Done?
    requires sizes != [] && (forall k :: k in sizes ==> k > 0)
    requires Unread(h) + Feed(Fresh(false), answer).used <= |sizes|
    ensures Prompted(h, others, answer, PieceReads(sizes)).Wired()
    ensures var c := Converse(Prompted(h, others, answer, PieceReads(sizes)), wire);
            && c.outcome.Answer? && AccountOf(c.outcome.rx, Done, answer)
            && c.held.conn == Some(LinkOf(h))
            && c.held.world.net.log == PlayAll(NetOf(h), others).log + [Request(wire, LinkOf(h), Some(answer))]
  {
    hide *;
    ReadyQuiet(h);
    PiecesStill(sizes, []);
    PromptAwaits(h, wire, others, answer, PieceReads(sizes));
    var net, link := NetOf(h), LinkOf(h);
    ArrivedParts(net, link, wire, others, answer);
    FeedAfterJunk(false, net.down[link], answer);
    DoneIsLong(answer);
    ReadInPieces(Arrived(net, link, wire, others, answer), sizes, link, Fresh(false));
    AccountKept(Feed(Fresh(false), net.down[link] + answer).rx, Done, answer);
  }

  lemma PiecesThen(net: Net, sizes: seq<nat>, j: nat, later: seq<Fate>)
    requires 0 < j <= |sizes|
    ensures var w := World(net, PieceReads(sizes[..j]) + later);
            && Advance(w) == World(net, PieceReads(sizes[1..][..j - 1]) + later) && NextHow(w) == Fine(sizes[0])
  {
    var w := World(net, PieceReads(sizes[..j]) + later);
    assert w.fates[0] == Fate([], Fine(sizes[0]));
    assert w.fates[1..] == PieceReads(sizes[1..][..j - 1]) + later;
    assert PlayAll(net, []) == net;
  }

  lemma NoPieces(sizes: seq<nat>, later: seq<Fate>)
    ensures PieceReads(sizes[..0]) + later == later
  {
    assert PieceReads(sizes[..0]) == [];
  }

  lemma PieceCount(w: World, link: nat)
    requires link < |w.net.down| && w.net.down[link] != []
    requires Advance(w).net == w.net && NextHow(w).Fine? && NextHow(w).size > 0
    ensures 0 < Arriving(w, link) <= |w.net.down[link]|
  {
    hide Advance, NextHow;
  }

  /** The reads that an answer takes; whatever the script holds behind them is left. */
  lemma {:induction false} ReadExactly(net: Net, sizes: seq<nat>, link: nat, rx: Rx, later: seq<Fate>) returns (j: nat)
    requires link < |net.down| && rx.Shaped() && forall k :: k in sizes ==> k > 0
    requires var f := Feed(rx, net.down[link]); f.verdict.Done? && f.used <= |sizes| && net.down[link] != []
    ensures 0 < j <= |sizes|
    ensures var r := Await(World(net, PieceReads(sizes[..j]) + later), link, rx);
            r.outcome == Answer(Feed(rx, net.down[link]).rx) && r.world.net.log == net.log && r.world.fates == later
    decreases |sizes|
  {
    hide *;
    var d := net.down[link];
    FeedUses(rx, d);
    assert sizes[0] in sizes && forall k :: k in sizes[1..] ==> k in sizes;
    PiecesThen(net, sizes, 1, later);
    var w := World(net, PieceReads(sizes[..1]) + later);
    PieceCount(w, link);
    var count := Arriving(w, link);
    var u := Drained(net, link, count);
    DrainedParts(net, link, count);
    FeedAppend(rx, d[..count], d[count..]);
    var f := Feed(rx, d[..count]);
    NoPieces(sizes[1..], later);
    if f.verdict.More? {
      FeedNothing(f.rx);
      var i := ReadExactly(u, sizes[1..], link, f.rx, later);
      j := i + 1;
      PiecesThen(net, sizes, j, later);
      SameCount(w, World(net, PieceReads(sizes[..j]) + later), link);
    } else {
      j := 1;
    }
    AwaitNext(World(net, PieceReads(sizes[..j]) + later), link, rx);
  }

  lemma SameCount(v: World, w: World, link: nat)
    requires Advance(v).net == Advance(w).net && NextHow(v) == NextHow(w) && link < |v.net.down| == |w.net.down|
    ensures Arriving(v, link) == Arriving(w, link)
  {
    hide Advance, NextHow;
  }

  lemma DrainedParts(net: Net, link: nat, count: nat)
    requires link < |net.down| && count <= |net.down[link]|
    ensures var u := Drained(net, link, count);
            && |u.down| == |net.down| && u.log == net.log && u.down[link] == net.down[link][count..]
            && net.down[link] == net.down[link][..count] + net.down[link][count..]
  {
  }

  /** The same, when the script goes on behind the reads that the answer takes. */
  lemma PromptExactly(h: Held, wire: seq<byte>, others: seq<Move>, answer: seq<byte>, sizes: seq<nat>, later: seq<Fate>)
    returns (j: nat)
    requires Ready(h) && Safe(answer) && Feed(Fresh(false), answer).verdict.Done?
    requires sizes != [] && (forall k :: k in sizes ==> k > 0)
    requires Unread(h) + Feed(Fresh(false), answer).used <= |sizes|
    ensures 0 < j <= |sizes| && PieceReads(sizes[..j]) + later != []
    ensures Prompted(h, others, answer, PieceReads(sizes[..j]) + later).Wired()
    ensures var c := Converse(Prompted(h, others, answer, PieceReads(sizes[..j]) + later), wire);
            && c.outcome.Answer? && AccountOf(c.outcome.rx, Done, answer)
            && c.held.conn == Some(LinkOf(h)) && c.held.world.fates == later
            && c.held.world.net.log == PlayAll(NetOf(h), others).log + [Request(wire, LinkOf(h), Some(answer))]
  {
    hide *;
    ReadyQuiet(h);
    var net, link := NetOf(h), LinkOf(h);
    ArrivedParts(net, link, wire, others, answer);
    FeedAfterJunk(false, net.down[link], answer);
    DoneIsLong(answer);
    j := ReadExactly(Arrived(net, link, wire, others, answer), sizes, link, Fresh(false), later);
    PiecesStill(sizes[..j], later);
    StillNotEmpty(PieceReads(sizes[..j]) + later);
    PromptAwaits(h, wire, others, answer, PieceReads(sizes[..j]) + later);
    AccountKept(Feed(Fresh(false), net.down[link] + answer).rx, Done, answer);
  }
}
