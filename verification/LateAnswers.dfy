/**
 * Late answers and the sync client: when its calls are answered by their own answers, and exactly
 * which states of a connection let an old answer through.
 */
module LateAnswers {
  import opened Bytes
  import opened Frame
  import opened Receive
  import opened ParserTheory
  import FrameTheory
  import opened Completions
  import opened Network
  import opened Exchanges
  import opened Codec
  import opened Clients

  // Calls that are answered by their own answers

  /** Errors after which an answer may still be outstanding on a connection that is kept. */
  predicate Doubtful(call: Call) {
    call.Error? && (call.e.Timeout? || call.e.Io? || call.e.BadAnswer?)
  }

  /**
   * A call of the sync client on a connection with nothing outstanding is answered by its own
   * answer, and only a timeout, an I/O error or a bad frame leaves anything outstanding.
   */
  lemma SyncTryKeeps(h: Held, wire: seq<byte>, t: DataType)
    requires Ready(h)
    ensures var r := Try(Sync, h, wire, t);
            && (r.call.Value? ==> Confirms(r.held, wire, t, r.call.v)
                                  && |r.held.world.net.log| == |h.world.net.log| + 1)
            && (Ready(r.held) || (Doubtful(r.call) && r.held.conn.Some?))
  {
    hide *;
    ConverseKeeps(h, wire);
    TryParts(Sync, h, wire, t);
    var r, c := Try(Sync, h, wire, t), Converse(h, wire);
    InterpretedAs(Sync, c.outcome, t);
    if r.call.Value? {
      PairedConfirms(h.world.net, wire, c.held, c.outcome.rx, t, r.call.v);
      SameConfirms(c.held, r.held, wire, t, r.call.v);
    }
    SyncLeaves(c, r, t);
  }

  /** What an exchange of the sync client leaves outstanding. */
  lemma SyncLeaves(c: Conversed, r: Tried, t: DataType)
    requires Linked(c.held.world.net) && r.held.world == c.held.world && r.call == Interpreted(Sync, c.outcome, t)
    requires c.outcome.Answer? || c.outcome.Unwound? ==> Ready(c.held)
    requires r.held.conn == if r.call.Error? && r.call.e.BadValue? then None else c.held.conn
    ensures Ready(r.held) || (Doubtful(r.call) && r.held.conn.Some?)
  {
    hide DecodeValue, Quiet, Linked;
  }

  /** Only a value that cannot be decoded costs the sync client a connection that it held. */
  lemma SyncKeepsConnection(h: Held, wire: seq<byte>, t: DataType)
    requires h.Wired() && h.conn.Some?
    ensures var r := Try(Sync, h, wire, t);
            r.held.conn == if r.call.Error? && r.call.e.BadValue? then None else h.conn
  {
    hide Spoken, DecodeValue;
  }

  lemma SyncTryLinked(h: Held, wire: seq<byte>, t: DataType)
    requires Linked(h.world.net) && h.Wired()
    ensures Linked(Try(Sync, h, wire, t).held.world.net)
  {
    ConverseLinked(h, wire);
    hide Converse, Linked, Grew;
  }

  /** What a caller asks for: a frame, and the type of the value it expects. */
  datatype Asked = Asked(wire: seq<byte>, t: DataType)

  /** One call after the other. */
  function SyncCalls(h: Held, asked: seq<Asked>): (calls: seq<Tried>)
    requires h.Wired()
    ensures |calls| == |asked| && forall c :: c in calls ==> c.held.Wired()
    decreases |asked|
  {
    if asked == [] then []
    else
      var r := Try(Sync, h, asked[0].wire, asked[0].t);
      [r] + SyncCalls(r.held, asked[1..])
  }

  /** Whether some call on the connection now held ended in a timeout, an I/O error or a bad frame. */
  predicate InDoubt(calls: seq<Tried>) {
    if calls == [] then false
    else
      var last := calls[|calls| - 1];
      last.held.conn.Some? && (Doubtful(last.call) || InDoubt(calls[..|calls| - 1]))
  }

  function HeldBefore(h: Held, calls: seq<Tried>): Held {
    if calls == [] then h else calls[|calls| - 1].held
  }

  lemma {:induction false} CallAt(h: Held, asked: seq<Asked>, n: nat)
    requires h.Wired() && n < |asked|
    ensures var calls := SyncCalls(h, asked);
            var g := HeldBefore(h, calls[..n]);
            g.Wired() && calls[n] == Try(Sync, g, asked[n].wire, asked[n].t)
    decreases n
  {
    hide Try;
    var r := Try(Sync, h, asked[0].wire, asked[0].t);
    var calls, rest := SyncCalls(h, asked), SyncCalls(r.held, asked[1..]);
    if n == 0 {
      assert calls[..0] == [];
    } else {
      CallAt(r.held, asked[1..], n - 1);
      assert calls[n] == rest[n - 1];
      if n == 1 {
        assert calls[..1] == [r] && rest[..0] == [];
      } else {
        assert calls[..n][n - 1] == rest[..n - 1][n - 2];
      }
    }
  }

  /** While no call on the connection held is in doubt, nothing is outstanding. */
  lemma {:induction false} ReadyUnlessInDoubt(h: Held, asked: seq<Asked>, n: nat)
    requires Ready(h) && n <= |asked|
    ensures var before := SyncCalls(h, asked)[..n];
            var g := HeldBefore(h, before);
            g.Wired() && Linked(g.world.net) && (InDoubt(before) || Ready(g))
    decreases n
  {
    hide Try, Ready, Linked;
    ReadyLinked(h);
    if n == 0 {
    } else {
      var calls := SyncCalls(h, asked);
      var g := HeldBefore(h, calls[..n - 1]);
      ReadyUnlessInDoubt(h, asked, n - 1);
      CallAt(h, asked, n - 1);
      assert calls[..n][..n - 1] == calls[..n - 1];
      SyncTryLinked(g, asked[n - 1].wire, asked[n - 1].t);
      if Ready(g) {
        SyncTryKeeps(g, asked[n - 1].wire, asked[n - 1].t);
      }
      Unheld(calls[n - 1].held);
    }
  }

  lemma ReadyLinked(h: Held)
    requires Ready(h)
    ensures Linked(h.world.net)
  {
  }

  lemma Unheld(h: Held)
    requires Linked(h.world.net)
    ensures h.conn.None? ==> Ready(h)
  {
  }

  /**
   * However many calls are made of the sync client: one that starts when no earlier call on the
   * connection held ended in a timeout, an I/O error or a bad frame is answered by its own answer.
   */
  lemma SyncAnswersOwn(h: Held, asked: seq<Asked>, n: nat)
    requires Ready(h) && n < |asked|
    ensures var calls := SyncCalls(h, asked);
            !InDoubt(calls[..n]) && calls[n].call.Value? ==>
              Confirms(calls[n].held, asked[n].wire, asked[n].t, calls[n].call.v)
  {
    hide Try, Confirms, InDoubt, Ready, Linked, SyncCalls, HeldBefore;
    ReadyUnlessInDoubt(h, asked, n);
    CallAt(h, asked, n);
    var calls := SyncCalls(h, asked);
    if !InDoubt(calls[..n]) {
      SyncTryKeeps(HeldBefore(h, calls[..n]), asked[n].wire, asked[n].t);
    }
  }

  // Calls that are answered by something else

  /**
   * What the unread bytes of a connection can still do to the next call: complete a frame with
   * data, or let through the late answer to a request that is outstanding.
   */
  predicate LetsOldThrough(net: Net, link: nat)
    requires link < |net.down|
  {
    var f := Feed(Fresh(false), net.down[link]);
    match f.verdict
    case Done => f.rx.data != []
    case More => if f.rx.buffer == [] then !AnsweredBefore(net, |net.log|, link) else Carries(f.rx.buffer)
    case _ => false
  }

  /** Whatever the network will do, the next call is answered by its own answer, if it returns a value. */
  ghost predicate Trusted(h: Held)
    requires h.Wired()
  {
    forall fates, wire, t :: OwnAnswer(h, fates, wire, t)
  }

  ghost predicate OwnAnswer(h: Held, fates: seq<Fate>, wire: seq<byte>, t: DataType)
    requires h.Wired()
  {
    var r := Try(Sync, h.(world := World(h.world.net, fates)), wire, t);
    r.call.Value? ==> Confirms(r.held, wire, t, r.call.v)
  }

  /** The request goes out; the device makes its moves; then the reads come, one byte each. */
  function Script(moves: seq<Move>, n: nat): seq<Fate> {
    [Fate([], Fine(0)), Fate(moves, Fine(1))] + OneByteReads(n)
  }

  lemma MovesFirst(net: Net, moves: seq<Move>, n: nat, link: nat, rx: Rx)
    requires link < |net.down| && rx.Shaped()
    ensures Await(World(net, [Fate(moves, Fine(1))] + OneByteReads(n)), link, rx)
         == Await(World(PlayAll(net, moves), OneByteReads(n + 1)), link, rx)
  {
    var v := World(net, [Fate(moves, Fine(1))] + OneByteReads(n));
    var w := World(PlayAll(net, moves), OneByteReads(n + 1));
    assert v.fates[1..] == OneByteReads(n) && w.fates[1..] == OneByteReads(n);
    assert w.fates[0] == Fate([], Fine(1)) && PlayAll(w.net, []) == w.net;
    assert Advance(v) == Advance(w) && NextHow(v) == NextHow(w);
    hide PlayAll, Advance, NextHow;
    AwaitNext(v, link, rx);
    AwaitNext(w, link, rx);
  }

  lemma ScriptBegins(net: Net, moves: seq<Move>, n: nat)
    ensures var w := World(net, Script(moves, n));
            Advance(w) == World(net, [Fate(moves, Fine(1))] + OneByteReads(n)) && NextHow(w) == Fine(0)
  {
    var w := World(net, Script(moves, n));
    assert w.fates[0] == Fate([], Fine(0)) && w.fates[1..] == [Fate(moves, Fine(1))] + OneByteReads(n);
    assert PlayAll(net, []) == net;
  }

  lemma TryAnswered(kind: Kind, h: Held, wire: seq<byte>, t: DataType)
    requires h.conn.Some? && h.Wired()
    requires var o := Spoken(h.world, h.conn.value, wire).outcome;
             o.Answer? && o.rx.data != [] && DecodeValue(t, o.rx.data).Ok?
    ensures var a, r := Spoken(h.world, h.conn.value, wire), Try(kind, h, wire, t);
            r.call == Value(DecodeValue(t, a.outcome.rx.data).value) && r.held.world == a.world
  {
    hide Spoken, DecodeValue;
  }

  lemma StaysWired(h: Held, fates: seq<Fate>)
    requires h.Wired()
    ensures h.(world := World(h.world.net, fates)).Wired()
  {
  }

  /** A frame that arrives on the connection is taken for the answer, whatever it was sent for. */
  lemma Takes(kind: Kind, h: Held, wire: seq<byte>, t: DataType, moves: seq<Move>)
    requires h.conn.Some? && h.Wired()
    requires var f := Feed(Fresh(false), PlayAll(Sent(h.world.net, h.conn.value, wire), moves).down[h.conn.value]);
             f.verdict.Done? && f.rx.data != [] && DecodeValue(t, f.rx.data).Ok?
    ensures var net := PlayAll(Sent(h.world.net, h.conn.value, wire), moves);
            var f := Feed(Fresh(false), net.down[h.conn.value]);
            var r := Try(kind, h.(world := World(h.world.net, Script(moves, f.used))), wire, t);
            r.call == Value(DecodeValue(t, f.rx.data).value) && r.held.world.net.log == net.log
  {
    hide *;
    WiredLink(h);
    var link := h.conn.value;
    var sent := Sent(h.world.net, link, wire);
    SentDown(h.world.net, link, wire);
    var net := PlayAll(sent, moves);
    var f := Feed(Fresh(false), net.down[link]);
    var g := h.(world := World(h.world.net, Script(moves, f.used)));
    StaysWired(h, Script(moves, f.used));
    ScriptBegins(h.world.net, moves, f.used);
    SpokenFine(g.world, link, wire);
    MovesFirst(sent, moves, f.used, link, Fresh(false));
    ReadOneByOne(net, f.used + 1, link, Fresh(false));
    TryAnswered(kind, g, wire, t);
  }

  /** An answer that decodes to `v`, with nothing behind it that could start another frame. */
  predicate Answers(answer: seq<byte>, t: DataType, v: DataValue) {
    var f := Feed(Fresh(false), answer);
    f.verdict.Done? && f.rx.data != [] && DecodeValue(t, f.rx.data) == Ok(v) && Safe(answer)
  }

  /**
   * While a request waits for its answer, the next call can be answered by that one: whatever the
   * call asks for and whatever the answer holds, some run of the network makes it so, and the
   * request of the call itself is never answered.
   */
  lemma SyncTakesOld(h: Held, wire: seq<byte>, t: DataType, m: nat, answer: seq<byte>, v: DataValue) returns (n: nat)
    requires h.conn.Some? && h.Wired() && START !in h.world.net.down[h.conn.value]
    requires FirstWaiting(h.world.net, h.conn.value, m) && Answers(answer, t, v)
    ensures var net := h.world.net;
            var r := Try(Sync, h.(world := World(net, Script([Move(m, answer)], n))), wire, t);
            && r.call == Value(v)
            && r.held.world.net.log
               == net.log[m := net.log[m].(answer := Some(answer))] + [Request(wire, h.conn.value, None)]
  {
    var net, link := h.world.net, h.conn.value;
    var sent := Sent(net, link, wire);
    StillFirst(net, link, m, wire);
    WaitingIsSafe(sent, link, m, answer);
    PlayOne(sent, Move(m, answer));
    FeedAfterJunk(false, net.down[link], answer);
    n := Feed(Fresh(false), net.down[link] + answer).used;
    assert sent.log[m := net.log[m].(answer := Some(answer))]
        == net.log[m := net.log[m].(answer := Some(answer))] + [Request(wire, link, None)];
    hide Feed, DecodeValue, PlayAll, Try, FirstWaiting, CanAnswer, Script;
    Takes(Sync, h, wire, t, [Move(m, answer)]);
  }

  /** An answer with one byte of data. */
  lemma SomeAnswer() returns (answer: seq<byte>)
    ensures Answers(answer, Unknown, Raw([1]))
  {
    answer := Printed(Response, 0, [1], 0, Standard);
    FrameTheory.RoundTrip(Response, 0, [1], 0, false);
    hide Feed, Printed;
    assert answer[|answer|..] == [];
  }

  lemma NotOwn(h: Held, fates: seq<Fate>, wire: seq<byte>, t: DataType)
    requires h.Wired()
    requires var r := Try(Sync, h.(world := World(h.world.net, fates)), wire, t);
             var log := r.held.world.net.log;
             r.call.Value? && log != []
             && (log[|log| - 1].answer.None? || !Feed(Fresh(false), log[|log| - 1].answer.value).verdict.Done?)
    ensures !Trusted(h)
  {
    hide Try, Feed;
    assert !OwnAnswer(h, fates, wire, t);
  }

  lemma WiredLink(h: Held)
    requires h.Wired() && h.conn.Some?
    ensures h.conn.value < |h.world.net.down|
  {
  }

  lemma OutstandingBetrays(h: Held)
    requires h.conn.Some? && h.Wired() && START !in h.world.net.down[h.conn.value]
    requires !AnsweredBefore(h.world.net, |h.world.net.log|, h.conn.value)
    ensures !Trusted(h)
  {
    hide *;
    WiredLink(h);
    var m := FindWaiting(h.world.net, h.conn.value, |h.world.net.log|);
    var answer := SomeAnswer();
    var n := SyncTakesOld(h, [], Unknown, m, answer, Raw([1]));
    NotOwn(h, Script([Move(m, answer)], n), [], Unknown);
  }

  lemma DecodesRaw(data: seq<byte>)
    ensures DecodeValue(Unknown, data) == Ok(Raw(data))
  {
  }

  /** A frame left unread is taken for the next answer. */
  lemma UnreadFrameBetrays(h: Held)
    requires h.conn.Some? && h.Wired()
    requires var f := Feed(Fresh(false), h.world.net.down[h.conn.value]); f.verdict.Done? && f.rx.data != []
    ensures !Trusted(h)
  {
    var f := Feed(Fresh(false), h.world.net.down[h.conn.value]);
    var sent := Sent(h.world.net, h.conn.value, []);
    assert PlayAll(sent, []) == sent && sent.log[|sent.log| - 1].answer.None?;
    hide *;
    DecodesRaw(f.rx.data);
    SentDown(h.world.net, h.conn.value, []);
    Takes(Sync, h, [], Unknown, []);
    NotOwn(h, Script([], f.used), [], Unknown);
  }

  lemma SentDown(net: Net, link: nat, wire: seq<byte>)
    ensures Sent(net, link, wire).down == net.down && Sent(net, link, wire).log == net.log + [Request(wire, link, None)]
  {
  }

  /** The beginning of a frame left unread makes a frame of what comes next. */
  lemma UnreadStartBetrays(h: Held)
    requires h.conn.Some? && h.Wired()
    requires var f := Feed(Fresh(false), h.world.net.down[h.conn.value]);
             f.verdict.More? && f.rx.buffer != [] && Carries(f.rx.buffer)
    ensures !Trusted(h)
  {
    hide *;
    WiredLink(h);
    var net, link := h.world.net, h.conn.value;
    var x := CarriesCompletes(net.down[link]);
    var sent := Sent(net, link, []);
    SentDown(net, link, []);
    SentWaits(net, link, []);
    var m := FindWaiting(sent, link, |sent.log|);
    WaitingLinked(sent, link, m);
    UndoneSafe(x);
    WaitingIsSafe(sent, link, m, x);
    PlayOne(sent, Move(m, x));
    var f := Feed(Fresh(false), net.down[link] + x);
    DecodesRaw(f.rx.data);
    Takes(Sync, h, [], Unknown, [Move(m, x)]);
    NotOwn(h, Script([Move(m, x)], f.used), [], Unknown);
  }

  lemma SentWaits(net: Net, link: nat, wire: seq<byte>)
    ensures var sent := Sent(net, link, wire); !AnsweredBefore(sent, |sent.log|, link)
  {
    var sent := Sent(net, link, wire);
    assert sent.log[|net.log|] == Request(wire, link, None);
  }

  lemma WaitingLinked(net: Net, link: nat, m: nat)
    requires FirstWaiting(net, link, m)
    ensures m < |net.log| && net.log[m].link == link
  {
  }

  lemma UndoneSafe(answer: seq<byte>)
    requires var v := Feed(Fresh(false), answer).verdict; !v.Done? && !v.Panicked?
    ensures Safe(answer)
  {
  }

  lemma {:induction false} PlayAllAppends(net: Net, moves: seq<Move>, link: nat) returns (x: seq<byte>)
    requires link < |net.down|
    ensures PlayAll(net, moves).down[link] == net.down[link] + x
    decreases |moves|
  {
    if moves == [] {
      x := [];
    } else {
      var next := Play(net, moves[0]);
      var y := if next.down[link] == net.down[link] then [] else moves[0].answer;
      assert next.down[link] == net.down[link] + y;
      hide Play;
      var z := PlayAllAppends(next, moves[1..], link);
      Associates(net.down[link], y, z);
      x := y + z;
    }
  }

  lemma AdvanceAppends(w: World, link: nat) returns (x: seq<byte>)
    requires link < |w.net.down|
    ensures Advance(w).net.down[link] == w.net.down[link] + x
  {
    if w.fates == [] {
      x := [];
    } else {
      x := PlayAllAppends(w.net, w.fates[0].moves, link);
    }
  }

  lemma DrainedRest(net: Net, link: nat, count: nat)
    requires link < |net.down| && count <= |net.down[link]|
    ensures var after := Drained(net, link, count);
            |after.down| == |net.down| && net.down[link] == net.down[link][..count] + after.down[link]
  {
  }

  /** A completed answer is what the parser makes of the unread bytes and of some that arrive behind them. */
  lemma {:induction false} AwaitStream(w: World, link: nat, rx: Rx) returns (x: seq<byte>)
    requires link < |w.net.down| && rx.Shaped()
    ensures var r, f := Await(w, link, rx), Feed(rx, w.net.down[link] + x);
            r.outcome.Answer? ==> f.verdict.Done? && f.rx == r.outcome.rx
    decreases |w.fates|
  {
    hide *;
    x := AdvanceAppends(w, link);
    AwaitNext(w, link, rx);
    var v, count, d := Advance(w), Arriving(w, link), w.net.down[link];
    if !NextHow(w).Broken? && count > 0 {
      var u, chunk := v.(net := Drained(v.net, link, count)), v.net.down[link][..count];
      var rest := u.net.down[link];
      DrainedRest(v.net, link, count);
      FewerFates(w, link);
      FeedAppend(rx, chunk, rest);
      var f := Feed(rx, chunk);
      if f.verdict.More? {
        var y := AwaitStream(u, link, f.rx);
        FeedAppend(rx, chunk, rest + y);
        Associates(d, x, y);
        Associates(chunk, rest, y);
        x := x + y;
      }
    }
  }

  /** The same for a whole exchange. */
  lemma SpokenStream(w: World, link: nat, wire: seq<byte>) returns (x: seq<byte>)
    requires link < |w.net.down|
    ensures var r, f := Spoken(w, link, wire), Feed(Fresh(false), w.net.down[link] + x);
            r.outcome.Answer? ==> f.verdict.Done? && f.rx == r.outcome.rx
  {
    hide Advance, Await, Feed;
    var y := AdvanceAppends(w, link);
    var z := AwaitStream(Advance(w).(net := Sent(Advance(w).net, link, wire)), link, Fresh(false));
    Associates(w.net.down[link], y, z);
    x := y + z;
  }

  /** What unread bytes that are harmless become: no frame with data, whatever arrives behind them. */
  lemma HarmlessStays(net: Net, link: nat, x: seq<byte>)
    requires link < |net.down| && !LetsOldThrough(net, link) && START in net.down[link]
    ensures var f := Feed(Fresh(false), net.down[link] + x); f.verdict.Done? ==> f.rx.data == []
  {
    var d := net.down[link];
    var f := Feed(Fresh(false), d);
    FeedAppend(Fresh(false), d, x);
    if f.verdict.More? {
      StartBuffered(d);
      if Feed(Fresh(false), d + x).verdict.Done? && Feed(Fresh(false), d + x).rx.data != [] {
        CompletesCarries(d, x);
      }
    }
    hide Feed, Carries;
  }

  lemma StartBuffered(d: seq<byte>)
    requires Feed(Fresh(false), d).verdict.More?
    ensures Feed(Fresh(false), d).rx.buffer == [] <==> START !in d
  {
    var f := Feed(Fresh(false), d);
    if START !in d {
      SkipJunk(Fresh(false), d);
    } else {
      FreshLive(false);
      FeedReaches(Fresh(false), d);
      LiveShaped(f.rx);
      hide Feed, Live, Judge, Unescape;
      assert d[..|d|] == d;
    }
  }

  /** A connection that lets nothing old through: its next call is answered by its own answer, or by no value. */
  lemma HarmlessIsOwn(h: Held, fates: seq<Fate>, wire: seq<byte>, t: DataType)
    requires h.conn.Some? && h.Wired() && Linked(h.world.net) && !LetsOldThrough(h.world.net, h.conn.value)
    ensures OwnAnswer(h, fates, wire, t)
  {
    var net, link := h.world.net, h.conn.value;
    var g := h.(world := World(net, fates));
    if START in net.down[link] {
      var x := SpokenStream(g.world, link, wire);
      HarmlessStays(net, link, x);
      NoData(g, wire, t);
    } else {
      SkipJunk(Fresh(false), net.down[link]);
      assert Quiet(net, link);
      SyncTryKeeps(g, wire, t);
    }
    hide Try, Confirms;
  }

  lemma NoData(h: Held, wire: seq<byte>, t: DataType)
    requires h.conn.Some? && h.Wired()
    requires var o := Spoken(h.world, h.conn.value, wire).outcome; o.Answer? ==> o.rx.data == []
    ensures !Try(Sync, h, wire, t).call.Value?
  {
    hide Spoken;
  }

  /**
   * Exactly the connections that let nothing old through can be trusted: whatever the network does,
   * and whatever is asked, a value that the sync client then returns is its own answer.
   */
  lemma TrustedExactly(h: Held)
    requires h.conn.Some? && h.Wired() && Linked(h.world.net)
    ensures Trusted(h) <==> !LetsOldThrough(h.world.net, h.conn.value)
  {
    var net, link := h.world.net, h.conn.value;
    var f := Feed(Fresh(false), net.down[link]);
    if LetsOldThrough(net, link) {
      if f.verdict.Done? {
        UnreadFrameBetrays(h);
      } else if f.rx.buffer == [] {
        StartBuffered(net.down[link]);
        OutstandingBetrays(h);
      } else {
        UnreadStartBetrays(h);
      }
    } else {
      forall fates, wire, t
        ensures OwnAnswer(h, fates, wire, t)
      {
        HarmlessIsOwn(h, fates, wire, t);
      }
    }
  }

  // After an answer that did not come

  /** The request of a call has reached the device, its answer has not come, and the connection is kept. */
  predicate AnswerLost(h: Held, r: Tried) {
    var log := r.held.world.net.log;
    r.held.conn.Some? && |log| > |h.world.net.log| && log[|log| - 1].answer.None?
  }

  lemma LostIsWaiting(h: Held, wire: seq<byte>, t: DataType)
    requires Ready(h) && AnswerLost(h, Try(Sync, h, wire, t))
    ensures var g := Try(Sync, h, wire, t).held;
            FirstWaiting(g.world.net, g.conn.value, |h.world.net.log|) && START !in g.world.net.down[g.conn.value]
  {
    ConverseKeeps(h, wire);
    ConverseUnanswered(h, wire);
    var g := Converse(h, wire).held;
    assert Try(Sync, h, wire, t).held == g;
    hide Converse, Try;
    EarlierAnswered(h, g);
  }

  lemma EarlierAnswered(h: Held, g: Held)
    requires Ready(h) && Grew(h.world.net, g.world.net) && SameOrNewer(h, g) && g.conn.Some?
    ensures AnsweredBefore(g.world.net, |h.world.net.log|, g.conn.value)
  {
    var before, after := h.world.net.log, g.world.net.log;
    forall m | 0 <= m < |before| && after[m].link == g.conn.value
      ensures after[m].answer.Some?
    {
      assert Kept(before[m], after[m]);
    }
  }

  /**
   * After every call of the sync client whose answer does not come, in every state and for every
   * next call: some run of the network makes the next call return the old answer, whatever that
   * holds. So the connection kept after a timeout is not to be trusted.
   */
  lemma LostAnswerReturns(h: Held, wire: seq<byte>, t: DataType, next: Asked, answer: seq<byte>, v: DataValue)
    returns (n: nat)
    requires Ready(h) && AnswerLost(h, Try(Sync, h, wire, t)) && Answers(answer, next.t, v)
    ensures var g := Try(Sync, h, wire, t).held;
            var m := |h.world.net.log|;
            var r := Try(Sync, g.(world := World(g.world.net, Script([Move(m, answer)], n))), next.wire, next.t);
            && r.call == Value(v) && |r.held.world.net.log| == m + 2
            && r.held.world.net.log[m].answer == Some(answer) && r.held.world.net.log[m + 1].answer.None?
            && !Trusted(g)
  {
    var g, m := Try(Sync, h, wire, t).held, |h.world.net.log|;
    LostIsWaiting(h, wire, t);
    assert !AnsweredBefore(g.world.net, |g.world.net.log|, g.conn.value);
    LostIsLast(h, wire, t);
    hide Try, Answers, Script, Trusted;
    OutstandingBetrays(g);
    n := SyncTakesOld(g, next.wire, next.t, m, answer, v);
  }

  lemma LostIsLast(h: Held, wire: seq<byte>, t: DataType)
    requires Ready(h) && AnswerLost(h, Try(Sync, h, wire, t))
    ensures |Try(Sync, h, wire, t).held.world.net.log| == |h.world.net.log| + 1
  {
    ConverseKeeps(h, wire);
    hide Converse;
  }

  // A direct answer

  lemma DialsFirst(kind: Kind, net: Net, script: seq<Fate>, wire: seq<byte>, t: DataType)
    ensures Try(kind, Held(None, World(net, [Fate([], Fine(0))] + script), []), wire, t)
         == Try(kind, Held(Some(|net.down|), World(Opened(net), script), []), wire, t)
  {
    var w := World(net, [Fate([], Fine(0))] + script);
    assert w.fates[0] == Fate([], Fine(0)) && w.fates[1..] == script && PlayAll(net, []) == net;
    assert Dialled(Held(None, w, [])) == Held(Some(|net.down|), World(Opened(net), script), []);
    hide Spoken;
  }

  /**
   * A verified write of either client returns whatever value the direct answer holds, be it the one
   * written or not: for each there is a run.
   */
  lemma DirectAnswerUnchecked(kind: Kind, obj: ObjectInfo, value: DataValue, casts: Casts, retries: nat,
                              answer: seq<byte>, v: DataValue)
    returns (n: nat)
    requires EncodeFor(obj.requestType, value, casts).Ok? && Answers(answer, obj.responseType, v)
    ensures var script := [Fate([], Fine(0))] + Script([Move(0, answer)], n);
            WriteVerified(kind, Held(None, World(Net([], []), script), []), obj, value, casts, retries).call == Value(v)
  {
    var wire := WriteWire(obj, EncodeFor(obj.requestType, value, casts).value);
    var h := Held(Some(0), World(Net([], [[]]), []), []);
    var sent := Sent(h.world.net, 0, wire);
    assert sent == Net([Request(wire, 0, None)], [[]]) && Opened(Net([], [])) == h.world.net;
    AnswerArrives(wire, answer);
    n := Feed(Fresh(false), answer).used;
    hide Feed, DecodeValue, Try, PlayAll, EncodeFor, WriteWire, Script;
    Takes(kind, h, wire, obj.responseType, [Move(0, answer)]);
    DialsFirst(kind, Net([], []), Script([Move(0, answer)], n), wire, obj.responseType);
  }

  // A verified write confirmed by a late answer

  /** A request goes out over a new connection, and no answer comes in time. */
  const SILENCE: seq<Fate> := [Fate([], Fine(0)), Fate([], Fine(0)), Fate([], Expired(false))]

  /** While the next request goes out the device answers the first one, and that answer is read. */
  function Belated(answer: seq<byte>): seq<Fate> {
    [Fate([Move(0, answer)], Fine(0)), Fate([], Fine(|answer|))]
  }

  /** The answer does not come in time. */
  lemma SyncTimesOut(wire: seq<byte>, t: DataType, later: seq<Fate>)
    ensures Try(Sync, Held(None, World(Net([], []), SILENCE + later), []), wire, t)
         == Tried(Held(Some(0), World(Net([Request(wire, 0, None)], [[]]), later), [wire]), Error(Timeout))
  {
    var w := World(Net([], []), SILENCE + later);
    var f := w.fates;
    assert f[0] == SILENCE[0] && f[1..][0] == SILENCE[1] && f[1..][1..][0] == SILENCE[2];
    assert f[1..][1..][1..] == later;
    assert PlayAll(w.net, []) == w.net;
    var d := World(Net([], [[]]), f[1..]);
    assert Advance(w) == World(w.net, f[1..]);
    assert Dialled(Held(None, w, [])) == Held(Some(0), d, []);
    var s := World(Net([Request(wire, 0, None)], [[]]), f[1..][1..]);
    assert Advance(d).(net := Sent(d.net, 0, wire)) == s;
    assert Advance(s) == World(s.net, later);
    assert Await(s, 0, Fresh(false)) == Awaited(World(s.net, later), Failure(NoAnswer));
    assert [] + [wire] == [wire];
  }

  /** A single frame, short enough for one read, that decodes to `v`. */
  predicate AnswersWith(answer: seq<byte>, t: DataType, v: DataValue) {
    var f := Feed(Fresh(false), answer);
    && f.verdict.Done? && f.used == |answer| && 0 < |answer| <= CHUNK
    && f.rx.data != [] && DecodeValue(t, f.rx.data) == Ok(v)
  }

  lemma SyncReadsLate(first: seq<byte>, wire: seq<byte>, answer: seq<byte>, t: DataType, v: DataValue,
                      tried: seq<seq<byte>>)
    requires AnswersWith(answer, t, v)
    ensures Try(Sync, Held(Some(0), World(Net([Request(first, 0, None)], [[]]), Belated(answer)), tried), wire, t)
         == Tried(Held(Some(0), World(Net([Request(first, 0, Some(answer)), Request(wire, 0, None)], [[]]), []),
                       tried + [wire]), Value(v))
  {
    hide Feed, DecodeValue;
    var w := World(Net([Request(first, 0, None)], [[]]), Belated(answer));
    var reading := [Fate([], Fine(|answer|))];
    assert w.fates[0] == Fate([Move(0, answer)], Fine(0)) && w.fates[1..] == reading;
    var net := Net([Request(first, 0, Some(answer))], [answer]);
    AnswerArrives(first, answer);
    assert Advance(w) == World(net, reading);
    var s := World(Net([Request(first, 0, Some(answer)), Request(wire, 0, None)], [answer]), reading);
    assert Advance(w).(net := Sent(net, 0, wire)) == s;
    assert Advance(s) == World(s.net, []);
    assert answer[..|answer|] == answer && Arriving(s, 0) == |answer|;
    var u := Net(s.net.log, [[]]);
    assert answer[|answer|..] == [] && [answer][0 := []] == [[]];
    assert Drained(s.net, 0, |answer|) == u;
    assert Await(s, 0, Fresh(false)) == Awaited(World(u, []), Answer(Feed(Fresh(false), answer).rx));
  }

  lemma AnswerArrives(first: seq<byte>, answer: seq<byte>)
    requires Safe(answer)
    ensures PlayAll(Net([Request(first, 0, None)], [[]]), [Move(0, answer)])
         == Net([Request(first, 0, Some(answer))], [answer])
  {
    hide Safe;
    var net := Net([Request(first, 0, None)], [[]]);
    assert CanAnswer(net, Move(0, answer));
    assert [] + answer == answer;
    var next := Play(net, Move(0, answer));
    assert PlayAll(next, []) == next;
    assert [Move(0, answer)][1..] == [];
  }

  /**
   * The sync client does accept late answers: if the answer to its WRITE comes while it reads back,
   * it takes it for the answer to the READ, which the device need never answer.
   */
  lemma SyncAcceptsLate(obj: ObjectInfo, value: DataValue, casts: Casts, retries: nat, answer: seq<byte>, v: DataValue)
    requires EncodeFor(obj.requestType, value, casts).Ok?
    requires AnswersWith(answer, obj.responseType, v) && ValueEq(value, v)
    ensures var wire := WriteWire(obj, EncodeFor(obj.requestType, value, casts).value);
            var r := WriteVerified(Sync, Held(None, World(Net([], []), SILENCE + Belated(answer)), []), obj, value, casts,
                                    retries);
            && r.call == Value(v)
            && r.held.world.net.log == [Request(wire, 0, Some(answer)), Request(ReadWire(obj), 0, None)]
  {
    hide Try, EncodeFor, WriteWire, ReadWire, ValueEq, AnswersWith, Belated, SILENCE;
    var wire, rd := WriteWire(obj, EncodeFor(obj.requestType, value, casts).value), ReadWire(obj);
    SyncTimesOut(wire, obj.responseType, Belated(answer));
    SyncReadsLate(wire, rd, answer, obj.responseType, v, [wire]);
    var h := Held(Some(0), World(Net([Request(wire, 0, None)], [[]]), Belated(answer)), [wire]);
    var r := Try(Sync, h, rd, obj.responseType);
    assert ReadObject(Sync, h, obj, retries) == r;
    assert Verified(Sync, h, wire, obj, value, retries, 0) == r;
  }
}
