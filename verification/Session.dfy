/**
 * A client session of the proxy: the byte pump that cuts a downstream stream into junk,
 * frames to forward and pieces to drop, as a function of the bytes alone.
 */
module Session {
  import opened Bytes
  import opened Frame
  import opened Receive
  import opened ParserTheory
  import opened FrameTheory

  /** What became of a piece of the stream. */
  datatype Segment =
    | Junk(bytes: seq<byte>)
    | Forwarded(bytes: seq<byte>)
    | Dropped(bytes: seq<byte>)
    | Fatal(bytes: seq<byte>)

  /** The parser of a session, what it has cut off so far, and whether its task still runs. */
  datatype Pump = Pump(rx: Rx, segments: seq<Segment>, running: bool)

  const START_UP: Pump := Pump(Fresh(false), [], true)

  /** One downstream byte. A panic ends the session; any other verdict but `More` is followed by a new parser. */
  function Take(p: Pump, c: byte): (q: Pump)
    requires p.rx.Shaped()
    ensures q.rx.Shaped()
  {
    var t := Step(p.rx, c);
    match t.verdict
    case More =>
      p.(rx := t.rx, segments := p.segments + (if p.rx.buffer == [] && c != START then [Junk([c])] else []))
    case Done => p.(rx := Fresh(false), segments := p.segments + [Forwarded(t.rx.raw)])
    case Failed(_) => p.(rx := Fresh(false), segments := p.segments + [Dropped(t.rx.raw)])
    case Panicked => p.(rx := t.rx, segments := p.segments + [Fatal(t.rx.raw)], running := false)
  }

  /** A run of downstream bytes; a task that has ended takes none. */
  function TakeAll(p: Pump, d: seq<byte>): (q: Pump)
    requires p.rx.Shaped()
    ensures q.rx.Shaped()
    decreases |d|
  {
    if d == [] || !p.running then p else TakeAll(Take(p, d[0]), d[1..])
  }

  function Text(segments: seq<Segment>): seq<byte> {
    if segments == [] then [] else Text(segments[..|segments| - 1]) + segments[|segments| - 1].bytes
  }

  /** The frames handed to the upstream side, in order. */
  function Frames(segments: seq<Segment>): seq<seq<byte>> {
    if segments == [] then []
    else Frames(segments[..|segments| - 1])
         + (if segments[|segments| - 1].Forwarded? then [segments[|segments| - 1].bytes] else [])
  }

  lemma FramesLast(segments: seq<Segment>, g: Segment)
    ensures Frames(segments + [g]) == Frames(segments) + if g.Forwarded? then [g.bytes] else []
  {
    assert (segments + [g])[..|segments|] == segments;
  }

  /** A wire on which a new parser decides, exactly at its last byte. */
  ghost predicate Decides(wire: seq<byte>) {
    wire != [] && wire[0] == START && Feed(Fresh(false), wire).used == |wire|
  }

  /** What makes a segment what it is. */
  ghost predicate Genuine(g: Segment) {
    match g
    case Junk(b) => START !in b
    case Forwarded(b) => Decides(b) && Feed(Fresh(false), b).verdict.Done?
    case Dropped(b) => Decides(b) && Feed(Fresh(false), b).verdict.Failed?
    case Fatal(b) => Decides(b) && Feed(Fresh(false), b).verdict.Panicked?
  }

  // Chunks

  lemma {:induction false} TakeAppend(p: Pump, a: seq<byte>, b: seq<byte>)
    requires p.rx.Shaped()
    ensures TakeAll(p, a + b) == TakeAll(TakeAll(p, a), b)
    decreases |a|
  {
    if a == [] || !p.running {
      assert a == [] ==> a + b == b;
    } else {
      assert (a + b)[0] == a[0] && (a + b)[1..] == a[1..] + b;
      hide Take;
      TakeAppend(Take(p, a[0]), a[1..], b);
    }
  }

  /** However the stream is cut into reads, the session ends up the same. */
  lemma {:induction false} ChunksDoNotMatter(p: Pump, chunks: seq<seq<byte>>)
    requires p.rx.Shaped()
    ensures TakeAll(p, Concat(chunks)) == TakeChunks(p, chunks)
    decreases |chunks|
  {
    if chunks == [] {
    } else {
      TakeAppend(p, chunks[0], Concat(chunks[1..]));
      ChunksDoNotMatter(TakeAll(p, chunks[0]), chunks[1..]);
    }
  }

  function TakeChunks(p: Pump, chunks: seq<seq<byte>>): Pump
    requires p.rx.Shaped()
    decreases |chunks|
  {
    if chunks == [] then p else TakeChunks(TakeAll(p, chunks[0]), chunks[1..])
  }

  // Conservation

  /** The bytes that a task which ended did not take any more. */
  function Untaken(p: Pump, d: seq<byte>): (u: seq<byte>)
    requires p.rx.Shaped()
    ensures |u| <= |d| && d[|d| - |u|..] == u
    decreases |d|
  {
    if d == [] || !p.running then d else Untaken(Take(p, d[0]), d[1..])
  }

  /** What a session has read so far and not yet cut off. */
  function Pending(p: Pump): seq<byte> {
    if p.running then p.rx.raw else []
  }

  /** A parser that waits, and got there from its own wire bytes. */
  ghost predicate Grown(rx: Rx) {
    && Live(rx) && !rx.ignoreCrcMismatch
    && Feed(Fresh(false), rx.raw) == Fed(rx.(consumedBytes := |rx.raw|), More, |rx.raw|)
  }

  lemma FreshGrown(k: nat)
    ensures Grown(Fresh(false).(consumedBytes := k))
  {
  }

  /** The next byte of a wire. */
  lemma GrownStep(rx: Rx, c: byte)
    requires Grown(rx) && (rx.raw != [] || c == START)
    ensures rx.Shaped()
    ensures var t := Step(rx, c);
            && t.rx.raw == rx.raw + [c]
            && Feed(Fresh(false), t.rx.raw) == Fed(t.rx.(consumedBytes := |t.rx.raw|), t.verdict, |t.rx.raw|)
            && (t.verdict.More? ==> Grown(t.rx))
  {
    LiveShaped(rx);
    StepAdvances(rx, c);
    var k := |rx.raw|;
    var rk := rx.(consumedBytes := k);
    FeedAppend(Fresh(false), rx.raw, [c]);
    FeedOne(rk, c);
    StepCount(rx, k, c);
    hide Live, Step, Feed;
  }

  /** Bytes cut off or pending, and segments that are what they claim to be. */
  ghost predicate Accounts(p: Pump, d: seq<byte>) {
    && Text(p.segments) + Pending(p) == d
    && (forall g :: g in p.segments ==> Genuine(g))
    && (p.running ==> Grown(p.rx))
  }

  lemma TextLast(segments: seq<Segment>, g: Segment)
    ensures Text(segments + [g]) == Text(segments) + g.bytes
  {
    assert (segments + [g])[..|segments|] == segments;
  }

  /** The segment a verdict cuts off. */
  function Cut(verdict: Verdict, raw: seq<byte>): Segment
    requires !verdict.More?
  {
    match verdict
    case Done => Forwarded(raw)
    case Failed(_) => Dropped(raw)
    case Panicked => Fatal(raw)
  }

  /** A session after its parser has reached a verdict. */
  function Settled(p: Pump, rx: Rx, verdict: Verdict): Pump {
    if verdict.More? then p.(rx := rx)
    else Pump(if verdict.Panicked? then rx else Fresh(false), p.segments + [Cut(verdict, rx.raw)],
              p.running && !verdict.Panicked?)
  }

  lemma TakeSettles(p: Pump, c: byte)
    requires p.rx.Shaped() && (p.rx.buffer != [] || c == START)
    ensures Take(p, c) == Settled(p, Step(p.rx, c).rx, Step(p.rx, c).verdict)
  {
    hide Step, Fresh;
  }

  lemma TakeSkips(p: Pump, d: seq<byte>, c: byte)
    requires p.running && Accounts(p, d) && p.rx.raw == [] && c != START
    ensures p.rx.Shaped() && Accounts(Take(p, c), d + [c])
  {
    LiveShaped(p.rx);
    StepSkip(p.rx, c);
    TextLast(p.segments, Junk([c]));
    var q := Take(p, c);
    SkippedGrown(p.rx, c);
    assert q.segments == p.segments + [Junk([c])];
    assert Genuine(Junk([c]));
  }

  lemma SkippedGrown(rx: Rx, c: byte)
    requires Grown(rx) && rx.raw == []
    ensures Grown(rx.(consumedBytes := rx.consumedBytes + 1))
  {
  }

  lemma TakeGrows(p: Pump, d: seq<byte>, c: byte)
    requires p.running && Accounts(p, d) && (p.rx.raw != [] || c == START)
    ensures p.rx.Shaped() && Accounts(Take(p, c), d + [c])
  {
    LiveShaped(p.rx);
    GrownStep(p.rx, c);
    FirstByte(p.rx, c);
    var t := Step(p.rx, c);
    hide Step, Feed, Grown, Text, Take, Live;
    TakeSettles(p, c);
    Associates(Text(p.segments), p.rx.raw, [c]);
    if !t.verdict.More? {
      CutAccounts(p, d, t.rx, t.verdict);
    }
  }

  lemma CutAccounts(p: Pump, d: seq<byte>, rx: Rx, verdict: Verdict)
    requires p.running && (forall g :: g in p.segments ==> Genuine(g)) && !verdict.More?
    requires Feed(Fresh(false), rx.raw).verdict == verdict && Decides(rx.raw)
    ensures Accounts(Settled(p, rx, verdict), Text(p.segments) + rx.raw)
  {
    hide Feed, Text, Decides, Grown;
    var g := Cut(verdict, rx.raw);
    TextLast(p.segments, g);
    FreshGrown(0);
    FreshBare();
    assert Genuine(g);
    assert Text(p.segments) + rx.raw + [] == Text(p.segments) + rx.raw;
  }

  lemma FreshBare()
    ensures Fresh(false).(consumedBytes := 0) == Fresh(false) && Fresh(false).raw == []
  {
  }

  lemma FirstByte(rx: Rx, c: byte)
    requires Grown(rx) && (rx.raw != [] || c == START)
    ensures (rx.raw + [c])[0] == START
  {
  }

  /** How many bytes a session takes. */
  function Taken(p: Pump, d: seq<byte>): (n: nat)
    requires p.rx.Shaped()
    ensures n <= |d|
  {
    |d| - |Untaken(p, d)|
  }

  lemma TakenNext(p: Pump, d: seq<byte>)
    requires p.rx.Shaped() && d != [] && p.running
    ensures d[..Taken(p, d)] == [d[0]] + d[1..][..Taken(Take(p, d[0]), d[1..])]
    ensures TakeAll(p, d) == TakeAll(Take(p, d[0]), d[1..])
  {
    hide Take, TakeAll;
    var rest := Untaken(Take(p, d[0]), d[1..]);
    assert Untaken(p, d) == rest;
    FirstAndRest(d, |d| - |rest|);
    assert TakeAll(p, d) == TakeAll(Take(p, d[0]), d[1..]) by {
      TakeAllNext(p, d);
    }
  }

  lemma FirstAndRest(d: seq<byte>, n: nat)
    requires 0 < n <= |d|
    ensures d[..n] == [d[0]] + d[1..][..n - 1]
  {
  }

  lemma TakeAllNext(p: Pump, d: seq<byte>)
    requires p.rx.Shaped() && d != [] && p.running
    ensures TakeAll(p, d) == TakeAll(Take(p, d[0]), d[1..])
  {
  }

  lemma TakeNext(p: Pump, taken: seq<byte>, c: byte)
    requires p.running && Accounts(p, taken)
    ensures p.rx.Shaped() && Accounts(Take(p, c), taken + [c])
  {
    hide *;
    if p.rx.raw == [] && c != START {
      TakeSkips(p, taken, c);
    } else {
      TakeGrows(p, taken, c);
    }
  }

  lemma {:induction false} TakeAllAccounts(p: Pump, taken: seq<byte>, d: seq<byte>)
    requires p.rx.Shaped() && Accounts(p, taken)
    ensures Accounts(TakeAll(p, d), taken + d[..Taken(p, d)])
    decreases |d|
  {
    if d == [] || !p.running {
      assert taken + [] == taken;
    } else {
      hide *;
      TakeNext(p, taken, d[0]);
      TakenNext(p, d);
      TakeAllAccounts(Take(p, d[0]), taken + [d[0]], d[1..]);
      Associates(taken, [d[0]], d[1..][..Taken(Take(p, d[0]), d[1..])]);
    }
  }

  /**
   * Whatever a client sends: the bytes read are, in order, exactly the segments cut off and
   * what the parser still holds; every segment is what it claims to be; and only a panic
   * leaves bytes unread.
   */
  lemma Conservation(d: seq<byte>)
    ensures var q := TakeAll(START_UP, d);
            && Text(q.segments) + Pending(q) + Untaken(START_UP, d) == d
            && (forall g :: g in q.segments ==> Genuine(g))
            && (q.running ==> Untaken(START_UP, d) == [])
  {
    StartAccounts();
    TakeAllAccounts(START_UP, [], d);
    UntakenIfEnded(START_UP, d);
    var n := Taken(START_UP, d);
    assert d == d[..n] + Untaken(START_UP, d);
    assert [] + d[..n] == d[..n];
  }

  lemma StartAccounts()
    ensures Accounts(START_UP, [])
  {
    FreshGrown(0);
  }

  lemma {:induction false} UntakenIfEnded(p: Pump, d: seq<byte>)
    requires p.rx.Shaped()
    ensures TakeAll(p, d).running ==> Untaken(p, d) == []
    decreases |d|
  {
    if d != [] && p.running {
      UntakenIfEnded(Take(p, d[0]), d[1..]);
    }
  }

  // Forwarding

  /** A session whose parser has seen nothing since it was made. */
  ghost predicate Unbegun(p: Pump) {
    p.running && p.rx == Fresh(false).(consumedBytes := p.rx.consumedBytes)
  }

  /** Fed to its verdict, a session settles on it. */
  lemma {:induction false} TakeAllSettles(p: Pump, w: seq<byte>)
    requires p.running && p.rx.Shaped() && (p.rx.buffer != [] || (w != [] && w[0] == START))
    requires Feed(p.rx, w).used == |w|
    ensures TakeAll(p, w) == Settled(p, Feed(p.rx, w).rx, Feed(p.rx, w).verdict)
    decreases |w|
  {
    if w == [] {
    } else {
      TakeSettles(p, w[0]);
      FeedCons(p.rx, w);
      StepBuffers(p.rx, w[0]);
      hide Take, Step, Feed;
      var t := Step(p.rx, w[0]);
      if t.verdict.More? {
        TakeAllSettles(Take(p, w[0]), w[1..]);
      } else {
        assert |w| == 1 && w[1..] == [];
      }
    }
  }

  lemma StepBuffers(s: Rx, c: byte)
    requires s.Shaped() && (s.buffer != [] || c == START)
    ensures Step(s, c).rx.buffer != []
  {
  }

  /** One segment of a stream. */
  lemma TakeSegment(p: Pump, g: Segment)
    requires Unbegun(p) && Genuine(g) && !g.Fatal?
    ensures p.rx.Shaped()
    ensures var q := TakeAll(p, g.bytes);
            Unbegun(q) && q.segments == p.segments + Singles(g)
  {
    if g.Junk? {
      TakeJunk(p, g.bytes);
    } else {
      TakeWire(p, g);
    }
  }

  /** Junk is cut off byte by byte. */
  function Singles(g: Segment): seq<Segment> {
    if g.Junk? then seq(|g.bytes|, i requires 0 <= i < |g.bytes| => Junk([g.bytes[i]])) else [g]
  }

  lemma {:induction false} TakeJunk(p: Pump, junk: seq<byte>)
    requires Unbegun(p) && START !in junk
    ensures p.rx.Shaped()
    ensures var q := TakeAll(p, junk);
            Unbegun(q) && q.segments == p.segments + Singles(Junk(junk))
    decreases |junk|
  {
    if junk == [] {
    } else {
      TakeOneJunk(p, junk[0]);
      hide Take, Unbegun;
      TakeJunk(Take(p, junk[0]), junk[1..]);
      assert Singles(Junk(junk)) == [Junk([junk[0]])] + Singles(Junk(junk[1..]));
    }
  }

  lemma TakeOneJunk(p: Pump, c: byte)
    requires Unbegun(p) && c != START
    ensures p.rx.Shaped()
    ensures Unbegun(Take(p, c)) && Take(p, c).segments == p.segments + [Junk([c])]
  {
  }

  lemma TakeWire(p: Pump, g: Segment)
    requires Unbegun(p) && Genuine(g) && (g.Forwarded? || g.Dropped?)
    ensures p.rx.Shaped()
    ensures var q := TakeAll(p, g.bytes);
            Unbegun(q) && q.segments == p.segments + [g]
  {
    var w := g.bytes;
    FreshLive(false);
    FeedCount(Fresh(false), p.rx.consumedBytes, w);
    FeedReaches(Fresh(false), w);
    WholeWire(Fresh(false), w, Feed(Fresh(false), w));
    FreshBare();
    hide Feed, Live, Reached;
    TakeAllSettles(p, w);
    assert [g] == [Cut(Feed(Fresh(false), w).verdict, w)];
  }

  /** The whole list, junk byte by byte. */
  function AllSingles(segments: seq<Segment>): seq<Segment> {
    if segments == [] then []
    else AllSingles(segments[..|segments| - 1]) + Singles(segments[|segments| - 1])
  }

  /** A stream made of genuine segments is cut into exactly these. */
  lemma {:induction false} CutBack(segments: seq<Segment>)
    requires forall g :: g in segments ==> Genuine(g) && !g.Fatal?
    ensures var q := TakeAll(START_UP, Text(segments));
            Unbegun(q) && q.segments == AllSingles(segments)
    decreases |segments|
  {
    if segments == [] {
    } else {
      var init, g := segments[..|segments| - 1], segments[|segments| - 1];
      CutBack(init);
      hide TakeAll, Unbegun, Genuine, Singles;
      TakeAppend(START_UP, Text(init), g.bytes);
      TakeSegment(TakeAll(START_UP, Text(init)), g);
    }
  }

  lemma {:induction false} FramesOfSingles(segments: seq<Segment>)
    ensures Frames(AllSingles(segments)) == Frames(segments)
    decreases |segments|
  {
    if segments == [] {
    } else {
      var init, g := segments[..|segments| - 1], segments[|segments| - 1];
      FramesOfSingles(init);
      FramesAppend(AllSingles(init), Singles(g));
      FramesOfOne(g);
    }
  }

  lemma {:induction false} FramesAppend(a: seq<Segment>, b: seq<Segment>)
    ensures Frames(a + b) == Frames(a) + Frames(b)
    decreases |b|
  {
    if b == [] {
      assert a + b == a;
    } else {
      assert (a + b)[..|a + b| - 1] == a + b[..|b| - 1];
      FramesAppend(a, b[..|b| - 1]);
    }
  }

  lemma FramesOfOne(g: Segment)
    ensures Frames(Singles(g)) == if g.Forwarded? then [g.bytes] else []
  {
    if g.Junk? {
      NoFrames(Singles(g));
    } else {
      assert Singles(g)[..0] == [];
    }
  }

  lemma {:induction false} NoFrames(segments: seq<Segment>)
    requires forall i :: 0 <= i < |segments| ==> segments[i].Junk?
    ensures Frames(segments) == []
  {
    if segments == [] {
    } else {
      NoFrames(segments[..|segments| - 1]);
    }
  }

  /** The pieces that end a session are those that declare a length of 3. */
  lemma FatalExactly(g: Segment)
    requires Genuine(g)
    ensures g.Fatal? <==> DeclaresThree(g.bytes)
  {
    PanicsExactly(false, g.bytes);
    hide DeclaresThree;
    if g.Junk? {
      SkipJunk(Fresh(false), g.bytes);
    }
    hide Feed;
  }

  /**
   * For every stream of frames, damaged frames and junk, cut into reads in any way, a session
   * hands on exactly the frames, byte for byte and in order, and is ready for the next one.
   */
  lemma ForwardsExactly(segments: seq<Segment>, chunks: seq<seq<byte>>)
    requires forall g :: g in segments ==> Genuine(g) && !DeclaresThree(g.bytes)
    requires Concat(chunks) == Text(segments)
    ensures var q := TakeChunks(START_UP, chunks);
            q.running && Frames(q.segments) == Frames(segments) && Pending(q) == []
  {
    hide Genuine, DeclaresThree;
    forall g | g in segments
      ensures !g.Fatal?
    {
      FatalExactly(g);
    }
    ChunksDoNotMatter(START_UP, chunks);
    CutBack(segments);
    FramesOfSingles(segments);
  }
}
