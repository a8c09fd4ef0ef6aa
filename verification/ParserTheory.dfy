/**
 * What the receive parser does with any stream: chunks do not matter, the state is a
 * function of the wire bytes kept, and every start token is decided within a bound.
 */
module ParserTheory {
  import opened Bytes
  import opened Crc
  import opened Frame
  import opened Receive

  // Chunks

  /** Feeding a then b is feeding a ++ b, up to the first verdict. */
  lemma {:induction false} FeedAppend(s: Rx, a: seq<byte>, b: seq<byte>)
    requires s.Shaped()
    ensures var fa := Feed(s, a);
            Feed(s, a + b) ==
            if fa.verdict.More?
            then var fb := Feed(fa.rx, b); Fed(fb.rx, fb.verdict, |a| + fb.used)
            else fa
    decreases |a|
  {
    if a == [] {
      assert a + b == b;
    } else {
      assert (a + b)[0] == a[0] && (a + b)[1..] == a[1..] + b;
      FeedAppend(Step(s, a[0]).rx, a[1..], b);
    }
  }

  lemma FeedOne(s: Rx, c: byte)
    requires s.Shaped()
    ensures Feed(s, [c]) == Fed(Step(s, c).rx, Step(s, c).verdict, 1)
  {
    var t := Step(s, c);
    assert [c][1..] == [];
    if t.verdict.More? {
      assert Feed(t.rx, []) == Fed(t.rx, More, 0);
    }
  }

  /** Only the bytes used matter. */
  lemma FeedPrefix(s: Rx, d: seq<byte>)
    requires s.Shaped()
    ensures Feed(s, d[..Feed(s, d).used]) == Feed(s, d)
  {
    var n := Feed(s, d).used;
    assert d == d[..n] + d[n..];
    FeedAppend(s, d[..n], d[n..]);
    if Feed(s, d[..n]).verdict.More? {
      assert Feed(Feed(s, d[..n]).rx, d[n..]).used == 0;
    } 
  }

  // Escapes

  datatype Unescaped = Unescaped(bytes: seq<byte>, pending: bool)

  /** The bytes a wire stands for, and whether it ends in an escape token that still waits for its byte. */
  function Unescape(wire: seq<byte>): (u: Unescaped)
    ensures |wire| <= 2 * |u.bytes| + (if u.pending then 1 else 0)
  {
    if wire == [] then Unescaped([], false)
    else
      var u, c := Unescape(wire[..|wire| - 1]), wire[|wire| - 1];
      if u.pending then Unescaped(u.bytes + [c], false)
      else if c == ESCAPE then Unescaped(u.bytes, true)
      else Unescaped(u.bytes + [c], false)
  }

  lemma UnescapeNext(wire: seq<byte>, c: byte)
    ensures var u := Unescape(wire);
            Unescape(wire + [c]) ==
            if u.pending then Unescaped(u.bytes + [c], false)
            else if c == ESCAPE then Unescaped(u.bytes, true)
            else Unescaped(u.bytes + [c], false)
  {
    assert (wire + [c])[..|wire|] == wire;
  }

  lemma UnescapeEsc(wire: seq<byte>, b: byte)
    requires !Unescape(wire).pending
    ensures Unescape(wire + Esc(b)) == Unescaped(Unescape(wire).bytes + [b], false)
  {
    if b == START || b == ESCAPE {
      UnescapeNext(wire, ESCAPE);
      UnescapeNext(wire + [ESCAPE], b);
      assert wire + [ESCAPE] + [b] == wire + Esc(b);
    } else {
      UnescapeNext(wire, b);
    }
  }

  lemma Associates(a: seq<byte>, b: seq<byte>, c: seq<byte>)
    ensures (a + b) + c == a + (b + c)
  {
  }

  lemma {:induction false} UnescapeEscaped(bs: seq<byte>)
    ensures Unescape([START] + Escaped(bs)) == Unescaped([START] + bs, false)
  {
    if bs == [] {
      assert [START] + Escaped(bs) == [] + [START];
      UnescapeNext([], START);
    } else {
      var init, last := bs[..|bs| - 1], bs[|bs| - 1];
      UnescapeEscaped(init);
      UnescapeEsc([START] + Escaped(init), last);
      var e := Escaped(init);
      assert Escaped(bs) == e + Esc(last);
      Associates([START], e, Esc(last));
      Associates([START], init, [last]);
      assert init + [last] == bs;
    }
  }

  // Reachable states

  /** The command named by the second byte of a buffer, if the parser accepts it. */
  function CommandOf(buffer: seq<byte>): Option<Command>
    requires |buffer| >= 2
  {
    if FromByte(buffer[1]) == Some(Extension) then None else FromByte(buffer[1])
  }

  function HeaderEnd(buffer: seq<byte>): nat
    requires |buffer| >= 2 && CommandOf(buffer).Some?
  {
    7 + (if IsPlantByte(buffer[1]) then 4 else 0) + (if CommandOf(buffer).value.IsLong() then 1 else 0)
  }

  /** A buffer with a complete header. */
  predicate Headed(buffer: seq<byte>) {
    |buffer| >= 2 && CommandOf(buffer).Some? && |buffer| >= HeaderEnd(buffer)
  }

  function FrameEnd(buffer: seq<byte>): nat
    requires Headed(buffer)
  {
    HeaderEnd(buffer) - 4 + DeclaredLength(CommandOf(buffer).value, buffer) + 2
  }

  /** The verdict on a buffer none of whose shorter forms was decided. */
  function Judge(ignoreCrc: bool, buffer: seq<byte>): Verdict {
    if |buffer| < 2 then More
    else if CommandOf(buffer).None? then Failed(InvalidCommand(buffer[1]))
    else if |buffer| <= HeaderEnd(buffer) || |buffer| < FrameEnd(buffer) then More
    else if |buffer| > FrameEnd(buffer) then Failed(FrameLengthExceeded)
    else
      var n := |buffer|;
      var received, calculated := FromBe2(buffer[n - 2], buffer[n - 1]), Crc16(buffer[1..n - 2]);
      if HeaderEnd(buffer) > n - 2 then Panicked
      else if received != calculated && !ignoreCrc then Failed(FrameCrcMismatch(received, calculated))
      else Done
  }

  /** A header, once read, does not change. */
  lemma HeaderStable(buffer: seq<byte>, more: seq<byte>)
    requires Headed(buffer)
    ensures Headed(buffer + more) && FrameEnd(buffer + more) == FrameEnd(buffer)
    ensures CommandOf(buffer + more) == CommandOf(buffer) && HeaderEnd(buffer + more) == HeaderEnd(buffer)
    ensures DeclaredId(CommandOf(buffer).value, buffer + more) == DeclaredId(CommandOf(buffer).value, buffer)
  {
    var at := if CommandOf(buffer).value.IsLong() then 4 else 3;
    assert (buffer + more)[at..at + 4] == buffer[at..at + 4];
  }

  /** The fields that a buffer decides while it waits for more. */
  function Holding(s: Rx, buffer: seq<byte>): Rx {
    var t := s.(buffer := buffer);
    if |buffer| < 2 || CommandOf(buffer).None? then t
    else
      var u := t.(command := CommandOf(buffer), frameHeaderLength := HeaderEnd(buffer));
      if !Headed(buffer) then u
      else u.(frameLength := FrameEnd(buffer), id := DeclaredId(CommandOf(buffer).value, buffer))
  }

  /** The fields that the end of the frame adds. */
  function Closing(s: Rx): Rx
    requires Headed(s.buffer) && HeaderEnd(s.buffer) <= |s.buffer| - 2
  {
    var n := |s.buffer|;
    var received := FromBe2(s.buffer[n - 2], s.buffer[n - 1]);
    s.(complete := true, crc16Recv := received, crcOk := received == Crc16(s.buffer[1..n - 2]),
       data := s.buffer[HeaderEnd(s.buffer)..n - 2])
  }

  /** A parser that has kept these wire bytes and nothing has been decided yet. */
  function Waiting(ignoreCrc: bool, raw: seq<byte>, consumed: nat): Rx {
    var u := Unescape(raw);
    Holding(Fresh(ignoreCrc).(raw := raw, escaping := u.pending, consumedBytes := consumed), u.bytes)
  }

  /** A state in which a parser waits for more: a function of the wire bytes kept. */
  predicate Live(s: Rx) {
    && s == Waiting(s.ignoreCrcMismatch, s.raw, s.consumedBytes)
    && (s.raw != [] ==> s.raw[0] == START)
    && Judge(s.ignoreCrcMismatch, s.buffer) == More
  }

  lemma FreshLive(ignoreCrc: bool)
    ensures Live(Fresh(ignoreCrc))
  {
  }

  lemma LiveShaped(s: Rx)
    requires Live(s)
    ensures s.Shaped() && (s.buffer == [] <==> s.raw == []) && (s.buffer == [] ==> !s.escaping)
    ensures s.buffer != [] ==> s.buffer[0] == START
  {
    if s.raw != [] {
      StartUnescaped(s.raw);
    }
  }

  /** The start token is not an escape, so half of the wire bytes at most are. */
  lemma {:induction false} StartUnescaped(wire: seq<byte>)
    requires wire != [] && wire[0] == START
    ensures var u := Unescape(wire);
            && u.bytes != [] && u.bytes[0] == START
            && |wire| <= 2 * |u.bytes| - (if u.pending then 0 else 1)
    decreases |wire|
  {
    if |wire| == 1 {
      assert wire[..0] == [] && Unescape(wire[..0]) == Unescaped([], false);
    } else {
      StartUnescaped(wire[..|wire| - 1]);
    }
  }

  // One step

  predicate Blank(s: Rx) {
    s == Fresh(s.ignoreCrcMismatch).(raw := s.raw, escaping := s.escaping, consumedBytes := s.consumedBytes)
  }

  /** What pushing a byte amounts to: judging the longer buffer. */
  predicate Judged(s: Rx, buffer: seq<byte>, t: Stepped) {
    && t.verdict == Judge(s.ignoreCrcMismatch, buffer)
    && t.rx.(buffer := buffer, raw := s.raw, escaping := s.escaping, consumedBytes := s.consumedBytes,
             ignoreCrcMismatch := s.ignoreCrcMismatch) == t.rx
    && (t.verdict.More? ==> t.rx == Holding(s, buffer))
    && (t.verdict.Done? ==> Headed(buffer) && HeaderEnd(buffer) <= |buffer| - 2
                            && t.rx == Closing(Holding(s, buffer)))
  }

  lemma PushCommand(s: Rx, b: seq<byte>, c: byte)
    requires Blank(s) && |b| == 1
    ensures Judged(s, b + [c], Push(Holding(s, b), c))
  {
  }

  lemma PushToHeader(s: Rx, b: seq<byte>, c: byte)
    requires Blank(s) && |b| >= 2 && CommandOf(b).Some? && |b| < HeaderEnd(b)
    ensures Judged(s, b + [c], Push(Holding(s, b), c))
  {
    var l := b + [c];
    assert CommandOf(l) == CommandOf(b) && HeaderEnd(l) == HeaderEnd(b);
  }

  lemma PushInside(s: Rx, b: seq<byte>, c: byte)
    requires Blank(s) && Headed(b) && Judge(s.ignoreCrcMismatch, b).More? && |b| + 1 != FrameEnd(b)
    ensures Judged(s, b + [c], Push(Holding(s, b), c))
  {
    HeaderStable(b, [c]);
  }

  lemma PushLast(s: Rx, b: seq<byte>, c: byte)
    requires Blank(s) && Headed(b) && Judge(s.ignoreCrcMismatch, b).More? && |b| + 1 == FrameEnd(b)
    ensures Judged(s, b + [c], Push(Holding(s, b), c))
  {
    HeaderStable(b, [c]);
    var t := Holding(s, b + [c]);
    assert Holding(s, b).(buffer := b + [c]) == t;
    assert Push(Holding(s, b), c) == OnFrameEnd(t);
  }

  lemma PushJudges(s: Rx, b: seq<byte>, c: byte)
    requires Blank(s) && b != [] && Judge(s.ignoreCrcMismatch, b).More?
    ensures Holding(s, b).Shaped() && Judged(s, b + [c], Push(Holding(s, b), c))
  {
    if |b| == 1 {
      PushCommand(s, b, c);
    } else if |b| < HeaderEnd(b) {
      PushToHeader(s, b, c);
    } else if |b| + 1 == FrameEnd(b) {
      PushLast(s, b, c);
    } else {
      PushInside(s, b, c);
    }
  }

  // Any number of steps

  /** What a step does to a parser that waits. */
  predicate Advanced(s: Rx, c: byte, t: Stepped) {
    && t.rx.(raw := s.raw + [c], consumedBytes := s.consumedBytes + 1, buffer := Unescape(s.raw + [c]).bytes,
             escaping := Unescape(s.raw + [c]).pending, ignoreCrcMismatch := s.ignoreCrcMismatch) == t.rx
    && (t.verdict.More? ==> Live(t.rx))
    && (t.verdict.Done? ==> Closed(t.rx))
  }

  /** A state in which a frame has been completed: a function of its wire bytes. */
  predicate Closed(s: Rx) {
    var w := Waiting(s.ignoreCrcMismatch, s.raw, s.consumedBytes);
    && Headed(w.buffer) && |w.buffer| == FrameEnd(w.buffer) && HeaderEnd(w.buffer) <= |w.buffer| - 2
    && s == Closing(w)
    && (s.crcOk || s.ignoreCrcMismatch)
    && s.raw != [] && s.raw[0] == START && !s.escaping
  }

  lemma ClosedFields(s: Rx)
    requires Closed(s)
    ensures var b := s.buffer;
            && Unescape(s.raw) == Unescaped(b, false)
            && Headed(b) && |b| == FrameEnd(b) && HeaderEnd(b) <= |b| - 2
            && s.complete && s.command == CommandOf(b) && s.id == DeclaredId(CommandOf(b).value, b)
            && s.data == b[HeaderEnd(b)..|b| - 2]
            && s.crcOk == (FromBe2(b[|b| - 2], b[|b| - 1]) == Crc16(b[1..|b| - 2]))
            && (s.crcOk || s.ignoreCrcMismatch)
  {
  }

  lemma StepStart(s: Rx)
    requires Live(s) && s.buffer == []
    ensures s.Shaped() && Advanced(s, START, Step(s, START)) && Step(s, START).verdict.More?
  {
    LiveShaped(s);
    UnescapeNext([], START);
  }

  lemma StepSkip(s: Rx, c: byte)
    requires Live(s) && s.buffer == [] && c != START
    ensures s.Shaped() && Step(s, c) == Stepped(s.(consumedBytes := s.consumedBytes + 1), More)
    ensures Live(Step(s, c).rx)
  {
    LiveShaped(s);
  }

  lemma StepEscape(s: Rx)
    requires Live(s) && s.buffer != [] && !s.escaping
    ensures s.Shaped() && Advanced(s, ESCAPE, Step(s, ESCAPE)) && Step(s, ESCAPE).verdict.More?
  {
    LiveShaped(s);
    UnescapeNext(s.raw, ESCAPE);
    hide Push, Judge, FrameEnd, HeaderEnd, CommandOf, DeclaredId, Closed;
  }

  /** The blank parser that a byte is pushed into. */
  function Base(s: Rx, c: byte): Rx {
    Fresh(s.ignoreCrcMismatch).(raw := s.raw + [c], consumedBytes := s.consumedBytes + 1)
  }

  lemma StepIsPush(s: Rx, c: byte)
    requires Live(s) && s.buffer != [] && (s.escaping || c != ESCAPE)
    ensures s.Shaped() && Holding(Base(s, c), s.buffer).Shaped()
    ensures Step(s, c) == Push(Holding(Base(s, c), s.buffer), c)
  {
    LiveShaped(s);
    hide Push, Judge, FrameEnd, HeaderEnd, CommandOf, DeclaredId;
    var t := s.(consumedBytes := s.consumedBytes + 1, raw := s.raw + [c], escaping := false);
    assert t == Holding(Base(s, c), s.buffer);
  }

  lemma BaseWaits(s: Rx, c: byte)
    requires Live(s) && s.buffer != [] && (s.escaping || c != ESCAPE)
    ensures Unescape(s.raw + [c]) == Unescaped(s.buffer + [c], false)
    ensures Waiting(s.ignoreCrcMismatch, s.raw + [c], s.consumedBytes + 1) == Holding(Base(s, c), s.buffer + [c])
    ensures s.raw != [] && s.raw[0] == START
  {
    LiveShaped(s);
    UnescapeNext(s.raw, c);
    assert Base(s, c) == Fresh(s.ignoreCrcMismatch).(raw := s.raw + [c], escaping := false,
                                                     consumedBytes := s.consumedBytes + 1);
  }

  lemma JudgedAdvances(s: Rx, c: byte, t: Stepped)
    requires Live(s) && s.buffer != [] && (s.escaping || c != ESCAPE)
    requires Judged(Base(s, c), s.buffer + [c], t)
    ensures Advanced(s, c, t)
  {
    BaseWaits(s, c);
    var l := s.buffer + [c];
    if t.verdict.More? {
      assert t.rx.buffer == l;
      assert Live(t.rx);
    } else if t.verdict.Done? {
      assert t.rx.buffer == l && |l| == FrameEnd(l);
      assert Closed(t.rx);
    }
  }

  lemma StepPush(s: Rx, c: byte)
    requires Live(s) && s.buffer != [] && (s.escaping || c != ESCAPE)
    ensures s.Shaped() && Advanced(s, c, Step(s, c))
    ensures Step(s, c).verdict == Judge(s.ignoreCrcMismatch, s.buffer + [c])
    ensures Step(s, c).rx.buffer == s.buffer + [c]
  {
    StepIsPush(s, c);
    PushJudges(Base(s, c), s.buffer, c);
    JudgedAdvances(s, c, Step(s, c));
    hide Live, Unescape;
  }

  lemma StepAdvances(s: Rx, c: byte)
    requires Live(s)
    ensures s.Shaped()
    ensures if s.buffer == [] && c != START
            then Step(s, c) == Stepped(s.(consumedBytes := s.consumedBytes + 1), More) && Live(Step(s, c).rx)
            else Advanced(s, c, Step(s, c))
  {
    if s.buffer == [] && c != START {
      StepSkip(s, c);
    } else if s.buffer == [] {
      StepStart(s);
    } else if !s.escaping && c == ESCAPE {
      StepEscape(s);
    } else {
      StepPush(s, c);
    }
  }

  /** The bytes kept are the bytes fed from the start token on; before it nothing but other bytes was skipped. */
  predicate KeepsTail(before: seq<byte>, fed: seq<byte>, raw: seq<byte>) {
    if before != [] then raw == before + fed
    else |raw| <= |fed| && raw == fed[|fed| - |raw|..] && START !in fed[..|fed| - |raw|]
  }

  /**
   * Where feeding can lead: `raw` is the fed bytes from the start token on, `buffer` is its
   * unescaping, `escaping` says whether it ends in a pending escape token, and a parser that
   * waits or has completed has no other state than those bytes decide.
   */
  predicate Reached(s: Rx, d: seq<byte>, f: Fed) {
    && f.used <= |d|
    && KeepsTail(s.raw, d[..f.used], f.rx.raw)
    && f.rx.(buffer := Unescape(f.rx.raw).bytes, escaping := Unescape(f.rx.raw).pending,
             ignoreCrcMismatch := s.ignoreCrcMismatch, consumedBytes := s.consumedBytes + f.used) == f.rx
    && (f.verdict.More? ==> Live(f.rx))
    && (f.verdict.Done? ==> Closed(f.rx))
  }

  lemma {:induction false} FeedReaches(s: Rx, d: seq<byte>)
    requires Live(s)
    ensures s.Shaped() && Reached(s, d, Feed(s, d))
    decreases |d|
  {
    LiveShaped(s);
    if d == [] {
      FeedReachesNothing(s);
      assert d == [];
    } else if Step(s, d[0]).verdict.More? {
      hide *;
      StepAdvances(s, d[0]);
      FeedReaches(Step(s, d[0]).rx, d[1..]);
      FeedReachesOn(s, d);
    } else {
      hide *;
      FeedReachesStop(s, d);
    }
  }

  lemma FeedReachesNothing(s: Rx)
    requires Live(s)
    ensures s.Shaped() && Reached(s, [], Feed(s, []))
  {
    LiveShaped(s);
    assert s.raw + [] == s.raw;
  }

  lemma FeedReachesOn(s: Rx, d: seq<byte>)
    requires Live(s) && d != [] && s.Shaped() && Step(s, d[0]).verdict.More?
    requires Reached(Step(s, d[0]).rx, d[1..], Feed(Step(s, d[0]).rx, d[1..]))
    ensures Reached(s, d, Feed(s, d))
  {
    hide *;
    var t := Step(s, d[0]);
    LiveShaped(s);
    StepAdvances(s, d[0]);
    ReachedOn(s, d, t, Feed(t.rx, d[1..]));
    FeedCons(s, d);
  }

  lemma FeedReachesStop(s: Rx, d: seq<byte>)
    requires Live(s) && d != [] && s.Shaped() && !Step(s, d[0]).verdict.More?
    ensures Reached(s, d, Feed(s, d))
  {
    StepAdvances(s, d[0]);
    hide Live, Advanced, Reached, Feed;
    ReachedStop(s, d, Step(s, d[0]));
    FeedCons(s, d);
  }

  lemma FeedCons(s: Rx, d: seq<byte>)
    requires s.Shaped() && d != []
    ensures var t := Step(s, d[0]);
            Feed(s, d) == if t.verdict.More?
                          then var f := Feed(t.rx, d[1..]); Fed(f.rx, f.verdict, f.used + 1)
                          else Fed(t.rx, t.verdict, 1)
  {
  }

  lemma ReachedStop(s: Rx, d: seq<byte>, t: Stepped)
    requires Live(s) && d != [] && Advanced(s, d[0], t) && !t.verdict.More?
    ensures Reached(s, d, Fed(t.rx, t.verdict, 1))
  {
    assert d[..1] == [d[0]];
    assert [] + [d[0]] == [d[0]];
  }

  lemma ReachedOn(s: Rx, d: seq<byte>, t: Stepped, f: Fed)
    requires Live(s) && d != []
    requires if s.raw == [] && d[0] != START
             then t.rx == s.(consumedBytes := s.consumedBytes + 1)
             else Advanced(s, d[0], t) && t.rx.raw != []
    requires Reached(t.rx, d[1..], f)
    ensures Reached(s, d, Fed(f.rx, f.verdict, f.used + 1))
  {
    hide Live, Closed, Unescape, KeepsTail;
    assert d[..f.used + 1] == [d[0]] + d[1..][..f.used];
    TailOn(s.raw, t.rx.raw, d[0], d[1..][..f.used], f.rx.raw);
  }

  lemma TailOn(before: seq<byte>, next: seq<byte>, c: byte, fed: seq<byte>, raw: seq<byte>)
    requires if before == [] && c != START then next == before else next == before + [c]
    requires KeepsTail(next, fed, raw)
    ensures KeepsTail(before, [c] + fed, raw)
  {
    if before == [] && c != START {
      var k := |fed| + 1 - |raw|;
      assert ([c] + fed)[..k] == [c] + fed[..k - 1] && ([c] + fed)[k..] == fed[k - 1..];
    } else {
      Associates(before, [c], fed);
      assert before == [] ==> ([c] + fed)[..0] == [];
    }
  }

  // Junk, and starting over

  /** How many bytes were consumed before does not matter. */
  lemma {:induction false} FeedCount(s: Rx, k: nat, d: seq<byte>)
    requires s.Shaped()
    ensures var f := Feed(s, d);
            Feed(s.(consumedBytes := k), d) == f.(rx := f.rx.(consumedBytes := k + f.used))
    decreases |d|
  {
    if d == [] {
    } else {
      hide Step;
      StepCount(s, k, d[0]);
      var t := Step(s, d[0]);
      if t.verdict.More? {
        FeedCount(t.rx, k + 1, d[1..]);
      }
    }
  }

  function Counted(t: Stepped, k: nat): Stepped {
    t.(rx := t.rx.(consumedBytes := k))
  }

  lemma OnCommandCount(s: Rx, k: nat)
    requires s.Shaped() && |s.buffer| == 2
    ensures OnCommand(s.(consumedBytes := k)) == Counted(OnCommand(s), k)
  {
  }

  lemma OnHeaderCount(s: Rx, k: nat)
    requires s.Shaped() && s.command.Some? && |s.buffer| == s.frameHeaderLength
    ensures OnHeader(s.(consumedBytes := k)) == Counted(OnHeader(s), k)
  {
    hide DeclaredLength, DeclaredId;
  }

  lemma OnFrameEndCount(s: Rx, k: nat)
    requires s.Shaped() && s.frameLength > 0 && |s.buffer| == s.frameLength
    ensures OnFrameEnd(s.(consumedBytes := k)) == Counted(OnFrameEnd(s), k)
  {
    hide Crc16, FromBe2;
    var t := s.(complete := true, crc16Recv := FromBe2(s.buffer[|s.buffer| - 2], s.buffer[|s.buffer| - 1]));
    assert t.(consumedBytes := k).buffer == t.buffer;
  }

  lemma PushCount(s: Rx, k: nat, c: byte)
    requires s.Shaped() && s.buffer != []
    ensures Push(s.(consumedBytes := k), c) == Counted(Push(s, c), k)
  {
    hide OnCommand, OnHeader, OnFrameEnd;
    var t := s.(buffer := s.buffer + [c]);
    assert s.(consumedBytes := k).(buffer := s.buffer + [c]) == t.(consumedBytes := k);
    if |t.buffer| == 2 {
      OnCommandCount(t, k);
    } else if |t.buffer| == t.frameHeaderLength && t.command.Some? && t.frameLength == 0 {
      OnHeaderCount(t, k);
    } else if t.frameLength > 0 && |t.buffer| == t.frameLength {
      OnFrameEndCount(t, k);
    }
  }

  lemma StripCount(s: Rx, k: nat, c: byte)
    requires s.Shaped() && s.buffer != []
    ensures Strip(s.(consumedBytes := k), c) == Counted(Strip(s, c), k)
  {
    hide Push;
    if s.escaping {
      assert s.(consumedBytes := k).(escaping := false) == s.(escaping := false).(consumedBytes := k);
      PushCount(s.(escaping := false), k, c);
    } else if c != ESCAPE {
      PushCount(s, k, c);
    }
  }

  lemma StepCount(s: Rx, k: nat, c: byte)
    requires s.Shaped()
    ensures Step(s.(consumedBytes := k), c) == Counted(Step(s, c), k + 1)
  {
    hide Strip;
    if s.buffer != [] {
      var t := s.(consumedBytes := s.consumedBytes + 1, raw := s.raw + [c]);
      assert s.(consumedBytes := k).(consumedBytes := k + 1).(raw := s.raw + [c]) == t.(consumedBytes := k + 1);
      StripCount(t, k + 1, c);
    }
  }

  lemma {:induction false} SkipJunk(s: Rx, junk: seq<byte>)
    requires s.Shaped() && s.buffer == [] && START !in junk
    ensures Feed(s, junk) == Fed(s.(consumedBytes := s.consumedBytes + |junk|), More, |junk|)
    decreases |junk|
  {
    if junk == [] {
    } else {
      SkipJunk(s.(consumedBytes := s.consumedBytes + 1), junk[1..]);
    }
  }

  /** Junk before a start token changes only the count of consumed bytes. */
  lemma FeedAfterJunk(ignoreCrc: bool, junk: seq<byte>, d: seq<byte>)
    requires START !in junk
    ensures var f := Feed(Fresh(ignoreCrc), d);
            Feed(Fresh(ignoreCrc), junk + d) ==
            Fed(f.rx.(consumedBytes := |junk| + f.used), f.verdict, |junk| + f.used)
  {
    var s := Fresh(ignoreCrc);
    SkipJunk(s, junk);
    FeedAppend(s, junk, d);
    FeedCount(s, |junk|, d);
  }

  /** The wire bytes a parser kept take a new parser to the same state and the same verdict, on their last byte. */
  lemma Refeed(ignoreCrc: bool, d: seq<byte>)
    ensures var f := Feed(Fresh(ignoreCrc), d);
            Feed(Fresh(ignoreCrc), f.rx.raw) == Fed(f.rx.(consumedBytes := |f.rx.raw|), f.verdict, |f.rx.raw|)
  {
    var s := Fresh(ignoreCrc);
    var f := Feed(s, d);
    FreshLive(ignoreCrc);
    FeedReaches(s, d);
    FeedPrefix(s, d);
    var fed := d[..f.used];
    var junk := fed[..|fed| - |f.rx.raw|];
    assert fed == junk + f.rx.raw;
    FeedAfterJunk(ignoreCrc, junk, f.rx.raw);
    var g := Feed(s, f.rx.raw);
    FeedReaches(s, f.rx.raw);
    assert g.rx.consumedBytes == g.used;
  }

  // Bounds

  /** The longest buffer a waiting parser can hold. */
  const MAX_WAITING: nat := 65544

  lemma WaitingBound(s: Rx)
    requires Live(s)
    ensures |s.buffer| <= MAX_WAITING && |s.raw| <= 2 * MAX_WAITING
  {
    if |s.buffer| > 12 {
      assert Headed(s.buffer);
      assert |s.buffer| < FrameEnd(s.buffer) <= 12 - 4 + 0xFFFF + 2;
    }
    if s.raw != [] {
      StartUnescaped(s.raw);
    }
  }

  lemma UndecidedIsShort(ignoreCrc: bool, d: seq<byte>)
    requires d != [] && d[0] == START && Feed(Fresh(ignoreCrc), d).verdict.More?
    ensures |d| <= 2 * MAX_WAITING
  {
    var f := Feed(Fresh(ignoreCrc), d);
    FreshLive(ignoreCrc);
    FeedReaches(Fresh(ignoreCrc), d);
    WaitingBound(f.rx);
    assert d[..f.used] == d;
    FirstIn(d, |d| - |f.rx.raw|);
  }

  /** From a start token on, every stream is decided within 131089 bytes. */
  lemma DecisionBound(ignoreCrc: bool, d: seq<byte>)
    requires d != [] && d[0] == START && |d| > 2 * MAX_WAITING
    ensures !Feed(Fresh(ignoreCrc), d).verdict.More?
  {
    if Feed(Fresh(ignoreCrc), d).verdict.More? {
      UndecidedIsShort(ignoreCrc, d);
    }
  }

  lemma FirstIn(w: seq<byte>, k: nat)
    requires w != [] && k <= |w|
    ensures k > 0 ==> w[0] in w[..k]
  {
    assert k > 0 ==> w[..k][0] == w[0];
  }

  // Verdicts

  /** A verdict is the one on the unescaped bytes, and the first: without the last of them there was none. */
  predicate FirstJudged(ignoreCrc: bool, f: Fed) {
    !f.verdict.More? ==>
      var b := f.rx.buffer;
      b != [] && f.verdict == Judge(ignoreCrc, b) && Judge(ignoreCrc, b[..|b| - 1]) == More
  }

  lemma StepJudges(s: Rx, c: byte)
    requires Live(s)
    ensures s.Shaped() && FirstJudged(s.ignoreCrcMismatch, Fed(Step(s, c).rx, Step(s, c).verdict, 1))
  {
    LiveShaped(s);
    if s.buffer == [] {
      if c == START {
        StepStart(s);
      } else {
        StepSkip(s, c);
      }
    } else if !s.escaping && c == ESCAPE {
      StepEscape(s);
    } else {
      StepPush(s, c);
      assert Judge(s.ignoreCrcMismatch, s.buffer) == More && (s.buffer + [c])[..|s.buffer|] == s.buffer;
    }
    hide Step, Judge, Advanced, Waiting;
  }

  /** Whatever is fed, the verdict is the first one on the unescaped bytes. */
  lemma {:induction false} FeedJudges(s: Rx, d: seq<byte>)
    requires Live(s)
    ensures s.Shaped() && FirstJudged(s.ignoreCrcMismatch, Feed(s, d))
    decreases |d|
  {
    LiveShaped(s);
    if d == [] {
      NothingFed(s);
    } else {
      hide *;
      StepJudges(s, d[0]);
      FeedCons(s, d);
      if Step(s, d[0]).verdict.More? {
        StepLives(s, d[0]);
        FeedJudges(Step(s, d[0]).rx, d[1..]);
        SameJudged(s.ignoreCrcMismatch, Feed(Step(s, d[0]).rx, d[1..]));
      } else {
        SameJudged(s.ignoreCrcMismatch, Fed(Step(s, d[0]).rx, Step(s, d[0]).verdict, 1));
      }
    }
  }

  lemma NothingFed(s: Rx)
    requires s.Shaped()
    ensures FirstJudged(s.ignoreCrcMismatch, Feed(s, []))
  {
  }

  lemma StepLives(s: Rx, c: byte)
    requires Live(s) && s.Shaped() && Step(s, c).verdict.More?
    ensures Live(Step(s, c).rx) && Step(s, c).rx.ignoreCrcMismatch == s.ignoreCrcMismatch
  {
    StepAdvances(s, c);
    hide Live, Step;
  }

  lemma SameJudged(ignoreCrc: bool, f: Fed)
    requires FirstJudged(ignoreCrc, f)
    ensures forall used :: FirstJudged(ignoreCrc, Fed(f.rx, f.verdict, used))
  {
    hide Judge;
  }

  /** The count that a result of `consume` carries. */
  function CountOf(r: Consumed): nat
    requires !r.Panic?
  {
    match r
    case Consumed(count) => count
    case Invalid(_, consumed) => consumed
    case CrcMismatch(_, _, consumed) => consumed
    case LengthExceeded(consumed) => consumed
  }

  lemma {:induction false} DecidedBy(s: Rx, d: seq<byte>)
    requires s.Shaped() && !Feed(s, d).verdict.More?
    ensures var used := Feed(s, d).used;
            0 < used <= |d| && Feed(s, d[..used - 1]).verdict.More? && Feed(s, d[..used]) == Feed(s, d)
    decreases |d|
  {
    FeedPrefix(s, d);
    if d == [] {
    } else {
      FeedCons(s, d);
      hide Feed, Step;
      var t, used := Step(s, d[0]), Feed(s, d).used;
      if t.verdict.More? {
        DecidedBy(t.rx, d[1..]);
        FeedCons(s, d[..used - 1]);
        assert d[..used - 1][1..] == d[1..][..used - 2];
      } else {
        FedNothing(s);
        assert d[..0] == [];
      }
    }
  }

  lemma FedNothing(s: Rx)
    requires s.Shaped()
    ensures Feed(s, []) == Fed(s, More, 0)
  {
  }

  /**
   * The count in every result and error of `consume`: all bytes if nothing is decided, and otherwise
   * the index of the deciding byte plus one. The bytes before that one decide nothing.
   */
  lemma CountsToDecidingByte(s: Rx, d: seq<byte>)
    requires s.Shaped() && !Feed(s, d).verdict.Panicked?
    ensures var f := Feed(s, d);
            var count := CountOf(Reported(f.verdict, f.used));
            if f.verdict.More? then count == |d|
            else 0 < count <= |d| && Feed(s, d[..count - 1]).verdict.More? && !Feed(s, d[..count]).verdict.More?
  {
    hide Feed;
    if !Feed(s, d).verdict.More? {
      DecidedBy(s, d);
    }
  }

  /** A stream from its first start token on. */
  function FromStart(d: seq<byte>): (w: seq<byte>)
    ensures |w| <= |d| && w == d[|d| - |w|..]
    ensures START !in d[..|d| - |w|] && (w != [] ==> w[0] == START)
  {
    if d == [] || d[0] == START then d else FromStart(d[1..])
  }

  lemma {:induction false} UnescapePrefix(w: seq<byte>, k: nat)
    requires k <= |w|
    ensures Unescape(w[..k]).bytes <= Unescape(w).bytes
    decreases |w|
  {
    if k == |w| {
      assert w[..k] == w;
    } else {
      var init, c := w[..|w| - 1], w[|w| - 1];
      assert w == init + [c] && init[..k] == w[..k];
      UnescapePrefix(init, k);
      UnescapeNext(init, c);
    }
  }

  /** A complete header, with the byte behind it, that declares a length of 3. */
  predicate HeadsThree(u: seq<byte>) {
    && |u| >= 2 && CommandOf(u).Some? && |u| > HeaderEnd(u)
    && DeclaredLength(CommandOf(u).value, u) == 3
  }

  /** The first frame of a stream declares a length of 3, and the byte behind its header has arrived. */
  predicate DeclaresThree(d: seq<byte>) {
    HeadsThree(Unescape(FromStart(d)).bytes)
  }

  lemma HeadsThreeStable(u: seq<byte>, more: seq<byte>)
    requires |u| >= 2 && CommandOf(u).Some? && |u| > HeaderEnd(u)
    ensures HeadsThree(u + more) <==> HeadsThree(u)
  {
    HeaderStable(u, more);
    var w := u + more;
    assert FrameEnd(w) == FrameEnd(u) && HeaderEnd(w) == HeaderEnd(u);
  }

  lemma PanickedHeadsThree(ignoreCrc: bool, b: seq<byte>)
    requires Judge(ignoreCrc, b).Panicked?
    ensures HeadsThree(b)
  {
  }

  lemma HeadsThreeDecided(ignoreCrc: bool, b: seq<byte>)
    requires HeadsThree(b)
    ensures Judge(ignoreCrc, b) != More
  {
  }

  /** The first verdict on bytes that go on to declare a length of 3 is the panic. */
  lemma FirstIsPanic(ignoreCrc: bool, b: seq<byte>, more: seq<byte>)
    requires b != [] && Judge(ignoreCrc, b) != More && Judge(ignoreCrc, b[..|b| - 1]) == More
    requires HeadsThree(b + more)
    ensures Judge(ignoreCrc, b).Panicked?
  {
    var init := b[..|b| - 1];
    assert |b| >= 2 && (b + more)[1] == b[1];
    assert CommandOf(b + more) == CommandOf(b) && HeaderEnd(b + more) == HeaderEnd(b);
    if |init| >= 2 {
      assert init[1] == b[1];
    }
    HeadsThreeStable(b, more);
    assert HeadsThree(b);
    if |b| > FrameEnd(b) {
      assert init + [b[|b| - 1]] == b;
      HeaderStable(init, [b[|b| - 1]]);
      assert false;
    }
  }

  lemma ReachedFromStart(ignoreCrc: bool, w: seq<byte>, f: Fed)
    requires w != [] && w[0] == START && Reached(Fresh(ignoreCrc), w, f)
    ensures f.used <= |w| && f.rx.raw == w[..f.used] && f.rx.buffer == Unescape(w[..f.used]).bytes
  {
    FirstIn(w, f.used - |f.rx.raw|);
    assert w[..f.used][..f.used - |f.rx.raw|] == w[..f.used - |f.rx.raw|];
  }

  lemma LiveUndecided(f: Fed, s: Rx, d: seq<byte>)
    requires Reached(s, d, f) && f.verdict.More?
    ensures Judge(s.ignoreCrcMismatch, f.rx.buffer) == More
  {
  }

  lemma JudgedFirst(ignoreCrc: bool, f: Fed)
    requires FirstJudged(ignoreCrc, f) && !f.verdict.More?
    ensures var b := f.rx.buffer;
            b != [] && f.verdict == Judge(ignoreCrc, b) && Judge(ignoreCrc, b[..|b| - 1]) == More
  {
  }

  lemma HeadsThreeGrows(u: seq<byte>, more: seq<byte>)
    requires HeadsThree(u)
    ensures HeadsThree(u + more)
  {
    HeadsThreeStable(u, more);
  }

  /**
   * `consume` panics exactly when the first frame of what it is fed declares a length of 3 and the
   * byte behind its header has arrived, whatever else the stream holds.
   */
  lemma PanicsExactly(ignoreCrc: bool, d: seq<byte>)
    ensures Feed(Fresh(ignoreCrc), d).verdict.Panicked? <==> DeclaresThree(d)
  {
    var w := FromStart(d);
    assert d == d[..|d| - |w|] + w;
    FeedAfterJunk(ignoreCrc, d[..|d| - |w|], w);
    if w == [] {
      NothingPanics(ignoreCrc);
    } else {
      hide *;
      WirePanicsExactly(ignoreCrc, w);
    }
  }

  lemma NothingPanics(ignoreCrc: bool)
    ensures Feed(Fresh(ignoreCrc), []).verdict == More && !HeadsThree(Unescape([]).bytes)
  {
  }

  lemma WirePanicsExactly(ignoreCrc: bool, w: seq<byte>)
    requires w != [] && w[0] == START
    ensures Feed(Fresh(ignoreCrc), w).verdict.Panicked? <==> HeadsThree(Unescape(w).bytes)
  {
    hide *;
    var f := Feed(Fresh(ignoreCrc), w);
    var b, u := f.rx.buffer, Unescape(w).bytes;
    FreshFlag(ignoreCrc);
    FreshLive(ignoreCrc);
    FeedJudges(Fresh(ignoreCrc), w);
    FeedReaches(Fresh(ignoreCrc), w);
    ReachedFromStart(ignoreCrc, w, f);
    UnescapePrefix(w, f.used);
    var more := u[|b|..];
    assert u == b + more;
    if f.verdict.More? {
      LiveUndecided(f, Fresh(ignoreCrc), w);
      assert w[..|w|] == w;
      if HeadsThree(u) {
        HeadsThreeDecided(ignoreCrc, u);
      }
    } else {
      JudgedFirst(ignoreCrc, f);
      if f.verdict.Panicked? {
        PanickedHeadsThree(ignoreCrc, b);
        HeadsThreeGrows(b, more);
      } else if HeadsThree(u) {
        FirstIsPanic(ignoreCrc, b, more);
      }
    }
  }

  lemma FreshFlag(ignoreCrc: bool)
    ensures Fresh(ignoreCrc).ignoreCrcMismatch == ignoreCrc
  {
  }
}
