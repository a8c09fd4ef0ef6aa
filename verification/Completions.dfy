/**
 * What a frame that has begun can still become: exactly which undecided bytes some continuation
 * completes to a frame with data.
 */
module Completions {
  import opened Bytes
  import opened Crc
  import opened Frame
  import opened Receive
  import opened ParserTheory
  import opened FrameTheory

  /** The length field has arrived. */
  predicate Sized(u: seq<byte>) {
    |u| >= 2 && CommandOf(u).Some? && |u| >= 2 + CommandOf(u).value.LengthWidth()
  }

  function LengthOf(u: seq<byte>): nat
    requires Sized(u)
  {
    if CommandOf(u).value.IsLong() then FromBe2(u[2], u[3]) else u[2]
  }

  function EndOfFrame(u: seq<byte>): nat
    requires Sized(u)
  {
    HeaderEnd(u) - 4 + LengthOf(u) + 2
  }

  /** The length leaves room for data, and the checksum is right as far as it has arrived. */
  predicate CanCarry(u: seq<byte>)
    requires Sized(u)
  {
    && LengthOf(u) >= 5
    && (|u| == EndOfFrame(u) - 1 ==> u[|u| - 1] == Crc16(u[1..|u| - 1]) / 0x100)
  }

  /** An undecided frame that can still be completed, with data in it. */
  predicate Carries(u: seq<byte>) {
    Sized(u) ==> CanCarry(u)
  }

  // What is completed carried

  lemma SizedStable(u: seq<byte>, b: seq<byte>)
    requires Sized(u) && u <= b
    ensures Sized(b) && LengthOf(b) == LengthOf(u) && CommandOf(b) == CommandOf(u) && HeaderEnd(b) == HeaderEnd(u)
  {
    assert b[1] == u[1] && b[2] == u[2];
  }

  lemma SizedHeaded(b: seq<byte>)
    requires Headed(b)
    ensures Sized(b) && LengthOf(b) == DeclaredLength(CommandOf(b).value, b) && EndOfFrame(b) == FrameEnd(b)
  {
  }

  /** A completed frame with data could always be completed. */
  lemma CompletedCarries(u: seq<byte>, b: seq<byte>)
    requires u <= b && Judge(false, u) == More && Judge(false, b) == Done
    requires HeaderEnd(b) < |b| - 2
    ensures Carries(u)
  {
    SizedHeaded(b);
    if Sized(u) {
      SizedStable(u, b);
      assert LengthOf(u) >= 5;
      var n := |b|;
      if |u| == EndOfFrame(u) - 1 {
        assert |u| == n - 1 && u[n - 2] == b[n - 2] && u[1..n - 2] == b[1..n - 2];
        assert FromBe2(b[n - 2], b[n - 1]) == Crc16(b[1..n - 2]);
        assert FromBe2(b[n - 2], b[n - 1]) / 0x100 == b[n - 2];
      }
    }
  }

  // What carries can be completed

  /** A command, and then a length, where they have not arrived. */
  function Begun(u: seq<byte>): seq<byte>
    requires u != []
  {
    if |u| == 1 then u + [Response.Byte()] else u
  }

  function Filler(u: seq<byte>): seq<byte>
    requires |u| >= 2 && CommandOf(u).Some?
  {
    if Sized(u) then []
    else if CommandOf(u).value.IsLong() && |u| == 2 then [0, 5]
    else [5]
  }

  lemma FillerSizes(u: seq<byte>)
    requires |u| >= 2 && CommandOf(u).Some? && (Sized(u) ==> LengthOf(u) >= 5)
    ensures Sized(u + Filler(u)) && LengthOf(u + Filler(u)) >= 5
    ensures Sized(u) <==> Filler(u) == []
    ensures !Sized(u) ==> |u + Filler(u)| == 2 + CommandOf(u).value.LengthWidth()
  {
    var v := u + Filler(u);
    assert v[1] == u[1];
  }

  /** Bytes that need no escape token. */
  predicate Plain(bs: seq<byte>) {
    START !in bs && ESCAPE !in bs
  }

  /** A frame, one byte of which after the other is undecided up to the last. */
  predicate Whole(u: seq<byte>, b: seq<byte>) {
    && u <= b && |u| < |b| && Judge(false, b) == Done && HeaderEnd(b) < |b| - 2
    && forall j :: |u| <= j < |b| ==> Judge(false, b[..j]) == More
  }

  lemma UndecidedBefore(b: seq<byte>, j: nat)
    requires Headed(b) && |b| == FrameEnd(b) && j < |b|
    ensures Judge(false, b[..j]) == More
  {
    var c := b[..j];
    if j >= 2 {
      assert c[1] == b[1];
      if j > HeaderEnd(b) {
        assert b == c + b[j..];
        HeaderStable(c, b[j..]);
      }
    }
  }

  lemma EndsWhole(u: seq<byte>, b: seq<byte>)
    requires u <= b && |u| < |b| && Sized(b) && LengthOf(b) >= 5 && |b| == EndOfFrame(b)
    requires FromBe2(b[|b| - 2], b[|b| - 1]) == Crc16(b[1..|b| - 2])
    ensures Whole(u, b)
  {
    assert Headed(b);
    SizedHeaded(b);
    forall j | |u| <= j < |b|
      ensures Judge(false, b[..j]) == More
    {
      UndecidedBefore(b, j);
    }
  }

  lemma NotYetEnded(v: seq<byte>, u: seq<byte>)
    requires u <= v && Sized(v) && LengthOf(v) >= 5 && Judge(false, u) == More
    requires u == v || |v| == 2 + CommandOf(v).value.LengthWidth()
    ensures |v| < EndOfFrame(v)
  {
    if Headed(v) {
      SizedHeaded(v);
    }
  }

  /** Only the last byte of the checksum is missing. */
  lemma CompleteLast(u: seq<byte>) returns (check: seq<byte>)
    requires Sized(u) && CanCarry(u) && |u| == EndOfFrame(u) - 1
    ensures |check| == 1 && Whole(u, u + check)
  {
    check := [Low(Crc16(u[1..|u| - 1]))];
    LastByte(u);
    SizedStable(u, u + check);
    hide Crc16, CommandOf, Judge;
    EndsWhole(u, u + check);
  }

  lemma PlainFiller(u: seq<byte>)
    requires |u| >= 2 && CommandOf(u).Some?
    ensures Plain(Filler(u)) && Plain([Response.Byte()] + Filler(u))
  {
  }

  /** The data and the checksum are missing, or some of them. */
  lemma CompleteData(u: seq<byte>, filler: seq<byte>) returns (fill: seq<byte>, check: seq<byte>)
    requires u != [] && Plain(filler) && Sized(u + filler) && LengthOf(u + filler) >= 5
    requires |u + filler| <= EndOfFrame(u + filler) - 2
    ensures Plain(fill) && |check| == 2 && Whole(u, u + fill + check)
  {
    var v := u + filler;
    var zeros: seq<byte> := seq(EndOfFrame(v) - 2 - |v|, i => 0);
    fill := filler + zeros;
    var b := v + zeros;
    Associates(u, filler, zeros);
    check := Be(Crc16(b[1..]), 2);
    CheckRead(b, check);
    assert v <= b + check && u <= b + check;
    SizedStable(v, b + check);
    hide Crc16, CommandOf, Judge, Be, FromBe2;
    EndsWhole(u, b + check);
  }

  /** The rest of a frame, plain bytes and then what is left of the checksum. */
  lemma Complete(u: seq<byte>) returns (fill: seq<byte>, check: seq<byte>)
    requires u != [] && Judge(false, u) == More && Carries(u)
    ensures Plain(fill) && 1 <= |check| <= 2 && Whole(u, u + fill + check)
  {
    var begun := Begun(u);
    BegunCommand(u);
    FillerSizes(begun);
    PlainFiller(begun);
    var filler := if |u| == 1 then [Response.Byte()] + Filler(begun) else Filler(begun);
    var v := begun + Filler(begun);
    assert v == u + filler && u + [] == u && [] + Filler(begun) == Filler(begun);
    NotYetEnded(v, u);
    hide Judge, HeaderEnd, Crc16, Filler, Plain, Whole;
    if |v| == EndOfFrame(v) - 1 {
      LateIsSized(u, v);
      fill := [];
      NothingPlain();
      check := CompleteLast(u);
    } else {
      fill, check := CompleteData(u, filler);
    }
  }

  lemma NothingPlain()
    ensures Plain([])
  {
  }

  lemma LateIsSized(u: seq<byte>, v: seq<byte>)
    requires u != [] && Carries(u) && u <= v && Sized(v) && LengthOf(v) >= 5 && |v| == EndOfFrame(v) - 1
    requires u == v || |v| == 2 + CommandOf(v).value.LengthWidth()
    ensures u == v && CanCarry(u)
  {
  }

  lemma BegunCommand(u: seq<byte>)
    requires u != [] && Judge(false, u) == More && Carries(u)
    ensures var v := Begun(u);
            u <= v && |v| >= 2 && CommandOf(v).Some? && (Sized(v) ==> v == u && LengthOf(v) >= 5)
  {
  }

  lemma LastByte(u: seq<byte>)
    requires |u| >= 2 && u[|u| - 1] == Crc16(u[1..|u| - 1]) / 0x100
    ensures var b := u + [Low(Crc16(u[1..|u| - 1]))];
            FromBe2(b[|b| - 2], b[|b| - 1]) == Crc16(b[1..|b| - 2])
  {
    var b := u + [Low(Crc16(u[1..|u| - 1]))];
    assert b[1..|b| - 2] == u[1..|u| - 1];
  }

  lemma CheckRead(b: seq<byte>, check: seq<byte>)
    requires b != [] && check == Be(Crc16(b[1..]), 2)
    ensures var w := b + check;
            |check| == 2 && FromBe2(w[|w| - 2], w[|w| - 1]) == Crc16(w[1..|w| - 2])
  {
    BeTwo(Crc16(b[1..]));
    assert (b + check)[1..|b|] == b[1..];
  }

  // Feeding it

  /** Bytes as they travel behind an escape token that waits for its byte, or not. */
  function Rest(pending: bool, c: seq<byte>): seq<byte>
    requires c != []
  {
    if pending then [c[0]] + Escaped(c[1..]) else Escaped(c)
  }

  lemma EscapedOne(b: byte)
    ensures Escaped([b]) == Esc(b) && Escaped([]) == []
  {
    assert [b][..0] == [];
    assert Escaped([b]) == Escaped([b][..0]) + Esc(b);
  }

  lemma RestLast(pending: bool, init: seq<byte>, last: byte)
    requires init != []
    ensures Rest(pending, init + [last]) == Rest(pending, init) + Esc(last)
  {
    if pending {
      assert (init + [last])[1..] == init[1..] + [last];
      EscapedLast(init[1..], last);
    } else {
      EscapedLast(init, last);
    }
  }

  predicate FedRest(s: Rx, c: seq<byte>, f: Fed)
    requires c != []
  {
    && f.used == |Rest(s.escaping, c)| && f.rx.buffer == s.buffer + c && !f.rx.escaping
    && f.verdict == Judge(false, s.buffer + c)
  }

  /** All of a wire taken behind what was there. */
  lemma RawAfter(s: Rx, wire: seq<byte>, f: Fed)
    requires Live(s) && s.buffer != [] && Reached(s, wire, f) && f.used == |wire|
    ensures f.rx.raw == s.raw + wire && f.rx.escaping == Unescape(s.raw + wire).pending
    ensures s.escaping == Unescape(s.raw).pending
    ensures f.rx.ignoreCrcMismatch == s.ignoreCrcMismatch && (f.verdict.More? ==> Live(f.rx))
  {
    LiveShaped(s);
    assert wire[..|wire|] == wire;
    hide Judge, Closed, Unescape, Holding;
  }

  lemma EndsPlain(raw: seq<byte>, b: byte)
    ensures !Unescape(raw + Rest(Unescape(raw).pending, [b])).pending
  {
    EscapedOne(b);
    assert [b][1..] == [] && [b] + [] == [b];
    if Unescape(raw).pending {
      UnescapeNext(raw, b);
    } else {
      UnescapeEsc(raw, b);
    }
  }

  lemma FeedFirst(s: Rx, c: byte)
    requires Live(s) && s.buffer != [] && !s.ignoreCrcMismatch
    ensures s.Shaped() && FedRest(s, [c], Feed(s, Rest(s.escaping, [c])))
  {
    LiveShaped(s);
    EscapedOne(c);
    assert [c][1..] == [];
    var wire := Rest(s.escaping, [c]);
    var f := Feed(s, wire);
    hide Live, Feed, Judge, Step, Reached, Unescape;
    if s.escaping {
      FeedPlain(s, c);
      assert wire == [c];
    } else {
      FeedEsc(s, c);
    }
    FeedReaches(s, wire);
    RawAfter(s, wire, f);
    EndsPlain(s.raw, c);
  }

  /** A parser that waits inside a frame is fed its rest to the last byte, and judged there. */
  lemma {:induction false} FeedRest(s: Rx, c: seq<byte>)
    requires Live(s) && s.buffer != [] && !s.ignoreCrcMismatch && c != []
    requires forall j :: 0 < j < |c| ==> Judge(false, s.buffer + c[..j]) == More
    ensures s.Shaped() && FedRest(s, c, Feed(s, Rest(s.escaping, c)))
    decreases |c|
  {
    LiveShaped(s);
    if |c| == 1 {
      FeedFirst(s, c[0]);
      assert c == [c[0]];
    } else {
      var init, last := c[..|c| - 1], c[|c| - 1];
      assert c == init + [last];
      forall j | 0 < j < |init|
        ensures Judge(false, s.buffer + init[..j]) == More
      {
        assert init[..j] == c[..j];
      }
      assert Judge(false, s.buffer + init) == More;
      hide *;
      FeedRest(s, init);
      FeedRestLast(s, init, last);
    }
  }

  lemma FeedRestLast(s: Rx, init: seq<byte>, last: byte)
    requires Live(s) && s.buffer != [] && !s.ignoreCrcMismatch && init != [] && s.Shaped()
    requires Judge(false, s.buffer + init) == More && FedRest(s, init, Feed(s, Rest(s.escaping, init)))
    ensures FedRest(s, init + [last], Feed(s, Rest(s.escaping, init + [last])))
  {
    var wire := Rest(s.escaping, init);
    var f := Feed(s, wire);
    hide Live, Feed, Judge, Reached, Rest, Unescape, Escaped;
    FeedReaches(s, wire);
    RawAfter(s, wire, f);
    RestLast(s.escaping, init, last);
    Associates(s.buffer, init, [last]);
    FeedAppend(s, wire, Esc(last));
    FeedEsc(f.rx, last);
    var g := Feed(f.rx, Esc(last));
    FeedReaches(f.rx, Esc(last));
    RawAfter(f.rx, Esc(last), g);
    UnescapeEsc(f.rx.raw, last);
  }

  // Alone, the rest is no frame

  lemma PlainEscaped(bs: seq<byte>)
    requires Plain(bs)
    ensures Escaped(bs) == bs
    decreases |bs|
  {
    if bs == [] {
    } else {
      var init, last := bs[..|bs| - 1], bs[|bs| - 1];
      assert bs == init + [last] && last in bs && forall b :: b in init ==> b in bs;
      PlainEscaped(init);
    }
  }

  lemma {:induction false} EscapedAppend(a: seq<byte>, b: seq<byte>)
    ensures Escaped(a + b) == Escaped(a) + Escaped(b)
    decreases |b|
  {
    if b == [] {
      assert a + b == a;
    } else {
      var init, last := b[..|b| - 1], b[|b| - 1];
      assert b == init + [last];
      Associates(a, init, [last]);
      EscapedAppend(a, init);
      EscapedLast(a + init, last);
      Associates(Escaped(a), Escaped(init), Esc(last));
    }
  }

  lemma PlainTail(fill: seq<byte>)
    requires Plain(fill) && fill != []
    ensures Plain(fill[1..]) && fill == [fill[0]] + fill[1..]
  {
    assert forall b :: b in fill[1..] ==> b in fill;
  }

  lemma RestIs(pending: bool, c: seq<byte>)
    requires c != []
    ensures Rest(pending, c) == if pending then [c[0]] + Escaped(c[1..]) else Escaped(c)
  {
    hide Escaped;
  }

  lemma PlainRest(pending: bool, fill: seq<byte>, check: seq<byte>)
    requires Plain(fill) && fill != []
    ensures Rest(pending, fill + check) == fill + Escaped(check)
  {
    hide *;
    RestIs(pending, fill + check);
    PlainTail(fill);
    if pending {
      assert (fill + check)[1..] == fill[1..] + check;
      PlainEscaped(fill[1..]);
      EscapedAppend(fill[1..], check);
      Associates([fill[0]], fill[1..], Escaped(check));
    } else {
      PlainEscaped(fill);
      EscapedAppend(fill, check);
    }
  }

  lemma ShortRest(pending: bool, check: seq<byte>)
    requires 1 <= |check| <= 2
    ensures |Rest(pending, check)| <= 4
  {
    EscapedShort(check);
    EscapedShort(check[1..]);
    hide Escaped;
  }

  /** Behind plain bytes, at most four wire bytes of checksum. */
  lemma RestParts(pending: bool, fill: seq<byte>, check: seq<byte>) returns (tail: seq<byte>)
    requires Plain(fill) && 1 <= |check| <= 2
    ensures |tail| <= 4 && Rest(pending, fill + check) == fill + tail
  {
    hide *;
    if fill == [] {
      tail := Rest(pending, check);
      assert fill + check == check && fill + tail == tail;
      ShortRest(pending, check);
    } else {
      tail := Escaped(check);
      PlainRest(pending, fill, check);
      EscapedShort(check);
    }
  }

  lemma EscapedShort(bs: seq<byte>)
    requires |bs| <= 2
    ensures |Escaped(bs)| <= 2 * |bs|
  {
    if |bs| == 2 {
      assert bs[..1][..0] == [];
      assert Escaped(bs) == Escaped(bs[..1]) + Esc(bs[1]);
      assert Escaped(bs[..1]) == Escaped(bs[..1][..0]) + Esc(bs[0]);
    } else if |bs| == 1 {
      assert Escaped(bs) == Escaped(bs[..0]) + Esc(bs[0]);
    }
  }

  lemma {:induction false} UnescapeShortens(wire: seq<byte>)
    ensures |Unescape(wire).bytes| <= |wire|
    decreases |wire|
  {
    if wire == [] {
    } else {
      var init := wire[..|wire| - 1];
      UnescapeShortens(init);
      UnescapeNext(init, wire[|wire| - 1]);
      assert wire == init + [wire[|wire| - 1]];
    }
  }

  lemma ReachedShort(tail: seq<byte>, f: Fed)
    requires Reached(Fresh(false), tail, f)
    ensures |f.rx.buffer| <= |tail|
  {
    UnescapeShortens(f.rx.raw);
    hide Unescape, Closed, Live;
  }

  lemma JudgedShort(b: seq<byte>)
    requires |b| <= 7
    ensures !Judge(false, b).Done? && !Judge(false, b).Panicked?
  {
  }

  /** Seven bytes are no frame. */
  lemma ShortUndone(tail: seq<byte>)
    requires |tail| <= 7
    ensures var v := Feed(Fresh(false), tail).verdict; !v.Done? && !v.Panicked?
  {
    hide *;
    var f := Feed(Fresh(false), tail);
    FreshFlag(false);
    FreshLive(false);
    FeedReaches(Fresh(false), tail);
    FeedJudges(Fresh(false), tail);
    ReachedShort(tail, f);
    if !f.verdict.More? {
      JudgedFirst(false, f);
      JudgedShort(f.rx.buffer);
    }
  }

  /** A rest of a frame, alone, is not one. */
  lemma RestUndone(pending: bool, fill: seq<byte>, check: seq<byte>)
    requires Plain(fill) && 1 <= |check| <= 2
    ensures var v := Feed(Fresh(false), Rest(pending, fill + check)).verdict; !v.Done? && !v.Panicked?
  {
    hide *;
    var tail := RestParts(pending, fill, check);
    PlainStart(fill);
    FeedAfterJunk(false, fill, tail);
    ShortUndone(tail);
  }

  lemma PlainStart(fill: seq<byte>)
    requires Plain(fill)
    ensures START !in fill
  {
  }

  lemma WholeRest(u: seq<byte>, c: seq<byte>)
    requires Whole(u, u + c)
    ensures c != [] && Judge(false, u + c) == Done && HeaderEnd(u + c) < |u + c| - 2
    ensures forall j :: 0 < j < |c| ==> Judge(false, u + c[..j]) == More
  {
    forall j | 0 < j < |c|
      ensures Judge(false, u + c[..j]) == More
    {
      assert (u + c)[..|u| + j] == u + c[..j];
    }
    hide Judge;
  }

  /** Undecided bytes behind a start token leave a waiting parser. */
  lemma WaitingParser(d: seq<byte>)
    requires Feed(Fresh(false), d).verdict.More?
    ensures var s := Feed(Fresh(false), d).rx;
            Live(s) && !s.ignoreCrcMismatch && Judge(false, s.buffer) == More
  {
    FreshLive(false);
    FeedReaches(Fresh(false), d);
    LiveUndecided(Feed(Fresh(false), d), Fresh(false), d);
    hide Feed, Live, Judge, Unescape, KeepsTail, Closed;
  }

  lemma DoneData(s: Rx, x: seq<byte>)
    requires Live(s) && s.Shaped() && Feed(s, x).verdict.Done?
    ensures var rx := Feed(s, x).rx;
            && Judge(s.ignoreCrcMismatch, rx.buffer) == Done
            && Headed(rx.buffer) && HeaderEnd(rx.buffer) <= |rx.buffer| - 2
            && rx.data == rx.buffer[HeaderEnd(rx.buffer)..|rx.buffer| - 2]
  {
    FeedReaches(s, x);
    FeedJudges(s, x);
    ClosedFields(Feed(s, x).rx);
    JudgedFirst(s.ignoreCrcMismatch, Feed(s, x));
    hide Feed, Live, Judge, Closed, Unescape, Headed, HeaderEnd;
  }

  /**
   * Undecided bytes that carry have a continuation that completes a frame with data, and that
   * alone is no frame.
   */
  lemma CarriesCompletes(d: seq<byte>) returns (x: seq<byte>)
    requires var f := Feed(Fresh(false), d); f.verdict.More? && f.rx.buffer != [] && Carries(f.rx.buffer)
    ensures var f := Feed(Fresh(false), d + x); f.verdict.Done? && f.rx.data != []
    ensures var v := Feed(Fresh(false), x).verdict; !v.Done? && !v.Panicked?
  {
    hide *;
    var s := Feed(Fresh(false), d).rx;
    WaitingParser(d);
    var fill, check := Complete(s.buffer);
    var c := fill + check;
    Associates(s.buffer, fill, check);
    WholeRest(s.buffer, c);
    x := Rest(s.escaping, c);
    FeedRest(s, c);
    RestFed(s, c, Feed(s, x));
    FeedAppend(Fresh(false), d, x);
    DoneData(s, x);
    RestUndone(s.escaping, fill, check);
  }

  lemma RestFed(s: Rx, c: seq<byte>, f: Fed)
    requires c != [] && FedRest(s, c, f)
    ensures f.rx.buffer == s.buffer + c && f.verdict == Judge(false, s.buffer + c)
  {
  }

  lemma RawGrows(s: Rx, x: seq<byte>, f: Fed)
    requires Live(s) && s.buffer != [] && Reached(s, x, f)
    ensures var raw := s.raw + x[..f.used];
            s.buffer == Unescape(s.raw).bytes && f.rx.buffer == Unescape(raw).bytes && raw[..|s.raw|] == s.raw
  {
    LiveShaped(s);
    hide Unescape, Judge, Closed;
  }

  lemma BufferGrows(s: Rx, x: seq<byte>)
    requires Live(s) && s.Shaped() && s.buffer != []
    ensures s.buffer <= Feed(s, x).rx.buffer
  {
    hide *;
    var f := Feed(s, x);
    FeedReaches(s, x);
    RawGrows(s, x, f);
    UnescapePrefix(s.raw + x[..f.used], |s.raw|);
  }

  /** And only those do. */
  lemma CompletesCarries(d: seq<byte>, x: seq<byte>)
    requires var f := Feed(Fresh(false), d); f.verdict.More? && f.rx.buffer != []
    requires var f := Feed(Fresh(false), d + x); f.verdict.Done? && f.rx.data != []
    ensures Carries(Feed(Fresh(false), d).rx.buffer)
  {
    hide *;
    var s := Feed(Fresh(false), d).rx;
    WaitingParser(d);
    FeedAppend(Fresh(false), d, x);
    DoneData(s, x);
    BufferGrows(s, x);
    CompletedCarries(s.buffer, Feed(s, x).rx.buffer);
  }
}
