/** The two clients: one exchange, retries, and a write that is verified by reading back. */
module Clients {
  import opened Bytes
  import opened Frame
  import opened Receive
  import opened Network
  import opened Exchanges
  import opened Codec

  /** What a client knows of an object. */
  datatype ObjectInfo = ObjectInfo(id: u32, requestType: DataType, responseType: DataType)

  datatype ClientError = Timeout | Io | EmptyPayload | BadAnswer(fault: Fault) | BadValue(error: CodecError)

  /** How a call ends; a panic in the parser unwinds through it. */
  datatype Call = Value(v: DataValue) | Error(e: ClientError) | Crashed

  /** The two clients differ in how they report errors, and in which of them cost the connection. */
  datatype Kind = Async | Sync

  /** What an exchange comes to for a caller that expects a value of type `t`. */
  function Interpreted(kind: Kind, o: Outcome, t: DataType): Call {
    match o
    case Answer(rx) =>
      if rx.data == [] then Error(EmptyPayload)
      else
        (match DecodeValue(t, rx.data)
         case Ok(v) => Value(v)
         case Err(e) => Error(BadValue(e)))
    case Failure(NotConnected(expired)) => Error(if kind.Async? && expired then Timeout else Io)
    case Failure(NotSent(expired)) => Error(if kind.Async? && expired then Timeout else Io)
    case Failure(NoAnswer) => Error(Timeout)
    case Failure(ReadBroken) => Error(Io)
    case Failure(BadFrame(fault)) => Error(BadAnswer(fault))
    case Unwound => Crashed
  }

  /** Whether the connection is dropped: the async client does so on any error, the other one if a value is bad. */
  predicate Drops(kind: Kind, call: Call) {
    match kind
    case Async => call.Error?
    case Sync => call.Error? && call.e.BadValue?
  }

  datatype Tried = Tried(held: Held, call: Call)

  /** One attempt. */
  function Try(kind: Kind, h: Held, wire: seq<byte>, t: DataType): (r: Tried)
    requires h.Wired()
    ensures r.held.Wired() && r.held.tried == h.tried + [wire]
  {
    var c := Converse(h, wire);
    var call := Interpreted(kind, c.outcome, t);
    Tried(if Drops(kind, call) then c.held.(conn := None) else c.held, call)
  }

  /** Attempts until one does not end in an error; the last error if they all do. */
  function Retried(kind: Kind, h: Held, wire: seq<byte>, t: DataType, attempts: nat, last: ClientError): (r: Tried)
    requires h.Wired()
    ensures r.held.Wired()
    decreases attempts
  {
    if attempts == 0 then Tried(h, Error(last))
    else
      var r := Try(kind, h, wire, t);
      if r.call.Error? then Retried(kind, r.held, wire, t, attempts - 1, r.call.e) else r
  }

  function Attempts(retries: nat): (n: nat)
    ensures n == if retries == 0 then 1 else retries
  {
    if retries > 1 then retries else 1
  }

  function ReadWire(obj: ObjectInfo): seq<byte> {
    Printed(Read, obj.id, [], 0, Standard)
  }

  function WriteWire(obj: ObjectInfo, payload: seq<byte>): seq<byte> {
    Printed(Write, obj.id, payload, 0, Standard)
  }

  function ReadObject(kind: Kind, h: Held, obj: ObjectInfo, retries: nat): (r: Tried)
    requires h.Wired()
    ensures r.held.Wired()
  {
    Retried(kind, h, ReadWire(obj), obj.responseType, Attempts(retries), Timeout)
  }

  function WriteObject(kind: Kind, h: Held, obj: ObjectInfo, value: DataValue, casts: Casts, retries: nat): (r: Tried)
    requires h.Wired()
    ensures r.held.Wired()
  {
    match EncodeFor(obj.requestType, value, casts)
    case Err(e) => Tried(h, Error(BadValue(e)))
    case Ok(payload) => Retried(kind, h, WriteWire(obj, payload), obj.responseType, Attempts(retries), Timeout)
  }

  /** The k-th and later rounds of the verification: write again, unless it is the first, and read back. */
  function Verified(kind: Kind, h: Held, wire: seq<byte>, obj: ObjectInfo, value: DataValue, retries: nat, k: nat)
    : (r: Tried)
    requires h.Wired()
    ensures r.held.Wired()
    decreases Attempts(retries) - k
  {
    if k >= Attempts(retries) then Tried(h, Error(Timeout))
    else
      var w := if k > 0 then Try(kind, h, wire, obj.responseType) else Tried(h, Error(Timeout));
      if w.call.Crashed? then w
      else
        var r := ReadObject(kind, w.held, obj, retries);
        if r.call.Crashed? || (r.call.Value? && ValueEq(value, r.call.v)) then r
        else Verified(kind, r.held, wire, obj, value, retries, k + 1)
  }

  /** The errors after which a write may have been applied all the same. */
  predicate MayBeApplied(e: ClientError) {
    e.Timeout? || e.EmptyPayload?
  }

  function WriteVerified(kind: Kind, h: Held, obj: ObjectInfo, value: DataValue, casts: Casts, retries: nat)
    : (r: Tried)
    requires h.Wired()
    ensures r.held.Wired()
  {
    match EncodeFor(obj.requestType, value, casts)
    case Err(e) => Tried(h, Error(BadValue(e)))
    case Ok(payload) =>
      var wire := WriteWire(obj, payload);
      var first := Try(kind, h, wire, obj.responseType);
      if first.call.Error? && MayBeApplied(first.call.e)
      then Verified(kind, first.held, wire, obj, value, retries, 0)
      else first
  }

  // Bounds

  function Count(tried: seq<seq<byte>>, wire: seq<byte>): (n: nat)
    ensures n <= |tried|
  {
    if tried == [] then 0
    else Count(tried[..|tried| - 1], wire) + if tried[|tried| - 1] == wire then 1 else 0
  }

  /** The exchanges tried for `wire` between two states, all exchanges in between, and nothing undone. */
  ghost predicate Went(before: Held, after: Held, wire: seq<byte>, n: nat, all: nat) {
    && before.tried <= after.tried
    && |after.tried| == |before.tried| + all
    && Count(after.tried, wire) == Count(before.tried, wire) + n
  }

  lemma WentTrans(a: Held, b: Held, c: Held, wire: seq<byte>, n: nat, all: nat, m: nat, more: nat)
    requires Went(a, b, wire, n, all) && Went(b, c, wire, m, more)
    ensures Went(a, c, wire, n + m, all + more)
  {
  }

  /** How many of `n` exchanges of one frame count for another. */
  function Share(wire: seq<byte>, counted: seq<byte>, n: nat): nat {
    if wire == counted then n else 0
  }

  lemma TryWent(kind: Kind, h: Held, wire: seq<byte>, t: DataType, counted: seq<byte>)
    requires h.Wired()
    ensures Went(h, Try(kind, h, wire, t).held, counted, Share(wire, counted, 1), 1)
  {
    var after := h.tried + [wire];
    assert after[..|after| - 1] == h.tried;
  }

  lemma RetriedNext(kind: Kind, h: Held, wire: seq<byte>, t: DataType, attempts: nat, last: ClientError)
    requires h.Wired() && attempts > 0
    ensures var r := Try(kind, h, wire, t);
            Retried(kind, h, wire, t, attempts, last)
            == if r.call.Error? then Retried(kind, r.held, wire, t, attempts - 1, r.call.e) else r
  {
    hide Try;
  }

  lemma RetriedNone(kind: Kind, h: Held, wire: seq<byte>, t: DataType, last: ClientError, counted: seq<byte>)
    requires h.Wired()
    ensures Retried(kind, h, wire, t, 0, last) == Tried(h, Error(last))
    ensures Went(h, h, counted, Share(wire, counted, 0), 0)
  {
  }

  /** Retries: as many exchanges as attempts if all fail, at least one and at most that many otherwise. */
  lemma {:induction false} RetriedWent(kind: Kind, h: Held, wire: seq<byte>, t: DataType, attempts: nat, last: ClientError,
                                       counted: seq<byte>)
    returns (n: nat)
    requires h.Wired()
    ensures n <= attempts && (Retried(kind, h, wire, t, attempts, last).call.Error? ==> n == attempts)
    ensures attempts > 0 ==> n > 0
    ensures Went(h, Retried(kind, h, wire, t, attempts, last).held, counted, Share(wire, counted, n), n)
    decreases attempts
  {
    hide *;
    if attempts == 0 {
      RetriedNone(kind, h, wire, t, last, counted);
      n := 0;
    } else {
      var r := Try(kind, h, wire, t);
      TryWent(kind, h, wire, t, counted);
      RetriedNext(kind, h, wire, t, attempts, last);
      if r.call.Error? {
        var m := RetriedWent(kind, r.held, wire, t, attempts - 1, r.call.e, counted);
        var after := Retried(kind, r.held, wire, t, attempts - 1, r.call.e).held;
        WentTrans(h, r.held, after, counted, Share(wire, counted, 1), 1, Share(wire, counted, m), m);
        Shares(wire, counted, m);
        n := m + 1;
      } else {
        n := 1;
      }
    }
  }

  lemma Shares(wire: seq<byte>, counted: seq<byte>, n: nat)
    ensures Share(wire, counted, 1) + Share(wire, counted, n) == Share(wire, counted, n + 1)
  {
  }

  /** When all attempts fail, the error is that of the last one. */
  lemma {:induction false} RetriedLast(kind: Kind, h: Held, wire: seq<byte>, t: DataType, attempts: nat, last: ClientError)
    returns (g: Held)
    requires h.Wired() && attempts >= 1 && Retried(kind, h, wire, t, attempts, last).call.Error?
    ensures g.Wired() && |g.tried| == |h.tried| + attempts - 1
    ensures Try(kind, g, wire, t) == Retried(kind, h, wire, t, attempts, last)
    decreases attempts
  {
    hide Try;
    var r := Try(kind, h, wire, t);
    if attempts == 1 {
      g := h;
      assert Retried(kind, r.held, wire, t, 0, r.call.e) == Tried(r.held, Error(r.call.e));
    } else {
      g := RetriedLast(kind, r.held, wire, t, attempts - 1, r.call.e);
    }
  }

  /** Exchanges of both kinds of frame, and no others. */
  ghost predicate WentBoth(before: Held, after: Held, write: seq<byte>, read: seq<byte>, puts: nat, gets: nat) {
    Went(before, after, write, puts, puts + gets) && Went(before, after, read, gets, puts + gets)
  }

  lemma WentBothTrans(a: Held, b: Held, c: Held, write: seq<byte>, read: seq<byte>, w: nat, r: nat, v: nat, q: nat)
    requires WentBoth(a, b, write, read, w, r) && WentBoth(b, c, write, read, v, q)
    ensures WentBoth(a, c, write, read, w + v, r + q)
  {
    WentTrans(a, b, c, write, w, w + r, v, v + q);
    WentTrans(a, b, c, read, r, w + r, q, v + q);
  }

  lemma TryWentBoth(kind: Kind, h: Held, write: seq<byte>, t: DataType, read: seq<byte>)
    requires h.Wired() && write != read
    ensures WentBoth(h, Try(kind, h, write, t).held, write, read, 1, 0)
  {
    TryWent(kind, h, write, t, write);
    TryWent(kind, h, write, t, read);
  }

  lemma ReadWentBoth(kind: Kind, h: Held, obj: ObjectInfo, retries: nat, write: seq<byte>) returns (n: nat)
    requires h.Wired() && write != ReadWire(obj)
    ensures 1 <= n <= Attempts(retries)
    ensures WentBoth(h, ReadObject(kind, h, obj, retries).held, write, ReadWire(obj), 0, n)
  {
    hide Try, Went;
    var wire := ReadWire(obj);
    n := RetriedWent(kind, h, wire, obj.responseType, Attempts(retries), Timeout, wire);
    var m := RetriedWent(kind, h, wire, obj.responseType, Attempts(retries), Timeout, write);
    WentSame(h, ReadObject(kind, h, obj, retries).held, wire, n, n, write, 0, m);
  }

  lemma WentSame(a: Held, b: Held, v: seq<byte>, n: nat, all: nat, w: seq<byte>, m: nat, more: nat)
    requires Went(a, b, v, n, all) && Went(a, b, w, m, more)
    ensures all == more
  {
  }

  lemma WentNowhere(h: Held, write: seq<byte>, read: seq<byte>)
    ensures WentBoth(h, h, write, read, 0, 0)
  {
  }

  lemma Rounds(n: nat, r: nat)
    requires n >= 1
    ensures n * r == r + (n - 1) * r
  {
  }

  /** The WRITE of a round: none in the first one. */
  function Rewritten(kind: Kind, h: Held, wire: seq<byte>, t: DataType, k: nat): (w: Tried)
    requires h.Wired()
    ensures w.held.Wired()
  {
    if k > 0 then Try(kind, h, wire, t) else Tried(h, Error(Timeout))
  }

  lemma VerifiedNext(kind: Kind, h: Held, wire: seq<byte>, obj: ObjectInfo, value: DataValue, retries: nat, k: nat)
    requires h.Wired()
    ensures Verified(kind, h, wire, obj, value, retries, k) ==
            if k >= Attempts(retries) then Tried(h, Error(Timeout))
            else
              var w := Rewritten(kind, h, wire, obj.responseType, k);
              if w.call.Crashed? then w
              else
                var r := ReadObject(kind, w.held, obj, retries);
                if r.call.Crashed? || (r.call.Value? && ValueEq(value, r.call.v)) then r
                else Verified(kind, r.held, wire, obj, value, retries, k + 1)
  {
    hide Try, ReadObject, ValueEq, Attempts;
  }

  lemma RewrittenWent(kind: Kind, h: Held, wire: seq<byte>, t: DataType, k: nat, rd: seq<byte>)
    requires h.Wired() && wire != rd
    ensures WentBoth(h, Rewritten(kind, h, wire, t, k).held, wire, rd, if k > 0 then 1 else 0, 0)
    ensures k == 0 ==> Rewritten(kind, h, wire, t, k).call == Error(Timeout)
  {
    hide Try, WentBoth;
    if k > 0 {
      TryWentBoth(kind, h, wire, t, rd);
    } else {
      WentNowhere(h, wire, rd);
    }
  }

  /** The most exchanges that `n - k` rounds of at most `n` each can take. */
  function Most(n: nat, k: nat): nat
    requires k <= n
  {
    (n - k) * n
  }

  lemma MostNext(n: nat, k: nat, gets: nat, more: nat)
    requires k < n && gets <= n && more <= Most(n, k + 1)
    ensures gets + more <= Most(n, k)
  {
    Rounds(n - k, n);
  }

  lemma MostSome(n: nat, k: nat, gets: nat)
    requires k < n && gets <= n
    ensures gets <= Most(n, k)
  {
    Rounds(n - k, n);
  }

  /** The exchanges of one round, from a state to the one that it ends in. */
  lemma RoundWent(kind: Kind, h: Held, wire: seq<byte>, obj: ObjectInfo, retries: nat, k: nat) returns (gets: nat)
    requires h.Wired() && wire != ReadWire(obj)
    ensures 1 <= gets <= Attempts(retries)
    ensures WentBoth(h, ReadObject(kind, Rewritten(kind, h, wire, obj.responseType, k).held, obj, retries).held, wire,
                     ReadWire(obj), if k > 0 then 1 else 0, gets)
  {
    hide *;
    var w := Rewritten(kind, h, wire, obj.responseType, k);
    RewrittenWent(kind, h, wire, obj.responseType, k, ReadWire(obj));
    gets := ReadWentBoth(kind, w.held, obj, retries, wire);
    WentBothTrans(h, w.held, ReadObject(kind, w.held, obj, retries).held, wire, ReadWire(obj), if k > 0 then 1 else 0, 0, 0,
                  gets);
  }

  lemma {:induction false} VerifiedWent(kind: Kind, h: Held, wire: seq<byte>, obj: ObjectInfo, value: DataValue,
                                        retries: nat, k: nat)
    returns (puts: nat, gets: nat)
    requires h.Wired() && k <= Attempts(retries) && wire != ReadWire(obj)
    ensures puts <= Attempts(retries) - (if k == 0 then 1 else k) && gets <= Most(Attempts(retries), k)
    ensures WentBoth(h, Verified(kind, h, wire, obj, value, retries, k).held, wire, ReadWire(obj), puts, gets)
    ensures Verified(kind, h, wire, obj, value, retries, k).call.Error? ==>
              puts == Attempts(retries) - (if k == 0 then 1 else k) && gets >= Attempts(retries) - k
    decreases Attempts(retries) - k
  {
    hide *;
    var n, rd := Attempts(retries), ReadWire(obj);
    VerifiedNext(kind, h, wire, obj, value, retries, k);
    WentNowhere(h, wire, rd);
    puts, gets := 0, 0;
    if k < n {
      puts := if k > 0 then 1 else 0;
      var w := Rewritten(kind, h, wire, obj.responseType, k);
      RewrittenWent(kind, h, wire, obj.responseType, k, rd);
      if !w.call.Crashed? {
        var r := ReadObject(kind, w.held, obj, retries);
        gets := RoundWent(kind, h, wire, obj, retries, k);
        MostSome(n, k, gets);
        if !r.call.Crashed? && !(r.call.Value? && ValueEq(value, r.call.v)) {
          var v, q := VerifiedWent(kind, r.held, wire, obj, value, retries, k + 1);
          WentBothTrans(h, r.held, Verified(kind, r.held, wire, obj, value, retries, k + 1).held, wire, rd, puts, gets, v, q);
          MostNext(n, k, gets, q);
          puts, gets := puts + v, gets + q;
        }
      }
    }
  }

  lemma {:induction false} EscapedFirst(bs: seq<byte>)
    requires bs != [] && bs[0] != START && bs[0] != ESCAPE
    ensures Escaped(bs) != [] && Escaped(bs)[0] == bs[0]
  {
    if |bs| > 1 {
      EscapedFirst(bs[..|bs| - 1]);
    } else {
      assert Escaped(bs[..0]) == [];
    }
  }

  lemma PrintedCommand(command: Command, id: u32, payload: seq<byte>)
    requires command != Extension
    ensures var wire := Printed(command, id, payload, 0, Standard);
            |wire| >= 2 && wire[1] == command.Byte()
  {
    EscapedFirst(Sealed(Core(command, 4 + |payload|, Content(command, id, payload, 0, Standard))));
  }

  lemma WiresDiffer(obj: ObjectInfo, payload: seq<byte>)
    ensures WriteWire(obj, payload) != ReadWire(obj)
  {
    PrintedCommand(Read, obj.id, []);
    PrintedCommand(Write, obj.id, payload);
  }

  /**
   * With R attempts allowed, a verified write ends after at most R exchanges of the WRITE frame
   * and R * R of the READ frame, and no others; it gives up with a timeout only after exactly R of
   * the WRITE frame and at least R of the READ frame.
   */
  lemma VerifyBounds(kind: Kind, h: Held, obj: ObjectInfo, value: DataValue, casts: Casts, retries: nat)
    returns (puts: nat, gets: nat)
    requires h.Wired() && EncodeFor(obj.requestType, value, casts).Ok?
    ensures puts <= Attempts(retries) && gets <= Attempts(retries) * Attempts(retries)
    ensures WentBoth(h, WriteVerified(kind, h, obj, value, casts, retries).held,
                     WriteWire(obj, EncodeFor(obj.requestType, value, casts).value), ReadWire(obj), puts, gets)
    ensures WriteVerified(kind, h, obj, value, casts, retries).call == Error(Timeout) ==>
              puts == Attempts(retries) && gets >= Attempts(retries)
  {
    hide Try, WentBoth, ReadWire, WriteWire, Attempts, EncodeFor, Verified;
    assert Most(Attempts(retries), 0) == Attempts(retries) * Attempts(retries);
    var wire := WriteWire(obj, EncodeFor(obj.requestType, value, casts).value);
    WiresDiffer(obj, EncodeFor(obj.requestType, value, casts).value);
    var first := Try(kind, h, wire, obj.responseType);
    TryWentBoth(kind, h, wire, obj.responseType, ReadWire(obj));
    puts, gets := 1, 0;
    if first.call.Error? && MayBeApplied(first.call.e) {
      var v, q := VerifiedWent(kind, first.held, wire, obj, value, retries, 0);
      WentBothTrans(h, first.held, Verified(kind, first.held, wire, obj, value, retries, 0).held, wire, ReadWire(obj),
                    1, 0, v, q);
      puts, gets := 1 + v, q;
    }
  }

  // Late answers: the async client

  /** The last request is `wire`, sent on the connection held, and `v` is what its own answer decodes to. */
  ghost predicate Confirms(after: Held, wire: seq<byte>, t: DataType, v: DataValue) {
    var log := after.world.net.log;
    && log != [] && after.conn == Some(log[|log| - 1].link)
    && log[|log| - 1].wire == wire && log[|log| - 1].answer.Some?
    && var f := Feed(Fresh(false), log[|log| - 1].answer.value);
       f.verdict.Done? && DecodeValue(t, f.rx.data) == Ok(v)
  }

  /** Nothing is outstanding, and the connection held is number `d` or a later one. */
  predicate ReadyFrom(h: Held, d: nat): (b: bool)
    ensures b ==> h.Wired()
  {
    Ready(h) && d <= |h.world.net.down| && (h.conn.Some? ==> h.conn.value >= d)
  }

  /** What an attempt of the async client keeps, and what a value it returns stands for. */
  ghost predicate KeepsPairing(before: Held, r: Tried, wire: seq<byte>, t: DataType, d: nat) {
    && ReadyFrom(r.held, d) && Grew(before.world.net, r.held.world.net)
    && (r.call.Error? ==> r.held.conn.None?)
    && (r.call.Value? ==> Confirms(r.held, wire, t, r.call.v) && |r.held.world.net.log| > |before.world.net.log|)
  }

  lemma TryParts(kind: Kind, h: Held, wire: seq<byte>, t: DataType)
    requires h.Wired()
    ensures var r, c := Try(kind, h, wire, t), Converse(h, wire);
            && r.call == Interpreted(kind, c.outcome, t) && r.held.world == c.held.world
            && (r.call.Error? ==> r.held.conn == if kind.Async? || r.call.e.BadValue? then None else c.held.conn)
            && (!r.call.Error? ==> r.held.conn == c.held.conn)
  {
    hide Converse, Interpreted;
  }

  /** What a value that a call returns stands for, and where a panic comes from. */
  lemma InterpretedAs(kind: Kind, o: Outcome, t: DataType)
    ensures var call := Interpreted(kind, o, t);
            && (call.Value? ==> o.Answer? && DecodeValue(t, o.rx.data) == Ok(call.v))
            && (call.Crashed? <==> o.Unwound?)
  {
    hide DecodeValue;
  }

  /** What a connection that is dropped, or kept, is then worth. */
  lemma ReadyOn(h: Held, g: Held, d: nat)
    requires ReadyFrom(h, d) && Grew(h.world.net, g.world.net) && Linked(g.world.net)
    requires g.conn.Some? ==> Quiet(g.world.net, g.conn.value) && SameOrNewer(h, g)
    ensures ReadyFrom(g, d)
  {
    hide Quiet, Linked;
  }

  lemma ReadyIs(h: Held, d: nat)
    ensures ReadyFrom(h, d) ==> Ready(h)
    ensures Ready(h) ==> Linked(h.world.net) && (h.conn.Some? ==> Quiet(h.world.net, h.conn.value))
  {
    hide Quiet, Linked;
  }

  lemma PairedConfirms(before: Net, wire: seq<byte>, after: Held, rx: Rx, t: DataType, v: DataValue)
    requires Paired(before, wire, after, rx) && DecodeValue(t, rx.data) == Ok(v)
    ensures Confirms(after, wire, t, v) && |after.world.net.log| == |before.log| + 1
  {
    hide DecodeValue, Feed, Quiet;
  }

  lemma SameConfirms(g: Held, h: Held, wire: seq<byte>, t: DataType, v: DataValue)
    requires Confirms(g, wire, t, v) && h.conn == g.conn && h.world == g.world
    ensures Confirms(h, wire, t, v)
  {
    hide DecodeValue, Feed;
  }

  lemma TryKeeps(h: Held, wire: seq<byte>, t: DataType, d: nat)
    requires ReadyFrom(h, d)
    ensures KeepsPairing(h, Try(Async, h, wire, t), wire, t, d)
    ensures var r := Try(Async, h, wire, t);
            r.call.Value? ==> |r.held.world.net.log| == |h.world.net.log| + 1
  {
    hide *;
    ReadyIs(h, d);
    ConverseKeeps(h, wire);
    TryParts(Async, h, wire, t);
    var r, c := Try(Async, h, wire, t), Converse(h, wire);
    InterpretedAs(Async, c.outcome, t);
    ReadyIs(c.held, 0);
    ReadyOn(h, r.held, d);
    if r.call.Value? {
      PairedConfirms(h.world.net, wire, c.held, c.outcome.rx, t, r.call.v);
      SameConfirms(c.held, r.held, wire, t, r.call.v);
    }
    Keeps(h, r, wire, t, d);
  }

  lemma Keeps(before: Held, r: Tried, wire: seq<byte>, t: DataType, d: nat)
    requires ReadyFrom(r.held, d) && Grew(before.world.net, r.held.world.net)
    requires r.call.Error? ==> r.held.conn.None?
    requires r.call.Value? ==> Confirms(r.held, wire, t, r.call.v) && |r.held.world.net.log| > |before.world.net.log|
    ensures KeepsPairing(before, r, wire, t, d)
  {
  }

  lemma {:induction false} RetriedKeeps(h: Held, wire: seq<byte>, t: DataType, attempts: nat, last: ClientError, d: nat)
    requires ReadyFrom(h, d) && (attempts == 0 ==> h.conn.None?)
    ensures KeepsPairing(h, Retried(Async, h, wire, t, attempts, last), wire, t, d)
    decreases attempts
  {
    hide Try, ReadyFrom, Grew, Confirms;
    GrewSame(h.world.net);
    if attempts == 0 {
    } else {
      var r := Try(Async, h, wire, t);
      TryKeeps(h, wire, t, d);
      if r.call.Error? {
        RetriedKeeps(r.held, wire, t, attempts - 1, r.call.e, d);
        var after := Retried(Async, r.held, wire, t, attempts - 1, r.call.e).held;
        GrewTrans(h.world.net, r.held.world.net, after.world.net);
        GrewLonger(h.world.net, r.held.world.net);
      }
    }
  }

  lemma GrewLonger(before: Net, after: Net)
    requires Grew(before, after)
    ensures |before.log| <= |after.log|
  {
  }

  lemma {:induction false} VerifiedKeeps(h: Held, wire: seq<byte>, obj: ObjectInfo, value: DataValue, retries: nat, k: nat,
                                         d: nat)
    requires ReadyFrom(h, d)
    ensures var r := Verified(Async, h, wire, obj, value, retries, k);
            && ReadyFrom(r.held, d) && Grew(h.world.net, r.held.world.net)
            && (r.call.Value? ==> Confirms(r.held, ReadWire(obj), obj.responseType, r.call.v)
                                  && ValueEq(value, r.call.v) && |r.held.world.net.log| > |h.world.net.log|)
    decreases Attempts(retries) - k
  {
    hide Try, ReadyFrom, Grew, Confirms, Retried, Attempts, ValueEq, ReadWire;
    GrewSame(h.world.net);
    if k < Attempts(retries) {
      var w := if k > 0 then Try(Async, h, wire, obj.responseType) else Tried(h, Error(Timeout));
      if k > 0 {
        TryKeeps(h, wire, obj.responseType, d);
      }
      if !w.call.Crashed? {
        var r := ReadObject(Async, w.held, obj, retries);
        RetriedKeeps(w.held, ReadWire(obj), obj.responseType, Attempts(retries), Timeout, d);
        GrewTrans(h.world.net, w.held.world.net, r.held.world.net);
        GrewLonger(h.world.net, w.held.world.net);
        if !r.call.Crashed? && !(r.call.Value? && ValueEq(value, r.call.v)) {
          VerifiedKeeps(r.held, wire, obj, value, retries, k + 1, d);
          GrewTrans(h.world.net, r.held.world.net, Verified(Async, r.held, wire, obj, value, retries, k + 1).held.world.net);
          GrewLonger(h.world.net, r.held.world.net);
        }
      }
    }
  }

  /** Every request so far went over a connection older than that of the last one. */
  ghost predicate NewerThan(net: Net, before: nat) {
    net.log != [] && forall n :: 0 <= n < before && n < |net.log| ==> net.log[n].link < net.log[|net.log| - 1].link
  }

  /** The value was confirmed by reading it back, over a connection newer than those of the requests before `first`. */
  ghost predicate ReadBack(after: Held, obj: ObjectInfo, value: DataValue, v: DataValue, first: nat) {
    && Confirms(after, ReadWire(obj), obj.responseType, v)
    && ValueEq(value, v)
    && NewerThan(after.world.net, first) && |after.world.net.log| > first
  }

  /**
   * However many answers are lost or come late: when the async client's verified write returns a
   * value, it is either the answer to the first WRITE, in time, or the answer to a READ that was
   * sent over a connection opened after the one of that WRITE, and then it equals the value written.
   */
  lemma NoLateAnswer(h: Held, obj: ObjectInfo, value: DataValue, casts: Casts, retries: nat)
    requires Ready(h) && EncodeFor(obj.requestType, value, casts).Ok?
    ensures var wire := WriteWire(obj, EncodeFor(obj.requestType, value, casts).value);
            var first := Try(Async, h, wire, obj.responseType);
            var r := WriteVerified(Async, h, obj, value, casts, retries);
            && Ready(r.held)
            && (r.call.Value? ==>
                  if first.call.Value? then r == first && Confirms(r.held, wire, obj.responseType, r.call.v)
                  else ReadBack(r.held, obj, value, r.call.v, |first.held.world.net.log|))
  {
    hide *;
    var wire := WriteWire(obj, EncodeFor(obj.requestType, value, casts).value);
    WriteUnfolds(h, obj, value, casts, retries);
    var first := Try(Async, h, wire, obj.responseType);
    ReadyFromZero(h);
    TryKeeps(h, wire, obj.responseType, 0);
    PairingKept(h, first, wire, obj.responseType, 0);
    if first.call.Error? {
      VerifiedReadBack(first.held, wire, obj, value, retries);
    }
  }

  lemma WriteUnfolds(h: Held, obj: ObjectInfo, value: DataValue, casts: Casts, retries: nat)
    requires Ready(h) && EncodeFor(obj.requestType, value, casts).Ok?
    ensures h.Wired()
    ensures var wire := WriteWire(obj, EncodeFor(obj.requestType, value, casts).value);
            var first := Try(Async, h, wire, obj.responseType);
            WriteVerified(Async, h, obj, value, casts, retries)
            == if first.call.Error? && MayBeApplied(first.call.e)
               then Verified(Async, first.held, wire, obj, value, retries, 0) else first
  {
    hide Try, Verified, EncodeFor, WriteWire, MayBeApplied;
  }

  lemma PairingKept(before: Held, r: Tried, wire: seq<byte>, t: DataType, d: nat)
    requires KeepsPairing(before, r, wire, t, d)
    ensures Ready(r.held) && (r.call.Error? ==> r.held.conn.None?)
    ensures r.call.Value? ==> Confirms(r.held, wire, t, r.call.v)
  {
    hide Confirms, Quiet, Grew;
  }

  lemma VerifiedReadBack(g: Held, wire: seq<byte>, obj: ObjectInfo, value: DataValue, retries: nat)
    requires Ready(g) && g.conn.None?
    ensures var r := Verified(Async, g, wire, obj, value, retries, 0);
            Ready(r.held) && (r.call.Value? ==> ReadBack(r.held, obj, value, r.call.v, |g.world.net.log|))
  {
    hide Confirms, ValueEq, ReadWire, Quiet, Verified, Grew;
    var d := |g.world.net.down|;
    ReadyFromHere(g);
    VerifiedKeeps(g, wire, obj, value, retries, 0, d);
    var r := Verified(Async, g, wire, obj, value, retries, 0);
    if r.call.Value? {
      LaterLink(g.world.net, r.held, ReadWire(obj), obj.responseType, r.call.v, d);
    }
  }

  lemma ReadyFromZero(h: Held)
    requires Ready(h)
    ensures ReadyFrom(h, 0)
  {
  }

  lemma ReadyFromHere(h: Held)
    requires Ready(h) && h.conn.None?
    ensures ReadyFrom(h, |h.world.net.down|)
  {
  }

  lemma LaterLink(before: Net, after: Held, wire: seq<byte>, t: DataType, v: DataValue, d: nat)
    requires Linked(before) && Grew(before, after.world.net) && d == |before.down|
    requires ReadyFrom(after, d) && Confirms(after, wire, t, v)
    ensures NewerThan(after.world.net, |before.log|)
  {
    var log := after.world.net.log;
    hide Feed, DecodeValue, Quiet;
    forall n | 0 <= n < |before.log| && n < |log|
      ensures log[n].link < log[|log| - 1].link
    {
      assert Kept(before.log[n], log[n]);
    }
  }

  /** A value that no payload decodes to, such as a NaN, is never confirmed by reading it back. */
  lemma UnreadableNotVerified(h: Held, obj: ObjectInfo, value: DataValue, casts: Casts, retries: nat)
    requires Ready(h) && EncodeFor(obj.requestType, value, casts).Ok? && !Readable(obj.responseType, value)
    ensures WriteVerified(Async, h, obj, value, casts, retries).call.Value? ==>
              var wire := WriteWire(obj, EncodeFor(obj.requestType, value, casts).value);
              Try(Async, h, wire, obj.responseType).call.Value?
  {
    NoLateAnswer(h, obj, value, casts, retries);
    ReadBackExactly(obj.responseType, value);
    hide Try, WriteVerified, WriteWire, EncodeFor, ValueEq, NewerThan, Feed, DecodeValue, Readable;
  }

  // The clients themselves

  class AsyncClient {
    const conn: Line
    const retries: nat

    constructor (world: World, retries: nat)
      ensures fresh(conn) && conn.State() == Held(None, world, []) && this.retries == retries
    {
      conn := new Line(world);
      this.retries := retries;
    }

    /** One attempt; after any error the connection is dropped. */
    method TryExchange(frame: seq<byte>, t: DataType) returns (call: Call)
      requires conn.State().Wired()
      modifies conn
      ensures Tried(conn.State(), call) == Try(Async, old(conn.State()), frame, t)
    {
      hide Converse, DecodeValue;
      var outcome := conn.Exchange(frame);
      call := Interpreted(Async, outcome, t);
      if call.Error? {
        conn.Drop();
      }
    }

    /** Attempts until one succeeds; the last error if none does. */
    method Exchange(frame: seq<byte>, t: DataType) returns (call: Call)
      requires conn.State().Wired()
      modifies conn
      ensures Tried(conn.State(), call) == Retried(Async, old(conn.State()), frame, t, Attempts(retries), Timeout)
    {
      hide Try;
      var lastErr := Timeout;
      var attempts := Attempts(retries);
      for attempt := 0 to attempts
        invariant conn.State().Wired()
        invariant Retried(Async, old(conn.State()), frame, t, attempts, Timeout)
               == Retried(Async, conn.State(), frame, t, attempts - attempt, lastErr)
      {
        call := TryExchange(frame, t);
        if !call.Error? {
          return;
        }
        lastErr := call.e;
      }
      call := Error(lastErr);
    }

    method Read(obj: ObjectInfo) returns (call: Call)
      requires conn.State().Wired()
      modifies conn
      ensures Tried(conn.State(), call) == ReadObject(Async, old(conn.State()), obj, retries)
    {
      var frame := MakeFrame(Command.Read, obj.id, [], 0, Standard);
      call := Exchange(frame, obj.responseType);
    }

    method Write(obj: ObjectInfo, value: DataValue, casts: Casts) returns (call: Call)
      requires conn.State().Wired()
      modifies conn
      ensures Tried(conn.State(), call) == WriteObject(Async, old(conn.State()), obj, value, casts, retries)
    {
      var payload := EncodeFor(obj.requestType, value, casts);
      if payload.Err? {
        return Error(BadValue(payload.error));
      }
      var frame := MakeFrame(Command.Write, obj.id, payload.value, 0, Standard);
      call := Exchange(frame, obj.responseType);
    }

    /** Writes a value and, if the answer is lost, verifies it by reading it back. */
    method WriteAndVerify(obj: ObjectInfo, value: DataValue, casts: Casts) returns (call: Call)
      requires conn.State().Wired()
      modifies conn
      ensures Tried(conn.State(), call) == WriteVerified(Async, old(conn.State()), obj, value, casts, retries)
    {
      hide Try, ReadObject;
      var payload := EncodeFor(obj.requestType, value, casts);
      if payload.Err? {
        return Error(BadValue(payload.error));
      }
      var frame := MakeFrame(Command.Write, obj.id, payload.value, 0, Standard);
      call := TryExchange(frame, obj.responseType);
      if !call.Error? || !MayBeApplied(call.e) {
        return;
      }
      ghost var g := conn.State();
      var attempts := Attempts(retries);
      for attempt := 0 to attempts
        invariant conn.State().Wired()
        invariant Verified(Async, g, frame, obj, value, retries, 0)
               == Verified(Async, conn.State(), frame, obj, value, retries, attempt)
      {
        if attempt > 0 {
          call := TryExchange(frame, obj.responseType);
          if call.Crashed? {
            return;
          }
        }
        call := Read(obj);
        if call.Crashed? || (call.Value? && ValueEq(value, call.v)) {
          return;
        }
      }
      call := Error(Timeout);
    }
  }

  class Client {
    const conn: Line
    const retries: nat

    constructor (world: World, retries: nat)
      ensures fresh(conn) && conn.State() == Held(None, world, []) && this.retries == retries
    {
      conn := new Line(world);
      this.retries := retries;
    }

    /** One attempt; only a value that cannot be decoded costs the connection. */
    method TryExchange(frame: seq<byte>, t: DataType) returns (call: Call)
      requires conn.State().Wired()
      modifies conn
      ensures Tried(conn.State(), call) == Try(Sync, old(conn.State()), frame, t)
    {
      hide Converse, DecodeValue;
      var outcome := conn.Exchange(frame);
      if !outcome.Answer? {
        return Interpreted(Sync, outcome, t);
      }
      if outcome.rx.data == [] {
        return Error(EmptyPayload);
      }
      var value := DecodeValue(t, outcome.rx.data);
      if value.Err? {
        conn.Drop();
        return Error(BadValue(value.error));
      }
      return Value(value.value);
    }

    /** Attempts until one succeeds; the last error if none does. */
    method Exchange(frame: seq<byte>, t: DataType) returns (call: Call)
      requires conn.State().Wired()
      modifies conn
      ensures Tried(conn.State(), call) == Retried(Sync, old(conn.State()), frame, t, Attempts(retries), Timeout)
    {
      hide Try;
      var lastErr := Timeout;
      var attempts := Attempts(retries);
      for attempt := 0 to attempts
        invariant conn.State().Wired()
        invariant Retried(Sync, old(conn.State()), frame, t, attempts, Timeout)
               == Retried(Sync, conn.State(), frame, t, attempts - attempt, lastErr)
      {
        call := TryExchange(frame, t);
        if !call.Error? {
          return;
        }
        lastErr := call.e;
      }
      call := Error(lastErr);
    }

    method Read(obj: ObjectInfo) returns (call: Call)
      requires conn.State().Wired()
      modifies conn
      ensures Tried(conn.State(), call) == ReadObject(Sync, old(conn.State()), obj, retries)
    {
      var frame := MakeFrame(Command.Read, obj.id, [], 0, Standard);
      call := Exchange(frame, obj.responseType);
    }

    method Write(obj: ObjectInfo, value: DataValue, casts: Casts) returns (call: Call)
      requires conn.State().Wired()
      modifies conn
      ensures Tried(conn.State(), call) == WriteObject(Sync, old(conn.State()), obj, value, casts, retries)
    {
      var payload := EncodeFor(obj.requestType, value, casts);
      if payload.Err? {
        return Error(BadValue(payload.error));
      }
      var frame := MakeFrame(Command.Write, obj.id, payload.value, 0, Standard);
      call := Exchange(frame, obj.responseType);
    }

    /** Writes a value and, if the answer is lost, verifies it by reading it back. */
    method WriteAndVerify(obj: ObjectInfo, value: DataValue, casts: Casts) returns (call: Call)
      requires conn.State().Wired()
      modifies conn
      ensures Tried(conn.State(), call) == WriteVerified(Sync, old(conn.State()), obj, value, casts, retries)
    {
      hide Try, ReadObject;
      var payload := EncodeFor(obj.requestType, value, casts);
      if payload.Err? {
        return Error(BadValue(payload.error));
      }
      var frame := MakeFrame(Command.Write, obj.id, payload.value, 0, Standard);
      call := TryExchange(frame, obj.responseType);
      if !call.Error? || !MayBeApplied(call.e) {
        return;
      }
      ghost var g := conn.State();
      var attempts := Attempts(retries);
      for attempt := 0 to attempts
        invariant conn.State().Wired()
        invariant Verified(Sync, g, frame, obj, value, retries, 0)
               == Verified(Sync, conn.State(), frame, obj, value, retries, attempt)
      {
        if attempt > 0 {
          call := TryExchange(frame, obj.responseType);
          if call.Crashed? {
            return;
          }
        }
        call := Read(obj);
        if call.Crashed? || (call.Value? && ValueEq(value, call.v)) {
          return;
        }
      }
      call := Error(Timeout);
    }
  }
}
