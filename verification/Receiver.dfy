/** The receiving half of a session: header and body are read in turn, each resumed after every
    partial read, until a completed part is handled. */
module Receiver {
  import opened Frames

  /** What is being read, and the bytes of it that are there. */
  datatype Phase =
    | Header(have: seq<Byte>)
    | Body(id: Word, len: nat, have: seq<Byte>)
    | Closed

  /** What a callback calls before it ends reading: `DealExceptionSession` or the server's `ClearSession`. */
  datatype Call = TearDown | Clear

  /** `posted` is what went to the logic queue, `listed` whether the server still lists the session, `calls`
      what the callbacks of the session have called on the server. */
  datatype Conn = Conn(phase: Phase, posted: seq<Msg>, listed: bool, calls: seq<Call>)

  datatype Event =
    | Arrive(chunk: seq<Byte>)   // async_read_some completes with these bytes
    | Fail(locked: bool)         // or with an error; `locked`: the teardown obtained its user lock
    | Cleared                    // another thread clears the session: kick, heartbeat

  const START := Conn(Header([]), [], true, [])

  /** How many bytes the pending read may deliver. */
  function Wanted(ph: Phase): int {
    match ph
    case Header(have) => HEAD_TOTAL_LEN - |have|
    case Body(id, len, have) => len - |have|
    case Closed => -1
  }

  predicate Enabled(c: Conn, e: Event) {
    match e
    case Arrive(chunk) => |chunk| <= Wanted(c.phase)
    case Fail(locked) => !c.phase.Closed?
    case Cleared => true
  }

  /** `HandleReadHead` on a complete header. */
  function HandleHead(c: Conn, head: seq<Byte>): Conn
    requires |head| >= HEAD_TOTAL_LEN
  {
    if !c.listed then c.(phase := Closed, calls := c.calls + [TearDown])
    else if HeadLen(head) > MAX_LENGTH then c.(phase := Closed, listed := false, calls := c.calls + [Clear])
    else c.(phase := Body(HeadId(head), HeadLen(head), []))
  }

  /** `HandleReadData` on a complete body. */
  function HandleBody(c: Conn, id: Word, data: seq<Byte>): Conn {
    if !c.listed then c.(phase := Closed, calls := c.calls + [TearDown])
    else c.(phase := Header([]), posted := c.posted + [Msg(id, data)])
  }

  /** `AsyncReadLen`: collect until the part is complete. */
  function OnBytes(c: Conn, chunk: seq<Byte>): Conn
    requires |chunk| <= Wanted(c.phase)
  {
    match c.phase
    case Header(have) =>
      if |have + chunk| < HEAD_TOTAL_LEN then c.(phase := Header(have + chunk)) else HandleHead(c, have + chunk)
    case Body(id, len, have) =>
      if |have + chunk| < len then c.(phase := Body(id, len, have + chunk)) else HandleBody(c, id, have + chunk)
  }

  function Apply(c: Conn, e: Event): Conn
    requires Enabled(c, e)
  {
    match e
    case Arrive(chunk) => OnBytes(c, chunk)
    case Fail(locked) => c.(phase := Closed, listed := c.listed && !locked, calls := c.calls + [TearDown])
    case Cleared => c.(listed := false)
  }

  predicate ValidRun(c: Conn, es: seq<Event>)
    decreases |es|
  {
    es == [] || (Enabled(c, es[0]) && ValidRun(Apply(c, es[0]), es[1..]))
  }

  function Run(c: Conn, es: seq<Event>): Conn
    requires ValidRun(c, es)
    decreases |es|
  {
    if es == [] then c else Run(Apply(c, es[0]), es[1..])
  }

  /** The bytes a run has taken off the wire. */
  function Taken(es: seq<Event>): seq<Byte> {
    if es == [] then [] else (if es[0].Arrive? then es[0].chunk else []) + Taken(es[1..])
  }

  // ------------------------------------------------------------------------------------------
  // The incremental reader computes the meaning of the stream
  // ------------------------------------------------------------------------------------------

  function PhaseOf(rest: seq<Byte>): Phase {
    if |rest| < HEAD_TOTAL_LEN then Header(rest) else Body(HeadId(rest), HeadLen(rest), rest[HEAD_TOTAL_LEN..])
  }

  /** A body of length 0 is complete before its (empty) read is. */
  function Settled(c: Conn): Conn {
    if c.phase.Body? && c.phase.len == |c.phase.have| then HandleBody(c, c.phase.id, c.phase.have) else c
  }

  /** After the bytes `s` the connection is where the parse of `s` stops. */
  ghost predicate Means(c: Conn, s: seq<Byte>) {
    var p := Parse(s);
    if p.oversize then c == Conn(Closed, p.msgs, false, [Clear])
    else c.listed && !c.phase.Closed? && Settled(c) == Conn(PhaseOf(p.rest), p.msgs, true, [])
  }

  /** What an unfinished parse leaves over is no complete frame. */
  lemma {:induction false} RestIncomplete(s: seq<Byte>)
    ensures !Complete(Parse(s).rest) && Parse(Parse(s).rest) == Parsed([], Parse(s).rest, Parse(s).oversize)
    decreases |s|
  {
    if Complete(s) {
      RestIncomplete(s[FirstLen(s)..]);
    }
  }

  lemma HeaderMeans(c: Conn, s: seq<Byte>, chunk: seq<Byte>)
    requires Means(c, s) && c.phase.Header? && |chunk| <= Wanted(c.phase)
    ensures Means(OnBytes(c, chunk), s + chunk)
  {
    var p := Parse(s);
    var h := p.rest + chunk;
    ParseAppend(s, chunk);
    if |h| == HEAD_TOTAL_LEN {
      assert h[HEAD_TOTAL_LEN..] == [];
      if Complete(h) {
        assert First(h) == Msg(HeadId(h), []) && h[FirstLen(h)..] == [];
        assert Parse(h) == Join([First(h)], Parse([]));
      } else {
        assert p.msgs + [] == p.msgs;
      }
    } else {
      assert p.msgs + [] == p.msgs;
    }
  }

  lemma BodyMeans(c: Conn, s: seq<Byte>, chunk: seq<Byte>)
    requires Means(c, s) && c.phase.Body? && |chunk| <= Wanted(c.phase) && c.phase.len > |c.phase.have|
    ensures Means(OnBytes(c, chunk), s + chunk)
  {
    var p := Parse(s);
    var h := p.rest + chunk;
    RestIncomplete(s);
    ParseAppend(s, chunk);
    assert HeadId(h) == HeadId(p.rest) && HeadLen(h) == HeadLen(p.rest);
    assert h[HEAD_TOTAL_LEN..] == p.rest[HEAD_TOTAL_LEN..] + chunk;
    if Complete(h) {
      assert First(h) == Msg(c.phase.id, c.phase.have + chunk) && h[FirstLen(h)..] == [];
      assert Parse(h) == Join([First(h)], Parse([]));
    } else {
      assert p.msgs + [] == p.msgs;
    }
  }

  lemma BytesMean(c: Conn, s: seq<Byte>, chunk: seq<Byte>)
    requires Means(c, s) && |chunk| <= Wanted(c.phase)
    ensures Means(OnBytes(c, chunk), s + chunk)
  {
    if c.phase.Header? {
      HeaderMeans(c, s, chunk);
    } else if c.phase.len > |c.phase.have| {
      BodyMeans(c, s, chunk);
    } else {
      assert chunk == [] && s + chunk == s && c.phase.have + chunk == c.phase.have;
    }
  }

  lemma TakenFirst(s: seq<Byte>, es: seq<Event>)
    requires es != [] && es[0].Arrive?
    ensures s + es[0].chunk + Taken(es[1..]) == s + Taken(es)
  {
  }

  lemma {:induction false} RunMeans(c: Conn, s: seq<Byte>, es: seq<Event>)
    requires Means(c, s) && ValidRun(c, es) && forall k :: 0 <= k < |es| ==> es[k].Arrive?
    ensures Means(Run(c, es), s + Taken(es))
    decreases |es|
  {
    if es == [] {
      assert s + [] == s;
    } else {
      BytesMean(c, s, es[0].chunk);
      assert forall k :: 0 <= k < |es[1..]| ==> es[1..][k] == es[k + 1];
      RunMeans(Apply(c, es[0]), s + es[0].chunk, es[1..]);
      TakenFirst(s, es);
    }
  }

  /** However the stream is chopped into reads, the reader ends where its parse ends: same messages,
      same unfinished frame, and the session closed and cleared exactly if a frame was oversize. */
  lemma ChoppingIsIrrelevant(es: seq<Event>)
    requires ValidRun(START, es) && forall k :: 0 <= k < |es| ==> es[k].Arrive?
    ensures Means(Run(START, es), Taken(es))
  {
    RunMeans(START, [], es);
    assert [] + Taken(es) == Taken(es);
  }

  // ------------------------------------------------------------------------------------------
  // Kicks, errors and oversize frames
  // ------------------------------------------------------------------------------------------

  /** Once a session is cleared, no later callback posts a message for it. */
  lemma {:induction false} ClearedIsFinal(c: Conn, es: seq<Event>)
    requires !c.listed && ValidRun(c, es)
    ensures Run(c, es).posted == c.posted && !Run(c, es).listed
    decreases |es|
  {
    if es == [] {
    } else {
      ClearedIsFinal(Apply(c, es[0]), es[1..]);
    }
  }

  lemma {:induction false} ClosedIsFinal(c: Conn, es: seq<Event>)
    requires c.phase.Closed? && ValidRun(c, es)
    ensures Run(c, es).posted == c.posted && Taken(es) == []
    ensures Run(c, es).phase.Closed? && Run(c, es).calls == c.calls
    decreases |es|
  {
    if es == [] {
    } else {
      ClosedIsFinal(Apply(c, es[0]), es[1..]);
    }
  }

  /** An unlisted session that is not closed only waits for its part to be complete. */
  lemma {:induction false} ClearedCalls(c: Conn, es: seq<Event>)
    requires !c.listed && !c.phase.Closed? && c.calls == [] && ValidRun(c, es)
    ensures Run(c, es).calls == if Run(c, es).phase.Closed? then [TearDown] else []
    decreases |es|
  {
    if es == [] {
    } else if Apply(c, es[0]).phase.Closed? {
      ClosedIsFinal(Apply(c, es[0]), es[1..]);
    } else {
      ClearedCalls(Apply(c, es[0]), es[1..]);
    }
  }

  /** An error ends reading; an error whose teardown gets its lock, or a kick, leaves the session unlisted. */
  lemma {:induction false} FailEnds(c: Conn, es: seq<Event>)
    requires ValidRun(c, es)
    ensures (exists e :: e in es && e.Fail?) ==> Run(c, es).phase.Closed?
    ensures Fail(true) in es || Cleared in es || !c.listed ==> !Run(c, es).listed
    decreases |es|
  {
    if es == [] {
    } else {
      FailEnds(Apply(c, es[0]), es[1..]);
      if es[0].Fail? {
        ClosedIsFinal(Apply(c, es[0]), es[1..]);
      }
    }
  }

  predicate AllArrive(es: seq<Event>) {
    forall e :: e in es ==> e.Arrive?
  }

  /** A session that is cleared while it reads ends with one teardown, as soon as the part under way is
      complete, and posts nothing more. */
  lemma {:induction false} ClearedEndsInTeardown(c: Conn, es: seq<Event>)
    requires !c.listed && !c.phase.Closed? && c.calls == [] && ValidRun(c, es) && AllArrive(es)
    ensures Run(c, es).posted == c.posted
    ensures Run(c, es).calls == if es != [] && |Taken(es)| == Wanted(c.phase) then [TearDown] else []
    decreases |es|
  {
    if es == [] {
    } else {
      var c' := Apply(c, es[0]);
      assert es[0].Arrive? && AllArrive(es[1..]);
      if c'.phase.Closed? {
        ClosedIsFinal(c', es[1..]);
      } else {
        assert Wanted(c'.phase) == Wanted(c.phase) - |es[0].chunk| > 0;
        ClearedEndsInTeardown(c', es[1..]);
      }
    }
  }

  /** The bytes taken before any kick or error. */
  function Arrived(es: seq<Event>): seq<Byte> {
    if es != [] && es[0].Arrive? then es[0].chunk + Arrived(es[1..]) else []
  }

  lemma ArrivedFirst(s: seq<Byte>, es: seq<Event>)
    ensures s + Arrived(es) == if es != [] && es[0].Arrive? then s + es[0].chunk + Arrived(es[1..]) else s
  {
  }

  lemma {:induction false} OneCall(c: Conn, s: seq<Byte>, es: seq<Event>)
    requires Means(c, s) && !Parse(s).oversize && ValidRun(c, es)
    ensures Run(c, es).calls == if !Run(c, es).phase.Closed? then []
                                else if Parse(s + Arrived(es)).oversize then [Clear] else [TearDown]
    decreases |es|
  {
    ArrivedFirst(s, es);
    if es == [] {
    } else if es[0].Arrive? {
      BytesMean(c, s, es[0].chunk);
      var c', s' := Apply(c, es[0]), s + es[0].chunk;
      if Parse(s').oversize {
        ClosedIsFinal(c', es[1..]);
        ParseOversize(s', Arrived(es[1..]));
      } else {
        OneCall(c', s', es[1..]);
      }
    } else if es[0].Cleared? {
      ClearedCalls(Apply(c, es[0]), es[1..]);
    } else {
      ClosedIsFinal(Apply(c, es[0]), es[1..]);
    }
  }

  /** Over every run with kicks and errors anywhere the callbacks make one call when reading ends, and none
      before: `ClearSession` if and only if the bytes taken before any kick or error show a frame that is
      too long, and otherwise `DealExceptionSession`. */
  lemma CallIff(es: seq<Event>)
    requires ValidRun(START, es)
    ensures Run(START, es).calls == if !Run(START, es).phase.Closed? then []
                                    else if Parse(Arrived(es)).oversize then [Clear] else [TearDown]
  {
    OneCall(START, [], es);
    assert [] + Arrived(es) == Arrived(es);
  }

  lemma ParseGrows(s: seq<Byte>, t: seq<Byte>)
    ensures Parse(s).msgs <= Parse(s + t).msgs
  {
    if Parse(s).oversize {
      ParseOversize(s, t);
    } else {
      ParseAppend(s, t);
    }
  }

  lemma MeansPosted(c: Conn, s: seq<Byte>, t: seq<Byte>)
    requires Means(c, s)
    ensures c.posted <= Parse(s + t).msgs
  {
    ParseGrows(s, t);
    assert c.posted <= Parse(s).msgs;
  }

  /** With kicks and read errors at any point, what is posted is a prefix of what the stream says. */
  lemma {:induction false} PostedIsPrefix(c: Conn, s: seq<Byte>, es: seq<Event>)
    requires Means(c, s) && ValidRun(c, es)
    ensures Run(c, es).posted <= Parse(s + Taken(es)).msgs
    decreases |es|
  {
    MeansPosted(c, s, Taken(es));
    if es == [] {
    } else if es[0].Arrive? {
      BytesMean(c, s, es[0].chunk);
      PostedIsPrefix(Apply(c, es[0]), s + es[0].chunk, es[1..]);
      TakenFirst(s, es);
    } else if es[0].Cleared? {
      ClearedIsFinal(Apply(c, es[0]), es[1..]);
    } else {
      ClosedIsFinal(Apply(c, es[0]), es[1..]);
    }
  }

  /** A stream whose next frame after `ms` declares too much yields exactly `ms` and ends the session. */
  lemma OversizeEndsSession(es: seq<Event>, ms: seq<Msg>, id: Word, len: Word)
    requires ValidRun(START, es) && forall k :: 0 <= k < |es| ==> es[k].Arrive?
    requires forall i :: 0 <= i < |ms| ==> |ms[i].data| <= MAX_LENGTH
    requires len > MAX_LENGTH && Taken(es) == Wire(ms) + [Hi(id), Lo(id), Hi(len), Lo(len)]
    ensures Run(START, es) == Conn(Closed, ms, false, [Clear])
  {
    ChoppingIsIrrelevant(es);
    OversizeCuts(ms, id, len, []);
    assert [Hi(id), Lo(id), Hi(len), Lo(len)] + [] == [Hi(id), Lo(id), Hi(len), Lo(len)];
  }
}
