/** The framed transport: what a frame looks like on the wire, what a byte stream means, and the
    incremental reader that must agree with it however the bytes arrive. */
module Frames {
  type Byte = b: int | 0 <= b < 256
  type Word = w: int | 0 <= w < 65536

  /** Longest payload a receiver accepts, and the length of a frame header. */
  const MAX_LENGTH: nat := 2048
  const HEAD_TOTAL_LEN: nat := 4

  datatype Msg = Msg(id: Word, data: seq<Byte>)

  function Hi(w: Word): Byte { w / 256 }

  function Lo(w: Word): Byte { w % 256 }

  function FromNet(hi: Byte, lo: Byte): Word { hi * 256 + lo }

  lemma NetRoundTrip(w: Word)
    ensures FromNet(Hi(w), Lo(w)) == w
  {
  }

  /** Header in network byte order, then the payload. */
  function Frame(m: Msg): seq<Byte>
    requires |m.data| < 65536
  {
    [Hi(m.id), Lo(m.id), Hi(|m.data|), Lo(|m.data|)] + m.data
  }

  /** `Session::Write` takes a 16-bit length: a longer payload is cut to its length modulo 65536. */
  function Narrow(m: Msg): Msg {
    Msg(m.id, m.data[..|m.data| % 65536])
  }

  function Wire(ms: seq<Msg>): seq<Byte>
    requires forall k :: 0 <= k < |ms| ==> |ms[k].data| < 65536
  {
    if ms == [] then [] else Frame(ms[0]) + Wire(ms[1..])
  }

  /** The meaning of a byte stream: its complete messages, then either an unfinished frame or the
      point where a frame declares more than `MAX_LENGTH` bytes. */
  datatype Parsed = Parsed(msgs: seq<Msg>, rest: seq<Byte>, oversize: bool)

  function HeadId(s: seq<Byte>): Word
    requires |s| >= HEAD_TOTAL_LEN
  {
    FromNet(s[0], s[1])
  }

  function HeadLen(s: seq<Byte>): Word
    requires |s| >= HEAD_TOTAL_LEN
  {
    FromNet(s[2], s[3])
  }

  /** A stream that starts with a complete frame. */
  predicate Complete(s: seq<Byte>) {
    |s| >= HEAD_TOTAL_LEN && HeadLen(s) <= MAX_LENGTH && |s| >= HEAD_TOTAL_LEN + HeadLen(s)
  }

  function FirstLen(s: seq<Byte>): nat
    requires Complete(s)
  {
    HEAD_TOTAL_LEN + HeadLen(s)
  }

  function First(s: seq<Byte>): Msg
    requires Complete(s)
  {
    Msg(HeadId(s), s[HEAD_TOTAL_LEN..FirstLen(s)])
  }

  function Join(ms: seq<Msg>, p: Parsed): Parsed {
    Parsed(ms + p.msgs, p.rest, p.oversize)
  }

  function Parse(s: seq<Byte>): Parsed
    decreases |s|
  {
    if Complete(s) then Join([First(s)], Parse(s[FirstLen(s)..]))
    else Parsed([], s, |s| >= HEAD_TOTAL_LEN && HeadLen(s) > MAX_LENGTH)
  }

  // ------------------------------------------------------------------------------------------
  // The stream theorem
  // ------------------------------------------------------------------------------------------

  lemma FirstStays(s: seq<Byte>, t: seq<Byte>)
    requires Complete(s)
    ensures Complete(s + t) && First(s + t) == First(s) && (s + t)[FirstLen(s)..] == s[FirstLen(s)..] + t
  {
  }

  lemma ParseFirst(s: seq<Byte>, t: seq<Byte>)
    requires Complete(s)
    ensures Parse(s + t) == Join([First(s)], Parse(s[FirstLen(s)..] + t))
  {
    FirstStays(s, t);
  }

  lemma JoinTwice(a: seq<Msg>, b: seq<Msg>, p: Parsed)
    ensures Join(a, Join(b, p)) == Join(a + b, p)
  {
  }

  lemma JoinNone(p: Parsed)
    ensures Join([], p) == p
  {
  }

  /** Bytes that arrive later extend the parse from where it stopped. */
  lemma {:induction false} ParseAppend(s: seq<Byte>, t: seq<Byte>)
    requires !Parse(s).oversize
    ensures Parse(s + t) == Join(Parse(s).msgs, Parse(Parse(s).rest + t))
    decreases |s|
  {
    if Complete(s) {
      var tail := s[FirstLen(s)..];
      ParseFirst(s, t);
      ParseAppend(tail, t);
      JoinTwice([First(s)], Parse(tail).msgs, Parse(Parse(tail).rest + t));
    } else {
      JoinNone(Parse(s + t));
    }
  }

  /** Once oversize, always oversize, with the same messages. */
  lemma {:induction false} ParseOversize(s: seq<Byte>, t: seq<Byte>)
    requires Parse(s).oversize
    ensures Parse(s + t).oversize && Parse(s + t).msgs == Parse(s).msgs
    decreases |s|
  {
    if Complete(s) {
      FirstStays(s, t);
      ParseOversize(s[FirstLen(s)..], t);
    }
  }

  lemma ParseFrame(m: Msg, t: seq<Byte>)
    requires |m.data| <= MAX_LENGTH
    ensures Parse(Frame(m) + t) == Join([m], Parse(t))
  {
  }

  /** One more frame in front. */
  lemma FrameInFront(m: Msg, w: seq<Byte>, t: seq<Byte>, ms: seq<Msg>, p: Parsed)
    requires |m.data| <= MAX_LENGTH && Parse(w + t) == Join(ms, p)
    ensures Parse(Frame(m) + w + t) == Join([m] + ms, p)
  {
    ParseFrame(m, w + t);
    assert Frame(m) + w + t == Frame(m) + (w + t);
    JoinTwice([m], ms, p);
  }

  /** Frames laid end to end parse back to their messages. */
  lemma {:induction false} ParseWire(ms: seq<Msg>, t: seq<Byte>)
    requires forall k :: 0 <= k < |ms| ==> |ms[k].data| <= MAX_LENGTH
    ensures Parse(Wire(ms) + t) == Join(ms, Parse(t))
  {
    if ms == [] {
      assert Wire(ms) + t == t;
      JoinNone(Parse(t));
    } else {
      ParseWire(ms[1..], t);
      FrameInFront(ms[0], Wire(ms[1..]), t, ms[1..], Parse(t));
      assert [ms[0]] + ms[1..] == ms;
    }
  }

  /** Any part of the wire that has arrived holds a prefix of the messages and no oversize frame;
      the whole wire holds all of them and nothing else. */
  lemma WirePrefix(ms: seq<Msg>, k: nat)
    requires forall i :: 0 <= i < |ms| ==> |ms[i].data| <= MAX_LENGTH
    requires k <= |Wire(ms)|
    ensures Parse(Wire(ms)[..k]).msgs <= ms && !Parse(Wire(ms)[..k]).oversize
    ensures k == |Wire(ms)| ==> Parse(Wire(ms)[..k]) == Parsed(ms, [], false)
  {
    var s := Wire(ms)[..k];
    var t := Wire(ms)[k..];
    assert s + t == Wire(ms) && Wire(ms) + [] == Wire(ms);
    ParseWire(ms, []);
    assert ms + Parse([]).msgs == ms;
    if Parse(s).oversize {
      ParseOversize(s, t);
    } else {
      ParseAppend(s, t);
    }
    if k == |Wire(ms)| {
      assert s == Wire(ms);
    }
  }

  /** A frame that declares more than `MAX_LENGTH` bytes cuts the stream after the messages before it. */
  lemma OversizeCuts(ms: seq<Msg>, id: Word, len: Word, t: seq<Byte>)
    requires forall i :: 0 <= i < |ms| ==> |ms[i].data| <= MAX_LENGTH
    requires len > MAX_LENGTH
    ensures var p := Parse(Wire(ms) + ([Hi(id), Lo(id), Hi(len), Lo(len)] + t)); p.msgs == ms && p.oversize
  {
    NetRoundTrip(len);
    ParseWire(ms, [Hi(id), Lo(id), Hi(len), Lo(len)] + t);
    assert ms + [] == ms;
  }

  /** A written message is read back as it was if and only if its payload is at most `MAX_LENGTH`:
      up to 65535 bytes a longer one is refused, beyond that it is cut. */
  lemma WriteReadIff(m: Msg)
    ensures Parse(Frame(Narrow(m))).msgs == [m] <==> |m.data| <= MAX_LENGTH
  {
    var f := Frame(Narrow(m));
    assert f + [] == f;
    if |m.data| <= MAX_LENGTH {
      assert m.data[..|m.data| % 65536] == m.data;
      ParseFrame(m, []);
    } else if |Narrow(m).data| <= MAX_LENGTH {
      ParseFrame(Narrow(m), []);
      assert |Narrow(m).data| < |m.data| && Parse(f).msgs[0] == Narrow(m);
    } else {
      NetRoundTrip(|Narrow(m).data|);
    }
  }

  /** `SendNode`: the frame is laid out in a buffer one byte longer, which ends in a zero byte. */
  method SendNode(id: Word, data: seq<Byte>) returns (node: array<Byte>)
    ensures fresh(node) && node.Length == HEAD_TOTAL_LEN + |data| % 65536 + 1
    ensures node[..node.Length - 1] == Frame(Narrow(Msg(id, data))) && node[node.Length - 1] == 0
  {
    var len: Word := |data| % 65536;
    node := new Byte[HEAD_TOTAL_LEN + len + 1](_ => 0);
    node[0], node[1] := Hi(id), Lo(id);
    node[2], node[3] := Hi(len), Lo(len);
    for i := 0 to len
      invariant node[..HEAD_TOTAL_LEN] == [Hi(id), Lo(id), Hi(len), Lo(len)]
      invariant node[HEAD_TOTAL_LEN..HEAD_TOTAL_LEN + i] == data[..i]
      invariant node[HEAD_TOTAL_LEN + len] == 0
    {
      node[HEAD_TOTAL_LEN + i] := data[i];
    }
    assert node[..node.Length - 1] == node[..HEAD_TOTAL_LEN] + node[HEAD_TOTAL_LEN..HEAD_TOTAL_LEN + len];
  }
}
