/** Which requests stop the gate server at an assertion of its decoder. */
module UrlRequests {
  import opened Wrappers
  import opened Frames
  import opened UrlCodec

  /** `b` is not among `s[i..j]`. */
  predicate Without(s: Bytes, b: Byte, i: nat, j: nat)
    requires j <= |s|
  {
    forall k :: i <= k < j ==> s[k] != b
  }

  predicate FirstAt(s: Bytes, b: Byte, i: nat) {
    i < |s| && s[i] == b && Without(s, b, 0, i)
  }

  /** The scan of the decoder meets a bad escape. */
  predicate MeetsBad(s: Bytes) {
    exists i :: 0 <= i < |s| && Met(s, i) && BadEscape(s, i)
  }

  /** The pair has an equals sign, and its key or its value a bad escape. */
  predicate BadPair(pair: Bytes) {
    exists e :: 0 <= e < |pair| && FirstAt(pair, EQUALS, e) && (MeetsBad(pair[..e]) || MeetsBad(pair[e + 1..]))
  }

  /** What stands between the ampersands of a query. */
  datatype Parts = Last(part: Bytes) | More(part: Bytes, rest: Parts)

  function Join(ps: Parts): Bytes {
    match ps
    case Last(part) => part
    case More(part, rest) => part + [AMPERSAND] + Join(rest)
  }

  function Split(query: Bytes): Parts {
    if query == [] then Last([])
    else if query[0] == AMPERSAND then More([], Split(query[1..]))
    else Longer(query[0], Split(query[1..]))
  }

  function Longer(b: Byte, ps: Parts): Parts {
    ps.(part := [b] + ps.part)
  }

  predicate Separated(ps: Parts) {
    AMPERSAND !in ps.part && (ps.More? ==> Separated(ps.rest))
  }

  predicate AnyBad(ps: Parts) {
    BadPair(ps.part) || (ps.More? && AnyBad(ps.rest))
  }

  lemma FirstIsFound(s: Bytes, b: Byte, i: nat)
    ensures FirstAt(s, b, i) <==> i < |s| && i == Find(s, b)
    ensures Without(s, b, 0, Find(s, b))
  {
    var n := Find(s, b);
    forall k | 0 <= k < n
      ensures s[k] != b
    {
      assert s[..n][k] == s[k];
    }
  }

  lemma PairFailsIff(m: Params, pair: Bytes)
    ensures AddPair(m, pair).None? <==> BadPair(pair)
  {
    var e := Find(pair, EQUALS);
    FirstIsFound(pair, EQUALS, e);
    if BadPair(pair) {
      var e' :| 0 <= e' < |pair| && FirstAt(pair, EQUALS, e') && (MeetsBad(pair[..e']) || MeetsBad(pair[e' + 1..]));
      FirstIsFound(pair, EQUALS, e');
    }
    if e < |pair| {
      DecodeFailsIff(pair[..e]);
      DecodeFailsIff(pair[e + 1..]);
    }
  }

  lemma JoinLonger(b: Byte, ps: Parts)
    ensures Join(Longer(b, ps)) == [b] + Join(ps)
  {
    if ps.More? {
      ConcatAssociates([b], ps.part, [AMPERSAND]);
      ConcatAssociates([b], ps.part + [AMPERSAND], Join(ps.rest));
    }
  }

  /** The parts, joined by ampersands, are the query. */
  lemma {:induction false} JoinOfSplit(query: Bytes)
    ensures Join(Split(query)) == query && Separated(Split(query))
  {
    if query == [] {
    } else {
      JoinOfSplit(query[1..]);
      JoinLonger(query[0], Split(query[1..]));
      assert query == [query[0]] + query[1..];
    }
  }

  lemma SplitOne(b: Byte, t: Bytes)
    ensures Split([b] + t) == if b == AMPERSAND then More([], Split(t)) else Longer(b, Split(t))
  {
    assert ([b] + t)[1..] == t;
  }

  lemma {:induction false} SplitPart(part: Bytes, t: Bytes)
    requires AMPERSAND !in part
    ensures Split(part + t).part == part + Split(t).part && Split(part + t) == Split(t).(part := part + Split(t).part)
  {
    if part == [] {
      assert part + t == t;
    } else {
      SplitPart(part[1..], t);
      ConcatAssociates([part[0]], part[1..], t);
      assert [part[0]] + part[1..] == part;
      SplitOne(part[0], part[1..] + t);
      ConcatAssociates([part[0]], part[1..], Split(t).part);
    }
  }

  /** And no other parts without ampersands are. */
  lemma {:induction false} SplitOfJoin(ps: Parts)
    requires Separated(ps)
    ensures Split(Join(ps)) == ps
  {
    if ps.Last? {
      SplitPart(ps.part, []);
      assert ps.part + [] == ps.part;
    } else {
      SplitOfJoin(ps.rest);
      SplitOne(AMPERSAND, Join(ps.rest));
      ConcatAssociates(ps.part, [AMPERSAND], Join(ps.rest));
      SplitPart(ps.part, [AMPERSAND] + Join(ps.rest));
    }
  }

  lemma NoAmpersand(part: Bytes)
    requires AMPERSAND !in part
    ensures Find(part, AMPERSAND) == |part|
  {
  }

  lemma {:induction false} JoinFailsIff(m: Params, ps: Parts)
    requires Separated(ps)
    ensures AddPairs(m, Join(ps)).None? <==> AnyBad(ps)
    decreases ps
  {
    var part, query := ps.part, Join(ps);
    PairFailsIff(m, part);
    if ps.Last? {
      NoAmpersand(part);
    } else {
      FindAfter(part, AMPERSAND, Join(ps.rest));
      assert query[..|part|] == part && query[|part| + 1..] == Join(ps.rest);
      if AddPair(m, part).Some? {
        JoinFailsIff(AddPair(m, part).value, ps.rest);
      }
    }
  }

  lemma PairsFailIff(m: Params, query: Bytes)
    ensures AddPairs(m, query).None? <==> AnyBad(Split(query))
  {
    JoinOfSplit(query);
    JoinFailsIff(m, Split(query));
  }

  /** A request stops the server at an assertion if and only if, behind its first `?`, one of the parts
      between the ampersands has an equals sign and a bad escape in its key or in its value. */
  lemma RequestFailsIff(m: Params, uri: Bytes)
    ensures ParamsOf(m, uri).None? <==>
            exists q :: 0 <= q < |uri| && FirstAt(uri, QUESTION, q) && AnyBad(Split(uri[q + 1..]))
  {
    var q := Find(uri, QUESTION);
    FirstIsFound(uri, QUESTION, q);
    forall q' | 0 <= q' < |uri| && FirstAt(uri, QUESTION, q')
      ensures q' == q
    {
      FirstIsFound(uri, QUESTION, q');
    }
    if q < |uri| {
      PairsFailIff(m, uri[q + 1..]);
    }
  }
}
