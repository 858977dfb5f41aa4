/** What the decoder and the query parser answer, on every input, without their loops: the value of each
    escape, and the parameters of a request. */
module UrlMeaning {
  import opened Wrappers
  import opened UrlCodec
  import opened UrlRequests

  // ------------------------------------------------------------------------------------------
  // Decoded strings
  // ------------------------------------------------------------------------------------------

  /** What an encoded string is made of. */
  datatype Token = Raw(b: Frames.Byte) | Plus | Escape(h: Frames.Byte, l: Frames.Byte)

  predicate WellFormed(t: Token) {
    match t
    case Raw(b) => b != 37 && b != 43
    case Plus => true
    case Escape(h, l) => LetterOrDigit(h) && LetterOrDigit(l)
  }

  function SpellOne(t: Token): Bytes {
    match t
    case Raw(b) => [b]
    case Plus => [43]
    case Escape(h, l) => [37, h, l]
  }

  /** Digits stand for 0 to 9, letters of either case for 10 to 35. */
  function Digit(b: Frames.Byte): int {
    if b <= 57 then b - 48 else if b <= 90 then b - 55 else b - 87
  }

  function ValueOne(t: Token): Frames.Byte
    requires WellFormed(t)
  {
    match t
    case Raw(b) => b
    case Plus => 32
    case Escape(h, l) => (Digit(h) * 16 + Digit(l)) % 256
  }

  predicate AllWellFormed(ts: seq<Token>) {
    ts == [] || (WellFormed(ts[0]) && AllWellFormed(ts[1..]))
  }

  function Spell(ts: seq<Token>): Bytes {
    if ts == [] then [] else SpellOne(ts[0]) + Spell(ts[1..])
  }

  function Values(ts: seq<Token>): Bytes
    requires AllWellFormed(ts)
  {
    if ts == [] then [] else [ValueOne(ts[0])] + Values(ts[1..])
  }

  lemma DecodeFirst(t: Token, s: Bytes)
    requires WellFormed(t)
    ensures Decode(SpellOne(t) + s) == Prepend(ValueOne(t), Decode(s))
  {
    assert (SpellOne(t) + s)[|SpellOne(t)|..] == s;
  }

  lemma {:induction false} DecodeMeans(ts: seq<Token>)
    requires AllWellFormed(ts)
    ensures Decode(Spell(ts)) == Some(Values(ts))
  {
    if ts == [] {
    } else {
      DecodeMeans(ts[1..]);
      DecodeFirst(ts[0], Spell(ts[1..]));
    }
  }

  function TokenOf(s: Bytes): Token
    requires Decode(s).Some? && s != []
  {
    if s[0] == 37 then Escape(s[1], s[2]) else if s[0] == 43 then Plus else Raw(s[0])
  }

  lemma FirstToken(s: Bytes)
    requires Decode(s).Some? && s != []
    ensures var t := TokenOf(s);
            && WellFormed(t) && |SpellOne(t)| <= |s| && s == SpellOne(t) + s[|SpellOne(t)|..]
            && Decode(s[|SpellOne(t)|..]).Some?
  {
  }

  /** Every string that decodes is spelled by well-formed tokens. */
  lemma {:induction false} Tokens(s: Bytes) returns (ts: seq<Token>)
    requires Decode(s).Some?
    ensures AllWellFormed(ts) && Spell(ts) == s
  {
    if s == [] {
      ts := [];
    } else {
      var t := TokenOf(s);
      FirstToken(s);
      var rest := Tokens(s[|SpellOne(t)|..]);
      ts := [t] + rest;
      assert ts[1..] == rest;
    }
  }

  /** A string decodes to `v` if and only if it is spelled by bytes that stand for themselves, `+` for a space
      and `%` with two letters or digits for the byte they make, and these are `v`. */
  lemma DecodeIff(s: Bytes, v: Bytes)
    ensures Decode(s) == Some(v) <==> exists ts :: AllWellFormed(ts) && Spell(ts) == s && Values(ts) == v
  {
    if Decode(s) == Some(v) {
      var ts := Tokens(s);
      DecodeMeans(ts);
    }
    forall ts | AllWellFormed(ts) && Spell(ts) == s
      ensures Decode(s) == Some(Values(ts))
    {
      DecodeMeans(ts);
    }
  }

  // ------------------------------------------------------------------------------------------
  // The parameters of a request
  // ------------------------------------------------------------------------------------------

  /** The part has an equals sign; what stands before the first decodes to `k`, the rest to `v`. */
  predicate Gives(part: Bytes, k: Bytes, v: Bytes) {
    exists e :: 0 <= e < |part| && FirstAt(part, EQUALS, e) &&
      Decode(part[..e]) == Some(k) && Decode(part[e + 1..]) == Some(v)
  }

  ghost predicate GivesKey(part: Bytes, k: Bytes) {
    exists v :: Gives(part, k, v)
  }

  ghost predicate NoneGives(ps: Parts, k: Bytes) {
    !GivesKey(ps.part, k) && (ps.More? ==> NoneGives(ps.rest, k))
  }

  /** The last part with key `k` gives it the value `v`. */
  ghost predicate LastGives(ps: Parts, k: Bytes, v: Bytes) {
    match ps
    case Last(part) => Gives(part, k, v)
    case More(part, rest) => LastGives(rest, k, v) || (NoneGives(rest, k) && Gives(part, k, v))
  }

  predicate Has(m: Params, k: Bytes, v: Bytes) {
    k in m && m[k] == v
  }

  lemma GivesOnce(part: Bytes, e: nat, k: Bytes, v: Bytes)
    requires FirstAt(part, EQUALS, e)
    ensures Gives(part, k, v) <==> Decode(part[..e]) == Some(k) && Decode(part[e + 1..]) == Some(v)
  {
    forall e' | 0 <= e' < |part| && FirstAt(part, EQUALS, e')
      ensures e' == e
    {
      FirstIsFound(part, EQUALS, e);
      FirstIsFound(part, EQUALS, e');
    }
  }

  lemma PairMeans(m: Params, part: Bytes, k: Bytes, v: Bytes)
    requires AddPair(m, part).Some?
    ensures Has(AddPair(m, part).value, k, v) <==> Gives(part, k, v) || (!GivesKey(part, k) && Has(m, k, v))
  {
    var e := Find(part, EQUALS);
    FirstIsFound(part, EQUALS, e);
    if e < |part| {
      forall w
        ensures Gives(part, k, w) <==> Decode(part[..e]) == Some(k) && Decode(part[e + 1..]) == Some(w)
      {
        GivesOnce(part, e, k, w);
      }
    }
  }

  lemma {:induction false} JoinMeans(m: Params, ps: Parts, k: Bytes, v: Bytes)
    requires Separated(ps) && AddPairs(m, Join(ps)).Some?
    ensures Has(AddPairs(m, Join(ps)).value, k, v) <==> LastGives(ps, k, v) || (NoneGives(ps, k) && Has(m, k, v))
    decreases ps
  {
    var part, query := ps.part, Join(ps);
    if ps.Last? {
      NoAmpersand(part);
      if part != [] {
        PairMeans(m, part, k, v);
      }
    } else {
      FindAfter(part, AMPERSAND, Join(ps.rest));
      assert query[..|part|] == part && query[|part| + 1..] == Join(ps.rest);
      PairMeans(m, part, k, v);
      JoinMeans(AddPair(m, part).value, ps.rest, k, v);
    }
  }

  lemma QueryMeans(m: Params, query: Bytes, k: Bytes, v: Bytes)
    requires AddPairs(m, query).Some?
    ensures var ps := Split(query);
            Has(AddPairs(m, query).value, k, v) <==> LastGives(ps, k, v) || (NoneGives(ps, k) && Has(m, k, v))
  {
    JoinOfSplit(query);
    JoinMeans(m, Split(query), k, v);
  }

  /** A request that does not stop the server leaves `k` with the value `v` if and only if the last of the parts
      behind its first `?` that has this key gives it that value, or none has it and it had it before. */
  lemma ParamsIff(m: Params, uri: Bytes, q: nat, k: Bytes, v: Bytes)
    requires ParamsOf(m, uri).Some? && FirstAt(uri, QUESTION, q)
    ensures var ps := Split(uri[q + 1..]);
            Has(ParamsOf(m, uri).value, k, v) <==> LastGives(ps, k, v) || (NoneGives(ps, k) && Has(m, k, v))
  {
    FirstIsFound(uri, QUESTION, q);
    QueryMeans(m, uri[q + 1..], k, v);
  }

  /** A request without `?` leaves the parameters as they were. */
  lemma NoQuery(m: Params, uri: Bytes)
    requires QUESTION !in uri
    ensures ParamsOf(m, uri) == Some(m)
  {
    assert forall i :: 0 <= i < |uri| ==> uri[i] != QUESTION;
  }
}
