/** The URL encoding of the gate server and its parser of query strings: percent-encoding as in
    section 2.1 of RFC 3986, the unreserved set of section 2.3 of RFC 3986, and `+` for a space as
    in section 17.13.4.1 of HTML 4.01. Strings are bytes. */
module UrlCodec {
  import opened Wrappers
  import opened Frames

  type Bytes = seq<Byte>

  const SPACE: Byte := 32
  const PERCENT: Byte := 37
  const AMPERSAND: Byte := 38
  const PLUS: Byte := 43
  const EQUALS: Byte := 61
  const QUESTION: Byte := 63

  predicate Unreserved(b: Byte) {
    || 48 <= b <= 57 || 65 <= b <= 90 || 97 <= b <= 122    // isalnum
    || b == 45 || b == 95 || b == 46 || b == 126           // - _ . ~
  }

  function ToHex(x: Byte): Byte {
    if x > 9 then (x + 55) % 256 else x + 48
  }

  /** None where the source's `assert(0)` fires. Letters beyond F are taken as digits above 15. */
  function FromHex(x: Byte): Option<Byte> {
    if 65 <= x <= 90 then Some(x - 65 + 10)
    else if 97 <= x <= 122 then Some(x - 97 + 10)
    else if 48 <= x <= 57 then Some(x - 48)
    else None
  }

  function EncodeByte(b: Byte): Bytes {
    if Unreserved(b) then [b] else if b == SPACE then [PLUS] else [PERCENT, ToHex(b / 16), ToHex(b % 16)]
  }

  function Encode(s: Bytes): Bytes {
    if s == [] then [] else EncodeByte(s[0]) + Encode(s[1..])
  }

  /** `high * 16 + low`, kept to one byte. */
  function Combine(high: Byte, low: Byte): Byte {
    (high * 16 + low) % 256
  }

  /** None where an assertion of the source fires: `%` without two bytes after it, or no hex digit. */
  function Decode(s: Bytes): Option<Bytes> {
    if s == [] then Some([])
    else if s[0] == PERCENT then
      if |s| < 3 || FromHex(s[1]).None? || FromHex(s[2]).None? then None
      else Prepend(Combine(FromHex(s[1]).value, FromHex(s[2]).value), Decode(s[3..]))
    else Prepend(if s[0] == PLUS then SPACE else s[0], Decode(s[1..]))
  }

  function Prepend(b: Byte, s: Option<Bytes>): Option<Bytes> {
    if s.Some? then Some([b] + s.value) else None
  }

  // ------------------------------------------------------------------------------------------
  // The loops
  // ------------------------------------------------------------------------------------------

  method UrlEncode(str: Bytes) returns (strTemp: Bytes)
    ensures strTemp == Encode(str)
  {
    strTemp := [];
    assert str[..0] == [];
    for i := 0 to |str|
      invariant strTemp == Encode(str[..i])
    {
      assert str[..i + 1] == str[..i] + [str[i]];
      EncodePlus(str[..i], [str[i]]);
      assert Encode([str[i]]) == EncodeByte(str[i]) + [] == EncodeByte(str[i]);
      if Unreserved(str[i]) {
        strTemp := strTemp + [str[i]];
      } else if str[i] == SPACE {
        strTemp := strTemp + [PLUS];
      } else {
        strTemp := strTemp + [PERCENT] + [ToHex(str[i] / 16)] + [ToHex(str[i] % 16)];
      }
    }
    assert str[..|str|] == str;
  }

  function After(out: Bytes, s: Option<Bytes>): Option<Bytes> {
    if s.Some? then Some(out + s.value) else None
  }

  lemma AfterPrepend(out: Bytes, b: Byte, s: Option<Bytes>)
    ensures After(out, Prepend(b, s)) == After(out + [b], s)
  {
    if s.Some? {
      assert out + ([b] + s.value) == out + [b] + s.value;
    }
  }

  method UrlDecode(str: Bytes) returns (strTemp: Option<Bytes>)
    ensures strTemp == Decode(str)
  {
    var out: Bytes := [];
    var i: nat := 0;
    assert str[0..] == str;
    assert Decode(str).Some? ==> [] + Decode(str).value == Decode(str).value;
    while i < |str|
      invariant i <= |str|
      invariant Decode(str) == After(out, Decode(str[i..]))
    {
      var rest := str[i..];
      if str[i] == PLUS {
        assert rest[1..] == str[i + 1..];
        AfterPrepend(out, SPACE, Decode(rest[1..]));
        out := out + [SPACE];
        i := i + 1;
      } else if str[i] == PERCENT {
        if i + 2 >= |str| {
          return None;
        }
        var high, low := FromHex(str[i + 1]), FromHex(str[i + 2]);
        if high.None? || low.None? {
          return None;
        }
        assert rest[3..] == str[i + 3..];
        AfterPrepend(out, Combine(high.value, low.value), Decode(rest[3..]));
        out := out + [Combine(high.value, low.value)];
        i := i + 3;
      } else {
        assert rest[1..] == str[i + 1..];
        AfterPrepend(out, str[i], Decode(rest[1..]));
        out := out + [str[i]];
        i := i + 1;
      }
    }
    assert str[i..] == [] && out + [] == out;
    return Some(out);
  }

  // ------------------------------------------------------------------------------------------
  // Round trips
  // ------------------------------------------------------------------------------------------

  lemma {:induction false} EncodePlus(a: Bytes, b: Bytes)
    ensures Encode(a + b) == Encode(a) + Encode(b)
  {
    if a == [] {
      assert a + b == b;
    } else {
      EncodePlus(a[1..], b);
      assert (a + b)[0] == a[0] && (a + b)[1..] == a[1..] + b;
      ConcatAssociates(EncodeByte(a[0]), Encode(a[1..]), Encode(b));
    }
  }

  lemma HexRoundTrip(b: Byte)
    ensures FromHex(ToHex(b / 16)) == Some(b / 16) && FromHex(ToHex(b % 16)) == Some(b % 16)
    ensures Combine(b / 16, b % 16) == b
  {
    DigitRoundTrip(b / 16);
    DigitRoundTrip(b % 16);
  }

  lemma DigitRoundTrip(d: Byte)
    requires d < 16
    ensures FromHex(ToHex(d)) == Some(d)
  {
  }

  lemma DecodeByte(b: Byte, t: Bytes)
    ensures Decode(EncodeByte(b) + t) == Prepend(b, Decode(t))
  {
    HexRoundTrip(b);
    assert (EncodeByte(b) + t)[|EncodeByte(b)|..] == t;
  }

  /** Every byte string survives encoding and decoding, and no assertion fires on the way. */
  lemma {:induction false} RoundTrip(s: Bytes)
    ensures Decode(Encode(s)) == Some(s)
  {
    if s == [] {
    } else {
      RoundTrip(s[1..]);
      DecodeByte(s[0], Encode(s[1..]));
      assert [s[0]] + s[1..] == s;
    }
  }

  // ------------------------------------------------------------------------------------------
  // Where an assertion fires
  // ------------------------------------------------------------------------------------------

  predicate LetterOrDigit(b: Byte) {
    48 <= b <= 57 || 65 <= b <= 90 || 97 <= b <= 122
  }

  /** Going through `s` byte by byte, and over the two bytes after a `%`, one comes to position `i`. */
  predicate Met(s: Bytes, i: nat)
    requires i <= |s|
  {
    i == 0 || (s[i - 1] != PERCENT && Met(s, i - 1)) || (i >= 3 && s[i - 3] == PERCENT && Met(s, i - 3))
  }

  /** A `%` without two letters or digits after it. */
  predicate BadEscape(s: Bytes, i: nat)
    requires i < |s|
  {
    s[i] == PERCENT && (i + 2 >= |s| || !LetterOrDigit(s[i + 1]) || !LetterOrDigit(s[i + 2]))
  }

  lemma {:induction false} NotMetInside(s: Bytes, i: nat)
    requires i < |s| && Met(s, i) && s[i] == PERCENT
    ensures i + 1 <= |s| ==> !Met(s, i + 1)
    ensures i + 2 <= |s| ==> !Met(s, i + 2)
  {
    if i >= 1 && s[i - 1] == PERCENT && Met(s, i - 1) {
      NotMetInside(s, i - 1);
    }
    if i >= 2 && s[i - 2] == PERCENT && Met(s, i - 2) {
      NotMetInside(s, i - 2);
    }
  }

  lemma {:induction false} SuffixFailsIff(s: Bytes, k: nat)
    requires k <= |s| && Met(s, k)
    ensures Decode(s[k..]).None? <==> exists i :: k <= i < |s| && Met(s, i) && BadEscape(s, i)
    decreases |s| - k
  {
    if k == |s| {
    } else if s[k] != PERCENT {
      assert s[k..][1..] == s[k + 1..];
      SuffixFailsIff(s, k + 1);
    } else if BadEscape(s, k) {
    } else {
      assert s[k..][3..] == s[k + 3..];
      NotMetInside(s, k);
      SuffixFailsIff(s, k + 3);
    }
  }

  /** Decoding stops at an assertion if and only if the scan meets a bad escape. */
  lemma DecodeFailsIff(s: Bytes)
    ensures Decode(s).None? <==> exists i :: 0 <= i < |s| && Met(s, i) && BadEscape(s, i)
  {
    assert s[0..] == s;
    SuffixFailsIff(s, 0);
  }

  // ------------------------------------------------------------------------------------------
  // Case of the digits
  // ------------------------------------------------------------------------------------------

  function UpperCase(b: Byte): Byte {
    if 97 <= b <= 122 then b - 32 else b
  }

  /** The same string with every escape in upper case. */
  function UpperEscapes(s: Bytes): (t: Bytes)
    ensures |t| == |s|
  {
    if s == [] then []
    else if s[0] == PERCENT && |s| >= 3 then [PERCENT, UpperCase(s[1]), UpperCase(s[2])] + UpperEscapes(s[3..])
    else [s[0]] + UpperEscapes(s[1..])
  }

  /** Upper and lower case escapes mean the same, and fail alike. */
  lemma {:induction false} HexCaseIsIrrelevant(s: Bytes)
    ensures Decode(UpperEscapes(s)) == Decode(s)
  {
    if s == [] {
    } else {
      var t := UpperEscapes(s);
      if s[0] == PERCENT && |s| >= 3 {
        HexCaseIsIrrelevant(s[3..]);
        assert t[3..] == UpperEscapes(s[3..]);
      } else {
        HexCaseIsIrrelevant(s[1..]);
        assert t[1..] == UpperEscapes(s[1..]);
      }
    }
  }

  // ------------------------------------------------------------------------------------------
  // The encoder's range
  // ------------------------------------------------------------------------------------------

  predicate UpperHex(b: Byte) {
    48 <= b <= 57 || 65 <= b <= 70
  }

  /** Unreserved bytes, `+`, and `%` with two upper-case hex digits for a byte that needs them. */
  predicate Canonical(t: Bytes) {
    t == [] ||
    (if t[0] == PERCENT then
       && |t| >= 3 && UpperHex(t[1]) && UpperHex(t[2])
       && (var b := Combine(FromHex(t[1]).value, FromHex(t[2]).value); !Unreserved(b) && b != SPACE)
       && Canonical(t[3..])
     else (Unreserved(t[0]) || t[0] == PLUS) && Canonical(t[1..]))
  }

  lemma {:induction false} EncodeIsCanonical(s: Bytes)
    ensures Canonical(Encode(s))
  {
    if s == [] {
    } else {
      EncodeIsCanonical(s[1..]);
      HexRoundTrip(s[0]);
      var e := EncodeByte(s[0]);
      assert Encode(s)[|e|..] == Encode(s[1..]);
    }
  }

  lemma HexBack(x: Byte)
    requires UpperHex(x)
    ensures FromHex(x).Some? && FromHex(x).value < 16 && ToHex(FromHex(x).value) == x
  {
  }

  lemma CombineSplits(high: Byte, low: Byte)
    requires high < 16 && low < 16
    ensures Combine(high, low) / 16 == high && Combine(high, low) % 16 == low
  {
  }

  lemma EscapeIsEncoded(h: Byte, l: Byte)
    requires UpperHex(h) && UpperHex(l)
    requires var b := Combine(FromHex(h).value, FromHex(l).value); !Unreserved(b) && b != SPACE
    ensures EncodeByte(Combine(FromHex(h).value, FromHex(l).value)) == [PERCENT, h, l]
  {
    HexBack(h);
    HexBack(l);
    CombineSplits(FromHex(h).value, FromHex(l).value);
  }

  /** The first byte a canonical string stands for, and how much of the string that takes. */
  lemma FirstIsEncoded(t: Bytes)
    requires Canonical(t) && t != []
    ensures var n := if t[0] == PERCENT then 3 else 1;
            && n <= |t| && Canonical(t[n..])
            && exists b: Byte :: EncodeByte(b) == t[..n] && Decode(t) == Prepend(b, Decode(t[n..]))
  {
    if t[0] == PERCENT {
      EscapeIsEncoded(t[1], t[2]);
      assert t[..3] == [PERCENT, t[1], t[2]];
    } else {
      assert t[..1] == [t[0]];
      assert EncodeByte(if t[0] == PLUS then SPACE else t[0]) == t[..1];
    }
  }

  lemma {:induction false} CanonicalIsEncoded(t: Bytes)
    requires Canonical(t)
    ensures Decode(t).Some? && Encode(Decode(t).value) == t
  {
    if t == [] {
    } else {
      var n := if t[0] == PERCENT then 3 else 1;
      FirstIsEncoded(t);
      CanonicalIsEncoded(t[n..]);
      var b: Byte :| EncodeByte(b) == t[..n] && Decode(t) == Prepend(b, Decode(t[n..]));
      assert Decode(t).value[1..] == Decode(t[n..]).value;
      assert t == t[..n] + t[n..];
    }
  }

  /** The canonical strings are exactly what the encoder produces. */
  lemma EncoderRange(t: Bytes)
    ensures Canonical(t) <==> exists s :: Encode(s) == t
  {
    if Canonical(t) {
      CanonicalIsEncoded(t);
    }
    if s :| Encode(s) == t {
      EncodeIsCanonical(s);
    }
  }

  // ------------------------------------------------------------------------------------------
  // Query strings
  // ------------------------------------------------------------------------------------------

  /** `std::string::find`, with the length for `npos`. */
  function Find(s: Bytes, b: Byte): (i: nat)
    ensures i <= |s| && b !in s[..i]
    ensures i < |s| ==> s[i] == b
  {
    if s == [] || s[0] == b then 0
    else
      var i := Find(s[1..], b);
      assert s[..i + 1] == [s[0]] + s[1..][..i];
      i + 1
  }

  type Params = map<Bytes, Bytes>

  function AddPair(m: Params, pair: Bytes): Option<Params> {
    var eq := Find(pair, EQUALS);
    if eq == |pair| then Some(m)
    else if Decode(pair[..eq]).None? || Decode(pair[eq + 1..]).None? then None
    else Some(m[Decode(pair[..eq]).value := Decode(pair[eq + 1..]).value])
  }

  function AddPairs(m: Params, query: Bytes): Option<Params>
    decreases |query|
  {
    var pos := Find(query, AMPERSAND);
    if pos < |query| then
      var m' := AddPair(m, query[..pos]);
      if m'.None? then None else AddPairs(m'.value, query[pos + 1..])
    else if query == [] then Some(m)
    else AddPair(m, query)
  }

  function ParamsOf(m: Params, uri: Bytes): Option<Params> {
    var q := Find(uri, QUESTION);
    if q == |uri| then Some(m) else AddPairs(m, uri[q + 1..])
  }

  class HttpConnection {
    var getUrl: Bytes
    var getParams: Params

    constructor ()
      ensures getUrl == [] && getParams == map[]
    {
      getUrl, getParams := [], map[];
    }

    /** False if an assertion of the decoder fires. */
    method Store(pair: Bytes) returns (ok: bool)
      modifies this`getParams
      ensures ok <==> AddPair(old(getParams), pair).Some?
      ensures ok ==> Some(getParams) == AddPair(old(getParams), pair)
    {
      var eq := Find(pair, EQUALS);
      if eq < |pair| {
        var key := UrlDecode(pair[..eq]);
        if key.None? {
          return false;
        }
        var value := UrlDecode(pair[eq + 1..]);
        if value.None? {
          return false;
        }
        getParams := getParams[key.value := value.value];
      }
      return true;
    }

    method PreParseGetParam(uri: Bytes) returns (ok: bool)
      modifies this
      ensures ok <==> ParamsOf(old(getParams), uri).Some?
      ensures ok ==> Some(getParams) == ParamsOf(old(getParams), uri)
      ensures getUrl == uri[..Find(uri, QUESTION)]
    {
      var queryPos := Find(uri, QUESTION);
      if queryPos == |uri| {
        getUrl := uri;
        assert uri[..|uri|] == uri;
        return true;
      }
      getUrl := uri[..queryPos];
      var query := uri[queryPos + 1..];
      var pos := Find(query, AMPERSAND);
      while pos < |query|
        invariant pos == Find(query, AMPERSAND) && getUrl == uri[..queryPos]
        invariant AddPairs(getParams, query) == AddPairs(old(getParams), uri[queryPos + 1..])
        decreases |query|
      {
        ok := Store(query[..pos]);
        if !ok {
          return;
        }
        query := query[pos + 1..];
        pos := Find(query, AMPERSAND);
      }
      ok := true;
      if query != [] {
        ok := Store(query);
      }
    }
  }

  /** `k=v&k=v&...` as a client writes it. */
  function Build(kvs: seq<(Bytes, Bytes)>): Bytes {
    if kvs == [] then []
    else
      var pair := Encode(kvs[0].0) + [EQUALS] + Encode(kvs[0].1);
      if |kvs| == 1 then pair else pair + [AMPERSAND] + Build(kvs[1..])
  }

  /** The pairs entered one after the other: of equal keys the last wins. */
  function Entered(m: Params, kvs: seq<(Bytes, Bytes)>): Params
    decreases |kvs|
  {
    if kvs == [] then m else Entered(m[kvs[0].0 := kvs[0].1], kvs[1..])
  }

  lemma {:induction false} LastWins(m: Params, kvs: seq<(Bytes, Bytes)>, i: nat)
    requires i < |kvs| && forall j :: i < j < |kvs| ==> kvs[j].0 != kvs[i].0
    ensures kvs[i].0 in Entered(m, kvs) && Entered(m, kvs)[kvs[i].0] == kvs[i].1
    decreases |kvs|
  {
    if i > 0 {
      assert forall j :: i - 1 < j < |kvs[1..]| ==> kvs[1..][j] == kvs[j + 1];
      LastWins(m[kvs[0].0 := kvs[0].1], kvs[1..], i - 1);
    } else {
      assert forall j :: 0 <= j < |kvs[1..]| ==> kvs[1..][j] == kvs[j + 1];
      OthersStay(m[kvs[0].0 := kvs[0].1], kvs[1..], kvs[0].0);
    }
  }

  lemma {:induction false} OthersStay(m: Params, kvs: seq<(Bytes, Bytes)>, k: Bytes)
    requires forall j :: 0 <= j < |kvs| ==> kvs[j].0 != k
    ensures k in Entered(m, kvs) <==> k in m
    ensures k in m ==> Entered(m, kvs)[k] == m[k]
    decreases |kvs|
  {
    if kvs == [] {
    } else {
      assert forall j :: 0 <= j < |kvs[1..]| ==> kvs[1..][j] == kvs[j + 1];
      OthersStay(m[kvs[0].0 := kvs[0].1], kvs[1..], k);
    }
  }

  /** Separators never come out of the encoder. */
  lemma {:induction false} NoSeparators(s: Bytes)
    ensures AMPERSAND !in Encode(s) && EQUALS !in Encode(s) && QUESTION !in Encode(s)
  {
    if s == [] {
    } else {
      NoSeparators(s[1..]);
    }
  }

  lemma {:induction false} FindAfter(a: Bytes, b: Byte, t: Bytes)
    requires b !in a
    ensures Find(a + [b] + t, b) == |a|
  {
    if a == [] {
      assert a + [b] + t == [b] + t;
    } else {
      FindAfter(a[1..], b, t);
      assert (a + [b] + t)[1..] == a[1..] + [b] + t;
    }
  }

  lemma PairRoundTrip(m: Params, k: Bytes, v: Bytes)
    ensures AddPair(m, Encode(k) + [EQUALS] + Encode(v)) == Some(m[k := v])
  {
    var pair := Encode(k) + [EQUALS] + Encode(v);
    NoSeparators(k);
    FindAfter(Encode(k), EQUALS, Encode(v));
    assert pair[..|Encode(k)|] == Encode(k) && pair[|Encode(k)| + 1..] == Encode(v);
    RoundTrip(k);
    RoundTrip(v);
  }

  lemma {:induction false} PairsRoundTrip(m: Params, kvs: seq<(Bytes, Bytes)>)
    ensures AddPairs(m, Build(kvs)) == Some(Entered(m, kvs))
    decreases |kvs|
  {
    if kvs == [] {
    } else {
      var pair := Encode(kvs[0].0) + [EQUALS] + Encode(kvs[0].1);
      NoSeparators(kvs[0].0);
      NoSeparators(kvs[0].1);
      PairRoundTrip(m, kvs[0].0, kvs[0].1);
      if |kvs| == 1 {
        assert Find(pair, AMPERSAND) == |pair|;
      } else {
        PairsRoundTrip(m[kvs[0].0 := kvs[0].1], kvs[1..]);
        FindAfter(pair, AMPERSAND, Build(kvs[1..]));
        assert Build(kvs)[..|pair|] == pair && Build(kvs)[|pair| + 1..] == Build(kvs[1..]);
      }
    }
  }

  /** A path without `?` and any list of keys and values, built into a request and parsed, come back:
      the path as it was, and the last value of every key. */
  lemma QueryRoundTrip(path: Bytes, kvs: seq<(Bytes, Bytes)>)
    requires QUESTION !in path
    ensures var uri := path + [QUESTION] + Build(kvs);
            uri[..Find(uri, QUESTION)] == path && ParamsOf(map[], uri) == Some(Entered(map[], kvs))
  {
    var uri := path + [QUESTION] + Build(kvs);
    FindAfter(path, QUESTION, Build(kvs));
    assert uri[..|path|] == path && uri[|path| + 1..] == Build(kvs);
    PairsRoundTrip(map[], kvs);
  }

  /** The request `/?a=%` stops the server at an assertion. */
  lemma BadRequest()
    ensures ParamsOf(map[], [47, QUESTION, 97, EQUALS, PERCENT]).None?
  {
    var uri: Bytes := [47, QUESTION, 97, EQUALS, PERCENT];
    FindAfter([47], QUESTION, [97, EQUALS, PERCENT]);
    assert uri == [47] + [QUESTION] + [97, EQUALS, PERCENT] && uri[2..] == [97, EQUALS, PERCENT];
    var query: Bytes := [97, EQUALS, PERCENT];
    FindAfter([97], EQUALS, [PERCENT]);
    assert query == [97] + [EQUALS] + [PERCENT] && query[2..] == [PERCENT];
    assert AMPERSAND !in query;
    assert AddPair(map[], query).None?;
  }
}
