/**
 * OAuth 1.0 helpers of the OAuth plugin (oauth-util.c): percent-encoding
 * with the OAuth unreserved set, decoding, the query part of a URL, the
 * ordering of request parameters and the signature base string
 * METHOD&encoded-url&encoded-parameters.
 *
 * C strings are modelled by their bytes without the terminating NUL; a
 * null pointer is None.
 */
module OAuthUtil {
  import opened Common

  const Percent: Byte := 37       // '%'
  const Ampersand: Byte := 38     // '&'
  const EqualsSign: Byte := 61    // '='
  const QuestionMark: Byte := 63  // '?'

  /** A byte sequence that a C string can hold. */
  predicate NoNul(s: seq<Byte>)
  {
    forall i :: 0 <= i < |s| ==> s[i] != 0
  }

  predicate IsAlpha(b: Byte) { 65 <= b <= 90 || 97 <= b <= 122 }
  predicate IsDigit(b: Byte) { 48 <= b <= 57 }

  /** UNRESERVED_BYTES: ALPHA, DIGIT and "-._~". */
  predicate Unreserved(b: Byte)
  {
    IsAlpha(b) || IsDigit(b) || b == 45 || b == 46 || b == 95 || b == 126
  }

  /** Upper-case hexadecimal digit, as the escaper writes them. */
  function HexDigit(n: int): Byte
    requires 0 <= n < 16
  {
    if n < 10 then 48 + n else 55 + n
  }

  predicate IsUpperHex(b: Byte) { IsDigit(b) || 65 <= b <= 70 }

  /** The value of a hexadecimal digit of either case. */
  function HexValue(b: Byte): (v: Option<int>)
    ensures v.Some? ==> 0 <= v.value < 16
    ensures v.Some? <==> IsDigit(b) || 65 <= b <= 70 || 97 <= b <= 102
  {
    if IsDigit(b) then Some(b - 48)
    else if 65 <= b <= 70 then Some(b - 55)
    else if 97 <= b <= 102 then Some(b - 87)
    else None
  }

  function EscapeByte(b: Byte): seq<Byte>
  {
    if Unreserved(b) then [b] else [Percent, HexDigit(b / 16), HexDigit(b % 16)]
  }

  /** Every byte outside the unreserved set becomes "%XY". */
  function Escape(s: seq<Byte>): seq<Byte>
  {
    if s == [] then [] else EscapeByte(s[0]) + Escape(s[1..])
  }

  /**
   * Unescaping: "%XY" with two hexadecimal digits becomes that byte; an
   * escape cut short, one with a non-hexadecimal digit, or one that would
   * yield NUL makes the whole result null.
   */
  function Unescape(s: seq<Byte>): Option<seq<Byte>>
    decreases |s|
  {
    if s == [] then Some([])
    else if s[0] != Percent then
      match Unescape(s[1..])
      case None => None
      case Some(rest) => Some([s[0]] + rest)
    else if |s| < 3 then None
    else
      match (HexValue(s[1]), HexValue(s[2]))
      case (Some(hi), Some(lo)) =>
        if hi * 16 + lo == 0 then None
        else
          (match Unescape(s[3..])
           case None => None
           case Some(rest) => Some([hi * 16 + lo] + rest))
      case _ => None
  }

  /** encodeParam: null stays null. */
  function EncodeParam(input: Option<seq<Byte>>): (r: Option<seq<Byte>>)
    ensures r.None? <==> input.None?
    ensures input.Some? ==> WellEncoded(r.value) && NoNul(r.value)
  {
    match input
    case None => None
    case Some(s) => EscapeIsWellEncoded(s); WellEncodedBytes(Escape(s)); Some(Escape(s))
  }

  /** decodeParam: null stays null; a malformed escape gives null. */
  function DecodeParam(input: Option<seq<Byte>>): (r: Option<seq<Byte>>)
    requires input.Some? ==> NoNul(input.value)
    ensures input.None? ==> r.None?
    ensures input.Some? ==> (r.None? <==> !WellEscaped(input.value))
    ensures input.Some? && r.Some? ==> NoNul(r.value) && |r.value| <= |input.value|
  {
    match input
    case None => None
    case Some(s) => UnescapeShape(s); UnescapeDefined(s); Unescape(s)
  }

  /**
   * Every '%' starts an escape of two hexadecimal digits, of either case,
   * that does not stand for NUL.
   */
  predicate WellEscaped(t: seq<Byte>)
    decreases |t|
  {
    if t == [] then true
    else if t[0] != Percent then WellEscaped(t[1..])
    else
      |t| >= 3 && HexValue(t[1]).Some? && HexValue(t[2]).Some? &&
      HexValue(t[1]).value * 16 + HexValue(t[2]).value != 0 && WellEscaped(t[3..])
  }

  /** Unescaping fails exactly on a string with a malformed escape. */
  lemma {:induction false} UnescapeDefined(s: seq<Byte>)
    ensures Unescape(s).Some? <==> WellEscaped(s)
    decreases |s|
  {
    if s != [] {
      if s[0] != Percent {
        UnescapeDefined(s[1..]);
      } else if |s| >= 3 {
        UnescapeDefined(s[3..]);
      }
    }
  }

  /** The shape of an escaped string: unreserved bytes and "%XY" triples with upper-case digits. */
  predicate WellEncoded(t: seq<Byte>)
    decreases |t|
  {
    if t == [] then true
    else if Unreserved(t[0]) then WellEncoded(t[1..])
    else |t| >= 3 && t[0] == Percent && IsUpperHex(t[1]) && IsUpperHex(t[2]) && WellEncoded(t[3..])
  }

  lemma {:induction false} EscapeIsWellEncoded(s: seq<Byte>)
    ensures WellEncoded(Escape(s))
  {
    if s != [] {
      EscapeIsWellEncoded(s[1..]);
      var e := EscapeByte(s[0]);
      var t := e + Escape(s[1..]);
      if Unreserved(s[0]) {
        assert t[1..] == Escape(s[1..]);
      } else {
        assert t[3..] == Escape(s[1..]);
      }
    }
  }

  /** Successful unescaping never yields NUL and never lengthens. */
  lemma {:induction false} UnescapeShape(s: seq<Byte>)
    requires NoNul(s)
    ensures Unescape(s).Some? ==> NoNul(Unescape(s).value) && |Unescape(s).value| <= |s|
    decreases |s|
  {
    if s != [] {
      if s[0] != Percent {
        UnescapeShape(s[1..]);
      } else if |s| >= 3 {
        UnescapeShape(s[3..]);
      }
    }
  }

  /** An escaped string contains only unreserved bytes and '%'; in particular no '&' or '='. */
  lemma {:induction false} WellEncodedBytes(t: seq<Byte>)
    requires WellEncoded(t)
    ensures forall i :: 0 <= i < |t| ==> Unreserved(t[i]) || t[i] == Percent || IsUpperHex(t[i])
    ensures Ampersand !in t && EqualsSign !in t && NoNul(t)
    decreases |t|
  {
    if t != [] {
      if Unreserved(t[0]) {
        WellEncodedBytes(t[1..]);
        assert t == [t[0]] + t[1..];
      } else {
        WellEncodedBytes(t[3..]);
        assert t == t[..3] + t[3..];
      }
    }
  }

  lemma HexRoundTrip(b: Byte)
    ensures HexValue(HexDigit(b / 16)) == Some(b / 16)
    ensures HexValue(HexDigit(b % 16)) == Some(b % 16)
  {
  }

  /** Decoding undoes encoding for every string a C string can hold. */
  lemma {:induction false} UnescapeEscape(s: seq<Byte>)
    requires NoNul(s)
    ensures Unescape(Escape(s)) == Some(s)
    decreases |s|
  {
    if s != [] {
      var t := Escape(s);
      UnescapeEscape(s[1..]);
      if Unreserved(s[0]) {
        assert t == [s[0]] + Escape(s[1..]);
        assert t[1..] == Escape(s[1..]);
      } else {
        HexRoundTrip(s[0]);
        assert t[3..] == Escape(s[1..]);
        assert s[0] / 16 * 16 + s[0] % 16 == s[0];
      }
      assert s == [s[0]] + s[1..];
    }
  }

  lemma DecodeEncodeRoundTrip(input: Option<seq<Byte>>)
    requires input.Some? ==> NoNul(input.value)
    ensures DecodeParam(EncodeParam(input)) == input
  {
    if input.Some? {
      UnescapeEscape(input.value);
    }
  }

  /** Escaping never shortens, and keeps the length exactly when nothing needs escaping. */
  lemma {:induction false} EscapeLength(s: seq<Byte>)
    ensures |Escape(s)| >= |s|
    ensures |Escape(s)| == |s| <==> forall i :: 0 <= i < |s| ==> Unreserved(s[i])
    ensures (forall i :: 0 <= i < |s| ==> Unreserved(s[i])) ==> Escape(s) == s
  {
    if s != [] {
      EscapeLength(s[1..]);
      assert s == [s[0]] + s[1..];
      assert forall i :: 1 <= i < |s| ==> s[i] == s[1..][i - 1];
    }
  }

  /** A string is its own encoding exactly when it is made of unreserved bytes. */
  lemma EscapeFixedPoint(s: seq<Byte>)
    ensures Escape(s) == s <==> forall i :: 0 <= i < |s| ==> Unreserved(s[i])
  {
    EscapeLength(s);
  }

  /** normalizeUrl: normalisation is not implemented, a copy is returned. */
  function NormalizeUrl(url: Option<seq<Byte>>): (r: Option<seq<Byte>>)
    ensures r == url
  {
    url
  }

  /** What follows the first '?' of a URL, if there is one. */
  function QueryOf(url: seq<Byte>): (r: Option<seq<Byte>>)
    ensures r.None? <==> QuestionMark !in url
    ensures r.Some? ==> exists i :: 0 <= i < |url| && url[i] == QuestionMark &&
                         QuestionMark !in url[..i] && r.value == url[i + 1..]
  {
    if url == [] then None
    else if url[0] == QuestionMark then
      assert url[..0] == [];
      Some(url[1..])
    else
      var r := QueryOf(url[1..]);
      assert url == [url[0]] + url[1..];
      if r.Some? then
        var i :| 0 <= i < |url[1..]| && url[1..][i] == QuestionMark &&
                 QuestionMark !in url[1..][..i] && r.value == url[1..][i + 1..];
        assert url[..i + 1] == [url[0]] + url[1..][..i];
        assert url[i + 1] == QuestionMark && url[i + 2..] == r.value;
        r
      else r
  }

  /** getQuery: scans to the first '?' or the end of the string. */
  method GetQuery(url: Option<seq<Byte>>) returns (r: Option<seq<Byte>>)
    ensures url.None? ==> r.None?
    ensures url.Some? ==> r == QueryOf(url.value)
  {
    if url.None? {
      return None;
    }
    var u := url.value;
    var i := 0;
    while i < |u| && u[i] != QuestionMark
      invariant 0 <= i <= |u|
      invariant QueryOf(u[i..]) == QueryOf(u)
    {
      assert u[i..][1..] == u[i + 1..];
      i := i + 1;
    }
    if i < |u| {
      assert u[i..][1..] == u[i + 1..];
      r := Some(u[i + 1..]);
    } else {
      r := None;
    }
  }

  /** g_ascii_strup on one byte. */
  function UpperByte(b: Byte): Byte
  {
    if 97 <= b <= 122 then b - 32 else b
  }

  function AsciiUpper(s: seq<Byte>): (r: seq<Byte>)
    ensures |r| == |s|
    ensures forall i :: 0 <= i < |s| ==> r[i] == UpperByte(s[i])
  {
    seq(|s|, i requires 0 <= i < |s| => UpperByte(s[i]))
  }

  /** OAuthParameter: a name and a value. */
  datatype OAuthParameter = OAuthParameter(param: seq<Byte>, value: seq<Byte>)

  /**
   * The sign of strcmp on two C strings: bytewise unsigned comparison, a
   * proper prefix sorting first.
   */
  function StrCmp(a: seq<Byte>, b: seq<Byte>): (r: int)
    ensures -1 <= r <= 1
  {
    if a == [] && b == [] then 0
    else if a == [] then -1
    else if b == [] then 1
    else if a[0] < b[0] then -1
    else if a[0] > b[0] then 1
    else StrCmp(a[1..], b[1..])
  }

  lemma {:induction false} StrCmpZero(a: seq<Byte>, b: seq<Byte>)
    ensures StrCmp(a, b) == 0 <==> a == b
  {
    if a != [] && b != [] && a[0] == b[0] {
      StrCmpZero(a[1..], b[1..]);
      assert a == [a[0]] + a[1..] && b == [b[0]] + b[1..];
    }
  }

  lemma {:induction false} StrCmpAntisymmetric(a: seq<Byte>, b: seq<Byte>)
    ensures StrCmp(a, b) == -StrCmp(b, a)
  {
    if a != [] && b != [] && a[0] == b[0] {
      StrCmpAntisymmetric(a[1..], b[1..]);
    }
  }

  lemma {:induction false} StrCmpTransitive(a: seq<Byte>, b: seq<Byte>, c: seq<Byte>)
    requires StrCmp(a, b) <= 0 && StrCmp(b, c) <= 0
    ensures StrCmp(a, c) <= 0
  {
    if a != [] && b != [] && c != [] && a[0] == b[0] && b[0] == c[0] {
      StrCmpTransitive(a[1..], b[1..], c[1..]);
    }
  }

  /** paramCompare: by name, then by value. */
  function ParamCompare(a: OAuthParameter, b: OAuthParameter): (r: int)
    ensures -1 <= r <= 1
    ensures r == 0 <==> a == b
  {
    StrCmpZero(a.param, b.param);
    StrCmpZero(a.value, b.value);
    var byName := StrCmp(a.param, b.param);
    if byName != 0 then byName else StrCmp(a.value, b.value)
  }

  predicate ParamLe(a: OAuthParameter, b: OAuthParameter)
  {
    ParamCompare(a, b) <= 0
  }

  lemma ParamCompareAntisymmetric(a: OAuthParameter, b: OAuthParameter)
    ensures ParamCompare(a, b) == -ParamCompare(b, a)
  {
    StrCmpAntisymmetric(a.param, b.param);
    StrCmpAntisymmetric(a.value, b.value);
  }

  lemma ParamLeTotal(a: OAuthParameter, b: OAuthParameter)
    ensures ParamLe(a, b) || ParamLe(b, a)
    ensures ParamLe(a, b) && ParamLe(b, a) ==> a == b
  {
    ParamCompareAntisymmetric(a, b);
  }

  lemma ParamLeTransitive(a: OAuthParameter, b: OAuthParameter, c: OAuthParameter)
    requires ParamLe(a, b) && ParamLe(b, c)
    ensures ParamLe(a, c)
  {
    StrCmpZero(a.param, b.param);
    StrCmpZero(b.param, c.param);
    StrCmpZero(a.param, c.param);
    StrCmpTransitive(a.param, b.param, c.param);
    StrCmpAntisymmetric(a.param, c.param);
    if a.param == b.param && b.param == c.param {
      StrCmpTransitive(a.value, b.value, c.value);
    } else if a.param == c.param {
      StrCmpAntisymmetric(a.param, b.param);
      StrCmpTransitive(b.param, c.param, a.param);
    }
  }

  predicate SortedParams(s: seq<OAuthParameter>)
  {
    forall i, j :: 0 <= i < j < |s| ==> ParamLe(s[i], s[j])
  }

  function InsertParam(p: OAuthParameter, s: seq<OAuthParameter>): seq<OAuthParameter>
  {
    if s == [] then [p]
    else if ParamLe(p, s[0]) then [p] + s
    else [s[0]] + InsertParam(p, s[1..])
  }

  /** The ordering g_array_sort establishes with paramCompare. */
  function SortParams(s: seq<OAuthParameter>): seq<OAuthParameter>
  {
    if s == [] then [] else InsertParam(s[0], SortParams(s[1..]))
  }

  /** Inserting an element no smaller than a lower bound keeps the bound. */
  lemma {:induction false} InsertParamBound(x: OAuthParameter, p: OAuthParameter, s: seq<OAuthParameter>)
    requires forall k :: 0 <= k < |s| ==> ParamLe(x, s[k])
    requires ParamLe(x, p)
    ensures forall k :: 0 <= k < |InsertParam(p, s)| ==> ParamLe(x, InsertParam(p, s)[k])
  {
    if s != [] && !ParamLe(p, s[0]) {
      InsertParamBound(x, p, s[1..]);
      var tail := InsertParam(p, s[1..]);
      assert forall k :: 1 <= k < |InsertParam(p, s)| ==> InsertParam(p, s)[k] == tail[k - 1];
    }
  }

  lemma {:induction false} InsertParamPermutes(p: OAuthParameter, s: seq<OAuthParameter>)
    ensures multiset(InsertParam(p, s)) == multiset(s) + multiset{p}
  {
    if s != [] {
      assert s == [s[0]] + s[1..];
      if !ParamLe(p, s[0]) {
        InsertParamPermutes(p, s[1..]);
      }
    }
  }

  lemma {:induction false} InsertParamSorted(p: OAuthParameter, s: seq<OAuthParameter>)
    requires SortedParams(s)
    ensures SortedParams(InsertParam(p, s))
  {
    if s == [] {
    } else if ParamLe(p, s[0]) {
      forall k | 0 <= k < |s| ensures ParamLe(p, s[k]) {
        if k > 0 {
          ParamLeTransitive(p, s[0], s[k]);
        }
      }
      SortedCons(p, s);
    } else {
      ParamLeTotal(p, s[0]);
      var rest := s[1..];
      SortedTail(s);
      forall k | 0 <= k < |rest| ensures ParamLe(s[0], rest[k]) {
        assert rest[k] == s[k + 1];
      }
      InsertParamSorted(p, rest);
      InsertParamBound(s[0], p, rest);
      SortedCons(s[0], InsertParam(p, rest));
    }
  }

  /** A lower bound of a sorted list can be put in front of it. */
  lemma SortedCons(x: OAuthParameter, t: seq<OAuthParameter>)
    requires SortedParams(t)
    requires forall k :: 0 <= k < |t| ==> ParamLe(x, t[k])
    ensures SortedParams([x] + t)
  {
    var r := [x] + t;
    forall i, j | 0 <= i < j < |r| ensures ParamLe(r[i], r[j]) {
      assert r[j] == t[j - 1];
      if i > 0 {
        assert r[i] == t[i - 1];
      }
    }
  }

  /** The sorted order is non-decreasing and a permutation of the input. */
  lemma {:induction false} SortParamsSorted(s: seq<OAuthParameter>)
    ensures SortedParams(SortParams(s))
    ensures multiset(SortParams(s)) == multiset(s)
  {
    if s != [] {
      SortParamsSorted(s[1..]);
      InsertParamSorted(s[0], SortParams(s[1..]));
      InsertParamPermutes(s[0], SortParams(s[1..]));
      assert s == [s[0]] + s[1..];
    }
  }

  lemma SortedHeadIsLeast(a: seq<OAuthParameter>, x: OAuthParameter)
    requires SortedParams(a) && x in a
    ensures ParamLe(a[0], x)
  {
    var k :| 0 <= k < |a| && a[k] == x;
    if k > 0 {
      assert ParamLe(a[0], a[k]);
    }
  }

  /**
   * Since parameters that compare equal are identical, there is only one
   * sorted arrangement of a parameter list: the result does not depend on
   * the sorting algorithm.
   */
  lemma {:induction false} SortedPermutationUnique(a: seq<OAuthParameter>, b: seq<OAuthParameter>)
    requires SortedParams(a) && SortedParams(b)
    requires multiset(a) == multiset(b)
    ensures a == b
    decreases |a|
  {
    assert |a| == |multiset(a)| == |multiset(b)| == |b|;
    if a != [] {
      SortedHeadsEqual(a, b);
      TailMultiset(a);
      TailMultiset(b);
      SortedTail(a);
      SortedTail(b);
      SortedPermutationUnique(a[1..], b[1..]);
      assert a == [a[0]] + a[1..] && b == [b[0]] + b[1..];
    }
  }

  lemma SortedHeadsEqual(a: seq<OAuthParameter>, b: seq<OAuthParameter>)
    requires SortedParams(a) && SortedParams(b) && a != [] && b != []
    requires multiset(a) == multiset(b)
    ensures a[0] == b[0]
  {
    assert a[0] in multiset(b) && b[0] in multiset(a);
    SortedHeadIsLeast(b, a[0]);
    SortedHeadIsLeast(a, b[0]);
    ParamLeTotal(a[0], b[0]);
  }

  lemma TailMultiset(s: seq<OAuthParameter>)
    requires s != []
    ensures multiset(s[1..]) == multiset(s) - multiset{s[0]}
  {
    assert s == [s[0]] + s[1..];
  }

  lemma SortedTail(s: seq<OAuthParameter>)
    requires SortedParams(s) && s != []
    ensures SortedParams(s[1..])
  {
    var t := s[1..];
    forall i, j | 0 <= i < j < |t| ensures ParamLe(t[i], t[j]) {
      assert t[i] == s[i + 1] && t[j] == s[j + 1];
    }
  }

  /** "name=value" */
  function Pair(p: OAuthParameter): seq<Byte>
  {
    p.param + [EqualsSign] + p.value
  }

  /** The pairs joined with '&'. */
  function JoinPairs(ps: seq<OAuthParameter>): seq<Byte>
  {
    if ps == [] then []
    else if |ps| == 1 then Pair(ps[0])
    else JoinPairs(ps[..|ps| - 1]) + [Ampersand] + Pair(ps[|ps| - 1])
  }

  function EncodeParameter(p: OAuthParameter): OAuthParameter
  {
    OAuthParameter(Escape(p.param), Escape(p.value))
  }

  /** Request parameters are parameter-encoded; header fields are taken as they are. */
  function CollectParameters(headerFields: Option<seq<OAuthParameter>>,
                             parameters: Option<seq<OAuthParameter>>): seq<OAuthParameter>
  {
    var ps := parameters.GetOr([]);
    seq(|ps|, i requires 0 <= i < |ps| => EncodeParameter(ps[i])) + headerFields.GetOr([])
  }

  /**
   * The signature base string of section 3.4.1 of RFC 5849 as this plugin
   * builds it: null for a null method or URL and for a URL that carries a
   * query; otherwise the upper-cased method, the encoded URL and the
   * encoded, sorted "name=value" list, separated by '&'.
   */
  function SignatureBaseString(httpMethod: Option<seq<Byte>>, url: Option<seq<Byte>>,
                               headerFields: Option<seq<OAuthParameter>>,
                               parameters: Option<seq<OAuthParameter>>): Option<seq<Byte>>
  {
    if httpMethod.None? || url.None? || QueryOf(url.value).Some? then None
    else
      var pairs := JoinPairs(SortParams(CollectParameters(headerFields, parameters)));
      Some(AsciiUpper(httpMethod.value) + [Ampersand] + Escape(url.value) + [Ampersand] + Escape(pairs))
  }

  /** The first loop of createSignatureBaseString: every request parameter, parameter-encoded. */
  method EncodeRequestParameters(ps: seq<OAuthParameter>) returns (encoded: seq<OAuthParameter>)
    ensures |encoded| == |ps|
    ensures forall k :: 0 <= k < |ps| ==> encoded[k] == EncodeParameter(ps[k])
  {
    encoded := [];
    var i := 0;
    while i < |ps|
      invariant 0 <= i <= |ps|
      invariant |encoded| == i
      invariant forall k :: 0 <= k < i ==> encoded[k] == EncodeParameter(ps[k])
    {
      var name := EncodeParam(Some(ps[i].param));
      var value := EncodeParam(Some(ps[i].value));
      encoded := encoded + [OAuthParameter(name.value, value.value)];
      i := i + 1;
    }
  }

  /** The second loop: the header fields appended as they are. */
  method AppendHeaderFields(front: seq<OAuthParameter>, hs: seq<OAuthParameter>) returns (all: seq<OAuthParameter>)
    ensures all == front + hs
  {
    all := front;
    var i := 0;
    while i < |hs|
      invariant 0 <= i <= |hs|
      invariant all == front + hs[..i]
    {
      assert hs[..i + 1] == hs[..i] + [hs[i]];
      all := all + [hs[i]];
      i := i + 1;
    }
    assert hs[..|hs|] == hs;
  }

  /** The third loop: "name=value" pairs joined with '&'; null when there is no parameter. */
  method JoinParameterString(sorted: seq<OAuthParameter>) returns (paramString: Option<seq<Byte>>)
    ensures paramString.None? <==> sorted == []
    ensures paramString.Some? ==> paramString.value == JoinPairs(sorted)
  {
    paramString := None;
    var i := 0;
    while i < |sorted|
      invariant 0 <= i <= |sorted|
      invariant paramString == (if i == 0 then None else Some(JoinPairs(sorted[..i])))
    {
      var p := sorted[i];
      assert sorted[..i + 1][..i] == sorted[..i];
      assert sorted[..i + 1][i] == p;
      if paramString.None? {
        assert JoinPairs(sorted[..i + 1]) == Pair(p);
        paramString := Some(p.param + [EqualsSign] + p.value);
      } else {
        assert JoinPairs(sorted[..i + 1]) == JoinPairs(sorted[..i]) + [Ampersand] + Pair(p);
        assert paramString.value + [Ampersand] + p.param + [EqualsSign] + p.value ==
               JoinPairs(sorted[..i]) + [Ampersand] + Pair(p);
        paramString := Some(paramString.value + [Ampersand] + p.param + [EqualsSign] + p.value);
      }
      i := i + 1;
    }
    assert sorted[..|sorted|] == sorted;
  }

  /** createSignatureBaseString */
  method CreateSignatureBaseString(httpMethod: Option<seq<Byte>>, url: Option<seq<Byte>>,
                                   headerFields: Option<seq<OAuthParameter>>,
                                   parameters: Option<seq<OAuthParameter>>)
    returns (r: Option<seq<Byte>>)
    ensures r == SignatureBaseString(httpMethod, url, headerFields, parameters)
  {
    if httpMethod.None? || url.None? {
      return None;
    }
    var query := GetQuery(url);
    if query.Some? {
      return None;
    }
    var httpmethod := AsciiUpper(httpMethod.value);
    var urlString := NormalizeUrl(url);

    var requestParameters := EncodeRequestParameters(parameters.GetOr([]));
    assert requestParameters == CollectParameters(None, parameters);
    requestParameters := AppendHeaderFields(requestParameters, headerFields.GetOr([]));
    assert requestParameters == CollectParameters(headerFields, parameters);
    var sorted := SortParams(requestParameters);
    var paramString := JoinParameterString(sorted);

    var urlString2 := EncodeParam(urlString);
    var paramString2 := EncodeParam(paramString);
    // g_strconcat stops at its first null argument: without any parameter
    // the result ends with the second '&'.
    var tail := if paramString2.Some? then paramString2.value else [];
    assert JoinPairs(sorted) == [] ==> Escape(JoinPairs(sorted)) == [];
    r := Some(httpmethod + [Ampersand] + urlString2.value + [Ampersand] + tail);
  }

  /** With no parameters and no header fields the string ends in '&' right after the encoded URL. */
  lemma NoParametersEndsWithSeparator(httpMethod: seq<Byte>, url: seq<Byte>,
                                      headerFields: Option<seq<OAuthParameter>>,
                                      parameters: Option<seq<OAuthParameter>>)
    requires QuestionMark !in url
    requires headerFields.GetOr([]) == [] && parameters.GetOr([]) == []
    ensures SignatureBaseString(Some(httpMethod), Some(url), headerFields, parameters) ==
            Some(AsciiUpper(httpMethod) + [Ampersand] + Escape(url) + [Ampersand])
  {
    assert CollectParameters(headerFields, parameters) == [];
    assert SortParams([]) == [] && JoinPairs([]) == [] && Escape([]) == [];
    var prefix := AsciiUpper(httpMethod) + [Ampersand] + Escape(url) + [Ampersand];
    assert prefix + [] == prefix;
  }

  /**
   * The three sections can be told apart: the encoded URL and the encoded
   * parameter list contain no '&', so the last two '&' of a base string are
   * its separators, and the parameter list it encodes is in sorted order.
   */
  lemma BaseStringSections(httpMethod: seq<Byte>, url: seq<Byte>,
                           headerFields: Option<seq<OAuthParameter>>,
                           parameters: Option<seq<OAuthParameter>>)
    requires QuestionMark !in url
    ensures var all := CollectParameters(headerFields, parameters);
            var pairs := JoinPairs(SortParams(all));
            var r := SignatureBaseString(Some(httpMethod), Some(url), headerFields, parameters);
            r.Some? &&
            r.value == AsciiUpper(httpMethod) + [Ampersand] + Escape(url) + [Ampersand] + Escape(pairs) &&
            Ampersand !in Escape(url) && Ampersand !in Escape(pairs) &&
            SortedParams(SortParams(all)) && multiset(SortParams(all)) == multiset(all)
  {
    var all := CollectParameters(headerFields, parameters);
    EscapeIsWellEncoded(url);
    WellEncodedBytes(Escape(url));
    EscapeIsWellEncoded(JoinPairs(SortParams(all)));
    WellEncodedBytes(Escape(JoinPairs(SortParams(all))));
    SortParamsSorted(all);
  }
}
