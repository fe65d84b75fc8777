/** The OAuth 1.0 helpers of platform/dist/axios.js: the extra
    percent-encoding of `oauth1ParamsSerializer` (the reserved characters of
    section 3.6 of RFC 5849), the content-type scan and the body rule of
    `transformConfigForOauth` (section 3.4.1.3.1 of RFC 5849: only
    form-encoded bodies take part in the signature). */
module OAuth1 {
  import opened JsValues

  /** `s.replace(/c/g, rep)`. */
  function ReplaceAll(s: string, c: char, rep: string): (r: string)
  {
    if s == [] then ""
    else (if s[0] == c then rep else [s[0]]) + ReplaceAll(s[1..], c, rep)
  }

  /** The replace chain of `oauth1ParamsSerializer`, applied in source order. */
  function ReplaceChain(s: string): string
  {
    ReplaceAll(ReplaceAll(ReplaceAll(ReplaceAll(ReplaceAll(s, '!', "%21"), '\'', "%27"), '(', "%28"), ')', "%29"), '*', "%2A")
  }

  predicate IsReserved(c: char)
  {
    c == '!' || c == '\'' || c == '(' || c == ')' || c == '*'
  }

  /** The escape of one character: its percent-encoding when reserved, else itself. */
  function EscapeChar(c: char): (r: string)
    ensures IsReserved(c) ==> |r| == 3 && r[0] == '%'
    ensures !IsReserved(c) ==> r == [c]
  {
    match c
    case '!' => "%21"
    case '\'' => "%27"
    case '(' => "%28"
    case ')' => "%29"
    case '*' => "%2A"
    case _ => [c]
  }

  /** The reference definition: every character escaped on its own. */
  function EscapeEach(s: string): string
  {
    if s == [] then "" else EscapeChar(s[0]) + EscapeEach(s[1..])
  }

  lemma {:induction false} ReplaceAllAppend(a: string, b: string, c: char, rep: string)
    ensures ReplaceAll(a + b, c, rep) == ReplaceAll(a, c, rep) + ReplaceAll(b, c, rep)
  {
    if a != [] {
      assert (a + b)[0] == a[0] && (a + b)[1..] == a[1..] + b;
      ReplaceAllAppend(a[1..], b, c, rep);
    } else {
      assert a + b == b;
    }
  }

  lemma {:induction false} ReplaceChainAppend(a: string, b: string)
    ensures ReplaceChain(a + b) == ReplaceChain(a) + ReplaceChain(b)
  {
    var a1, b1 := ReplaceAll(a, '!', "%21"), ReplaceAll(b, '!', "%21");
    ReplaceAllAppend(a, b, '!', "%21");
    var a2, b2 := ReplaceAll(a1, '\'', "%27"), ReplaceAll(b1, '\'', "%27");
    ReplaceAllAppend(a1, b1, '\'', "%27");
    var a3, b3 := ReplaceAll(a2, '(', "%28"), ReplaceAll(b2, '(', "%28");
    ReplaceAllAppend(a2, b2, '(', "%28");
    var a4, b4 := ReplaceAll(a3, ')', "%29"), ReplaceAll(b3, ')', "%29");
    ReplaceAllAppend(a3, b3, ')', "%29");
    ReplaceAllAppend(a4, b4, '*', "%2A");
  }

  /** A replace over a string without the searched character changes nothing. */
  lemma {:induction false} ReplaceAllAbsent(s: string, c: char, rep: string)
    requires c !in s
    ensures ReplaceAll(s, c, rep) == s
  {
    if s != [] {
      ReplaceAllAbsent(s[1..], c, rep);
    }
  }

  /** One character through the chain: only its own replace touches it, since
      `%`, the digits and `A` are not reserved. */
  lemma ReplaceChainChar(c: char)
    ensures ReplaceChain([c]) == EscapeChar(c)
  {
    if IsReserved(c) {
      ReplaceChainReserved(c);
    } else {
      ReplaceSingle(c, '!', "%21");
      ReplaceSingle(c, '\'', "%27");
      ReplaceSingle(c, '(', "%28");
      ReplaceSingle(c, ')', "%29");
      ReplaceSingle(c, '*', "%2A");
    }
  }

  /** A reserved character becomes its escape at its own replace; the later
      replaces find nothing to do in the escape. */
  lemma ReplaceChainReserved(c: char)
    requires IsReserved(c)
    ensures ReplaceChain([c]) == EscapeChar(c)
  {
    var e := EscapeChar(c);
    assert forall x :: IsReserved(x) ==> x !in e;
    ReplaceSingle(c, '!', "%21");
    if c == '!' {
      ReplaceAllAbsent(e, '\'', "%27"); ReplaceAllAbsent(e, '(', "%28");
      ReplaceAllAbsent(e, ')', "%29"); ReplaceAllAbsent(e, '*', "%2A");
    } else {
      ReplaceSingle(c, '\'', "%27");
      if c == '\'' {
        ReplaceAllAbsent(e, '(', "%28"); ReplaceAllAbsent(e, ')', "%29"); ReplaceAllAbsent(e, '*', "%2A");
      } else {
        ReplaceSingle(c, '(', "%28");
        if c == '(' {
          ReplaceAllAbsent(e, ')', "%29"); ReplaceAllAbsent(e, '*', "%2A");
        } else {
          ReplaceSingle(c, ')', "%29");
          if c == ')' {
            ReplaceAllAbsent(e, '*', "%2A");
          } else {
            ReplaceSingle(c, '*', "%2A");
          }
        }
      }
    }
  }

  lemma ReplaceSingle(c: char, x: char, rep: string)
    ensures ReplaceAll([c], x, rep) == if c == x then rep else [c]
  {
    assert [c][1..] == [];
    assert ReplaceAll([c], x, rep) == (if c == x then rep else [c]) + ReplaceAll([], x, rep);
  }

  /** The five successive global replaces equal the one-pass escape. */
  lemma {:induction false} ReplaceChainIsEscapeEach(s: string)
    ensures ReplaceChain(s) == EscapeEach(s)
  {
    if s != [] {
      assert s == [s[0]] + s[1..];
      ReplaceChainAppend([s[0]], s[1..]);
      ReplaceChainChar(s[0]);
      ReplaceChainIsEscapeEach(s[1..]);
    }
  }

  /** The escaped form holds none of `! ' ( ) *`, and a string without them is
      left as it is. */
  lemma {:induction false} EscapeEachProperties(s: string)
    ensures forall i :: 0 <= i < |EscapeEach(s)| ==> !IsReserved(EscapeEach(s)[i])
    ensures (forall i :: 0 <= i < |s| ==> !IsReserved(s[i])) ==> EscapeEach(s) == s
    ensures |EscapeEach(s)| >= |s|
  {
    if s != [] {
      EscapeEachProperties(s[1..]);
      var e, rest := EscapeChar(s[0]), EscapeEach(s[1..]);
      assert EscapeEach(s) == e + rest;
      EscapeCharClean(s[0]);
      forall i | 0 <= i < |e + rest|
        ensures !IsReserved((e + rest)[i])
      {
        if i >= |e| {
          assert (e + rest)[i] == rest[i - |e|];
        }
      }
      if forall i :: 0 <= i < |s| ==> !IsReserved(s[i]) {
        assert !IsReserved(s[0]);
        assert forall i :: 0 <= i < |s[1..]| ==> s[1..][i] == s[i + 1];
        assert [s[0]] + s[1..] == s;
      }
    }
  }

  lemma EscapeCharClean(c: char)
    ensures forall i :: 0 <= i < |EscapeChar(c)| ==> !IsReserved(EscapeChar(c)[i])
  {
  }

  /** `oauth1ParamsSerializer(p)`: the standard query string of `p`, with the
      reserved characters percent-encoded. */
  function Oauth1ParamsSerializer(p: Props, stringify: Props -> string): (r: string)
    ensures r == EscapeEach(stringify(p))
    ensures forall i :: 0 <= i < |r| ==> !IsReserved(r[i])
  {
    ReplaceChainIsEscapeEach(stringify(p));
    EscapeEachProperties(stringify(p));
    ReplaceChain(stringify(p))
  }

  // ---- transformConfigForOauth: content type and signed body ----

  const FormEncoded: string := "application/x-www-form-urlencoded"

  function LowerAscii(s: string): (r: string)
    ensures |r| == |s|
  {
    seq(|s|, i requires 0 <= i < |s| => if 'A' <= s[i] <= 'Z' then (s[i] as int + 32) as char else s[i])
  }

  /** `/content-type/i.test(k)`: the name CONTAINS `content-type`, in any case. */
  predicate IsContentTypeName(k: string)
  {
    Contains(LowerAscii(k), "content-type")
  }

  /** Index of the first header whose name matches, in insertion order. */
  function FirstContentType(headers: Props): (r: Option<nat>)
    ensures r.Some? ==> r.value < |headers| && IsContentTypeName(headers[r.value].0)
    ensures r.Some? ==> forall i :: 0 <= i < r.value ==> !IsContentTypeName(headers[i].0)
    ensures r.None? ==> forall i :: 0 <= i < |headers| ==> !IsContentTypeName(headers[i].0)
  {
    if headers == [] then None
    else if IsContentTypeName(headers[0].0) then Some(0)
    else
      match FirstContentType(headers[1..])
      case None => None
      case Some(j) => Some(j + 1)
  }

  /** The header loop of `transformConfigForOauth`, with its two flags and `break`. */
  method ScanContentType(headers: Option<Props>) returns (hasContentType: bool, formEncoded: bool)
    ensures var h := if headers.Some? then headers.value else [];
            && (hasContentType <==> FirstContentType(h).Some?)
            && (formEncoded <==> hasContentType && h[FirstContentType(h).value].1 == Str(FormEncoded))
  {
    var h := if headers.Some? then headers.value else [];
    hasContentType, formEncoded := false, false;
    var i := 0;
    while i < |h|
      invariant 0 <= i <= |h|
      invariant !hasContentType && !formEncoded
      invariant forall j :: 0 <= j < i ==> !IsContentTypeName(h[j].0)
    {
      if IsContentTypeName(h[i].0) {
        hasContentType := true;
        formEncoded := h[i].1 == Str(FormEncoded);
        FirstContentTypeAt(h, i);
        return;
      }
      i := i + 1;
    }
  }

  lemma FirstContentTypeAt(h: Props, i: nat)
    requires i < |h| && IsContentTypeName(h[i].0)
    requires forall j :: 0 <= j < i ==> !IsContentTypeName(h[j].0)
    ensures FirstContentType(h) == Some(i)
  {
  }

  /** The body that goes into the canonical request description: an object
      body only under the form-encoded content type; a string body, parsed,
      only with no content-type header or the form-encoded one; else none. */
  function SignedBody(data: Value, hasContentType: bool, formEncoded: bool,
                      parseQuery: string -> Props): (r: Option<Value>)
    ensures r.Some? <==> (Truthy(data) && IsTypeofObject(data) && formEncoded)
                         || (data.Str? && (!hasContentType || formEncoded))
    ensures r.Some? && data.Str? ==> r.value == Obj(parseQuery(data.s))
    ensures r.Some? && !data.Str? ==> r.value == data
  {
    if Truthy(data) && IsTypeofObject(data) && formEncoded then Some(data)
    else if data.Str? && (!hasContentType || formEncoded) then Some(Obj(parseQuery(data.s)))
    else None
  }

  /** The canonical request description sent to the signing service. */
  datatype RequestData = RequestData(httpMethod: Value, url: string, data: Option<Value>)

  /** `config.method || "get"`. */
  function MethodOrGet(httpMethod: Value): (r: Value)
    ensures Truthy(httpMethod) ==> r == httpMethod
    ensures !Truthy(httpMethod) ==> r == Str("get")
  {
    if Truthy(httpMethod) then httpMethod else Str("get")
  }

  /** Cleaning before signing matters: a header name whose value is undefined
      still decides the content type for the scan. With an undefined
      `Content-Type` left in (as `create` signs it) a string body is dropped;
      once it is cleaned away (as `callAxios` signs it) the body is signed. */
  lemma UncleanedContentTypeHidesBody(parseQuery: string -> Props)
    ensures var raw := [("Content-Type", Undefined)];
            && FirstContentType(raw) == Some(0)
            && raw[0].1 != Str(FormEncoded)
            && SignedBody(Str("a=1"), true, false, parseQuery).None?
            && FirstContentType([]).None?
            && SignedBody(Str("a=1"), false, false, parseQuery) == Some(Obj(parseQuery("a=1")))
  {
    var raw := [("Content-Type", Undefined)];
    assert LowerAscii(raw[0].0) == "content-type";
    assert OccursAt("content-type", "content-type", 0);
  }
}
