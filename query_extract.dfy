/** The pure parts of `removeSearchFromUrl` (platform/dist/axios.js): where the
    query string sits in a serialised URL, how the JSON-based trick turns it
    into an object, and how that object is merged into `config.params`. */
module QueryExtract {
  import opened JsValues
  import opened Http

  /** Position of the first `c` in `s`, or `|s|` when there is none. */
  function IndexOf(s: string, c: char): (r: nat)
    ensures r <= |s|
    ensures r < |s| ==> s[r] == c
    ensures forall i :: 0 <= i < r ==> s[i] != c
  {
    if s == [] then 0
    else if s[0] == c then 0
    else 1 + IndexOf(s[1..], c)
  }

  /** Any position that is a first occurrence (or the end) is IndexOf. */
  lemma IndexOfUnique(s: string, c: char, n: nat)
    requires n <= |s| && (n < |s| ==> s[n] == c)
    requires forall i :: 0 <= i < n ==> s[i] != c
    ensures IndexOf(s, c) == n
  {
  }

  /** In a serialised URL the fragment starts at the first `#`, and the query
      at the first `?` before it. */
  function FragmentStart(href: string): (f: nat)
    ensures f <= |href|
  {
    IndexOf(href, '#')
  }

  function QueryStart(href: string): (q: nat)
    ensures q <= FragmentStart(href)
  {
    IndexOf(href[..FragmentStart(href)], '?')
  }

  /** `new URL(href).search.substr(1)`: the query without its `?`. */
  function QueryString(href: string): (qs: string)
    ensures QueryStart(href) == FragmentStart(href) ==> qs == ""
  {
    var f, q := FragmentStart(href), QueryStart(href);
    if q == f then "" else href[q + 1..f]
  }

  /** `newUrl.search = ""; newUrl.toString()`: the URL without its query. */
  function StripSearch(href: string): (r: string)
    ensures QueryString(r) == ""
  {
    var f, q := FragmentStart(href), QueryStart(href);
    var r := href[..q] + href[f..];
    assert FragmentStart(r) == q by {
      assert forall i :: 0 <= i < q ==> r[i] == href[i];
      assert q < |r| ==> r[q] == href[f];
      IndexOfUnique(r, '#', q);
    }
    assert QueryStart(r) == q by {
      IndexOfUnique(r[..q], '?', q);
    }
    r
  }

  /** `s.split(sep)` for a one-character separator. */
  function Split(s: string, sep: char): (parts: seq<string>)
    ensures |parts| >= 1
    ensures forall i :: 0 <= i < |parts| ==> sep !in parts[i]
  {
    var i := IndexOf(s, sep);
    if i == |s| then
      assert sep !in s;
      [s]
    else
      assert sep !in s[..i];
      [s[..i]] + Split(s[i + 1..], sep)
  }

  /** Joining the pieces with the separator gives back the string. */
  lemma {:induction false} SplitJoin(s: string, sep: char)
    ensures Join(Split(s, sep), [sep]) == s
  {
    var i := IndexOf(s, sep);
    if i < |s| {
      var rest := Split(s[i + 1..], sep);
      assert Split(s, sep) == [s[..i]] + rest;
      assert rest != [];
      assert ([s[..i]] + rest)[1..] == rest;
      SplitJoin(s[i + 1..], sep);
      assert s == s[..i] + [sep] + s[i + 1..];
    }
  }

  // ---- the body of a JSON string literal ----

  /** A character that may stand unescaped inside a JSON string literal. */
  predicate JsonStringChar(c: char)
  {
    c != '"' && c != '\\' && c >= ' '
  }

  /** The character a two-character JSON escape `\c` stands for. */
  function SimpleEscape(c: char): Option<char>
  {
    if c == '"' then Some('"')
    else if c == '\\' then Some('\\')
    else if c == '/' then Some('/')
    else if c == 'b' then Some('\U{8}')
    else if c == 'f' then Some('\U{C}')
    else if c == 'n' then Some('\n')
    else if c == 'r' then Some('\r')
    else if c == 't' then Some('\t')
    else None
  }

  function HexDigitValue(c: char): (r: Option<nat>)
    ensures r.Some? ==> r.value < 16
  {
    if '0' <= c <= '9' then Some(c as int - '0' as int)
    else if 'a' <= c <= 'f' then Some(c as int - 'a' as int + 10)
    else if 'A' <= c <= 'F' then Some(c as int - 'A' as int + 10)
    else None
  }

  function HexDigitChar(d: nat): (c: char)
    requires d < 16
    ensures HexDigitValue(c) == Some(d)
  {
    if d < 10 then ('0' as int + d) as char else ('a' as int + d - 10) as char
  }

  /** The UTF-16 code unit of a `\uXXXX` escape at the front of `s`. */
  function UnitEscape(s: string): (r: Option<nat>)
    ensures r.Some? ==> |s| >= 6 && r.value < 0x10000
  {
    if |s| >= 6 && s[0] == '\\' && s[1] == 'u' then
      var a, b, c, d := HexDigitValue(s[2]), HexDigitValue(s[3]), HexDigitValue(s[4]), HexDigitValue(s[5]);
      if a.Some? && b.Some? && c.Some? && d.Some? then
        Some(((a.value * 16 + b.value) * 16 + c.value) * 16 + d.value)
      else None
    else None
  }

  predicate IsHighSurrogate(u: nat)
  {
    0xD800 <= u < 0xDC00
  }

  predicate IsLowSurrogate(u: nat)
  {
    0xDC00 <= u < 0xE000
  }

  function Prepend(c: char, r: Option<string>): Option<string>
  {
    if r.Some? then Some([c] + r.value) else None
  }

  /** The string a JSON string literal with this body denotes, or None when
      `JSON.parse` rejects the body: an unescaped `"`, `\` or control
      character, or an escape other than `\" \\ \/ \b \f \n \r \t \uXXXX`.
      A surrogate pair written as two `\u` escapes is one character. */
  function JsonUnescape(s: string): (r: Option<string>)
    ensures r.Some? ==> |r.value| <= |s|
    ensures '\\' !in s ==> (r.Some? <==> forall i :: 0 <= i < |s| ==> JsonStringChar(s[i]))
    ensures '\\' !in s && r.Some? ==> r.value == s
    decreases |s|
  {
    if s == [] then Some([])
    else if s[0] != '\\' then
      if JsonStringChar(s[0]) then
        assert forall i :: 1 <= i < |s| ==> s[i] == s[1..][i - 1];
        Prepend(s[0], JsonUnescape(s[1..]))
      else None
    else if |s| >= 2 && SimpleEscape(s[1]).Some? then
      Prepend(SimpleEscape(s[1]).value, JsonUnescape(s[2..]))
    else
      var u := UnitEscape(s);
      if u.None? then None
      else if !IsHighSurrogate(u.value) && !IsLowSurrogate(u.value) then
        Prepend(u.value as char, JsonUnescape(s[6..]))
      else
        var low := UnitEscape(s[6..]);
        if IsHighSurrogate(u.value) && low.Some? && IsLowSurrogate(low.value) then
          Prepend((0x10000 + (u.value - 0xD800) * 0x400 + (low.value - 0xDC00)) as char, JsonUnescape(s[12..]))
        else None
  }

  /** How `JSON.stringify` writes a character inside a string literal. */
  function EscapeJsonChar(c: char): string
  {
    if c == '"' then ['\\', '"']
    else if c == '\\' then ['\\', '\\']
    else if c < ' ' then ['\\', 'u', '0', '0', HexDigitChar(c as int / 16), HexDigitChar(c as int % 16)]
    else [c]
  }

  function JsonEscape(s: string): string
  {
    if s == [] then [] else EscapeJsonChar(s[0]) + JsonEscape(s[1..])
  }

  lemma EscapedCharUnescapes(c: char, rest: string)
    ensures JsonUnescape(EscapeJsonChar(c) + rest) == Prepend(c, JsonUnescape(rest))
  {
    var t := EscapeJsonChar(c) + rest;
    if c == '"' || c == '\\' {
      assert t[0] == '\\' && t[1] == c && SimpleEscape(t[1]) == Some(c);
      assert t[2..] == rest;
    } else if c < ' ' {
      assert t[0] == '\\' && t[1] == 'u' && SimpleEscape(t[1]).None?;
      assert t[..6] == EscapeJsonChar(c);
      assert UnitEscape(t) == Some(c as int);
      assert !IsHighSurrogate(c as int) && !IsLowSurrogate(c as int);
      assert JsonUnescape(t) == Prepend((c as int) as char, JsonUnescape(t[6..]));
      assert t[6..] == rest;
    } else {
      assert t[0] == c && JsonStringChar(c);
      assert t[1..] == rest;
    }
  }

  /** Unescaping undoes escaping, for every string: every character can be
      written in a query key or value. */
  lemma {:induction false} JsonEscapeRoundTrip(s: string)
    ensures JsonUnescape(JsonEscape(s)) == Some(s)
  {
    if s != [] {
      JsonEscapeRoundTrip(s[1..]);
      EscapedCharUnescapes(s[0], JsonEscape(s[1..]));
      assert [s[0]] + s[1..] == s;
    }
  }

  /** Escaping introduces no `=` and no `&`: an escaped key or value stays
      inside its segment and on its side of the `=`. */
  lemma {:induction false} JsonEscapeKeepsSeparators(s: string, c: char)
    requires c == '=' || c == '&'
    ensures c in JsonEscape(s) <==> c in s
  {
    if s != [] {
      JsonEscapeKeepsSeparators(s[1..], c);
      assert s == [s[0]] + s[1..];
      assert c in EscapeJsonChar(s[0]) <==> c == s[0];
    }
  }

  /** A body that ends in an unpaired backslash is rejected: that backslash
      escapes the quote the replacement puts after it. */
  lemma {:induction false} TrailingBackslashFails(s: string)
    requires JsonUnescape(s).Some?
    ensures JsonUnescape(s + "\\").None?
    decreases |s|
  {
    var t := s + "\\";
    if s == [] {
      assert UnitEscape(t).None?;
    } else if s[0] != '\\' {
      assert t[1..] == s[1..] + "\\";
      TrailingBackslashFails(s[1..]);
    } else if |s| >= 2 && SimpleEscape(s[1]).Some? {
      assert t[2..] == s[2..] + "\\";
      TrailingBackslashFails(s[2..]);
    } else {
      var u := UnitEscape(s);
      assert t[..6] == s[..6];
      assert UnitEscape(t) == u;
      assert t[6..] == s[6..] + "\\";
      if !IsHighSurrogate(u.value) && !IsLowSurrogate(u.value) {
        TrailingBackslashFails(s[6..]);
      } else {
        var low := UnitEscape(s[6..]);
        assert t[6..][..6] == s[6..][..6];
        assert UnitEscape(t[6..]) == low;
        assert t[12..] == s[12..] + "\\";
        TrailingBackslashFails(s[12..]);
      }
    }
  }

  // ---- the JSON trick ----

  /** One `key=value` segment. After `&` becomes `","` and `=` becomes
      `":"`, the text between the quotes is a JSON member exactly when the
      segment holds one `=` and both sides are valid string bodies; the
      member is the two sides unescaped. (A backslash that escapes an
      inserted quote leaves the rest of the text outside any string, where
      the closing `"}` can no longer be matched.) */
  function ParseSegment(seg: string): (r: Option<(string, string)>)
    ensures r.Some? ==> |r.value.0| + |r.value.1| < |seg|
  {
    var i := IndexOf(seg, '=');
    if i < |seg| && '=' !in seg[i + 1..] then
      var k, v := JsonUnescape(seg[..i]), JsonUnescape(seg[i + 1..]);
      if k.Some? && v.Some? then Some((k.value, v.value)) else None
    else None
  }

  /** A segment parses exactly when it holds one `=` and both sides
      unescape, and then its member is the two sides unescaped. */
  lemma ParseSegmentMeaning(seg: string)
    ensures var i := IndexOf(seg, '=');
            ParseSegment(seg).Some? <==>
              i < |seg| && '=' !in seg[i + 1..] && JsonUnescape(seg[..i]).Some? && JsonUnescape(seg[i + 1..]).Some?
    ensures ParseSegment(seg).Some? ==> var i := IndexOf(seg, '=');
            JsonUnescape(seg[..i]) == Some(ParseSegment(seg).value.0)
            && JsonUnescape(seg[i + 1..]) == Some(ParseSegment(seg).value.1)
  {
  }

  /** `a=A` is the member `a: "A"`. */
  lemma UnicodeEscapeExample()
    ensures ParseSegment("a=\\u0041") == Some(("a", "A"))
  {
    var seg := "a=\\u0041";
    var v := "\\u0041";
    assert IndexOf(seg, '=') == 1;
    assert seg[..1] == "a" && seg[2..] == v;
    assert '=' !in v;
    assert JsonUnescape("a") == Some("a");
    UnicodeEscapeBody();
  }

  lemma UnicodeEscapeBody()
    ensures JsonUnescape("\\u0041") == Some("A")
  {
    var v := "\\u0041";
    assert v[0] == '\\' && v[1] == 'u' && SimpleEscape(v[1]).None?;
    assert UnitEscape(v) == Some(0x41);
    assert v[6..] == [];
    assert JsonUnescape(v) == Prepend('A', Some([]));
    assert ['A'] + [] == "A";
  }

  /** `a=x\n\/` is the member `a: "x<newline>/"`. */
  lemma SimpleEscapeExample()
    ensures ParseSegment("a=x\\n\\/") == Some(("a", "x\n/"))
  {
    var seg := "a=x\\n\\/";
    var v := "x\\n\\/";
    assert IndexOf(seg, '=') == 1;
    assert seg[..1] == "a" && seg[2..] == v;
    assert '=' !in v;
    assert JsonUnescape("a") == Some("a");
    SimpleEscapeBody();
  }

  lemma SimpleEscapeBody()
    ensures JsonUnescape("x\\n\\/") == Some("x\n/")
  {
    var t := "\\/";
    assert t[0] == '\\' && t[1] == '/' && t[2..] == [];
    assert JsonUnescape(t) == Prepend('/', Some([]));
    assert ['/'] + [] == "/";
    var u := "\\n\\/";
    assert u[0] == '\\' && u[1] == 'n' && u[2..] == t;
    assert JsonUnescape(u) == Prepend('\n', Some("/"));
    assert ['\n'] + "/" == "\n/";
    var v := "x\\n\\/";
    assert v[0] == 'x' && JsonStringChar(v[0]) && v[1..] == u;
    assert JsonUnescape(v) == Prepend('x', Some("\n/"));
    assert ['x'] + "\n/" == "x\n/";
  }

  /** `a=\q` is not a member: `\q` is no escape. */
  lemma UnknownEscapeExample()
    ensures ParseSegment("a=\\q").None?
  {
    var v := "\\q";
    assert IndexOf("a=\\q", '=') == 1;
    assert "a=\\q"[2..] == v;
    assert v[0] == '\\' && v[1] == 'q' && SimpleEscape(v[1]).None? && UnitEscape(v).None?;
  }

  /** `a=b\` is not a member: the trailing backslash escapes the closing quote. */
  lemma TrailingBackslashExample()
    ensures ParseSegment("a=b\\").None?
  {
    assert IndexOf("a=b\\", '=') == 1;
    assert "a=b\\"[2..] == "b\\";
    assert JsonUnescape("b") == Some("b");
    TrailingBackslashFails("b");
    assert "b" + "\\" == "b\\";
  }

  /** Any key and value can be sent: a segment written as the escaped key,
      `=`, and the escaped value parses back to exactly that key and value. */
  lemma ParseSegmentRoundTrip(k: string, v: string)
    requires '=' !in k && '=' !in v
    ensures ParseSegment(JsonEscape(k) + "=" + JsonEscape(v)) == Some((k, v))
  {
    var ek, ev := JsonEscape(k), JsonEscape(v);
    var seg := ek + "=" + ev;
    JsonEscapeKeepsSeparators(k, '=');
    JsonEscapeKeepsSeparators(v, '=');
    assert forall j :: 0 <= j < |ek| ==> seg[j] == ek[j];
    IndexOfUnique(seg, '=', |ek|);
    assert seg[..|ek|] == ek && seg[|ek| + 1..] == ev;
    JsonEscapeRoundTrip(k);
    JsonEscapeRoundTrip(v);
  }

  /** The members the segments denote, when every segment is one. */
  function ParseSegments(segs: seq<string>): (r: Option<seq<(string, string)>>)
    ensures r.Some? <==> forall j :: 0 <= j < |segs| ==> ParseSegment(segs[j]).Some?
    ensures r.Some? ==> |r.value| == |segs|
    ensures r.Some? ==> forall j :: 0 <= j < |segs| ==> ParseSegment(segs[j]) == Some(r.value[j])
  {
    if segs == [] then Some([])
    else
      assert forall j :: 1 <= j < |segs| ==> segs[1..][j - 1] == segs[j];
      match ParseSegment(segs[0])
      case None => None
      case Some(m) =>
        match ParseSegments(segs[1..])
        case None => None
        case Some(ms) =>
          var r := [m] + ms;
          assert forall j :: 1 <= j < |segs| ==> r[j] == ms[j - 1];
          Some(r)
  }

  /** The object the members make, in text order; `JSON.parse` keeps the
      last value of a repeated key, at the place of its first occurrence. */
  function FromMembers(ms: seq<(string, string)>): (r: Props)
    ensures forall i :: 0 <= i < |r| ==> r[i].1.Str?
    ensures ms != [] ==> |r| > 0
  {
    if ms == [] then []
    else
      var o := FromMembers(ms[..|ms| - 1]);
      var r := Put(o, ms[|ms| - 1].0, Str(ms[|ms| - 1].1));
      assert forall i :: 0 <= i < |r| ==> r[i] in r;
      r
  }

  /** The position of the last member with key `k`. */
  function LastWith(ms: seq<(string, string)>, k: string): (r: Option<nat>)
    ensures r.Some? ==> r.value < |ms| && ms[r.value].0 == k
    ensures r.Some? ==> forall m :: r.value < m < |ms| ==> ms[m].0 != k
    ensures r.None? <==> forall j :: 0 <= j < |ms| ==> ms[j].0 != k
  {
    if ms == [] then None
    else if ms[|ms| - 1].0 == k then Some(|ms| - 1)
    else
      assert forall j :: 0 <= j < |ms| - 1 ==> ms[..|ms| - 1][j] == ms[j];
      LastWith(ms[..|ms| - 1], k)
  }

  /** The object has a member for every key some segment names, and none
      other; its value is that of the LAST member with that key. */
  lemma {:induction false} FromMembersLookup(ms: seq<(string, string)>, k: string)
    ensures Lookup(FromMembers(ms), k) ==
              if LastWith(ms, k).Some? then Some(Str(ms[LastWith(ms, k).value].1)) else None
  {
    if ms != [] {
      var front := ms[..|ms| - 1];
      FromMembersLookup(front, k);
      if ms[|ms| - 1].0 != k {
        assert forall j :: 0 <= j < |front| ==> front[j] == ms[j];
        assert LastWith(ms, k) == LastWith(front, k);
      }
    }
  }

  /** The object the JSON text denotes, or None on a SyntaxError. */
  function BuildObject(segs: seq<string>): (r: Option<Props>)
    ensures r.Some? <==> forall j :: 0 <= j < |segs| ==> ParseSegment(segs[j]).Some?
    ensures r.Some? ==> forall i :: 0 <= i < |r.value| ==> r.value[i].1.Str?
    ensures r.Some? && segs != [] ==> |r.value| > 0
  {
    match ParseSegments(segs)
    case None => None
    case Some(ms) => Some(FromMembers(ms))
  }

  /** The reviver: every member except one whose key is `""` is passed through
      `decodeURIComponent`; a decoding failure throws. */
  function Revive(o: Props, decode: string -> Option<string>): (r: Option<Props>)
    requires forall i :: 0 <= i < |o| ==> o[i].1.Str?
    ensures r.Some? ==> |r.value| == |o|
    ensures r.Some? ==> forall i :: 0 <= i < |o| ==> r.value[i].0 == o[i].0
    ensures r.Some? ==> forall i :: 0 <= i < |o| ==>
              if o[i].0 == "" then r.value[i].1 == o[i].1
              else decode(o[i].1.s).Some? && r.value[i].1 == Str(decode(o[i].1.s).value)
    ensures r.None? <==> exists i :: 0 <= i < |o| && o[i].0 != "" && decode(o[i].1.s).None?
  {
    if o == [] then Some([])
    else
      var (k, v) := o[0];
      assert forall i :: 1 <= i < |o| ==> o[1..][i - 1] == o[i];
      var head := if k == "" then Some(v.s) else decode(v.s);
      match head
      case None => None
      case Some(d) =>
        match Revive(o[1..], decode)
        case None =>
          assert exists i :: 0 <= i < |o[1..]| && o[1..][i].0 != "" && decode(o[1..][i].1.s).None?;
          None
        case Some(rest) => Some([(k, Str(d))] + rest)
  }

  /** A revived member reads as its decoded value, except under the key `""`. */
  lemma {:induction false} ReviveLookup(o: Props, decode: string -> Option<string>, k: string)
    requires forall i :: 0 <= i < |o| ==> o[i].1.Str?
    requires Revive(o, decode).Some?
    ensures HasKey(Revive(o, decode).value, k) <==> HasKey(o, k)
    ensures HasKey(o, k) ==>
              Lookup(Revive(o, decode).value, k) ==
                Some(Str(if k == "" then Lookup(o, k).value.s else decode(Lookup(o, k).value.s).value))
  {
    var r := Revive(o, decode).value;
    if o != [] {
      assert forall i :: 1 <= i < |o| ==> o[1..][i - 1] == o[i];
      ReviveLookup(o[1..], decode, k);
      assert Revive(o[1..], decode).value == r[1..];
      assert Lookup(o, k) == Some(o[0].1) || Lookup(o, k) == Lookup(o[1..], k);
    }
  }

  /** `JSON.parse("{\"" + qs.replace(/&/g, "\",\"").replace(/=/g, "\":\"") + "\"}", reviver)`:
      a SyntaxError exactly when some segment is not a member, otherwise a
      URIError exactly when a value that survives (the last one of its key,
      under a key other than `""`) does not decode. */
  function ParseQueryString(qs: string, decode: string -> Option<string>): (r: Result<Props, Exception>)
    ensures r.Err? ==> r.error == SyntaxError || r.error == URIError
    ensures r.Ok? ==> |r.value| > 0
    ensures (r.Err? && r.error == SyntaxError) ==>
              exists j :: 0 <= j < |Split(qs, '&')| && ParseSegment(Split(qs, '&')[j]).None?
    ensures (exists j :: 0 <= j < |Split(qs, '&')| && ParseSegment(Split(qs, '&')[j]).None?) ==>
              r.Err? && r.error == SyntaxError
    ensures var o := BuildObject(Split(qs, '&'));
            (r.Err? && r.error == URIError) <==>
              o.Some? && exists i :: 0 <= i < |o.value| && o.value[i].0 != "" && decode(o.value[i].1.s).None?
  {
    match BuildObject(Split(qs, '&'))
    case None => Err(SyntaxError)
    case Some(o) =>
      match Revive(o, decode)
      case None => Err(URIError)
      case Some(p) => Ok(p)
  }

  /** The members of a parsed query: keys are taken as written (unescaped,
      not percent-decoded), one per distinct key, and each value is the
      percent-decoded value of the last segment with that key (the value
      under the key `""` is not decoded). */
  lemma QueryMembers(qs: string, decode: string -> Option<string>, k: string)
    requires ParseQueryString(qs, decode).Ok?
    ensures ParseSegments(Split(qs, '&')).Some?
    ensures var ms := ParseSegments(Split(qs, '&')).value;
            LastWith(ms, k).None? ==> Lookup(ParseQueryString(qs, decode).value, k).None?
    ensures var ms := ParseSegments(Split(qs, '&')).value;
            LastWith(ms, k).Some? && k == "" ==>
              Lookup(ParseQueryString(qs, decode).value, k) == Some(Str(ms[LastWith(ms, k).value].1))
    ensures var ms := ParseSegments(Split(qs, '&')).value;
            LastWith(ms, k).Some? && k != "" ==>
              var v := ms[LastWith(ms, k).value].1;
              decode(v).Some? && Lookup(ParseQueryString(qs, decode).value, k) == Some(Str(decode(v).value))
  {
    var ms := ParseSegments(Split(qs, '&')).value;
    var o := FromMembers(ms);
    assert BuildObject(Split(qs, '&')) == Some(o);
    assert Revive(o, decode) == Some(ParseQueryString(qs, decode).value);
    FromMembersLookup(ms, k);
    ReviveLookup(o, decode, k);
  }



  /** Names that `k in obj` finds on every plain object through Object.prototype. */
  const ObjectPrototypeKeys: set<string> :=
    {"constructor", "hasOwnProperty", "isPrototypeOf", "propertyIsEnumerable",
     "toLocaleString", "toString", "valueOf", "__proto__", "__defineGetter__",
     "__defineSetter__", "__lookupGetter__", "__lookupSetter__"}

  /** `k in params`. */
  predicate InParams(params: Props, k: string)
  {
    HasKey(params, k) || k in ObjectPrototypeKeys
  }

  /** One round of the merging loop: an explicit parameter wins. */
  function MergeOne(params: Props, kv: (string, Value)): Props
  {
    if InParams(params, kv.0) then params else Put(params, kv.0, kv.1)
  }

  /** The merging loop over the query members, in order. */
  function MergeQuery(params: Props, query: Props): Props
  {
    if query == [] then params
    else MergeOne(MergeQuery(params, query[..|query| - 1]), query[|query| - 1])
  }

  /** One more query member is one more round of the merging loop. */
  lemma MergeQueryNext(params: Props, query: Props, i: nat)
    requires i < |query|
    ensures MergeQuery(params, query[..i + 1]) == MergeOne(MergeQuery(params, query[..i]), query[i])
  {
    assert query[..i + 1][..i] == query[..i];
  }

  /** Explicit parameters keep their values; every other query key is added
      with its (decoded) query value. */
  lemma {:induction false} MergeQueryLookup(params: Props, query: Props, k: string)
    ensures Lookup(MergeQuery(params, query), k) ==
              if InParams(params, k) || !HasKey(query, k) then Lookup(params, k)
              else Lookup(query, k)
  {
    if query != [] {
      var front, last := query[..|query| - 1], query[|query| - 1];
      MergeQueryLookup(params, front, k);
      var m := MergeQuery(params, front);
      assert HasKey(query, k) <==> HasKey(front, k) || last.0 == k by {
        if HasKey(query, k) && last.0 != k {
          var i :| 0 <= i < |query| && query[i].0 == k;
          assert front[i].0 == k;
        }
        if HasKey(front, k) {
          var i :| 0 <= i < |front| && front[i].0 == k;
          assert query[i].0 == k;
        }
      }
      LookupPrefix(query, k);
    }
  }

  /** A key found before the last member is found at the same place. */
  lemma {:induction false} LookupPrefix(query: Props, k: string)
    requires query != []
    ensures HasKey(query[..|query| - 1], k) ==> Lookup(query, k) == Lookup(query[..|query| - 1], k)
    ensures !HasKey(query[..|query| - 1], k) && query[|query| - 1].0 == k ==>
              Lookup(query, k) == Some(query[|query| - 1].1)
  {
    if query[0].0 != k && |query| > 1 {
      LookupPrefix(query[1..], k);
      assert query[1..][..|query[1..]| - 1] == query[..|query| - 1][1..];
    }
  }

  /** Merging never removes or reorders an existing parameter: the old
      parameters are a prefix of the merged ones. */
  lemma {:induction false} MergeQueryExtends(params: Props, query: Props)
    ensures |MergeQuery(params, query)| >= |params|
    ensures MergeQuery(params, query)[..|params|] == params
  {
    if query != [] {
      MergeQueryExtends(params, query[..|query| - 1]);
    }
  }
}
