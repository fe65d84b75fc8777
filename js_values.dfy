/** JavaScript values, as far as the modelled code inspects them.
    Numbers are integers or NaN; objects keep their properties in insertion
    order, because the order of `for…in` is observable in the code modelled. */
module JsValues {

  datatype Option<T> = None | Some(value: T)

  datatype Result<T, E> = Ok(value: T) | Err(error: E)

  datatype Value =
    | Undefined
    | Null
    | Bool(b: bool)
    | Num(n: int)
    | NaN
    | Str(s: string)
    | Obj(props: seq<(string, Value)>)
    | Arr(items: seq<Value>)

  /** The own enumerable properties of a plain object, in insertion order. */
  type Props = seq<(string, Value)>

  /** JavaScript truthiness: `if (v)`. */
  predicate Truthy(v: Value)
  {
    match v
    case Undefined | Null | NaN => false
    case Bool(b) => b
    case Num(n) => n != 0
    case Str(s) => s != ""
    case Obj(_) | Arr(_) => true
  }

  /** `typeof v === "object"`, which holds for null as well. */
  predicate IsTypeofObject(v: Value)
  {
    v.Null? || v.Obj? || v.Arr?
  }

  /** `v != null` (loose inequality: neither null nor undefined). */
  predicate IsPresent(v: Value)
  {
    !v.Undefined? && !v.Null?
  }

  predicate HasKey(o: Props, k: string)
  {
    exists i :: 0 <= i < |o| && o[i].0 == k
  }

  /** A plain object never holds two properties with the same name. */
  predicate DistinctKeys(o: Props)
  {
    forall i, j :: 0 <= i < j < |o| ==> o[i].0 != o[j].0
  }

  /** `o[k]` for an own property; None when `k` is not an own property. */
  function Lookup(o: Props, k: string): (r: Option<Value>)
    ensures r.Some? <==> HasKey(o, k)
    ensures r.Some? ==> (k, r.value) in o
  {
    if o == [] then None
    else if o[0].0 == k then Some(o[0].1)
    else
      assert forall i :: 1 <= i < |o| ==> o[i] == o[1..][i - 1];
      Lookup(o[1..], k)
  }

  /** `o[k] = v`: an existing property keeps its place, a new one goes last. */
  function Put(o: Props, k: string, v: Value): (r: Props)
    ensures Lookup(r, k) == Some(v)
    ensures forall j :: j != k ==> Lookup(r, j) == Lookup(o, j)
    ensures HasKey(o, k) ==> |r| == |o|
    ensures !HasKey(o, k) ==> r == o + [(k, v)]
    ensures forall p :: p in r ==> p in o || p == (k, v)
  {
    if o == [] then [(k, v)]
    else if o[0].0 == k then [(k, v)] + o[1..]
    else
      var rest := Put(o[1..], k, v);
      assert !HasKey(o, k) ==> !HasKey(o[1..], k);
      assert HasKey(o, k) ==> HasKey(o[1..], k) by {
        if HasKey(o, k) {
          var i :| 0 <= i < |o| && o[i].0 == k;
          assert o[1..][i - 1].0 == k;
        }
      }
      [o[0]] + rest
  }

  /** The array index a property name denotes: a canonical decimal numeral
      (`"0"`, `"7"`, `"12"`, but not `"07"` or `""`). */
  function ArrayIndex(k: string): (r: Option<nat>)
    ensures r.Some? ==> NatToDecimal(r.value) == k
  {
    if k != [] && AllDigits(k) && (|k| == 1 || k[0] != '0') then
      DecimalRoundTrip(k);
      Some(DecimalValue(k))
    else None
  }

  /** Property read `v[k]`; None when it throws a TypeError (v is null or undefined).
      An array exposes `length` and its elements under their indices; a
      string exposes `length`. Inherited members (`Array.prototype`,
      `String.prototype`, `Object.prototype`) read as `undefined`. */
  function GetProp(v: Value, k: string): (r: Option<Value>)
    ensures r.None? <==> !IsPresent(v)
    ensures v.Obj? ==> r == Some(if HasKey(v.props, k) then Lookup(v.props, k).value else Undefined)
    ensures v.Arr? && k != "length" && ArrayIndex(k).None? ==> r == Some(Undefined)
  {
    match v
    case Undefined | Null => None
    case Obj(props) =>
      (match Lookup(props, k)
       case Some(x) => Some(x)
       case None => Some(Undefined))
    case Arr(items) =>
      var ix := ArrayIndex(k);
      Some(if k == "length" then Num(|items|)
           else if ix.Some? && ix.value < |items| then items[ix.value]
           else Undefined)
    case Str(s) => Some(if k == "length" then Num(|s|) else Undefined)
    case _ => Some(Undefined)
  }

  /** Every element of an array reads under the decimal numeral of its index. */
  lemma ArrayElementRead(items: seq<Value>, i: nat)
    requires i < |items|
    ensures GetProp(Arr(items), NatToDecimal(i)) == Some(items[i])
  {
    IndexRoundTrip(i);
    assert NatToDecimal(i) != "length" by {
      assert '0' <= NatToDecimal(i)[0] <= '9';
    }
  }

  /** Reading an index back: the numeral of `i` denotes index `i`. */
  lemma {:induction false} IndexRoundTrip(i: nat)
    ensures ArrayIndex(NatToDecimal(i)) == Some(i)
  {
    var k := NatToDecimal(i);
    DecimalOfNumeral(i);
    if |k| > 1 {
      NumeralLeadingDigit(i);
    }
  }

  lemma {:induction false} DecimalOfNumeral(n: nat)
    ensures DecimalValue(NatToDecimal(n)) == n
  {
    if n >= 10 {
      DecimalOfNumeral(n / 10);
      var k := NatToDecimal(n);
      assert k[..|k| - 1] == NatToDecimal(n / 10);
    }
  }

  /** A numeral of more than one digit does not start with `0`. */
  lemma {:induction false} NumeralLeadingDigit(n: nat)
    ensures |NatToDecimal(n)| > 1 ==> NatToDecimal(n)[0] != '0'
    ensures |NatToDecimal(n)| > 1 <==> n >= 10
  {
    if n >= 10 {
      NumeralLeadingDigit(n / 10);
      if n / 10 < 10 {
        assert NatToDecimal(n / 10) == [DigitChar(n / 10)];
      }
    }
  }

  /** A canonical numeral is the numeral of its value. */
  lemma {:induction false} DecimalRoundTrip(k: string)
    requires k != [] && AllDigits(k) && (|k| == 1 || k[0] != '0')
    ensures NatToDecimal(DecimalValue(k)) == k
  {
    if |k| == 1 {
      assert DigitChar(DigitValue(k[0])) == k[0];
    } else {
      var front := k[..|k| - 1];
      assert front[0] == k[0];
      DecimalRoundTrip(front);
      DecimalPositive(front);
      PrefixSnoc(k, |k| - 1);
      assert k[..|k|] == k;
      DecimalSnoc(front, k[|k| - 1]);
    }
  }

  /** Appending a digit to a numeral of a positive value appends it to the
      numeral of the new value. */
  lemma DecimalSnoc(front: string, c: char)
    requires AllDigits(front) && DecimalValue(front) > 0 && '0' <= c <= '9'
    requires NatToDecimal(DecimalValue(front)) == front
    ensures NatToDecimal(DecimalValue(front + [c])) == front + [c]
  {
    var k := front + [c];
    assert k[..|k| - 1] == front && k[|k| - 1] == c;
    var a, d := DecimalValue(front), DigitValue(c);
    assert DecimalValue(k) == 10 * a + d;
    LastDigit(a, d);
  }

  lemma LastDigit(a: nat, d: nat)
    requires d < 10
    ensures (10 * a + d) / 10 == a && (10 * a + d) % 10 == d
  {
  }

  /** A numeral that does not start with `0` has a positive value. */
  lemma {:induction false} DecimalPositive(k: string)
    requires k != [] && AllDigits(k) && k[0] != '0'
    ensures DecimalValue(k) > 0
  {
    if |k| > 1 {
      assert k[..|k| - 1][0] == k[0];
      DecimalPositive(k[..|k| - 1]);
    }
  }

  /** `o[k]` on a plain object: `undefined` when `k` is not an own property. */
  function Prop(o: Props, k: string): Value
  {
    GetProp(Obj(o), k).value
  }

  /** Decimal digits of a natural number. */
  function NatToDecimal(n: nat): (r: string)
    ensures |r| > 0
    ensures forall i :: 0 <= i < |r| ==> '0' <= r[i] <= '9'
  {
    if n < 10 then [DigitChar(n)] else NatToDecimal(n / 10) + [DigitChar(n % 10)]
  }

  function DigitChar(d: nat): (c: char)
    requires d < 10
    ensures '0' <= c <= '9'
  {
    ('0' as int + d) as char
  }

  function DigitValue(c: char): nat
    requires '0' <= c <= '9'
  {
    c as int - '0' as int
  }

  /** Value of a string of decimal digits. */
  function DecimalValue(s: string): nat
    requires forall i :: 0 <= i < |s| ==> '0' <= s[i] <= '9'
  {
    if s == [] then 0 else 10 * DecimalValue(s[..|s| - 1]) + DigitValue(s[|s| - 1])
  }

  /** A prefix one element longer is the prefix with that element appended. */
  lemma PrefixSnoc<T>(s: seq<T>, j: nat)
    requires j < |s|
    ensures s[..j] + [s[j]] == s[..j + 1]
  {
  }

  lemma AppendAssoc<T>(a: seq<T>, b: seq<T>, c: seq<T>)
    ensures a + b + c == a + (b + c)
  {
  }

  function Join(parts: seq<string>, sep: string): string
  {
    if parts == [] then ""
    else if |parts| == 1 then parts[0]
    else parts[0] + sep + Join(parts[1..], sep)
  }

  /** `String(v)`, as used by template literals. */
  function ToStr(v: Value): string
  {
    match v
    case Undefined => "undefined"
    case Null => "null"
    case Bool(b) => if b then "true" else "false"
    case Num(n) => if n < 0 then "-" + NatToDecimal(-n) else NatToDecimal(n)
    case NaN => "NaN"
    case Str(s) => s
    case Obj(_) => "[object Object]"
    case Arr(items) =>
      Join(seq(|items|, i requires 0 <= i < |items| =>
             if IsPresent(items[i]) then ToStr(items[i]) else ""), ",")
  }

  /** The characters `String.prototype.trim` removes: WhiteSpace and LineTerminator. */
  predicate IsWhiteSpace(c: char)
  {
    c == ' ' || c == '\t' || c == '\n' || c == '\U{B}' || c == '\U{C}' || c == '\r'
    || c == '\U{A0}' || c == '\U{1680}' || ('\U{2000}' <= c <= '\U{200A}')
    || c == '\U{2028}' || c == '\U{2029}' || c == '\U{202F}' || c == '\U{205F}'
    || c == '\U{3000}' || c == '\U{FEFF}'
  }

  predicate AllDigits(s: string)
  {
    forall i :: 0 <= i < |s| ==> '0' <= s[i] <= '9'
  }

  /** `Number(v)` restricted to the model: the result is Num or NaN. */
  function ToNumber(v: Value): (r: Value)
    ensures r.Num? || r.NaN?
    ensures v.Num? ==> r == v
  {
    match v
    case Undefined => NaN
    case Null => Num(0)
    case Bool(b) => Num(if b then 1 else 0)
    case Num(n) => v
    case NaN => NaN
    case Str(s) =>
      if s == [] then Num(0)
      else if AllDigits(s) then Num(DecimalValue(s))
      else NaN
    case Obj(_) | Arr(_) => NaN
  }

  /** `a <= b` where at least one side is a number: both are converted. */
  predicate NumericLessEq(a: Value, b: Value)
  {
    var x, y := ToNumber(a), ToNumber(b);
    x.Num? && y.Num? && x.n <= y.n
  }

  /** `Math.max(a, b)`. */
  function MathMax(a: Value, b: Value): (r: Value)
    ensures r.NaN? <==> ToNumber(a).NaN? || ToNumber(b).NaN?
    ensures r.Num? ==> r.n >= ToNumber(a).n && r.n >= ToNumber(b).n
    ensures r.Num? ==> r.n == ToNumber(a).n || r.n == ToNumber(b).n
  {
    var x, y := ToNumber(a), ToNumber(b);
    if x.NaN? || y.NaN? then NaN
    else if x.n >= y.n then x else y
  }

  /** `t` occurs in `s` starting at index `i`. */
  predicate OccursAt(s: string, t: string, i: int)
  {
    0 <= i <= |s| - |t| && s[i..i + |t|] == t
  }

  /** `s.includes(t)`. */
  predicate Contains(s: string, t: string)
  {
    exists i | 0 <= i <= |s| - |t| :: OccursAt(s, t, i)
  }
}
