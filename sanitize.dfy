/** `cleanObject` (platform/dist/axios.js): delete every own property whose
    value is `undefined`, keeping the others, in order, with their values. */
module Sanitize {
  import opened JsValues

  /** The properties of `o` whose value is not `undefined`, in their order. */
  function Cleaned(o: Props): (r: Props)
    ensures forall p :: p in r <==> p in o && p.1 != Undefined
    ensures |r| <= |o|
  {
    if o == [] then []
    else if o[0].1 == Undefined then Cleaned(o[1..])
    else [o[0]] + Cleaned(o[1..])
  }

  /** The `for…in` loop of `cleanObject`, deleting as it goes. */
  method CleanObject(o: Props) returns (r: Props)
    ensures r == Cleaned(o)
  {
    r := [];
    var i := 0;
    while i < |o|
      invariant 0 <= i <= |o|
      invariant r + Cleaned(o[i..]) == Cleaned(o)
    {
      assert o[i..][1..] == o[i + 1..];
      if o[i].1 != Undefined {
        r := r + [o[i]];
      }
      i := i + 1;
    }
    assert o[|o|..] == [];
  }

  /** `cleanObject` on a missing object (`o = {}` by default) does nothing. */
  function CleanOptional(o: Option<Props>): (r: Option<Props>)
    ensures o.None? <==> r.None?
    ensures o.Some? ==> r == Some(Cleaned(o.value))
  {
    match o
    case None => None
    case Some(p) => Some(Cleaned(p))
  }

  /** `if (typeof config.data === "object") cleanObject(config.data)`: only a
      plain object loses properties; null, arrays and primitives are kept.
      (An array element deleted in JavaScript leaves a hole that still reads
      as `undefined`, so arrays are kept as they are.) */
  function CleanData(data: Value): (r: Value)
    ensures data.Obj? ==> r == Obj(Cleaned(data.props))
    ensures !data.Obj? ==> r == data
  {
    if data.Obj? then Obj(Cleaned(data.props)) else data
  }

  /** Each property read after cleaning: a removed property is gone, all others,
      `null` included, read as before. */
  lemma {:induction false} CleanedLookup(o: Props, k: string)
    requires DistinctKeys(o)
    ensures Lookup(Cleaned(o), k) == if Lookup(o, k) == Some(Undefined) then None else Lookup(o, k)
  {
    if o != [] {
      assert DistinctKeys(o[1..]) by {
        forall i, j | 0 <= i < j < |o[1..]| ensures o[1..][i].0 != o[1..][j].0 {
          assert o[1..][i] == o[i + 1] && o[1..][j] == o[j + 1];
        }
      }
      CleanedLookup(o[1..], k);
      if o[0].0 == k {
        assert !HasKey(o[1..], k) by {
          forall i | 0 <= i < |o[1..]| ensures o[1..][i].0 != k {
            assert o[1..][i] == o[i + 1];
          }
        }
        assert !HasKey(Cleaned(o[1..]), k) by {
          forall i | 0 <= i < |Cleaned(o[1..])| ensures Cleaned(o[1..])[i].0 != k {
            assert Cleaned(o[1..])[i] in o[1..];
          }
        }
      }
    }
  }

  /** What cleaning an optional object means to a reader: a missing object
      stays missing (the default `{}` is never stored), and in a present one
      every property reads as before, while exactly the properties whose
      value is `undefined` stop being own properties. */
  lemma CleanOptionalKeepsReads(o: Option<Props>, k: string)
    requires o.Some? ==> DistinctKeys(o.value)
    ensures CleanOptional(o).None? <==> o.None?
    ensures o.Some? ==> Prop(CleanOptional(o).value, k) == Prop(o.value, k)
    ensures o.Some? ==> (HasKey(CleanOptional(o).value, k) <==> HasKey(o.value, k) && Prop(o.value, k) != Undefined)
  {
    if o.Some? {
      CleanedLookup(o.value, k);
    }
  }

  /** What cleaning `data` means to a reader: it keeps its kind, every
      property reads as before, only a plain object loses its `undefined`
      members, and cleaning again changes nothing. */
  lemma CleanDataKeepsReads(data: Value, k: string)
    requires data.Obj? ==> DistinctKeys(data.props)
    ensures CleanData(data).Obj? <==> data.Obj?
    ensures GetProp(CleanData(data), k) == GetProp(data, k)
    ensures data.Obj? ==> (HasKey(CleanData(data).props, k) <==> HasKey(data.props, k) && Prop(data.props, k) != Undefined)
    ensures !data.Obj? ==> CleanData(data) == data
    ensures CleanData(CleanData(data)) == CleanData(data)
  {
    if data.Obj? {
      CleanedLookup(data.props, k);
      CleanedIdempotent(data.props);
    }
  }

  /** Cleaning twice is cleaning once. */
  lemma {:induction false} CleanedIdempotent(o: Props)
    ensures Cleaned(Cleaned(o)) == Cleaned(o)
  {
    if o != [] {
      CleanedIdempotent(o[1..]);
      if o[0].1 != Undefined {
        assert ([o[0]] + Cleaned(o[1..]))[1..] == Cleaned(o[1..]);
      }
    }
  }

  /** Cleaning a plain object keeps property names distinct. */
  lemma {:induction false} CleanedDistinct(o: Props)
    requires DistinctKeys(o)
    ensures DistinctKeys(Cleaned(o))
  {
    if o != [] {
      assert DistinctKeys(o[1..]) by {
        forall i, j | 0 <= i < j < |o[1..]| ensures o[1..][i].0 != o[1..][j].0 {
          assert o[1..][i] == o[i + 1] && o[1..][j] == o[j + 1];
        }
      }
      CleanedDistinct(o[1..]);
      if o[0].1 != Undefined {
        var c := Cleaned(o[1..]);
        forall j | 0 <= j < |c| ensures c[j].0 != o[0].0 {
          assert c[j] in o[1..];
          var m :| 0 <= m < |o[1..]| && o[1..][m] == c[j];
          assert o[m + 1] == c[j];
        }
      }
    }
  }
}
