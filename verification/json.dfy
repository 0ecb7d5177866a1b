/**
 * The Python values `json.loads` produces, and the `dict` operations the
 * pipeline uses on them. A dict is an association list in insertion order,
 * as Python dicts are ordered; a decoded object is taken to have distinct
 * keys, as a Python dict has, so lookup by first match is lookup.
 */
module Json {
  import opened Wrappers

  datatype Json =
    | JNull
    | JBool(b: bool)
    | JInt(i: int)
    | JNum(r: real)
    | JStr(s: string)
    | JArr(items: seq<Json>)
    | JObj(fields: seq<(string, Json)>)

  /** `Dict[str, V]` in insertion order. */
  type Dict<V> = seq<(string, V)>

  /** `d.get(k)`: the value stored under `k`, if any. */
  function Get<V>(d: Dict<V>, k: string): Option<V> {
    if |d| == 0 then None
    else if d[0].0 == k then Some(d[0].1)
    else Get(d[1..], k)
  }

  /** Lookup finds a key exactly when it is stored, and then finds its first entry. */
  lemma {:induction false} GetSpec<V>(d: Dict<V>, k: string)
    ensures Get(d, k).Some? <==> exists i | 0 <= i < |d| :: d[i].0 == k
    ensures Get(d, k).Some? ==>
      exists i | 0 <= i < |d| :: d[i] == (k, Get(d, k).value) && forall j | 0 <= j < i :: d[j].0 != k
  {
    if |d| > 0 && d[0].0 != k {
      GetSpec(d[1..], k);
      if Get(d, k).Some? {
        var i :| 0 <= i < |d[1..]| && d[1..][i] == (k, Get(d, k).value) && forall j | 0 <= j < i :: d[1..][j].0 != k;
        assert d[i + 1] == (k, Get(d, k).value);
      }
    }
  }

  /** The first entry stored under a key is what lookup finds. */
  lemma {:induction false} GetAt<V>(d: Dict<V>, i: nat)
    requires i < |d|
    requires forall j | 0 <= j < i :: d[j].0 != d[i].0
    ensures Get(d, d[i].0) == Some(d[i].1)
  {
    if i > 0 {
      GetAt(d[1..], i - 1);
    }
  }

  /** `d.get(k, default)` */
  function GetOr<V>(d: Dict<V>, k: string, default: V): V {
    Get(d, k).GetOr(default)
  }

  /** `d.keys()` in order. */
  function Keys<V>(d: Dict<V>): (ks: seq<string>)
    ensures |ks| == |d|
    ensures forall i | 0 <= i < |d| :: ks[i] == d[i].0
  {
    seq(|d|, i requires 0 <= i < |d| => d[i].0)
  }

  /** A key is listed by `keys()` exactly when lookup finds it. */
  lemma KeysFindStored<V>(d: Dict<V>, k: string)
    ensures k in Keys(d) <==> Get(d, k).Some?
  {
    GetSpec(d, k);
    var ks := Keys(d);
    if k in ks {
      var i :| 0 <= i < |ks| && ks[i] == k;
      assert d[i].0 == k;
    }
    if Get(d, k).Some? {
      var i :| 0 <= i < |d| && d[i].0 == k;
      assert ks[i] == k;
    }
  }

  /** `sum(d.values())` for a dict of numbers. */
  function SumValues(d: Dict<real>): real {
    if |d| == 0 then 0.0 else d[0].1 + SumValues(d[1..])
  }

  /** Summing a dict built in two pieces sums the pieces. */
  lemma {:induction false} SumValuesAppend(a: Dict<real>, b: Dict<real>)
    ensures SumValues(a + b) == SumValues(a) + SumValues(b)
    decreases |a|
  {
    if |a| > 0 {
      assert (a + b)[0] == a[0];
      assert (a + b)[1..] == a[1..] + b;
      SumValuesAppend(a[1..], b);
      calc {
        SumValues(a + b);
        a[0].1 + SumValues(a[1..] + b);
        a[0].1 + (SumValues(a[1..]) + SumValues(b));
      }
    } else {
      assert a + b == b;
    }
  }

  /** Python's `type(v).__name__` for a decoded JSON value. */
  function TypeName(j: Json): string {
    match j
    case JNull => "NoneType"
    case JBool(_) => "bool"
    case JInt(_) => "int"
    case JNum(_) => "float"
    case JStr(_) => "str"
    case JArr(_) => "list"
    case JObj(_) => "dict"
  }
}
