/** A decoded JSON document as serde_json's `Value` presents it, with the
    accessors the chat normaliser relies on. Numbers are integers only: the
    fields the normaliser reads as numbers (`timeoutMs`,
    `headerBackgroundColor`) are read with `as_u64`, which yields nothing
    for a float. */
module Json {
  import opened Wrappers

  datatype Json =
    | Null
    | Bool(b: bool)
    | Num(n: int)
    | Str(s: string)
    | Arr(items: seq<Json>)
    | Obj(fields: seq<(string, Json)>)

  const U64Bound: int := 0x1_0000_0000_0000_0000

  /** The value stored under `key` in an object's field list (the first one,
      should the list repeat a key). */
  function Lookup(fields: seq<(string, Json)>, key: string): Option<Json>
  {
    if |fields| == 0 then None
    else if fields[0].0 == key then Some(fields[0].1)
    else Lookup(fields[1..], key)
  }

  /** `Lookup` finds the first field named `key`, and nothing when there is
      none. */
  lemma {:induction false} LookupFinds(fields: seq<(string, Json)>, key: string)
    ensures Lookup(fields, key).None? <==> forall i :: 0 <= i < |fields| ==> fields[i].0 != key
    ensures Lookup(fields, key).Some? ==>
      exists i :: 0 <= i < |fields| && fields[i] == (key, Lookup(fields, key).value)
                  && forall j :: 0 <= j < i ==> fields[j].0 != key
  {
    if |fields| > 0 && fields[0].0 != key {
      LookupFinds(fields[1..], key);
      if Lookup(fields, key).Some? {
        var i :| 0 <= i < |fields[1..]| && fields[1..][i] == (key, Lookup(fields, key).value)
                  && forall j :: 0 <= j < i ==> fields[1..][j].0 != key;
        assert fields[i + 1] == (key, Lookup(fields, key).value);
        assert forall j :: 0 <= j < i + 1 ==> fields[j].0 != key by {
          forall j | 0 <= j < i + 1 ensures fields[j].0 != key {
            if j > 0 {
              assert fields[j] == fields[1..][j - 1];
            }
          }
        }
      } else {
        forall i | 0 <= i < |fields| ensures fields[i].0 != key {
          if i > 0 {
            assert fields[i] == fields[1..][i - 1];
          }
        }
      }
    } else if |fields| > 0 {
      assert fields[0] == (key, Lookup(fields, key).value);
    }
  }

  /** `v.get(key)`: present whenever `v` is an object holding `key`, even when
      the stored value is `null`. */
  function Get(v: Json, key: string): Option<Json>
  {
    match v
    case Obj(fields) => Lookup(fields, key)
    case _ => None
  }

  predicate Has(v: Json, key: string)
  {
    Get(v, key).Some?
  }

  /** `v[key]`: `Null` when `v` is not an object or lacks `key`. */
  function Field(v: Json, key: string): (r: Json)
    ensures Has(v, key) ==> r == Get(v, key).value
    ensures !Has(v, key) ==> r == Null
  {
    match Get(v, key)
    case Some(x) => x
    case None => Null
  }

  /** `v[i]`: `Null` when `v` is not an array or `i` is out of range. */
  function Elem(v: Json, i: nat): (r: Json)
    ensures v.Arr? && i < |v.items| ==> r == v.items[i]
    ensures !(v.Arr? && i < |v.items|) ==> r == Null
  {
    if v.Arr? && i < |v.items| then v.items[i] else Null
  }

  /** `v.as_str()` */
  function AsStr(v: Json): Option<string>
  {
    if v.Str? then Some(v.s) else None
  }

  /** `v.as_array()` */
  function AsArray(v: Json): Option<seq<Json>>
  {
    if v.Arr? then Some(v.items) else None
  }

  /** `v.as_u64()`: a non-negative integer that fits 64 bits. */
  function AsU64(v: Json): (r: Option<int>)
    ensures r.Some? ==> 0 <= r.value < U64Bound
    ensures r.Some? <==> v.Num? && 0 <= v.n < U64Bound
  {
    if v.Num? && 0 <= v.n < U64Bound then Some(v.n) else None
  }

  /** The items of `v` when it is an array, and no items otherwise; the shape
      of every `if let Some(xs) = v.as_array() { for x in xs { … } }`. */
  function ItemsOrEmpty(v: Json): (r: seq<Json>)
    ensures v.Arr? ==> r == v.items
    ensures !v.Arr? ==> r == []
  {
    if v.Arr? then v.items else []
  }
}
