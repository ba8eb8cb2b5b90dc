/** A JSON value as the json crate builds it; an object keeps its keys in insertion order. */
module Json {
  import opened Wrappers

  datatype JsonValue =
    | Null
    | Boolean(b: bool)
    | Number(n: int)
    | String(str: string)
    | Array(items: seq<JsonValue>)
    | Object(fields: seq<(string, JsonValue)>)

  /** The keys of an object's fields, in order. */
  function Keys(fields: seq<(string, JsonValue)>): (ks: seq<string>)
    ensures |ks| == |fields|
    ensures forall k :: 0 <= k < |fields| ==> ks[k] == fields[k].0
  {
    seq(|fields|, k requires 0 <= k < |fields| => fields[k].0)
  }

  /** The value of the first field named key. */
  function Lookup(fields: seq<(string, JsonValue)>, key: string): Option<JsonValue>
  {
    if fields == [] then None
    else if fields[0].0 == key then Some(fields[0].1)
    else Lookup(fields[1..], key)
  }

  /** Lookup finds a value exactly for the keys present, and what it finds is stored under that key. */
  lemma {:induction false} LookupSound(fields: seq<(string, JsonValue)>, key: string)
    ensures Lookup(fields, key).None? <==> key !in Keys(fields)
    ensures Lookup(fields, key).Some? ==> (key, Lookup(fields, key).value) in fields
    decreases |fields|
  {
    if fields != [] && fields[0].0 != key {
      LookupSound(fields[1..], key);
      assert Keys(fields) == [fields[0].0] + Keys(fields[1..]);
    }
  }

  /** The value under key in an object, or None for a missing key or a non-object. */
  function Get(j: JsonValue, key: string): Option<JsonValue>
  {
    if j.Object? then Lookup(j.fields, key) else None
  }
}
