/** The JSON-shaped values the pipeline reads and writes: every sample is a
    Python dict from field names to these values, and the phenotype schema is
    one more value of the same shape. */
module Json {
  import opened Wrappers

  datatype Value =
    | Null
    | Bool(b: bool)
    | Int(i: int)
    | Str(s: string)
    | Arr(items: seq<Value>)
    | Obj(fields: map<string, Value>)

  /** A Python dict with string keys. */
  type Dict = map<string, Value>

  /** Python's `None if x is None else x` for an optional string. */
  function OfString(x: Option<string>): (v: Value)
    ensures v == Null <==> x == None
    ensures x.Some? ==> v == Str(x.value)
  {
    match x
    case None => Null
    case Some(s) => Str(s)
  }

  /** Python's `None if x is None else x` for an optional integer. */
  function OfInt(x: Option<int>): (v: Value)
    ensures v == Null <==> x == None
    ensures x.Some? ==> v == Int(x.value)
  {
    match x
    case None => Null
    case Some(n) => Int(n)
  }

  /** The value is an integer or None, the shape the schema gives to items,
      ages and scores. */
  predicate NullableInt(v: Value) {
    v.Null? || v.Int?
  }

  /** Reads a nullable integer as an Option. */
  function AsInt(v: Value): (r: Option<int>)
    requires NullableInt(v)
    ensures r == None <==> v == Null
    ensures OfInt(r) == v
  {
    if v.Int? then Some(v.i) else None
  }

  /** Every listed key is present in the dict and holds an integer or None. */
  predicate NumericAt(d: Dict, keys: seq<string>) {
    forall i :: 0 <= i < |keys| ==> keys[i] in d && NullableInt(d[keys[i]])
  }

  /** One key is present and holds an integer or None. */
  predicate NumAt(d: Dict, k: string) {
    k in d && NullableInt(d[k])
  }

  /** `d[k]` read as a nullable integer. */
  function Num(d: Dict, k: string): (r: Option<int>)
    requires NumAt(d, k)
    ensures OfInt(r) == d[k]
  {
    AsInt(d[k])
  }
}
