/** The `properties` dict both schema builders fill: a Python dict, so its
    keys keep their insertion order, which the `required` list of the
    printed schema reproduces. */
module SchemaDict {
  import opened Json

  /** The entries and the keys in insertion order. */
  datatype Schema = Schema(properties: map<string, Value>, keys: seq<string>)

  const EMPTY: Schema := Schema(map[], [])

  /** `properties[k] = v`: a new key goes to the end of the order, an
      existing one keeps its place. */
  function Put(s: Schema, k: string, v: Value): Schema {
    Schema(s.properties[k := v], if k in s.properties then s.keys else s.keys + [k])
  }

  /** The order lists every key exactly once. */
  predicate Listed(s: Schema) {
    (forall i :: 0 <= i < |s.keys| ==> s.keys[i] in s.properties) &&
    (forall k :: k in s.properties ==> k in s.keys) &&
    (forall i, j :: 0 <= i < j < |s.keys| ==> s.keys[i] != s.keys[j])
  }

  /** An assignment keeps the order a listing of the keys and only ever
      appends to it. */
  lemma {:induction false} PutListed(s: Schema, k: string, v: Value)
    requires Listed(s)
    ensures Listed(Put(s, k, v))
    ensures s.keys <= Put(s, k, v).keys
  {
  }

  /** The printed schema: the properties, no additional properties, and
      every key required, in insertion order. */
  function Output(s: Schema): Value {
    Obj(map[
      "properties" := Obj(s.properties),
      "additionalProperties" := Bool(false),
      "required" := Arr(seq(|s.keys|, i requires 0 <= i < |s.keys| => Str(s.keys[i])))])
  }

  /** `required` names each property once and nothing else. */
  lemma {:induction false} OutputRequired(s: Schema)
    requires Listed(s)
    ensures Output(s).fields["required"].items == seq(|s.keys|, i requires 0 <= i < |s.keys| => Str(s.keys[i]))
    ensures forall k :: Str(k) in Output(s).fields["required"].items <==> k in s.properties
    ensures forall i, j :: 0 <= i < j < |s.keys| ==> Output(s).fields["required"].items[i] != Output(s).fields["required"].items[j]
  {
    var items := Output(s).fields["required"].items;
    forall k | Str(k) in items ensures k in s.properties {
      var i :| 0 <= i < |items| && items[i] == Str(k);
      assert s.keys[i] == k;
    }
    forall k | k in s.properties ensures Str(k) in items {
      var i :| 0 <= i < |s.keys| && s.keys[i] == k;
      assert items[i] == Str(k);
    }
  }
}
