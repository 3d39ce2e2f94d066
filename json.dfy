/**
 * Decoded JSON as Go's encoding/json hands it to `map[string]interface{}`:
 * `null` is a nil interface, arrays are `[]interface{}`, objects are maps.
 */
module Json {

  datatype Json =
    | JNull
    | JBool(b: bool)
    | JNumber(n: int)
    | JString(s: string)
    | JArray(items: seq<Json>)
    | JObject(fields: map<string, Json>)

  /** A JSON array every element of which is a string. */
  predicate IsStringArray(j: Json) {
    j.JArray? && forall i :: 0 <= i < |j.items| ==> j.items[i].JString?
  }

  /** The strings held by an array of JSON strings, in order. */
  function Strings(items: seq<Json>): (r: seq<string>)
    requires forall i :: 0 <= i < |items| ==> items[i].JString?
    ensures |r| == |items|
    ensures forall i :: 0 <= i < |r| ==> items[i] == JString(r[i])
  {
    if items == [] then [] else [items[0].s] + Strings(items[1..])
  }

  /** How encoding/json writes a non-nil `[]string`. */
  function StringArray(xs: seq<string>): (r: Json)
    ensures IsStringArray(r)
    ensures |r.items| == |xs|
    ensures forall i :: 0 <= i < |xs| ==> r.items[i] == JString(xs[i])
  {
    JArray(seq(|xs|, i requires 0 <= i < |xs| => JString(xs[i])))
  }

  /** Reading back a written string array gives the same strings in the same order. */
  lemma {:induction false} StringsOfStringArray(xs: seq<string>)
    ensures Strings(StringArray(xs).items) == xs
  {
    var ys := Strings(StringArray(xs).items);
    assert |ys| == |xs|;
    forall i | 0 <= i < |xs| ensures ys[i] == xs[i] {
      assert StringArray(xs).items[i] == JString(ys[i]);
    }
  }
}
