/** The JSON values (Newtonsoft `JToken`s) that command payloads carry. */
module Json {
  import opened Wrappers

  /** `JObject` keeps its properties in insertion order, as Newtonsoft does. */
  datatype Json =
    | JNull
    | JBool(b: bool)
    | JInt(i: int)
    | JNumber(r: real)
    | JString(s: string)
    | JArray(items: seq<Json>)
    | JObject(fields: seq<(string, Json)>)

  /** The value of the first property named `key`. */
  function Lookup(fields: seq<(string, Json)>, key: string): Option<Json>
  {
    if |fields| == 0 then None
    else if fields[0].0 == key then Some(fields[0].1)
    else Lookup(fields[1..], key)
  }

  /** `obj[key]` on a JSON object; nothing for any other value. */
  function Field(j: Json, key: string): Option<Json>
  {
    if j.JObject? then Lookup(j.fields, key) else None
  }

  /** A property is found by its name when no earlier property has that
      name. */
  lemma {:induction false} LookupFinds(fields: seq<(string, Json)>, i: nat)
    requires i < |fields|
    requires forall j :: 0 <= j < i ==> fields[j].0 != fields[i].0
    ensures Lookup(fields, fields[i].0) == Some(fields[i].1)
    decreases i
  {
    if i > 0 {
      forall j | 0 <= j < i - 1
        ensures fields[1..][j].0 != fields[1..][i - 1].0
      {
        assert fields[1..][j] == fields[j + 1];
      }
      LookupFinds(fields[1..], i - 1);
    }
  }
}
