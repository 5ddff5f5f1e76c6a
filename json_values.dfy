/**
 * JSON values as the client handles them: the payload it builds, the values
 * it parses from responses and the error objects it hands to the event sink.
 * A Java `null` JavaScriptObject is represented by `JNull`.
 */
module JsonValues {

  /** Java's 32-bit `int`, the parameter type of `put(String, int)`. */
  newtype int32 = x: int | -0x8000_0000 <= x < 0x8000_0000

  datatype Json =
    | JNull
    | JBool(b: bool)
    | JNumber(n: real)
    | JString(s: string)
    | JArray(elems: seq<Json>)
    | JObject(fields: map<string, Json>)

  /**
   * The property `key` of `j` as an overlay getter reads it: a missing
   * property, or any property of a value that is not an object, reads as null.
   */
  function Field(j: Json, key: string): (v: Json)
    ensures v != JNull ==> j.JObject? && key in j.fields && v == j.fields[key]
    ensures j.JObject? && key in j.fields ==> v == j.fields[key]
  {
    if j.JObject? && key in j.fields then j.fields[key] else JNull
  }

  /** The property `key` reads as something other than null. */
  predicate Present(j: Json, key: string) {
    Field(j, key) != JNull
  }

  /** Assigns property `key` of an object, as an overlay setter does. */
  function SetField(j: Json, key: string, v: Json): (r: Json)
    requires j.JObject?
    ensures Field(r, key) == v
    ensures forall k :: k != key ==> Field(r, k) == Field(j, k)
    ensures r.JObject? && r.fields.Keys == j.fields.Keys + {key}
  {
    JObject(j.fields[key := v])
  }
}
