/**
 * The value conversions of the `put` overloads: how the elements of a Java
 * list become the elements of a JSON array.
 */
module Payload {
  import opened Wrappers
  import opened JsonValues

  /** The kinds of element a list handed to `put(String, ArrayList)` can hold. */
  datatype ListElement =
    | EnumConstant(text: string)    // an enum constant; `text` is what its toString() gives
    | ScriptObject(obj: Json)        // a JavaScriptObject
    | IntegerBox(i: int32)
    | StringValue(s: string)
    | BooleanBox(b: bool)
    | OtherObject                    // any other class: the loop sets nothing for it

  /**
   * The JSON value the loop body stores for one element, or None when none of
   * its tests succeeds. `convertToJson` stands for `JsonUtils.convertToJSON`.
   */
  function ElementToJson(e: ListElement, convertToJson: Json -> Json): (r: Option<Json>)
    ensures r.None? <==> e.OtherObject?
    ensures e.EnumConstant? ==> r == Some(JString(e.text))
    ensures e.ScriptObject? ==> r == Some(convertToJson(e.obj))
    ensures e.IntegerBox? ==> r == Some(JNumber(e.i as int as real))
    ensures e.StringValue? ==> r == Some(JString(e.s))
    ensures e.BooleanBox? ==> r == Some(JBool(e.b))
  {
    match e
    case EnumConstant(text) => Some(JString(text))
    case ScriptObject(obj) => Some(convertToJson(obj))
    case IntegerBox(i) => Some(JNumber(i as int as real))
    case StringValue(s) => Some(JString(s))
    case BooleanBox(b) => Some(JBool(b))
    case OtherObject => None
  }

  /** What a slot the loop never set reads as: `JSONArray.get` gives null for it. */
  function ElementOrHole(e: ListElement, convertToJson: Json -> Json): Json {
    match ElementToJson(e, convertToJson)
    case Some(v) => v
    case None => JNull
  }

  /**
   * `JSONArray.set(i, v)`: a JavaScript array assignment, which grows the
   * array to `i + 1` elements when `i` is past its end, leaving holes.
   */
  function SetIndex(a: seq<Json>, i: nat, v: Json): (r: seq<Json>)
    ensures |r| == if i < |a| then |a| else i + 1
    ensures r[i] == v
    ensures forall k :: 0 <= k < |r| && k != i ==> r[k] == if k < |a| then a[k] else JNull
  {
    if i < |a| then a[i := v] else a + seq(i - |a|, _ => JNull) + [v]
  }

  /** The array the loop of `put(String, ArrayList)` has built after the elements `d`. */
  function ToJsonArray(d: seq<ListElement>, convertToJson: Json -> Json): (r: seq<Json>)
    ensures |r| <= |d|
    ensures forall i :: 0 <= i < |r| ==> r[i] == ElementOrHole(d[i], convertToJson)
    ensures forall i :: |r| <= i < |d| ==> d[i].OtherObject?
    ensures |r| > 0 ==> !d[|r| - 1].OtherObject?
  {
    if d == [] then []
    else
      var a := ToJsonArray(d[..|d| - 1], convertToJson);
      match ElementToJson(d[|d| - 1], convertToJson)
      case Some(v) => SetIndex(a, |d| - 1, v)
      case None => a
  }

  /** All elements of a supported kind: the array has one element per list element, in order. */
  lemma ToJsonArrayOfSupported(d: seq<ListElement>, convertToJson: Json -> Json)
    requires forall i :: 0 <= i < |d| ==> !d[i].OtherObject?
    ensures |ToJsonArray(d, convertToJson)| == |d|
    ensures forall i :: 0 <= i < |d| ==> Some(ToJsonArray(d, convertToJson)[i]) == ElementToJson(d[i], convertToJson)
  {
  }
}
