/** The part of serde_json's `Value` that request bodies are built from:
    null, strings, arrays and objects (numbers and booleans never occur in
    a request body and are left out). An object is an unordered map from
    key to value, so the order in which keys are printed is not modelled. */
module Json {
  import opened Wrappers

  datatype Value =
    | JNull
    | JString(s: string)
    | JArray(items: seq<Value>)
    | JObject(fields: map<string, Value>)

  /** serde_json's `as_object_mut`: the key-value map of an object, and
      nothing for any other kind of value. */
  function AsObject(v: Value): (r: Option<map<string, Value>>)
    ensures r.Some? <==> v.JObject?
    ensures r.Some? ==> r.value == v.fields
  {
    match v
    case JObject(fields) => Some(fields)
    case _ => None
  }

  /** serde_json's conversion of a slice of strings into a value's items:
      one JSON string per element, in the same order. */
  function FromStrings(xs: seq<string>): (items: seq<Value>)
    ensures |items| == |xs|
    ensures forall i :: 0 <= i < |xs| ==> items[i] == JString(xs[i])
  {
    if xs == [] then [] else [JString(xs[0])] + FromStrings(xs[1..])
  }

  /** The strings carried by an array's items, or nothing when some item
      is not a string. The inverse of FromStrings. */
  function AsStrings(items: seq<Value>): (r: Option<seq<string>>)
  {
    if items == [] then Some([])
    else match items[0]
      case JString(s) =>
        (match AsStrings(items[1..])
         case Some(rest) => Some([s] + rest)
         case None => None)
      case _ => None
  }

  /** The array built from a list of strings gives back exactly that list. */
  lemma {:induction false} AsStringsFromStrings(xs: seq<string>)
    ensures AsStrings(FromStrings(xs)) == Some(xs)
  {
    if xs != [] {
      var items := FromStrings(xs);
      AsStringsFromStrings(xs[1..]);
      assert items[0] == JString(xs[0]);
      assert items[1..] == FromStrings(xs[1..]);
      assert [xs[0]] + xs[1..] == xs;
    }
  }

  /** Every all-string item list is the conversion of the list it carries,
      so FromStrings loses nothing and builds every such list. */
  lemma {:induction false} FromStringsAsStrings(items: seq<Value>, xs: seq<string>)
    requires AsStrings(items) == Some(xs)
    ensures FromStrings(xs) == items
  {
    if items != [] {
      var rest :| AsStrings(items[1..]) == Some(rest) && xs == [items[0].s] + rest;
      FromStringsAsStrings(items[1..], rest);
      assert xs[1..] == rest;
    }
  }
}
