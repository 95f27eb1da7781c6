/** JSON values as they arrive in a request body and leave in a response body. */
module Json {
  import opened Wrappers

  /** A JSON value. Numbers are kept as integers: nothing in the server computes on them. */
  datatype Value =
    | JNull
    | JBool(b: bool)
    | JNumber(n: int)
    | JString(s: string)
    | JArray(items: seq<Value>)
    | JObject(fields: map<string, Value>)

  /** The value at key `k`, or None when the object has no such key. */
  function Lookup(o: map<string, Value>, k: string): (r: Option<Value>)
    ensures r.Some? <==> k in o
    ensures r.Some? ==> r.value == o[k]
  {
    if k in o then Some(o[k]) else None
  }

  /** The members of `o` whose key is one of `keys` (what a schema keeps of an object). */
  function Restrict(o: map<string, Value>, keys: set<string>): (r: map<string, Value>)
    ensures r.Keys == o.Keys * keys
    ensures forall k :: k in r ==> r[k] == o[k]
  {
    map k | k in o && k in keys :: o[k]
  }

  /** A list of strings as a JSON array. */
  function EncodeStrings(ss: seq<string>): (r: seq<Value>)
    ensures |r| == |ss|
    ensures forall i :: 0 <= i < |ss| ==> r[i] == JString(ss[i])
  {
    seq(|ss|, i requires 0 <= i < |ss| => JString(ss[i]))
  }

  /** The strings of a JSON array, or None when some element is not a string. */
  function DecodeStrings(items: seq<Value>): (r: Option<seq<string>>)
    ensures r.Some? <==> forall i :: 0 <= i < |items| ==> items[i].JString?
    ensures r.Some? ==> |r.value| == |items|
  {
    if forall i :: 0 <= i < |items| ==> items[i].JString? then
      Some(seq(|items|, i requires 0 <= i < |items| => items[i].s))
    else
      None
  }

  /** Decoding an encoded list gives the list back. */
  lemma StringsRoundTrip(ss: seq<string>)
    ensures DecodeStrings(EncodeStrings(ss)) == Some(ss)
  {
    var d := DecodeStrings(EncodeStrings(ss));
    assert d.Some?;
    assert d.value == ss;
  }

  /** An array of strings that decodes is exactly the encoding of what it decodes to. */
  lemma StringsExact(items: seq<Value>)
    requires DecodeStrings(items).Some?
    ensures EncodeStrings(DecodeStrings(items).value) == items
  {
    var e := EncodeStrings(DecodeStrings(items).value);
    assert |e| == |items|;
    forall i | 0 <= i < |items| ensures e[i] == items[i] {
    }
  }
}
