/** JSON values as the Python code handles them (dicts keep insertion order). */
module Json {
  import opened Wrappers

  datatype Json =
    | JNull
    | JBool(b: bool)
    | JInt(i: int)
    | JString(s: string)
    | JArray(items: seq<Json>)
    | JObject(fields: seq<(string, Json)>)

  /** `obj.get(key)`: the value under the first occurrence of `key`, if any. */
  function Field(j: Json, key: string): (r: Option<Json>)
    ensures r.Some? ==> j.JObject? && exists k :: 0 <= k < |j.fields| && j.fields[k] == (key, r.value)
    ensures j.JObject? && |j.fields| > 0 && j.fields[0].0 == key ==> r == Some(j.fields[0].1)
    decreases if j.JObject? then |j.fields| else 0
  {
    if !j.JObject? || |j.fields| == 0 then None
    else if j.fields[0].0 == key then Some(j.fields[0].1)
    else
      var rest := Field(JObject(j.fields[1..]), key);
      assert rest.Some? ==> exists k :: 0 <= k < |j.fields| - 1 && j.fields[1..][k] == (key, rest.value);
      rest
  }

  /** A list of strings as a JSON array of strings. */
  function Strings(ss: seq<string>): (r: seq<Json>)
    ensures |r| == |ss|
    ensures forall k :: 0 <= k < |ss| ==> r[k] == JString(ss[k])
  {
    if ss == [] then [] else [JString(ss[0])] + Strings(ss[1..])
  }

  /** Reads a JSON array of strings back, failing on any non-string item. */
  function StringsFrom(items: seq<Json>): (r: Option<seq<string>>)
    ensures r.Some? ==> |r.value| == |items|
  {
    if items == [] then Some([])
    else if !items[0].JString? then None
    else match StringsFrom(items[1..])
      case None => None
      case Some(rest) => Some([items[0].s] + rest)
  }

  lemma {:induction false} StringsRoundTrip(ss: seq<string>)
    ensures StringsFrom(Strings(ss)) == Some(ss)
  {
    if ss != [] {
      StringsRoundTrip(ss[1..]);
      assert Strings(ss)[1..] == Strings(ss[1..]);
      assert [ss[0]] + ss[1..] == ss;
    }
  }
}
