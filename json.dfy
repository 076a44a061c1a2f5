/**
 The already-decoded JSON values the schema generator works on. A JSON
 object is kept as the sequence of its key/value pairs in the iteration
 order of the dictionary the decoder builds. The decoder keeps one entry
 per key, so such a sequence has distinct keys (`DistinctKeys`); the
 datatype does not enforce it, and the lemmas that need it require it.
 */
module Json {

  datatype Option<+T> = None | Some(value: T)

  /** A decoded JSON value. Whether a number literal became an integer or a
      float is the decoder's decision, so the two are separate constructors;
      a float's value plays no part and is not kept. */
  datatype JsonValue =
    | JNull
    | JBool(b: bool)
    | JInt(i: int)
    | JReal
    | JString(s: string)
    | JArray(elements: seq<JsonValue>)
    | JObject(members: seq<(string, JsonValue)>)

  /** No key occurs twice among the members, as in a dictionary. */
  predicate DistinctKeys(members: seq<(string, JsonValue)>)
  {
    forall i, j | 0 <= i < j < |members| :: members[i].0 != members[j].0
  }

  /** The value stored under `key`. A decoded object never repeats a key, so
      which of several equal keys is taken does not matter; this takes the first. */
  function Lookup(members: seq<(string, JsonValue)>, key: string): (r: Option<JsonValue>)
    ensures r.None? <==> forall i | 0 <= i < |members| :: members[i].0 != key
    ensures r.Some? ==> exists i | 0 <= i < |members| :: members[i] == (key, r.value)
  {
    if members == [] then None
    else if members[0].0 == key then Some(members[0].1)
    else
      var r := Lookup(members[1..], key);
      assert r.Some? ==> exists i | 0 <= i < |members[1..]| :: members[1..][i] == (key, r.value);
      r
  }

  /** With distinct keys the value found is the one at the key's only position. */
  lemma LookupAt(members: seq<(string, JsonValue)>, i: nat)
    requires DistinctKeys(members)
    requires i < |members|
    ensures Lookup(members, members[i].0) == Some(members[i].1)
  {
  }
}
