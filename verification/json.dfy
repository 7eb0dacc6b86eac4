/**
 * A JSON value tree, the shape a plan node is written to and read from.
 * An object keeps its members in the order they were written.
 */
module Json {
  import opened Wrappers

  datatype Json =
    | JNull
    | JBool(b: bool)
    | JInt(n: int)
    | JString(s: string)
    | JArray(items: seq<Json>)
    | JObject(members: seq<(string, Json)>)

  /** The position of the first member named `key`, if there is one. */
  function FindKey(members: seq<(string, Json)>, key: string): (r: Option<nat>)
    ensures r.Some? ==> r.value < |members| && members[r.value].0 == key
    ensures r.Some? ==> forall j :: 0 <= j < r.value ==> members[j].0 != key
    ensures r.None? <==> forall j :: 0 <= j < |members| ==> members[j].0 != key
  {
    if members == [] then None
    else if members[0].0 == key then Some(0)
    else
      match FindKey(members[1..], key)
      case None => None
      case Some(i) => Some(i + 1)
  }

  /** The value of the member named `key`; None when the object has no such member. */
  function Get(members: seq<(string, Json)>, key: string): (r: Option<Json>)
    ensures r.Some? <==> exists j :: 0 <= j < |members| && members[j].0 == key
  {
    match FindKey(members, key)
    case None => None
    case Some(i) => Some(members[i].1)
  }

  /** `isNull(key)`: the member is missing or holds null. */
  predicate IsNull(members: seq<(string, Json)>, key: string) {
    Get(members, key) == None || Get(members, key) == Some(JNull)
  }

  /** The member names are pairwise different. */
  predicate DistinctKeys(members: seq<(string, Json)>) {
    forall i, j :: 0 <= i < j < |members| ==> members[i].0 != members[j].0
  }

  /** In an object whose names are distinct, each member is found by its own name. */
  lemma GetDistinct(members: seq<(string, Json)>, i: nat)
    requires DistinctKeys(members) && i < |members|
    ensures FindKey(members, members[i].0) == Some(i)
    ensures Get(members, members[i].0) == Some(members[i].1)
  {
    var r := FindKey(members, members[i].0);
    assert r.Some?;
    assert r.value == i;
  }
}
