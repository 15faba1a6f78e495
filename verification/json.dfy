/** The decoded JSON tree the resolver starts from: what Go's
    `json.Unmarshal` into `interface{}` produces. Objects are kept as lists of
    members; Go's decoder yields a map with distinct keys, so looking up the
    first member with a key is the map lookup. Numbers are decoded as Go
    `float64` and are kept as reals. */
module Json {
  import opened Wrappers

  datatype Json =
    | JNull
    | JBool(b: bool)
    | JNumber(n: real)
    | JString(s: string)
    | JArray(items: seq<Json>)
    | JObject(members: seq<Member>)

  datatype Member = Member(key: string, value: Json)

  /** Number of nodes in a tree: the termination measure of every resolver. */
  function Size(j: Json): nat
  {
    match j
    case JArray(items) => 1 + ItemsSize(items)
    case JObject(members) => 1 + MembersSize(members)
    case _ => 1
  }

  function ItemsSize(items: seq<Json>): nat
  {
    if |items| == 0 then 0 else Size(items[0]) + ItemsSize(items[1..])
  }

  function MembersSize(members: seq<Member>): nat
  {
    if |members| == 0 then 0 else Size(members[0].value) + MembersSize(members[1..])
  }

  /** The value of the first member named `key`, if there is one. */
  function Lookup(members: seq<Member>, key: string): (r: Option<Json>)
    ensures r.Some? ==> Size(r.value) < MembersSize(members) + 1
    ensures r.Some? <==> exists i | 0 <= i < |members| :: members[i].key == key
  {
    if |members| == 0 then None
    else if members[0].key == key then Some(members[0].value)
    else
      var r := Lookup(members[1..], key);
      assert forall i | 1 <= i < |members| :: members[i] == members[1..][i - 1];
      r
  }

  /** Go's `m[key]` on a decoded object: `None` is Go's nil for a missing
      key (and for a value that is not an object at all). */
  function Get(j: Json, key: string): (r: Option<Json>)
    ensures r.Some? ==> Size(r.value) < Size(j)
    ensures r.Some? ==> j.JObject?
  {
    if j.JObject? then Lookup(j.members, key) else None
  }

  /** Go's `m[key] == nil`: the key is missing or holds JSON `null`. */
  predicate IsNil(j: Json, key: string)
  {
    Get(j, key).None? || Get(j, key).value.JNull?
  }

  /** The first element of an array is smaller than the array's contents, and
      so is the rest of it. */
  lemma ItemsSizeSplit(items: seq<Json>)
    requires |items| > 0
    ensures Size(items[0]) <= ItemsSize(items)
    ensures ItemsSize(items[1..]) < ItemsSize(items)
  {
  }
}
