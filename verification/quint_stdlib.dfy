/** The helpers generated Rust contracts call for Quint's built-in
    operators (rust/src/contract/quint_stdlib.rs). Rust's `HashSet` and
    `HashMap` are Dafny's `set` and `map`; the helpers that clone and
    mutate return a new value and leave their argument alone, which is what
    a value-level model gives for free. */
module QuintStdlib {

  /** Rust's `i32`. */
  type I32 = i: int | -0x8000_0000 <= i < 0x8000_0000

  const I32Min: int := -0x8000_0000

  /** `require(cond)`: the condition itself. */
  function Require(cond: bool): (r: bool)
    ensures r <==> cond
  {
    cond
  }

  /** `requires(cond, error)`: no message when the condition holds, the
      given message otherwise. */
  function Requires(cond: bool, error: string): (r: string)
    ensures cond ==> r == ""
    ensures !cond ==> r == error
  {
    if cond then "" else error
  }

  /** `max(i, j)`. */
  function Max(i: I32, j: I32): (r: I32)
    ensures r >= i && r >= j
    ensures r == i || r == j
  {
    if i > j then i else j
  }

  /** `abs(i)`, Rust's `i32::abs`, which overflows on `i32::MIN`. */
  function Abs(i: I32): (r: I32)
    requires i != I32Min
    ensures r >= 0
    ensures r == i || r == -i
  {
    if i < 0 then -i else i
  }

  /** `setRemove(set, elem)`: a copy of the set without the element. */
  function SetRemove<T>(s: set<T>, elem: T): (r: set<T>)
    ensures elem !in r
    ensures r <= s && r + {elem} == s + {elem}
  {
    s - {elem}
  }

  /** `has(map, key)`. */
  function Has<K, V>(m: map<K, V>, key: K): (r: bool)
    ensures r <==> key in m
  {
    key in m
  }

  /** `getOrElse(map, key, default)`. */
  function GetOrElse<K, V>(m: map<K, V>, key: K, default: V): (r: V)
    ensures key in m ==> r == m[key]
    ensures key !in m ==> r == default
  {
    if key in m then m[key] else default
  }

  /** `mapRemove(map, key)`: a copy of the map without the key. */
  function MapRemove<K, V>(m: map<K, V>, key: K): (r: map<K, V>)
    ensures r.Keys == m.Keys - {key}
    ensures forall k | k in r :: r[k] == m[k]
  {
    m - {key}
  }

  /** What `mapRemoveAll(map, keys)` computes: the entries of the map whose
      key is not among `keys`, with their values. */
  function Without<K, V>(m: map<K, V>, keys: set<K>): map<K, V>
  {
    map k | k in m && k !in keys :: m[k]
  }

  /** `mapRemoveAll(map, keys)`: the loop that removes the keys one at a
      time from a copy of the map, in the set's (arbitrary) iteration
      order. */
  method MapRemoveAll<K, V>(m: map<K, V>, keys: set<K>) returns (r: map<K, V>)
    ensures r.Keys == m.Keys - keys
    ensures forall k | k in r :: r[k] == m[k]
    ensures r == Without(m, keys)
  {
    r := m;
    var remaining := keys;
    while remaining != {}
      invariant remaining <= keys
      invariant r.Keys == m.Keys - (keys - remaining)
      invariant forall k | k in r :: r[k] == m[k]
      decreases remaining
    {
      var key :| key in remaining;
      r := MapRemove(r, key);
      remaining := remaining - {key};
    }
  }

  /** Removing an element that is not there gives back an equal set. */
  lemma SetRemoveAbsent<T>(s: set<T>, elem: T)
    requires elem !in s
    ensures SetRemove(s, elem) == s
  {
  }

  /** Keys that are not in the map have no effect on `mapRemoveAll`. */
  lemma {:induction false} WithoutAbsentKeys<K, V>(m: map<K, V>, keys: set<K>, absent: set<K>)
    requires forall k | k in absent :: k !in m
    ensures Without(m, keys + absent) == Without(m, keys)
  {
  }

  /** `mapRemove` is `mapRemoveAll` with a single key. */
  lemma MapRemoveIsWithoutOne<K, V>(m: map<K, V>, key: K)
    ensures MapRemove(m, key) == Without(m, {key})
  {
  }

  /** `requires` with a non-empty message is `require` that also says
      why: it answers the empty message exactly when `require` holds. */
  lemma RequiresAgreesWithRequire(cond: bool, error: string)
    requires error != ""
    ensures Requires(cond, error) == "" <==> Require(cond)
    ensures !Require(cond) ==> Requires(cond, error) == error
  {
  }

  /** After `mapRemove(m, k)`, `has` holds for every key of `m` but `k`. */
  lemma HasAfterMapRemove<K, V>(m: map<K, V>, key: K, other: K)
    ensures Has(MapRemove(m, key), other) <==> other != key && Has(m, other)
  {
  }

  /** `getOrElse` looks at its default exactly when `has` fails: two
      different defaults give the same answer exactly for keys of the map. */
  lemma GetOrElseDefaultUnused<K, V>(m: map<K, V>, key: K, default: V, default': V)
    requires default != default'
    ensures Has(m, key) <==> GetOrElse(m, key, default) == GetOrElse(m, key, default')
    ensures !Has(m, key) ==> GetOrElse(m, key, default) == default
  {
  }

  /** After `mapRemoveAll(m, keys)`, `getOrElse` falls back to the default
      on the removed keys and answers as before on all others. */
  lemma GetOrElseWithout<K, V>(m: map<K, V>, keys: set<K>, key: K, default: V)
    ensures GetOrElse(Without(m, keys), key, default) == if key in keys then default else GetOrElse(m, key, default)
  {
  }

  /** The unit tests of the Rust module, as facts about the model. */
  lemma MaxExamples()
    ensures Max(3, 4) == 4 && Max(6, 3) == 6 && Max(10, 10) == 10
    ensures Max(-3, -5) == -3 && Max(-5, -3) == -3
  {
  }

  lemma AbsExamples()
    ensures Abs(3) == 3 && Abs(-3) == 3 && Abs(0) == 0
  {
  }

  lemma RequireExamples()
    ensures Require(4 > 3) && !Require(false)
    ensures Requires(4 > 3, "4 > 3") == "" && Requires(4 < 3, "false: 4 < 3") == "false: 4 < 3"
  {
  }

  lemma SetRemoveExamples(empty: set<int>)
    requires empty == {}
    ensures SetRemove({2, 3, 4}, 3) == {2, 4}
    ensures SetRemove(empty, 3) == {}
  {
  }

  lemma HasExamples()
    ensures Has(map[2 := 3, 4 := 5], 2) && !Has(map[2 := 3, 4 := 5], 6)
  {
  }

  lemma GetOrElseExamples()
    ensures GetOrElse(map[2 := 3, 4 := 5], 2, 0) == 3 && GetOrElse(map[2 := 3, 4 := 5], 7, 11) == 11
  {
  }

  lemma MapRemoveExamples()
    ensures MapRemove(map[3 := 4, 5 := 6, 7 := 8], 5) == map[3 := 4, 7 := 8]
  {
  }

  /** What `mapRemoveAll` returns on the test inputs. */
  lemma MapRemoveAllExamples()
    ensures Without(map[3 := 4, 5 := 6, 7 := 8], {5, 7}) == map[3 := 4]
    ensures Without(map[3 := 4, 5 := 6, 7 := 8], {5, 99999}) == map[3 := 4, 7 := 8]
  {
  }
}
