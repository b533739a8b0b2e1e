/** Texts in ascending order of their code points. */
module Ordering {

  predicate AtMost(a: string, b: string) {
    a == "" || (b != "" && (a[0] < b[0] || (a[0] == b[0] && AtMost(a[1..], b[1..]))))
  }

  lemma AtMostIsTotal(a: string, b: string)
    ensures AtMost(a, b) || AtMost(b, a)
  {
  }

  predicate Ascending(keys: seq<string>) {
    forall i | 0 < i < |keys| :: AtMost(keys[i - 1], keys[i])
  }

  function Inserted(key: string, keys: seq<string>): (r: seq<string>)
    requires Ascending(keys)
    ensures Ascending(r) && multiset(r) == multiset(keys) + multiset{key}
    ensures r[0] == key || (keys != [] && r[0] == keys[0])
  {
    if keys == [] || AtMost(key, keys[0]) then [key] + keys
    else
      AtMostIsTotal(key, keys[0]);
      assert keys == [keys[0]] + keys[1..];
      [keys[0]] + Inserted(key, keys[1..])
  }

  function Sorted(keys: seq<string>): (r: seq<string>)
    ensures Ascending(r) && multiset(r) == multiset(keys)
  {
    if keys == [] then []
    else
      assert keys == [keys[0]] + keys[1..];
      Inserted(keys[0], Sorted(keys[1..]))
  }

  lemma SortedHasTheSame(keys: seq<string>)
    ensures forall key :: key in Sorted(keys) <==> key in keys
  {
    assert forall key :: key in keys <==> key in multiset(keys);
    assert forall key :: key in Sorted(keys) <==> key in multiset(Sorted(keys));
  }
}
