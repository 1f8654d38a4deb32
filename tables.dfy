/**
 * Keyed tables as the routes and the editor write them: an object literal
 * mapping string keys to values, indexed with `table[key]`. A table is
 * the list of its entries in declaration order.
 */
module Tables {
  import opened Wrappers

  /** `table[key]`: the entry's value when some entry has that key, nothing otherwise. */
  function Find<V>(table: seq<(string, V)>, key: string): (r: Option<V>)
    ensures r.Some? <==> exists i :: 0 <= i < |table| && table[i].0 == key
    ensures r.Some? ==> (key, r.value) in table
  {
    if table == [] then None
    else if table[0].0 == key then Some(table[0].1)
    else Find(table[1..], key)
  }

  /** No key occurs twice (the literals modelled here do not repeat a key). */
  predicate DistinctKeys<V>(table: seq<(string, V)>)
  {
    forall i, j :: 0 <= i < j < |table| ==> table[i].0 != table[j].0
  }

  /** With distinct keys, each entry is what its own key finds. */
  lemma {:induction false} FindAt<V>(table: seq<(string, V)>, i: nat)
    requires DistinctKeys(table) && i < |table|
    ensures Find(table, table[i].0) == Some(table[i].1)
  {
    if i > 0 {
      FindAt(table[1..], i - 1);
    }
  }

  /** The first entry with a key is what that key finds. */
  lemma {:induction false} FindFirst<V>(table: seq<(string, V)>, i: nat)
    requires i < |table|
    requires forall j :: 0 <= j < i ==> table[j].0 != table[i].0
    ensures Find(table, table[i].0) == Some(table[i].1)
  {
    if i > 0 {
      FindFirst(table[1..], i - 1);
    }
  }
}
