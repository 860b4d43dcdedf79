/**
 * The lookup a document query performs on an in-memory collection
 * (`findById`, `findOne({ email })`): the first row whose key equals the
 * queried value.
 */
module Search {
  import opened Wrappers

  /** The first row of `rows` whose `key` is `k`, or `None` when no row has it. */
  function FirstWhere<T, K(==)>(rows: seq<T>, key: T -> K, k: K): (r: Option<T>)
    ensures r.Some? ==> r.value in rows && key(r.value) == k
    ensures r.None? <==> forall i :: 0 <= i < |rows| ==> key(rows[i]) != k
    ensures r.Some? ==> exists i :: 0 <= i < |rows| && rows[i] == r.value
                          && forall j :: 0 <= j < i ==> key(rows[j]) != k
  {
    if rows == [] then None
    else if key(rows[0]) == k then Some(rows[0])
    else
      var rest := FirstWhere(rows[1..], key, k);
      assert forall i :: 1 <= i < |rows| ==> rows[i] == rows[1..][i - 1];
      rest
  }
}
