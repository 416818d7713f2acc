/**
 * The shape shared by every "first one wins" scan in the scraper: positions
 * are tried in increasing order and the first that passes a test is taken.
 */
module Scan {
  import opened Wrappers

  /** The first position `j` with `i <= j < n` that passes `test`. */
  function FirstWhere(test: nat -> bool, n: nat, i: nat): (r: Option<nat>)
    requires i <= n
    ensures r.Some? ==> i <= r.value < n && test(r.value)
    ensures r.Some? ==> forall j :: i <= j < r.value ==> !test(j)
    ensures r.None? ==> forall j :: i <= j < n ==> !test(j)
    decreases n - i
  {
    if i == n then None
    else if test(i) then Some(i)
    else FirstWhere(test, n, i + 1)
  }

  /** A position that passes, with none passing before it, is the one found. */
  lemma FirstWhereIs(test: nat -> bool, n: nat, i: nat, k: nat)
    requires i <= k < n && test(k)
    requires forall j :: i <= j < k ==> !test(j)
    ensures FirstWhere(test, n, i) == Some(k)
  {
    var r := FirstWhere(test, n, i);
    assert r.Some?;
    assert !(r.value < k) && !(k < r.value);
  }
}
