/** Identifiers, results and the few collection facts every other module uses. */
module Base {

  /** Ids, names and text are opaque tokens: the code only compares them and asks
      whether they are blank.  0 is the empty string, a negative number is another
      blank string, a positive number is a substantive one. */
  type Id = int

  const EMPTY: Id := 0

  /** `bool(text)` */
  predicate Truthy(x: Id) { x != EMPTY }

  /** `bool(text.strip())` */
  predicate Substantive(x: Id) { 0 < x }

  datatype Option<+T> = None | Some(value: T)

  /** `bool(text)` for a text that may be None */
  predicate Present(x: Option<Id>) { x.Some? && Truthy(x.value) }

  datatype Result<+T, +E> = Ok(value: T) | Err(error: E) {
    predicate IsFailure() { Err? }
    function PropagateFailure<U>(): Result<U, E> requires Err? { Err(error) }
    function Extract(): T requires Ok? { value }
  }

  ghost predicate NoDuplicates<T>(s: seq<T>) {
    forall i, j :: 0 <= i < j < |s| ==> s[i] != s[j]
  }

  function Last<T>(s: seq<T>): T requires s != [] { s[|s| - 1] }

  function Elements<T>(s: seq<T>): set<T> { set x | x in s }

  /** The sum of a map's values. */
  ghost function Sum<K(!new)>(m: map<K, nat>): nat
    decreases |m|
  {
    if m == map[] then 0
    else
      var k :| k in m;
      m[k] + Sum(m - {k})
  }

  lemma SumRemove<K(!new)>(m: map<K, nat>, k: K)
    requires k in m
    ensures Sum(m) == m[k] + Sum(m - {k})
    decreases |m|
  {
    var p :| p in m && Sum(m) == m[p] + Sum(m - {p});
    if p != k {
      SumRemove(m - {p}, k);
      SumRemove(m - {k}, p);
      assert m - {p} - {k} == m - {k} - {p};
    }
  }

  /** Pointwise no larger means no larger a sum, and strictly smaller if some entry is. */
  lemma SumMonotone<K(!new)>(a: map<K, nat>, b: map<K, nat>)
    requires a.Keys == b.Keys
    requires forall k :: k in a ==> a[k] <= b[k]
    ensures Sum(a) <= Sum(b)
    ensures (exists k :: k in a && a[k] < b[k]) ==> Sum(a) < Sum(b)
    decreases |a|
  {
    if a == map[] {
      assert b == map[];
    } else {
      var k :| k in a && ((exists j :: j in a && a[j] < b[j]) ==> a[k] < b[k]);
      SumRemove(a, k);
      SumRemove(b, k);
      SumMonotone(a - {k}, b - {k});
    }
  }
}
