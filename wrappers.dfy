/** Option, Result and Outcome: the shapes that stand in for Java's null returns and exceptions. */
module Wrappers {

  /** A value or Java's null. */
  datatype Option<+T> = None | Some(value: T)

  /** A returned value or a thrown exception, carrying the exception's message. */
  datatype Result<+T, +E> = Success(value: T) | Failure(error: E)

  /** A call that returns normally or throws; used for the veto checks. */
  datatype Outcome<+E> = Pass | Fail(error: E)

  /** m with k bound to v when there is a v, m itself otherwise. */
  function Associated<K, V>(m: map<K, V>, k: K, v: Option<V>): (r: map<K, V>)
    ensures v.None? ==> r == m
    ensures v.Some? ==> k in r && r[k] == v.value && r.Keys == m.Keys + {k}
    ensures forall j :: j in m && j != k ==> j in r && r[j] == m[j]
  {
    if v.Some? then m[k := v.value] else m
  }
}
