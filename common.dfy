/**
 * Shared vocabulary of the digital-twin core: the dynamically typed values
 * stored in attributes, properties and message payloads, the abstract clock,
 * and the small result wrappers that stand for Go's `(value, ok)` pairs and
 * `error` returns.
 */
module Common {

  /** A Go `interface{}` value as the core uses it: only compared with `==`. */
  type Value(==)

  /** A reading of the wall clock (`time.Now()`); callers pass it in. */
  type Time = nat

  /** The `(value, ok)` pair of a Go map lookup. */
  datatype Option<T> = None | Some(value: T)

  /** A Go `error` return: `nil` is `Pass`. */
  datatype Outcome<E> = Pass | Fail(error: E)

  /** A Go `(value, error)` return. */
  datatype Result<T, E> = Ok(value: T) | Err(error: E)

  /** The lookup `v, ok := m[k]`. */
  function Lookup<K, V>(m: map<K, V>, k: K): (r: Option<V>)
    ensures r.Some? <==> k in m
    ensures r.Some? ==> r.value == m[k]
  {
    if k in m then Some(m[k]) else None
  }

  /**
   * The copy loop `for k, v := range m { r[k] = v }` into a fresh map; Go
   * visits the keys in an unspecified order, so each step picks any key
   * not yet copied.
   */
  method CopyMap<K, V>(m: map<K, V>) returns (r: map<K, V>)
    ensures r == m
  {
    r := map[];
    var rest := m.Keys;
    while rest != {}
      invariant rest <= m.Keys
      invariant r.Keys == m.Keys - rest
      invariant forall k :: k in r ==> r[k] == m[k]
      decreases rest
    {
      var k :| k in rest;
      r := r[k := m[k]];
      rest := rest - {k};
    }
  }

  /** `b := make([]T, len(a)); copy(b, a)`: a fresh array with the same elements. */
  method CopyArray<T(0)>(a: array<T>) returns (b: array<T>)
    ensures fresh(b)
    ensures b[..] == a[..]
  {
    b := new T[a.Length];
    var i := 0;
    while i < a.Length
      invariant 0 <= i <= a.Length
      invariant b[..i] == a[..i]
    {
      b[i] := a[i];
      i := i + 1;
    }
    assert b[..] == b[..a.Length];
  }
}
