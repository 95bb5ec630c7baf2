/** Small definitions several models share. */
module Basics {

  datatype Option<T> = None | Some(value: T)

  function Min(a: nat, b: nat): nat {
    if a < b then a else b
  }

  function Pow2(n: nat): (r: nat)
    ensures r >= 1
  {
    if n == 0 then 1 else 2 * Pow2(n - 1)
  }

  /** The newest number noted for a key, zero if none was. */
  function At(m: map<nat, nat>, key: nat): nat {
    if key in m then m[key] else 0
  }

  function Raise(m: map<nat, nat>, key: nat, n: nat): (r: map<nat, nat>)
    ensures forall k :: At(r, k) == if k == key && At(m, k) < n then n else At(m, k)
  {
    m[key := if At(m, key) > n then At(m, key) else n]
  }
}
