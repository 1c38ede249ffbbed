/** Vocabulary shared by every component of the backend model. */
module Trading {

  /** Row ids, idempotency keys and broker order ids. Only equality matters. */
  type Id = string

  /** Upstox instrument keys. */
  type Key = string

  datatype Option<+T> = None | Some(value: T)

  datatype Side = BUY | SELL

  function Opposite(side: Side): Side {
    if side == BUY then SELL else BUY
  }

  /** `+1` for a long (BUY-entry) lot, `-1` for a short one. */
  function Sign(side: Side): real {
    if side == SELL then -1.0 else 1.0
  }

  function Signed(side: Side, quantity: int): int {
    if side == BUY then quantity else -quantity
  }

  function Min(a: int, b: int): int { if a <= b then a else b }

  function Max(a: int, b: int): int { if a >= b then a else b }

  function Abs(a: int): int { if a >= 0 then a else -a }

  function MaxReal(a: real, b: real): real { if a >= b then a else b }

  function MinReal(a: real, b: real): real { if a <= b then a else b }

  function AbsReal(a: real): real { if a >= 0.0 then a else -a }

  function At<K, V>(m: map<K, V>, k: K): Option<V> { if k in m then Some(m[k]) else None }

  lemma Scales(a: int, b: int, d: int)
    requires a <= b && d >= 0
    ensures a * d <= b * d
  {
  }
}
