/** Types and functions that several modules share. */
module Common {

  /** A byte as the ciphers and buffers treat it, and as the statistics do. */
  type byte = bv8
  type Sample = v: int | 0 <= v < 256

  datatype Option<+T> = None | Some(value: T)

  function Max(a: int, b: int): (m: int)
    ensures m >= a && m >= b && (m == a || m == b)
  {
    if a < b then b else a
  }

  function Min(a: int, b: int): (m: int)
    ensures m <= a && m <= b && (m == a || m == b)
  {
    if a < b then a else b
  }

  lemma DividesBy(a: real, b: real, q: real)
    requires b != 0.0 && a == q * b
    ensures a / b == q
  {
  }
}
