/** Small shared vocabulary: optional values and results that may carry a host exception. */
module Base {

  datatype Option<T> = None | Some(value: T)

  /** The exceptions the core can raise; a `Throws` result stands for the exception propagating. */
  datatype Exception = ArgumentNull | NullReference | Overflow

  datatype Result<T> = Ok(value: T) | Throws(exception: Exception)

  function Abs(n: int): (r: nat)
    ensures r == n || r == -n
  {
    if n < 0 then -n else n
  }

  function Min(a: int, b: int): (r: int)
    ensures r <= a && r <= b && (r == a || r == b)
  {
    if a < b then a else b
  }
}
