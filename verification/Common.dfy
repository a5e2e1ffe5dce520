/** Types shared by every component of the model. */
module Common {

  datatype Option<+T> = None | Some(value: T)

  /** A C++ call that either returns or throws. */
  datatype Result<+T> = Ok(value: T) | Thrown {

    predicate IsFailure() {
      Thrown?
    }

    function PropagateFailure<U>(): Result<U>
      requires Thrown?
    {
      Thrown
    }

    function Extract(): T
      requires Ok?
    {
      value
    }
  }

  type Bytes = seq<bv8>

  const U16 := 0x1_0000
  const U32 := 0x1_0000_0000
  const U64 := 0x1_0000_0000_0000_0000

  type uint16 = x: int | 0 <= x < U16
  type uint32 = x: int | 0 <= x < U32
  type uint64 = x: int | 0 <= x < U64

  function Min(a: int, b: int): int {
    if a <= b then a else b
  }

  /** Result of one `send`, `recv`, `pread` or `pwrite` call. */
  datatype Call = Interrupted | Error | Moved(count: nat)

  /** A result that ends the retry loop around the call with an exception. */
  predicate Fatal(call: Call) {
    call == Error || call == Moved(0)
  }
}
