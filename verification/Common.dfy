/** Shared value types. */
module Common {

  datatype Option<+T> = None | Some(value: T)

  datatype Result<+T, +E> = Ok(value: T) | Err(error: E) {
    predicate IsFailure() { Err? }

    function PropagateFailure<U>(): Result<U, E>
      requires Err?
    {
      Err(error)
    }

    function Extract(): T
      requires Ok?
    {
      value
    }
  }

  function Max(a: int, b: int): int { if a >= b then a else b }

  function Min(a: int, b: int): int { if a <= b then a else b }

  function RMax(a: real, b: real): real { if a >= b then a else b }

  function RMin(a: real, b: real): real { if a <= b then a else b }

  function RAbs(a: real): real { if a >= 0.0 then a else -a }

  /** Subtraction on the source's unsigned 64-bit clocks: never below zero. */
  function SatSub(a: nat, b: nat): nat { if a >= b then a - b else 0 }

  const U32_MAX: nat := 0xffff_ffff

  const U64_MAX: nat := 0xffff_ffff_ffff_ffff

  const TWO128: nat := 0x1_0000_0000_0000_0000_0000_0000_0000_0000
}
