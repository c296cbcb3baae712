/** Small datatypes shared by every module. */
module Basics {

  datatype Option<+T> = None | Some(value: T) {
    predicate IsFailure() {
      None?
    }

    function PropagateFailure<U>(): Option<U>
      requires None?
    {
      None
    }

    function Extract(): T
      requires Some?
    {
      value
    }
  }

  /** How a step of the daemon ends: normally, with an error that the caller
      sees, or with a crash that loses everything held in memory. */
  datatype Outcome = Done | Failed | Crashed {
    predicate IsFailure() {
      !Done?
    }

    function PropagateFailure(): Outcome
      requires IsFailure()
    {
      this
    }
  }

  /** The answer of a call that may fail, or during which the process may crash. */
  datatype Result<+T> = Ok(value: T) | Err | Crash {
    predicate IsFailure() {
      !Ok?
    }

    function PropagateFailure(): Outcome
      requires IsFailure()
    {
      if Err? then Failed else Crashed
    }

    function Extract(): T
      requires Ok?
    {
      value
    }
  }

  const U64_LIMIT: nat := 0x1_0000_0000_0000_0000

  type u64 = n: nat | n < U64_LIMIT

  type Byte = n: nat | n < 256

  /** A saturated sum. */
  function Capped(n: nat): u64 {
    if n < U64_LIMIT then n else U64_LIMIT - 1
  }

  /** What is left of a sum in 64 bits. */
  function Wrap(n: nat): u64 {
    n % U64_LIMIT
  }

  lemma WrapAdd(a: nat, b: u64)
    ensures Wrap(Wrap(a) as int + b as int) == Wrap(a + b as int)
  {
    assert a == U64_LIMIT * (a / U64_LIMIT) + a % U64_LIMIT;
    var low, q := a % U64_LIMIT, a / U64_LIMIT;
    assert a + b == U64_LIMIT * q + (low + b);
    if low + b >= U64_LIMIT {
      assert a + b == U64_LIMIT * (q + 1) + (low + b - U64_LIMIT);
    }
  }
}
