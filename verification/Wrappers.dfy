/** The two result shapes the model needs: a value that may be absent, and a
    computation that may panic. A Rust panic (a failed `expect`, `assert!`,
    or `unwrap`) is modelled as a value, so that "this never panics" is a
    statement about results rather than a precondition on callers. */
module Wrappers {

  datatype Option<+T> = None | Some(value: T)

  /** An `f32` as far as the program distinguishes one: a number, or NaN/Inf. */
  datatype F32 = NotFinite | Finite(r: real)

  datatype Outcome<+T> = Panic | Done(value: T) {
    predicate IsFailure() {
      Panic?
    }

    function PropagateFailure<U>(): Outcome<U>
      requires Panic?
    {
      Panic
    }

    function Extract(): T
      requires Done?
    {
      value
    }
  }
}
