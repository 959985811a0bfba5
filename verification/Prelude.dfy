/** Result types and identifiers shared by every module of the model. */
module Prelude {
  datatype Option<+T> = None | Some(value: T)

  datatype Result<+T, +E> = Ok(value: T) | Err(error: E) {
    predicate IsFailure() {
      Err?
    }

    function PropagateFailure<U>(): Result<U, E>
      requires Err?
    {
      Err(error)
    }

    function Extract(): T
      requires Ok?
    {
      value
    }
  }

  /** Identifiers are UUID strings in the program; only equality and printing matter. */
  type TenantId = string
  type AppId = string
  type ProductId = string
  type DocumentId = string
  type Time = nat
}
