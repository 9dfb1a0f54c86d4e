/**
 * The two error kinds of the evaluator (loxError/loxError.go): a runtime error carrying the
 * offending token and a message, and the return signal carrying the returned value. `V` is
 * the runtime value type, left open so that environments can be defined before values.
 */
module LoxError {
  import opened Tokens

  datatype Error<V> = RuntimeErr(token: Token, msg: string) | Return(value: V)

  /**
   * The `(value, error)` pair a Go function returns. `Panic` stands for a Go runtime panic
   * (a failed type assertion, an index out of range): the program aborts and no error value
   * is produced.
   */
  datatype Result<T, V> = Ok(value: T) | Err(error: Error<V>) | Panic(reason: string)
}
