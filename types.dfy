/** Basic vocabulary shared by the translator model. */
module Types {

  /** One tokenized sentence (a source sequence or a target prefix). */
  type TokenSeq = seq<string>

  /** Unit in which a batch size is measured. */
  datatype BatchType = Examples | Tokens

  datatype Option<T> = None | Some(value: T)

  /** A value or the error that stopped its computation (the source throws instead). */
  datatype Result<T, E> = Success(value: T) | Failure(error: E)

  /** The outcome of a check that returns nothing on success. */
  datatype Outcome<E> = Pass | Fail(error: E)
}
