/** Failure-carrying return types shared by the model: an absent value
    (`Option`) and a value-or-error (`Result`). */
module Results {

  datatype Option<+T> = None | Some(value: T)

  datatype Result<+T, +E> = Success(value: T) | Failure(error: E) {
    predicate IsFailure() {
      Failure?
    }
  }
}
