/** The ways a step of the model can end. `Option` stands for a Go pointer
    that may be nil. `Outcome` is the answer of an external collaborator whose
    error the model never inspects. `Result` is the answer of modelled code,
    which tags its error. */
module Outcomes {

  datatype Option<+T> = None | Some(value: T)

  datatype Outcome<+T> = Ok(value: T) | Err

  datatype Result<+T, +E> = Success(value: T) | Failure(error: E)
}
