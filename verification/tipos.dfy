/** Small failure-carrying datatypes shared by the whole model.
    `Option` stands for a JavaScript value that may be `undefined`
    (a missing object field, a failed parse); `Result` for a form
    submission that is either accepted or rejected with a reason. */
module Tipos {

  datatype Option<+T> = None | Some(value: T) {

    /** The value, or `default` when there is none (JavaScript's `x || d`
        and `x ?? d` on a possibly-missing field). */
    function GetOr(default: T): T {
      match this
      case Some(v) => v
      case None => default
    }
  }

  datatype Result<+R, +E> = Ok(value: R) | Err(error: E)

  /** The rejection every form except the client and supplier ones shows
      when a required field is empty. */
  const MensajeCamposObligatorios := "Por favor completa todos los campos obligatorios"
}
