/** Option and Result values used across the model; `Err` stands for a Python exception
    that escapes the operation (its text is only informative). */
module Wrappers {

  datatype Option<+T> = None | Some(value: T)

  datatype Result<+T> = Ok(value: T) | Err(error: string)
}
