/** Rust's `Result`, used for every fallible constructor of the model.
    A panic of the source (`unwrap`, `unimplemented!`) is also reported
    through the `Err` arm, with an error value that names its cause. */
module Wrappers {

  datatype Result<+T, +E> = Ok(value: T) | Err(error: E)

}
