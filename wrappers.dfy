/** The two exceptions that can leave `plot_data` in covid.py, as values. */
module Wrappers {

  /** `IndexError`: an index into an empty or too short array.
      `ValueError`: a location name the selector does not recognise. */
  datatype Error = IndexError | ValueError

  datatype Result<T> = Ok(value: T) | Err(error: Error)
}
