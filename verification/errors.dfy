/** `OrganizerError` and the crate's `Result<T>` (src/error.rs). */
module Errors {
  import opened Paths

  /** The error kinds; an I/O error's payload is not modelled. */
  datatype OrganizerError =
    | IoError
    | PathNotFound(path: Path)
    | PathNotDirectory(path: Path)
    | InvalidPath(msg: string)

  datatype Result<T> = Ok(value: T) | Err(error: OrganizerError)
}
