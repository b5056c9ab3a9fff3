/** The optional values used across the project. */
module Options {

  datatype Option<+T> = None | Some(value: T)

  /** What a JSON merge patch leaves stored for a list field tagged omitempty:
      an empty list is omitted from the patch, so it never clears the old one. */
  function MergePatchList<T>(stored: seq<T>, sent: seq<T>): (r: seq<T>) {
    if sent == [] then stored else sent
  }
}
