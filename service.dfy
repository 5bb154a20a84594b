/**
 * What the pages see of the backend. The HTTP wrappers have no logic of their own,
 * so every call is modelled as a request value the page issues and a reply value
 * that the page receives (or an exception it catches).
 */
module Service {

  datatype Option<T> = None | Some(value: T)

  /** What a failed `await` throws: an `Error` with its message, or some other value. */
  datatype Thrown = ErrorThrown(message: string) | OtherThrown

  /** `error instanceof Error ? error.message : fallback` */
  function ErrorText(t: Thrown, fallback: string): (r: string)
    ensures t.ErrorThrown? ==> r == t.message
    ensures t.OtherThrown? ==> r == fallback
  {
    match t
    case ErrorThrown(m) => m
    case OtherThrown => fallback
  }
}
