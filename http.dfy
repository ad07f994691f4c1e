/**
 * The values the core receives from the HTTP library and the application framework. Their
 * behaviour lives outside the core; here they are plain data.
 */
module Http {

  /** One octet of a request or response body. */
  newtype Byte = x: int | 0 <= x < 256

  /** A request method (`GET`, `POST`, ...), kept opaque. */
  type Method = string

  /** A numeric response status code. */
  type StatusCode = nat

  /** Response headers as name/value pairs, kept opaque. */
  type Headers = seq<(string, string)>

  /** The four forms of an HTTP request target. */
  datatype RequestUri =
    | AbsolutePath(path: string)
    | AbsoluteUri(url: string)
    | Authority(authority: string)
    | Star

  /** The interest a callback hands back to the event loop. */
  datatype Next = Read | Write | Wait | End

  /** The wake handle of one connection; `ready` on it is recorded, not performed. */
  datatype Control = Control(connection: nat)
}
