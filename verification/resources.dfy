/**
 Payloads and resources handled by the Ansel image cache.

 A loader returns raw bytes; an optional loaded-callback may rewrite them; the
 result is wrapped into a named static resource whose name is the source it
 was loaded from.
 */
module Resources {

  newtype byte = x: int | 0 <= x < 256

  type Bytes = seq<byte>

  datatype Option<T> = None | Some(value: T) {
    function GetOr(default: T): T {
      match this
      case Some(v) => v
      case None => default
    }
  }

  /** A post-load transformation of the raw bytes (the Go type `LoaderCallback`). */
  type Callback = Bytes -> Bytes

  /** A static resource: a name (the source it was loaded from) and its content. */
  datatype Resource = StaticResource(name: string, content: Bytes)

  /** What one loader call returns: the bytes, or an error. */
  datatype Outcome = Loaded(data: Bytes) | LoadFailed(err: string)

  /** The payload kept after a successful load: the callback's output when a
      callback is configured, the loaded bytes untouched otherwise. */
  function Transformed(cb: Option<Callback>, data: Bytes): Bytes {
    match cb
    case Some(f) => f(data)
    case None => data
  }

  /** The resource built from a successful load of `source`. */
  function MakeResource(source: string, cb: Option<Callback>, data: Bytes): (r: Resource)
    ensures r.name == source
    ensures cb.None? ==> r.content == data
    ensures cb.Some? ==> r.content == cb.value(data)
  {
    StaticResource(source, Transformed(cb, data))
  }
}
