/** The records the client persists, and the optional-value wrapper they use. */
module Records {

  datatype Option<+T> = None | Some(value: T) {
    /** The value, or `default` when there is none (the `x ? x : default` idiom). */
    function GetOr(default: T): T {
      match this
      case Some(v) => v
      case None => default
    }
  }

  /** JavaScript truthiness of a value that is either absent or a string:
      `null`, `undefined` and the empty string are falsy. */
  predicate Truthy(s: Option<string>) {
    s.Some? && s.value != ""
  }

  /** The recognition confidence reported by the service. The client never
      computes on it, so the model treats it as an opaque number. */
  type Confidence = real

  /** A recognised plate as the web client stores it. `id` is the decimal
      text of the clock reading at creation time, `timestamp` a second
      clock reading; nothing makes either unique. */
  datatype PlateResult = PlateResult(
    id: string,
    numberplate: string,
    timestamp: int,
    confidence: Option<Confidence>)

  datatype Location = Location(latitude: real, longitude: real)

  /** A recognised plate as the mobile client stores it. */
  datatype NumberplateEntry = NumberplateEntry(
    id: string,
    imageUri: string,
    timestamp: int,
    score: real,
    categories: seq<string>,
    location: Option<Location>)
}
