/**
 * The `createdAt` field of a stored post, in every shape the document store
 * may hand back, and the two ways the application turns it into an ISO-8601
 * string: the feed decoder (src/lib/useRealtimePosts.tsx) and the one the
 * server listings use (src/app/actions.ts).
 *
 * The clock and `Date.prototype.toISOString` are outside the model: a
 * `Clock` carries the ISO text of "now" and the rendering of a millisecond
 * instant.
 */
module Timestamps {
  import opened Wrappers

  /** A `createdAt` value as JavaScript sees it. */
  datatype RawTime =
    | Undefined
    | Null
    | Bool(b: bool)
    | Number(n: int)                     // integral numbers; 0 is the falsy one
    | Str(s: string)
    | StoreTimestamp(millis: int)        // the store's timestamp object, the one with `toDate()`
    | Date(millis: int)                  // a `Date` instance
    | PlainObject(seconds: Option<int>)  // any other object; `seconds` is its `_seconds` field, if defined

  /** JavaScript truthiness of the value. */
  predicate Truthy(v: RawTime) {
    match v
    case Undefined => false
    case Null => false
    case Bool(b) => b
    case Number(n) => n != 0
    case Str(s) => s != ""
    case _ => true
  }

  /** What a decoder settles on: the current time, an instant, or a string kept verbatim. */
  datatype Instant = Now | AtMillis(millis: int) | Verbatim(text: string)

  datatype Clock = Clock(nowIso: string, toIso: int -> string)

  /** The ISO text of a decoded instant. */
  function Render(d: Instant, clock: Clock): string {
    match d
    case Now => clock.nowIso
    case AtMillis(ms) => clock.toIso(ms)
    case Verbatim(text) => text
  }

  /**
   * The feed decoder: a falsy value becomes now; then a value with `toDate()`
   * gives its date, a `Date` is used as is, a string passes through, an
   * object with `_seconds` is read as `_seconds * 1000` milliseconds, and
   * anything else becomes now.
   */
  function DecodeCreatedAt(v: RawTime): (d: Instant)
    ensures !Truthy(v) ==> d == Now
    ensures v.StoreTimestamp? || v.Date? ==> d == AtMillis(v.millis)
    ensures v.Str? && v.s != "" ==> d == Verbatim(v.s)
    ensures v.PlainObject? && v.seconds.Some? ==> d == AtMillis(v.seconds.value * 1000)
    ensures d.Verbatim? <==> v.Str? && v.s != ""
    ensures d == Now <==> !Truthy(v) || v.Bool? || v.Number? || (v.PlainObject? && v.seconds.None?)
  {
    if !Truthy(v) then Now
    else match v
      case StoreTimestamp(ms) => AtMillis(ms)
      case Date(ms) => AtMillis(ms)
      case Str(s) => Verbatim(s)
      case PlainObject(Some(sec)) => AtMillis(sec * 1000)
      case _ => Now
  }

  /**
   * The listing decoder: `createdAt ? createdAt.toDate().toISOString() : now`.
   * A truthy value without `toDate()` makes the call throw, given as None.
   * Where it does not throw, it agrees with the feed decoder.
   */
  function ListingCreatedAt(v: RawTime): (d: Option<Instant>)
    ensures d.None? <==> Truthy(v) && !v.StoreTimestamp?
    ensures d.Some? ==> d.value == DecodeCreatedAt(v)
  {
    if !Truthy(v) then Some(Now)
    else if v.StoreTimestamp? then Some(AtMillis(v.millis))
    else None
  }
}
