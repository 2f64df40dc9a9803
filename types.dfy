/**
 * The records the zone scheduler works on: a circle of the safe zone, the
 * errors the core can return, and Go's two-valued `(value, error)` return.
 */
module Types {

  datatype Option<+T> = None | Some(value: T)

  /** The errors the modelled core reports. */
  datatype Error =
    | MissingAuthorization          // empty Authorization header
    | TimestampParse(text: string)  // a stored or computed timestamp did not parse
    | NoCircleFound                 // no circle's window holds the instant asked about
    | IndexOutOfRange               // the runtime panic on Items[0] of an empty list
    | EmptyInput                    // the guarded, intended answer to an empty circle list

  /** A Go result pair: a value and an error that is `None` for `nil`. */
  datatype Returned<T> = Returned(value: T, err: Option<Error>)

  /**
   * One zone circle as the record store holds it. `start` and `end` are the
   * window the scheduler assigns, as formatted timestamps.
   */
  datatype Circle = Circle(
    latitude: string,
    longitude: string,
    meters: int,
    collectionId: string,
    collectionName: string,
    created: string,
    field: string,
    id: string,
    updated: string,
    start: string,
    end: string)

  /** Go's zero value `Circle{}`, returned beside an error. */
  const ZeroCircle := Circle("", "", 0, "", "", "", "", "", "", "", "")

  /** The circle with its window replaced and every other field kept. */
  function WithWindow(c: Circle, start: string, end: string): (r: Circle)
    ensures r.start == start && r.end == end
    ensures SameExceptWindow(r, c)
  {
    c.(start := start, end := end)
  }

  /** Two records that agree on every field but the window. */
  predicate SameExceptWindow(a: Circle, b: Circle)
  {
    a.(start := "", end := "") == b.(start := "", end := "")
  }
}

/**
 * Timestamps are integers in one unit; the model takes that unit to be the
 * precision of the fixed textual layout. Formatting to and parsing from that
 * layout are library calls the model does not know, so they are parameters:
 * `format` is total and `parse` partial.
 */
module Timestamps {
  import opened Types

  datatype TimeCodec = TimeCodec(format: int -> string, parse: string -> Option<int>)

  /** The instant `i` intervals after `startTime`, where window `i` of a schedule opens. */
  function Instant(startTime: int, interval: int, i: int): int
  {
    startTime + i * interval
  }

  /**
   * Parsing what the code formats gives the timestamp back, at the instants
   * `0` to `n` intervals after `startTime`: the boundaries of an `n`-window
   * schedule. A real layout round-trips only timestamps in its range and
   * precision, so the property is asked of these instants and no others.
   */
  ghost predicate RoundTripsOn(codec: TimeCodec, startTime: int, interval: int, n: nat)
  {
    forall i :: 0 <= i <= n ==>
      codec.parse(codec.format(Instant(startTime, interval, i))) == Some(Instant(startTime, interval, i))
  }
}
