/**
 * Library behaviour the model takes as given rather than writing out: the MD5 digest, the
 * UUID parser, and Go's RFC 3339 and duration parsers and the RFC 3339 printer. Each is a
 * field of `Lib`, so nothing is known about it beyond what `UuidLaw`, `TimeLaw` and `DurationLaw` state.
 */
module GoLib {
  import opened Wrappers
  import opened GoStrings
  import opened GoTime
  import opened Uuids

  datatype Lib = Lib(
    /** md5.Sum read as a UUID by uuid.FromBytes. Not assumed injective. */
    md5: seq<byte> -> Uuid,
    /** uuid.Parse; None for every input it rejects. */
    parseUuid: string -> Option<Uuid>,
    /** time.Time.Format(time.RFC3339) of an instant. */
    formatTime: int -> string,
    /** time.Parse(time.RFC3339, _); None for every input it rejects. */
    parseTime: string -> Option<int>,
    /** time.ParseDuration; None for every input it rejects. */
    parseDuration: string -> Option<int>)

  /** uuid.Parse reads back every text uuid.String writes. */
  ghost predicate UuidLaw(lib: Lib) {
    forall u: Uuid :: lib.parseUuid(Format(u)) == Some(u)
  }

  /** 0000-01-01T00:00:00Z and 9999-12-31T23:59:59Z in Unix seconds. */
  const MinRfc3339Instant: int := -62167219200
  const MaxRfc3339Instant: int := 253402300799

  /**
   * The instants of years 0000 to 9999, the range the RFC 3339 layout reads back. Outside it
   * Format writes a five-digit or signed year, which Parse rejects.
   */
  predicate InRfc3339Range(t: int) {
    MinRfc3339Instant <= t <= MaxRfc3339Instant
  }

  /** time.Parse(time.RFC3339) reads back what Format(time.RFC3339) writes, for years 0000 to 9999. */
  ghost predicate TimeLaw(lib: Lib) {
    forall t: int :: InRfc3339Range(t) ==> lib.parseTime(lib.formatTime(t)) == Some(t)
  }

  /** The largest whole number of seconds an int64 count of nanoseconds holds. */
  const MaxDurationSeconds: int := 9223372036

  predicate InDurationRange(d: int) {
    -MaxDurationSeconds <= d <= MaxDurationSeconds
  }

  /** time.ParseDuration reads back what Duration.String writes, for every int64 Duration. */
  ghost predicate DurationLaw(lib: Lib) {
    forall d: int :: InDurationRange(d) ==> lib.parseDuration(FormatDuration(d)) == Some(d)
  }
}
