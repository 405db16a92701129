/** Shared vocabulary: optional values, error results and session identifiers. */
module Common {

  datatype Option<+T> = None | Some(value: T)

  /** Why an operation of the library refuses. */
  datatype Error =
    | SessionConflict   // removed, replaced, or concurrently rotated
    | UncertainWrite    // an earlier creation or rotation may still be in flight
    | MisboundRecord    // a loaded record does not carry the requested identity
    | InvalidLimit      // a cleanup batch size outside 1..=10_000
    | Overflow          // a duration beyond 64 bits of milliseconds

  datatype Result<+T> = Ok(value: T) | Err(error: Error)

  /**
   * A record key. The program derives it from a random cookie by an injective
   * hash; only equality, freshness and some total order are ever used.
   */
  type Id = nat

  /** Nanoseconds since the Unix epoch, possibly negative. */
  type Time = int
}
