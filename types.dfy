/**
 * Shared value types: an optional value, a success-or-failure result, and the
 * exhibition record that the extractor produces (src/types.ts).
 */
module Types {

  /** A value that may be absent (`undefined` / `null` in the source). */
  datatype Option<+T> = None | Some(value: T)

  /** The outcome of an operation that either returns a value or throws. */
  datatype Result<+T, +E> = Ok(value: T) | Err(error: E)

  /**
   * The five-field exhibition record. Every field is a string; the language
   * model is asked to put "" in any field it cannot determine, and nothing
   * checks that it did.
   */
  datatype Exhibition = Exhibition(
    venueName: string,
    title: string,
    startDate: string,
    endDate: string,
    website: string)
}
