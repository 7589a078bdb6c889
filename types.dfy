/** Small value types shared by the authentication and registration models. */
module Types {

  /** A nullable value (`T?` / `Nullable<T>` in the original). */
  datatype Option<+T> = None | Some(value: T)

  /** A computed value, or the exception the original would throw instead. */
  datatype Result<+T, +E> = Success(value: T) | Failure(error: E)

  const GuidBound: int := 0x1_0000_0000_0000_0000_0000_0000_0000_0000

  /** A 128-bit globally unique identifier. */
  newtype Guid = x: int | 0 <= x < GuidBound

  /** `Guid.Empty`, the default value of a Guid field. */
  const EmptyGuid: Guid := 0
}
