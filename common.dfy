/** Small wrappers shared by the whole model. */
module Common {

  /** An optional value: an optional TypeScript field, or `undefined`. */
  datatype Option<T> = None | Some(value: T)

  /** The outcome of an operation that deals from the shoe: either a value or
      the "Shoe is empty" exception that `Shoe.deal` throws. */
  datatype Result<T> = Ok(value: T) | EmptyShoe
}
