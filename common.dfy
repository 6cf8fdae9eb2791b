/** Small shared vocabulary of the wildthoughts model: optional values (a missing
    query parameter), results and outcomes (a raised exception), profile ids and
    the slug function. */
module Common {

  datatype Option<+T> = None | Some(value: T)

  datatype Result<+R, +E> = Success(value: R) | Failure(error: E)

  datatype Outcome<+E> = Pass | Fail(error: E)

  /** The primary key of a UserProfile row. */
  type ProfileId = nat

  /** Django's `slugify`. Its definition is not part of this model: every
      statement about slugs holds for any deterministic function from text to
      text, which is what a total arrow type gives. */
  type Slugify = string -> string
}
