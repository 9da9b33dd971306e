/** Request fields as the route handlers receive them from a JSON body, and
    JavaScript's truthiness test on them (`!field` in the handlers). */
module Fields {

  /** A field of the request body: absent (`undefined`, `null`) or given. */
  datatype Option<+T> = None | Some(value: T)

  /** A text field passes `!field` when it is given and is not the empty string. */
  predicate TextGiven(field: Option<string>)
  {
    field.Some? && field.value != ""
  }

  /** A whole-number field passes `!field` when it is given and is not 0. */
  predicate NumberGiven(field: Option<int>)
  {
    field.Some? && field.value != 0
  }

  /** A fractional-number field passes `!field` when it is given and is not 0. */
  predicate AmountGiven(field: Option<real>)
  {
    field.Some? && field.value != 0.0
  }

  /** A JavaScript array is truthy even when empty: being given is enough. */
  predicate ListGiven<T>(field: Option<seq<T>>)
  {
    field.Some?
  }

  /** A time of day is a non-empty "HH:MM" string, hence truthy once given;
      the model keeps only its position in the day (see HallData). */
  predicate TimeGiven(field: Option<int>)
  {
    field.Some?
  }
}
