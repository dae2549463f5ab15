/** The two pieces of Java semantics that both activities lean on: references
    that may be null, and how string concatenation renders them. */
module JavaLang {

  /** A Java reference that may be null. */
  datatype Option<+T> = None | Some(value: T)

  /** The text that `"..." + s` appends for a String reference `s`: a null
      reference is rendered as the four characters "null". */
  function StringOf(s: Option<string>): string
  {
    match s
    case None => "null"
    case Some(v) => v
  }
}
