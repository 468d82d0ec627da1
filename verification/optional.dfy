/** Values that a JavaScript object may or may not carry, and how a
    template literal renders them. */
module Optional {

  /** A field that is either present or `undefined`. */
  datatype Option<+T> = None | Some(value: T)

  /** What `${x}` inside a template literal produces for a string field that
      may be `undefined`: the string itself, or the text "undefined". */
  function Render(x: Option<string>): string
  {
    match x
    case Some(s) => s
    case None => "undefined"
  }
}
