/** The few JavaScript values the quote-request flow distinguishes, and the
    two JavaScript conversions it relies on: truthiness (`!x`) and the
    string a template literal (`${x}`) makes of a value. */
module Js {

  /** A field read from an object: missing (`undefined`), `null`, or a string. */
  datatype Value = Undefined | Null | Str(s: string)

  /** JavaScript truthiness restricted to `Value`: only a non-empty string is truthy. */
  predicate Truthy(v: Value) {
    v.Str? && v.s != ""
  }

  /** The text `${v}` inserts into a template literal. */
  function TemplateText(v: Value): string
  {
    match v
    case Undefined => "undefined"
    case Null => "null"
    case Str(s) => s
  }
}
