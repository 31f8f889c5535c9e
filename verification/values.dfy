/** JavaScript values as the request handlers see them: optional request fields,
    their truthiness, the `a || b` fallback, and thrown `Error` objects. */
module Values {

  datatype Option<+T> = None | Some(value: T)

  /** A request field after JSON or multipart parsing: missing (`undefined`),
      explicitly `null`, or a string. Other JSON value kinds are not modelled. */
  datatype Field = Absent | Null | Str(s: string)

  /** JavaScript truthiness restricted to `Field`: only a non-empty string is truthy. */
  predicate Truthy(f: Field) {
    f.Str? && f.s != ""
  }

  /** `f || fallback` for a string fallback. */
  function OrElse(f: Field, fallback: string): (r: string)
    ensures Truthy(f) ==> r == f.s
    ensures !Truthy(f) ==> r == fallback
  {
    match f
    case Str(s) => if s != "" then s else fallback
    case _ => fallback
  }

  /** Destructuring default `{ x = d } = obj`: the default replaces only `undefined`. */
  function WithDefault(f: Field, d: string): (r: Field)
    ensures f.Absent? ==> r == Str(d)
    ensures !f.Absent? ==> r == f
  {
    if f.Absent? then Str(d) else f
  }

  /** A thrown JavaScript error: its `message` and what `String(e)` gives. */
  datatype Error = Error(message: string, text: string)

  /** `new Error(m)`: `String(e)` is `"Error"` when `m` is empty, `"Error: " + m` otherwise. */
  function MakeError(m: string): (e: Error)
    ensures e.message == m
    ensures m == "" ==> e.text == "Error"
    ensures m != "" ==> e.text == "Error: " + m
  {
    Error(m, if m == "" then "Error" else "Error: " + m)
  }

  /** `e.message || String(e)`, the text the handlers put in a 500 body. */
  function ErrorText(e: Error): (t: string)
    ensures e.message != "" ==> t == e.message
    ensures e.message == "" ==> t == e.text
  {
    if e.message != "" then e.message else e.text
  }

  /** An error the server raises itself is always reported with a non-empty text. */
  lemma MadeErrorTextNonEmpty(m: string)
    ensures ErrorText(MakeError(m)) != ""
    ensures m != "" ==> ErrorText(MakeError(m)) == m
  {
  }
}
