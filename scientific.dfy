/**
 * The names scientific_function understands. The numeric part (float()
 * parsing, degree trigonometry, logarithms, roots, powers and str() of the
 * result) stays an oracle supplied by the caller; this module fixes only
 * which names select a computation.
 */
module Scientific {
  import opened Wrappers

  datatype Func = Sin | Cos | Tan | Log | Ln | Sqrt | Cbrt | Square | Cube

  /** The name the buttons pass for each function; it is also what the history entry shows. */
  function Name(f: Func): (r: string)
  {
    match f
    case Sin => "sin"
    case Cos => "cos"
    case Tan => "tan"
    case Log => "log"
    case Ln => "ln"
    case Sqrt => "sqrt"
    case Cbrt => "cbrt"
    case Square => "square"
    case Cube => "cube"
  }

  /**
   * The if/elif chain over names. An unknown name selects nothing: the local
   * result is then never bound and the lookup of it raises, which the
   * handler turns into "Error".
   */
  function Lookup(name: string): (r: Option<Func>)
    ensures r.Some? ==> Name(r.value) == name
    ensures (exists f :: Name(f) == name) ==> r.Some?
  {
    if name == "sin" then Some(Sin)
    else if name == "cos" then Some(Cos)
    else if name == "tan" then Some(Tan)
    else if name == "log" then Some(Log)
    else if name == "ln" then Some(Ln)
    else if name == "sqrt" then Some(Sqrt)
    else if name == "cbrt" then Some(Cbrt)
    else if name == "square" then Some(Square)
    else if name == "cube" then Some(Cube)
    else None
  }

  /** Names and functions are in one-to-one correspondence. */
  lemma LookupName(f: Func)
    ensures Lookup(Name(f)) == Some(f)
  {
  }

  /** The early return: nothing happens on the placeholder or an empty display. */
  predicate SkipsInput(current: string)
  {
    current == "0" || current == ""
  }
}
