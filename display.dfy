/**
 * The next-buffer computations of the calculator's display edits
 * (append_number, append_operator, append_constant, backspace, toggle_sign
 * in calculator.py). Each is a total function from the old display text to
 * the new one; the class in calculator.dfy applies them to its buffer.
 */
module Display {
  import opened Wrappers

  /** The placeholder shown on a fresh or cleared display. */
  const Zero: string := "0"

  /** str(math.pi) and str(math.e) as CPython prints them. */
  const PiText: string := "3.141592653589793"
  const EText: string := "2.718281828459045"

  /** The characters the operator guard refuses to follow. */
  predicate IsOperatorChar(c: char) {
    c in "+-*/%"
  }

  /** The guard of append_operator: a non-empty buffer not ending in an operator. */
  predicate AcceptsOperator(current: string) {
    |current| > 0 && !IsOperatorChar(current[|current| - 1])
  }

  predicate StartsWithMinus(s: string) {
    |s| > 0 && s[0] == '-'
  }

  /**
   * A digit or point: the placeholder "0" is replaced by anything but a
   * point, otherwise the text lands after the old buffer.
   */
  function AppendNumber(current: string, number: string): (r: string)
    ensures |number| <= |r| && r[|r| - |number|..] == number
    ensures r[..|r| - |number|] == if current == Zero && number != "." then "" else current
  {
    if current == Zero && number != "." then number else current + number
  }

  /** An operator is appended only after something that is not itself an operator. */
  function AppendOperator(current: string, op: string): (r: string)
    ensures AcceptsOperator(current) ==> r == current + op
    ensures !AcceptsOperator(current) ==> r == current
  {
    if |current| > 0 && current[|current| - 1] !in "+-*/%" then current + op else current
  }

  /** The decimal text a constant key stands for, if it is one the calculator knows. */
  function ConstantText(constant: string): (r: Option<string>)
    ensures r.Some? <==> constant == "\U{03C0}" || constant == "e"
    ensures constant == "\U{03C0}" ==> r == Some(PiText)
    ensures constant == "e" ==> r == Some(EText)
    ensures r.Some? ==> r.value != "."
  {
    if constant == "\U{03C0}" then Some(PiText)
    else if constant == "e" then Some(EText)
    else None
  }

  /**
   * pi or e follow the same replace-the-placeholder rule as a digit;
   * any other constant name leaves the buffer alone.
   */
  function AppendConstant(current: string, constant: string): (r: string)
    ensures ConstantText(constant).None? ==> r == current
    ensures ConstantText(constant).Some? ==> r == AppendNumber(current, ConstantText(constant).value)
  {
    if current == Zero then
      if constant == "\U{03C0}" then PiText
      else if constant == "e" then EText
      else current
    else
      if constant == "\U{03C0}" then current + PiText
      else if constant == "e" then current + EText
      else current
  }

  /** Drops the last character; a buffer of one character or none becomes "0". */
  function Backspace(current: string): (r: string)
    ensures r != ""
    ensures |current| > 1 ==> r + [current[|current| - 1]] == current
    ensures |current| <= 1 ==> r == Zero
  {
    if |current| > 1 then current[..|current| - 1] else Zero
  }

  /** Removes exactly one leading '-' if there is one, otherwise prepends one. */
  function ToggleSign(current: string): (r: string)
    ensures StartsWithMinus(current) ==> "-" + r == current
    ensures !StartsWithMinus(current) ==> r == "-" + current
    ensures r == "" <==> current == "-"
  {
    if |current| > 0 && current[0] == '-' then current[1..] else "-" + current
  }

  /** Toggling twice restores the buffer exactly when it does not start with "--". */
  lemma ToggleSignInvolution(current: string)
    ensures ToggleSign(ToggleSign(current)) == current
            <==> !(|current| >= 2 && current[0] == '-' && current[1] == '-')
  {
  }

  /** Backspace undoes the entry of one digit or point into a non-empty buffer. */
  lemma BackspaceUndoesAppendNumber(current: string, ch: char)
    requires current != ""
    ensures Backspace(AppendNumber(current, [ch])) == current
  {
  }

  /** Backspace undoes an accepted one-character operator. */
  lemma BackspaceUndoesAppendOperator(current: string, ch: char)
    requires AcceptsOperator(current)
    ensures Backspace(AppendOperator(current, [ch])) == current
  {
  }

  /**
   * Once an operator ending in an operator character has been offered, a
   * second operator changes nothing ("5+" then "-" stays "5+").
   */
  lemma NoOperatorAfterOperator(current: string, op: string, next: string)
    requires |op| > 0 && IsOperatorChar(op[|op| - 1])
    ensures AppendOperator(AppendOperator(current, op), next) == AppendOperator(current, op)
  {
  }
}
