/**
 * on_key_press: which calculator operation a key event selects. The tests
 * on the event's character come first, in the source's order; only when
 * none matches is the key symbol consulted; anything else does nothing.
 */
module Keys {
  datatype Action =
    | AppendNumber(text: string)
    | AppendOperator(op: string)
    | Calculate
    | Backspace
    | Clear
    | NoOp

  /** str.isdigit over ASCII digits: non-empty and digits only. */
  predicate IsDigits(s: string)
  {
    |s| > 0 && forall i :: 0 <= i < |s| ==> '0' <= s[i] <= '9'
  }

  predicate IsOperatorKey(ch: string)
  {
    ch == "+" || ch == "-" || ch == "*" || ch == "/" || ch == "%"
  }

  /** The character tests of the chain: digits, '.', the five operators and '='. */
  predicate MatchesChar(ch: string)
  {
    IsDigits(ch) || ch == "." || IsOperatorKey(ch) || ch == "="
  }

  predicate IsCommandKeysym(keysym: string)
  {
    keysym == "Return" || keysym == "BackSpace" || keysym == "Escape"
  }

  function Dispatch(ch: string, keysym: string): (r: Action)
    ensures r.AppendNumber? <==> IsDigits(ch) || ch == "."
    ensures r.AppendNumber? ==> r.text == ch
    ensures r.AppendOperator? <==> IsOperatorKey(ch)
    ensures r.AppendOperator? ==> r.op == ch
    ensures r.Calculate? <==> ch == "=" || (!MatchesChar(ch) && keysym == "Return")
    ensures r.Backspace? <==> !MatchesChar(ch) && keysym == "BackSpace"
    ensures r.Clear? <==> !MatchesChar(ch) && keysym == "Escape"
    ensures r.NoOp? <==> !MatchesChar(ch) && !IsCommandKeysym(keysym)
  {
    if IsDigits(ch) then
      assert '0' <= ch[0] <= '9';
      AppendNumber(ch)
    else if ch == "." then AppendNumber(".")
    else if ch == "+" then AppendOperator("+")
    else if ch == "-" then AppendOperator("-")
    else if ch == "*" then AppendOperator("*")
    else if ch == "/" then AppendOperator("/")
    else if ch == "%" then AppendOperator("%")
    else if ch == "=" then Calculate
    else if keysym == "Return" then Calculate
    else if keysym == "BackSpace" then Backspace
    else if keysym == "Escape" then Clear
    else NoOp
  }

  /** A key whose character the chain matches is handled the same whatever its key symbol. */
  lemma CharTestsComeFirst(ch: string, keysym1: string, keysym2: string)
    requires MatchesChar(ch)
    ensures Dispatch(ch, keysym1) == Dispatch(ch, keysym2)
  {
  }
}
