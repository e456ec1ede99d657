/**
 * The state machine behind the calculator's display (class
 * AdvancedCalculator in calculator.py). The object holds the display text,
 * the history list, the history label's text, the mode and the exchange-rate
 * table; every button and key handler is a method that updates them.
 *
 * The numeric work the source hands to Python is passed in as oracles:
 * eval for an expression, the float()-and-math step of a scientific
 * function, float() of the typed amount, and str() / two-decimal formatting
 * of a real. An oracle answers None where the source raises.
 */
module Calculator {
  import opened Wrappers
  import Display
  import Glyphs
  import History
  import Currency
  import Scientific
  import Keys

  datatype Mode = StandardMode | ScientificMode | CurrencyMode

  class AdvancedCalculator {
    /** current_input */
    var buffer: string
    /** the stored history list */
    var history: seq<string>
    /** the text of the history label */
    var historyLabel: string
    /** current_mode */
    var mode: Mode
    /** exchange_rates */
    var rates: map<string, real>

    /**
     * The list never exceeds three entries, and the label shows either
     * nothing (after a clear) or the summary of the list.
     */
    ghost predicate Valid()
      reads this
    {
      |history| <= History.Capacity && (historyLabel == "" || historyLabel == History.Summary(history))
    }

    /** A fresh calculator: "0" on display, no history, standard mode, no rates loaded yet. */
    constructor ()
      ensures Valid()
      ensures buffer == Display.Zero && history == [] && historyLabel == ""
      ensures mode == StandardMode && rates == map[]
    {
      buffer := Display.Zero;
      history := [];
      historyLabel := "";
      mode := StandardMode;
      rates := map[];
    }

    /** The new state after calculate, given the state before it. */
    ghost predicate Calculated(buffer0: string, history0: seq<string>, historyLabel0: string,
                               eval: string -> Option<string>)
      reads this
    {
      var expression := Glyphs.Normalize(buffer0);
      match eval(expression)
      case None => buffer == "Error" && history == history0 && historyLabel == historyLabel0
      case Some(result) =>
        && buffer == result
        && history == History.Push(history0, expression + " = " + result)
        && historyLabel == History.Summary(history)
    }

    method AppendNumber(number: string)
      requires Valid()
      modifies this
      ensures Valid()
      ensures buffer == Display.AppendNumber(old(buffer), number)
      ensures history == old(history) && historyLabel == old(historyLabel)
      ensures mode == old(mode) && rates == old(rates)
    {
      buffer := Display.AppendNumber(buffer, number);
    }

    method AppendOperator(op: string)
      requires Valid()
      modifies this
      ensures Valid()
      ensures buffer == Display.AppendOperator(old(buffer), op)
      ensures history == old(history) && historyLabel == old(historyLabel)
      ensures mode == old(mode) && rates == old(rates)
    {
      buffer := Display.AppendOperator(buffer, op);
    }

    method AppendConstant(constant: string)
      requires Valid()
      modifies this
      ensures Valid()
      ensures buffer == Display.AppendConstant(old(buffer), constant)
      ensures history == old(history) && historyLabel == old(historyLabel)
      ensures mode == old(mode) && rates == old(rates)
    {
      buffer := Display.AppendConstant(buffer, constant);
    }

    method Backspace()
      requires Valid()
      modifies this
      ensures Valid()
      ensures buffer == Display.Backspace(old(buffer)) && buffer != ""
      ensures history == old(history) && historyLabel == old(historyLabel)
      ensures mode == old(mode) && rates == old(rates)
    {
      buffer := Display.Backspace(buffer);
    }

    method ToggleSign()
      requires Valid()
      modifies this
      ensures Valid()
      ensures buffer == Display.ToggleSign(old(buffer))
      ensures history == old(history) && historyLabel == old(historyLabel)
      ensures mode == old(mode) && rates == old(rates)
    {
      buffer := Display.ToggleSign(buffer);
    }

    /** Resets the display and blanks the label; the stored list is kept. */
    method Clear()
      requires Valid()
      modifies this
      ensures Valid()
      ensures buffer == Display.Zero && historyLabel == ""
      ensures history == old(history)
      ensures mode == old(mode) && rates == old(rates)
    {
      buffer := Display.Zero;
      historyLabel := "";
    }

    method SwitchMode(newMode: Mode)
      requires Valid()
      modifies this
      ensures Valid()
      ensures mode == newMode
      ensures buffer == Display.Zero && historyLabel == ""
      ensures history == old(history) && rates == old(rates)
    {
      mode := newMode;
      Clear();
    }

    /** Appends an entry, evicting the oldest past three, and relabels with the last two. */
    method AddToHistory(calculation: string)
      requires Valid()
      modifies this
      ensures Valid()
      ensures history == History.Push(old(history), calculation)
      ensures historyLabel == History.Summary(history)
      ensures buffer == old(buffer) && mode == old(mode) && rates == old(rates)
    {
      var appended := history + [calculation];
      if |appended| > History.Capacity {
        appended := appended[1..];
      }
      history := appended;
      historyLabel := History.Summary(history);
    }

    /**
     * Normalizes the display glyphs and evaluates. On success the result is
     * displayed and "<expression> = <result>" recorded; on failure the
     * display shows "Error" and nothing else changes.
     */
    method Calculate(eval: string -> Option<string>)
      requires Valid()
      modifies this
      ensures Valid()
      ensures Calculated(old(buffer), old(history), old(historyLabel), eval)
      ensures mode == old(mode) && rates == old(rates)
    {
      var expression := Glyphs.Normalize(buffer);
      var result := eval(expression);
      match result
      case None =>
        buffer := "Error";
      case Some(value) =>
        buffer := value;
        AddToHistory(expression + " = " + value);
    }

    /**
     * Applies a named function to the displayed number. Skipped on "0" or an
     * empty display; "Error" when the name is unknown or the computation
     * raises; otherwise the result is displayed and "<name>(<input>) = <result>"
     * recorded.
     */
    method ScientificFunction(func: string, compute: (Scientific.Func, string) -> Option<string>)
      requires Valid()
      modifies this
      ensures Valid()
      ensures Scientific.SkipsInput(old(buffer)) ==>
                buffer == old(buffer) && history == old(history) && historyLabel == old(historyLabel)
      ensures !Scientific.SkipsInput(old(buffer)) && Scientific.Lookup(func).None? ==>
                buffer == "Error" && history == old(history) && historyLabel == old(historyLabel)
      ensures !Scientific.SkipsInput(old(buffer)) && Scientific.Lookup(func).Some? ==>
                match compute(Scientific.Lookup(func).value, old(buffer))
                case None => buffer == "Error" && history == old(history) && historyLabel == old(historyLabel)
                case Some(result) =>
                  && buffer == result
                  && history == History.Push(old(history), func + "(" + old(buffer) + ") = " + result)
                  && historyLabel == History.Summary(history)
      ensures mode == old(mode) && rates == old(rates)
    {
      var current := buffer;
      if current == "0" || current == "" {
        return;
      }
      var f := Scientific.Lookup(func);
      if f.None? {
        buffer := "Error";
        return;
      }
      var result := compute(f.value, current);
      match result
      case None =>
        buffer := "Error";
      case Some(value) =>
        buffer := value;
        AddToHistory(func + "(" + current + ") = " + value);
    }

    /**
     * Converts the typed amount between two codes. An unparsable amount, a
     * code missing from the table or a zero source rate only raises a
     * dialog, so the state is unchanged; otherwise the two-decimal result is
     * displayed and "<symbol><amount> -> <symbol><result>" recorded.
     */
    method ConvertCurrency(amountText: string, from: string, to: string,
                           parseFloat: string -> Option<real>,
                           show: real -> string, fixed2: real -> string)
      requires Valid()
      modifies this
      ensures Valid()
      ensures parseFloat(amountText).None? ==>
                buffer == old(buffer) && history == old(history) && historyLabel == old(historyLabel)
      ensures parseFloat(amountText).Some? ==>
                var amount := parseFloat(amountText).value;
                match Currency.Convert(amount, rates, from, to)
                case None => buffer == old(buffer) && history == old(history) && historyLabel == old(historyLabel)
                case Some(result) =>
                  && buffer == fixed2(result)
                  && history == History.Push(old(history),
                       Currency.Symbol(from) + show(amount) + " \U{2192} " + Currency.Symbol(to) + fixed2(result))
                  && historyLabel == History.Summary(history)
      ensures mode == old(mode) && rates == old(rates)
    {
      var parsed := parseFloat(amountText);
      if parsed.None? {
        return;
      }
      var amount := parsed.value;
      if from !in rates || to !in rates {
        return;
      }
      if rates[from] == 0.0 {
        return;
      }
      var baseAmount := amount / rates[from];
      var result := baseAmount * rates[to];
      assert Currency.Convert(amount, rates, from, to).Some?;
      assert Currency.Convert(amount, rates, from, to).value == result;
      var fromSymbol := Currency.Symbol(from);
      var toSymbol := Currency.Symbol(to);
      buffer := fixed2(result);
      AddToHistory(fromSymbol + show(amount) + " \U{2192} " + toSymbol + fixed2(result));
    }

    /** Publishes the outcome of a rate fetch: the fetched table with USD forced to 1.0, or the fallback. */
    method LoadRates(fetched: Option<map<string, real>>)
      requires Valid()
      modifies this
      ensures Valid()
      ensures rates == Currency.MergeRates(fetched)
      ensures Currency.Base in rates && rates[Currency.Base] == 1.0
      ensures buffer == old(buffer) && history == old(history) && historyLabel == old(historyLabel) && mode == old(mode)
    {
      match fetched
      case Some(table) =>
        rates := table;
        rates := rates[Currency.Base := 1.0];
      case None =>
        rates := Currency.FallbackRates;
    }

    /** Routes a key event to the operation Keys.Dispatch selects; unmatched keys change nothing. */
    method OnKeyPress(ch: string, keysym: string, eval: string -> Option<string>)
      requires Valid()
      modifies this
      ensures Valid()
      ensures match Keys.Dispatch(ch, keysym)
              case AppendNumber(text) =>
                buffer == Display.AppendNumber(old(buffer), text) && history == old(history) && historyLabel == old(historyLabel)
              case AppendOperator(op) =>
                buffer == Display.AppendOperator(old(buffer), op) && history == old(history) && historyLabel == old(historyLabel)
              case Calculate => Calculated(old(buffer), old(history), old(historyLabel), eval)
              case Backspace =>
                buffer == Display.Backspace(old(buffer)) && history == old(history) && historyLabel == old(historyLabel)
              case Clear => buffer == Display.Zero && historyLabel == "" && history == old(history)
              case NoOp => buffer == old(buffer) && history == old(history) && historyLabel == old(historyLabel)
      ensures mode == old(mode) && rates == old(rates)
    {
      match Keys.Dispatch(ch, keysym)
      case AppendNumber(text) => AppendNumber(text);
      case AppendOperator(op) => AppendOperator(op);
      case Calculate => Calculate(eval);
      case Backspace => Backspace();
      case Clear => Clear();
      case NoOp =>
    }
  }
}
