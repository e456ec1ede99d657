# Calculator display engine, modelled in Dafny

This project models the state machine behind the display of the desktop
calculator `AdvancedCalculator` (calculator.py). The calculator holds five
pieces of state. `current_input` is the display text. `history` is a list of
at most three past calculations. The history label shows the last two of
them. There is also the current mode and the exchange-rate table. Button
presses and key events change that state through a small set of handlers.

Layout:

- `wrappers.dfy`: `Option`, the type of every fallible oracle and lookup.
- `display.dfy` (module `Display`): the new display text that each edit
  computes (append a digit, an operator or a constant; backspace; sign
  toggle), with the lemmas relating these edits.
- `glyphs.dfy` (module `Glyphs`): the glyph substitution `calculate` applies
  before evaluating (multiplication sign, division sign and minus sign
  become `*`, `/`, `-`).
- `history.dfy` (module `History`): the bounded first-in-first-out list and
  its label text.
- `currency.dfy` (module `Currency`): the rate table after a load, the symbol
  lookup and the two-hop conversion through USD, over `real`.
- `scientific.dfy` (module `Scientific`): which names select a scientific
  function.
- `keys.dfy` (module `Keys`): the key-event dispatch chain.
- `calculator.dfy` (module `Calculator`): class `AdvancedCalculator`. Its
  fields are `buffer`, `history`, `historyLabel`, `mode` and `rates`, and
  each handler is a method. The method's postcondition gives the whole new
  state in terms of the pure functions above. All methods keep the class
  invariant `Valid()`: at most three entries are stored, and the label is
  either blank or the summary of the stored list.

The numeric work that the source hands to Python is passed to the methods as
function-valued parameters (oracles), and each oracle answers `None` where
Python raises:

- `Calculate` takes `eval` on the normalized expression.
- `ScientificFunction` takes one oracle for `float()` of the display plus
  the math call and `str()` of the result.
- `ConvertCurrency` takes `float()` of the typed amount, `str()` of the
  amount and the two-decimal format of the result.

The conversion arithmetic itself is modelled, over `real`.

Behaviour of calculator.py worth knowing:

- The display can become empty. `toggle_sign` turns `"-"` into `""`
  (`Display.ToggleSign` states this), so a non-empty display is not part
  of `Valid()`. `backspace`, `clear` and `switch_mode` always leave a
  non-empty display: `backspace` never returns `""`, and the other two set
  `"0"`.
- The history entry for a calculation holds the expression after glyph
  normalization.
- Evaluation is Python `eval` on the normalized text. It stays an oracle
  here.
- A failed conversion leaves every field unchanged. The code shows a dialog
  and returns. This happens for an unparsable amount, a missing currency
  code, or a zero source rate (the division raises and the generic handler
  catches it).
- A scientific function name that the elif chain does not know leaves
  `result` unbound. The handler catches the resulting exception and shows
  `"Error"`.
- `(` and `)` go through `append_operator` and are guarded with the
  operators. So `(` can never follow an operator (`Display.AppendOperator`'s
  first two clauses), and `)` after `)` is allowed.

## Model

| member | source | states |
|---|---|---|
| `Display.AppendNumber` | calculator.py:353-358 | the result ends with the appended text, and what precedes it is empty exactly when the old display was the placeholder "0" and the text is not "." (otherwise it is the old display) |
| `Display.AppendOperator` | calculator.py:360-363 | the operator is appended when the display is non-empty and its last character is not one of + - * / %; otherwise the display is unchanged |
| `Display.NoOperatorAfterOperator` | calculator.py:360-363 | once an operator ending in an operator character has been offered, any further operator is a no-op ("5+" then "-" stays "5+") |
| `Display.ConstantText` | calculator.py:365-376 | exactly the keys "π" and "e" name a constant; "π" gives PiText and "e" gives EText (the CPython renderings of math.pi and math.e), and neither text is "." |
| `Display.AppendConstant` | calculator.py:365-376 | a known constant follows the same replace-the-placeholder rule as a digit (it equals AppendNumber with the constant's text); any other name leaves the display unchanged |
| `Display.Backspace` | calculator.py:415-420 | the result is never empty; on a display longer than one character it is the display minus its last character; otherwise it is "0" |
| `Display.BackspaceUndoesAppendNumber` | calculator.py:415-420 | on a non-empty display, backspace after appending one digit or point gives back the display before the append (including the "0" placeholder case) |
| `Display.BackspaceUndoesAppendOperator` | calculator.py:415-420 | backspace after an accepted one-character operator gives back the display before the operator |
| `Display.ToggleSign` | calculator.py:422-427 | exactly one leading '-' is removed when present, otherwise one is prepended; the result is empty exactly when the display was "-" |
| `Display.ToggleSignInvolution` | calculator.py:422-427 | toggling twice restores the display if and only if it does not start with "--" |
| `Glyphs.NormalizeChar` | calculator.py:433 | the mapped character is never a display glyph, and characters other than the three glyphs are kept |
| `Glyphs.ReplaceChar` | calculator.py:433 | one str.replace with a one-character pattern: same length, every occurrence substituted, every other character kept |
| `Glyphs.Normalize` | calculator.py:433 | the replace chain keeps the length, maps every character through NormalizeChar, and leaves no multiplication, division or minus glyph |
| `Glyphs.NormalizeFixesPlainText` | calculator.py:433 | normalization leaves a text unchanged if and only if the text has no display glyph |
| `Glyphs.NormalizeIdempotent` | calculator.py:433 | normalizing twice is the same as normalizing once |
| `History.Push` | calculator.py:442-445 | below three entries the list becomes old + [entry]; otherwise old[1..] + [entry]; a list of at most three stays at most three; the new entry is last |
| `History.Summary` | calculator.py:446 | the label is "" for no entries, the entry itself for one, and the last two joined by " \| " otherwise |
| `History.PushIsLastThree` | calculator.py:442-445 | from at most three entries, one addition keeps the last three of old list plus entry |
| `History.PushAllKeepsLastThree` | calculator.py:442-446 | any run of additions to a list of at most three leaves exactly the last three of everything added, in order (oldest evicted first) |
| `History.FourthEvictsFirst` | calculator.py:442-446 | after four additions to an empty list the first is evicted and the label shows entries three and four |
| `Currency.Symbol` | calculator.py:462-463 | a known code shows its symbol and any other code shows itself |
| `Currency.MergeRates` | calculator.py:47-61 | after a load, USD is in the table at 1.0; a fetched table keeps its other codes and rates and gains USD; a failed fetch gives the ten-entry fallback table |
| `Currency.FallbackRatesPositive` | calculator.py:57-61 | every fallback rate is positive |
| `Currency.Convert` | calculator.py:454-460 | no result exactly when a code is missing or the source rate is zero; otherwise result × rate[from] = amount × rate[to] |
| `Currency.ConvertSameCurrency` | calculator.py:458-460 | converting a currency with a non-zero rate into itself returns the amount |
| `Currency.ConvertRoundTrip` | calculator.py:458-460 | with both rates non-zero, converting there and back returns the original amount |
| `Currency.ConvertFromBase` | calculator.py:459-460 | from USD in a loaded table the result is amount × rate[to] |
| `Scientific.Lookup` | calculator.py:386-403 | a selected function is the one with that name, and each of the nine names selects its function (anything else selects none) |
| `Scientific.LookupName` | calculator.py:386-403 | names and functions correspond one to one |
| `Keys.Dispatch` | calculator.py:493-518 | digit strings and "." append their text; the five operator characters append themselves; "=" and (no character match plus keysym Return) calculate; BackSpace and Escape keysyms only apply when no character matched; every other key is a no-op |
| `Keys.CharTestsComeFirst` | calculator.py:495-512 | a key whose character the chain matches is handled the same whatever its key symbol |
| `Calculator.AdvancedCalculator.constructor` | calculator.py:17-25 | a fresh calculator shows "0", has an empty history and label, is in standard mode, and has an empty rate table until a load |
| `Calculator.AdvancedCalculator.AppendNumber` | calculator.py:353-358 | the display becomes Display.AppendNumber of the old one; nothing else changes |
| `Calculator.AdvancedCalculator.AppendOperator` | calculator.py:360-363 | the display becomes Display.AppendOperator of the old one; nothing else changes |
| `Calculator.AdvancedCalculator.AppendConstant` | calculator.py:365-376 | the display becomes Display.AppendConstant of the old one; nothing else changes |
| `Calculator.AdvancedCalculator.Backspace` | calculator.py:415-420 | the display becomes Display.Backspace of the old one and is non-empty; nothing else changes |
| `Calculator.AdvancedCalculator.ToggleSign` | calculator.py:422-427 | the display becomes Display.ToggleSign of the old one; nothing else changes |
| `Calculator.AdvancedCalculator.Clear` | calculator.py:411-413 | the display is "0" and the label blank; the stored history, mode and rates are kept |
| `Calculator.AdvancedCalculator.SwitchMode` | calculator.py:336-338 | the mode is set, the display is "0" and the label blank; history and rates are kept |
| `Calculator.AdvancedCalculator.AddToHistory` | calculator.py:442-446 | the list becomes History.Push of the old one (still at most three) and the label its summary; nothing else changes |
| `Calculator.AdvancedCalculator.Calculate` | calculator.py:429-440 | on eval failure the display is "Error" and history and label are unchanged; on success the display is the result, "<normalized> = <result>" is the new last entry, and the label is the summary of the list |
| `Calculator.AdvancedCalculator.ScientificFunction` | calculator.py:378-409 | nothing changes on "0" or ""; an unknown name or a raising computation shows "Error" and keeps history; success shows the result and records "<name>(<input>) = <result>" |
| `Calculator.AdvancedCalculator.ConvertCurrency` | calculator.py:448-471 | an unparsable amount or a failed Currency.Convert leaves every field unchanged; otherwise the two-decimal result is displayed and "<symbol><amount> → <symbol><result>" recorded |
| `Calculator.AdvancedCalculator.LoadRates` | calculator.py:43-61 | the table becomes Currency.MergeRates of the fetch outcome (USD at 1.0); nothing else changes |
| `Calculator.AdvancedCalculator.OnKeyPress` | calculator.py:493-518 | the new state is that of the operation Keys.Dispatch selects for the event, and an unmatched key changes nothing |

## Left out

- Widget construction, styling, button grids, the mode-button recolouring loop, the rates text box (`update_rates_display`) and the rebuild of the button grid on a mode switch. These are presentation only.
- The HTTP request, the JSON decoding and the background thread that loads the rates. A load is modelled as `LoadRates` applied to the fetch outcome (`None` for any failure), at any moment the caller chooses, and it publishes the final table in one step.
- Calculator.AdvancedCalculator.LoadRates: the intermediate table of the fetched branch is not modelled. That branch first publishes the fetched dict unpatched (calculator.py:49) and only then sets USD to 1.0 in that same dict (calculator.py:50), on the background thread. A `convert_currency` on the GUI thread that runs between the two lines sees a table where USD may be missing or differ from 1.0. `LoadRates` never produces that state. Only the fallback branch (calculator.py:57-61) really is a single swap.
- Python `eval`, `float()`, the `math` functions, `**`, `str()` of a number and the `:.2f` format are oracles passed to the methods. No expression parser is modelled, since the code has none.
- Floating point: `Currency.Convert` works over exact reals. It does not model rounding, infinities, NaN or overflow, and the fallback rates are exact decimals rather than the nearest doubles.
- The error dialogs (`messagebox.showerror`). Each is modelled as a return that leaves the state unchanged.
- `quick_convert`: it drives the combo boxes and then calls `convert_currency`, which is modelled with its three inputs as parameters.
- The unused `memory` field.
- Calculator.AdvancedCalculator.SwitchMode: the mode is a three-value datatype. The source stores whatever string it is given, but only the three mode names are ever passed.
- Keys.Dispatch: `str.isdigit` is modelled over the ASCII digits only. Python also accepts other Unicode digit characters (superscripts, for example), and those keys would reach `append_number` in the source.
