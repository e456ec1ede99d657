/**
 * The currency side of the calculator: the exchange-rate table as it stands
 * after a load (fetch_rates), the symbol lookup, and the two-hop conversion
 * through the base currency (convert_currency). Rates are real numbers.
 */
module Currency {
  import opened Wrappers

  const Base: string := "USD"

  /** The table used when the rate fetch fails in any way. */
  const FallbackRates: map<string, real> := map[
    "USD" := 1.0, "EUR" := 0.85, "GBP" := 0.73, "JPY" := 110.0,
    "CAD" := 1.25, "AUD" := 1.35, "CHF" := 0.92, "CNY" := 6.45,
    "INR" := 74.5, "KRW" := 1180.0
  ]

  /** The display symbol of each code the calculator knows. */
  const Symbols: map<string, string> := map[
    "USD" := "$", "EUR" := "\U{20AC}", "GBP" := "\U{00A3}", "JPY" := "\U{00A5}",
    "CAD" := "C$", "AUD" := "A$", "CHF" := "Fr", "CNY" := "\U{00A5}",
    "INR" := "\U{20B9}", "KRW" := "\U{20A9}"
  ]

  /** currency_symbols.get(code, code): a known code shows its symbol, any other shows itself. */
  function Symbol(code: string): (r: string)
    ensures code in Symbols ==> r == Symbols[code]
    ensures code !in Symbols ==> r == code
  {
    if code in Symbols then Symbols[code] else code
  }

  /**
   * The table after a load: a fetched table (Some) gets the base currency
   * forced to 1.0; a failed fetch (None) yields the fallback table.
   */
  function MergeRates(fetched: Option<map<string, real>>): (r: map<string, real>)
    ensures Base in r && r[Base] == 1.0
    ensures fetched.Some? ==> r.Keys == fetched.value.Keys + {Base}
    ensures fetched.Some? ==> forall code :: code in fetched.value && code != Base ==> r[code] == fetched.value[code]
    ensures fetched.None? ==> r == FallbackRates
  {
    match fetched
    case Some(table) => table[Base := 1.0]
    case None => FallbackRates
  }

  /** Every rate of the fallback table is positive, so conversions through it never divide by zero. */
  lemma FallbackRatesPositive()
    ensures forall code :: code in FallbackRates ==> FallbackRates[code] > 0.0
  {
  }

  /**
   * amount / rates[from] * rates[to]. None when either code is missing (the
   * "not found" dialog) or when the source rate is zero (the division raises
   * and the generic dialog shows); the state stays as it was in both cases.
   */
  function Convert(amount: real, rates: map<string, real>, from: string, to: string): (r: Option<real>)
    ensures r.None? <==> from !in rates || to !in rates || rates[from] == 0.0
    ensures r.Some? ==> r.value * rates[from] == amount * rates[to]
  {
    if from !in rates || to !in rates then None
    else if rates[from] == 0.0 then None
    else
      var baseAmount := amount / rates[from];
      assert baseAmount * rates[from] == amount;
      Some(baseAmount * rates[to])
  }

  /** Converting a currency into itself returns the amount. */
  lemma ConvertSameCurrency(amount: real, rates: map<string, real>, code: string)
    requires code in rates && rates[code] != 0.0
    ensures Convert(amount, rates, code, code) == Some(amount)
  {
  }

  /** Converting there and back returns the original amount. */
  lemma ConvertRoundTrip(amount: real, rates: map<string, real>, from: string, to: string)
    requires from in rates && to in rates && rates[from] != 0.0 && rates[to] != 0.0
    ensures Convert(amount, rates, from, to).Some?
    ensures Convert(Convert(amount, rates, from, to).value, rates, to, from) == Some(amount)
  {
    var there := Convert(amount, rates, from, to).value;
    var back := Convert(there, rates, to, from).value;
    assert there * rates[from] == amount * rates[to];
    assert back * rates[to] == there * rates[from];
    MulCancel(back, amount, rates[to]);
  }

  /** From the base currency of a loaded table the result is the amount times the target rate. */
  lemma ConvertFromBase(amount: real, fetched: Option<map<string, real>>, to: string)
    requires to in MergeRates(fetched)
    ensures Convert(amount, MergeRates(fetched), Base, to) == Some(amount * MergeRates(fetched)[to])
  {
  }

  lemma MulCancel(x: real, y: real, k: real)
    requires k != 0.0 && x * k == y * k
    ensures x == y
  {
  }
}
