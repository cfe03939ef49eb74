/** The currency-symbol lookup used when the plan is displayed. */
module TravelResults {
  import opened Wrappers
  import TravelForm

  /** The lookup table, keyed by ISO code. */
  const Symbols: map<string, string> := map[
    "INR" := "\U{20B9}",
    "USD" := "$",
    "EUR" := "\U{20AC}",
    "GBP" := "\U{00A3}",
    "AUD" := "A$",
    "CAD" := "C$",
    "JPY" := "\U{00A5}"
  ]

  const Rupee: string := "\U{20B9}"

  /** `getCurrencySymbol(code = "INR")`: the table's symbol for the code, with a missing
      code read as INR and an unlisted (or falsy) entry falling back to the rupee sign.
      The symbol is always one of the table's and never empty. */
  function CurrencySymbol(currencyCode: Option<string>): (symbol: string)
    ensures symbol != []
    ensures symbol in Symbols.Values
    ensures currencyCode.Some? && currencyCode.value in Symbols ==>
      symbol == Symbols[currencyCode.value]
  {
    var code := currencyCode.GetOr("INR");
    assert Symbols["INR"] == Rupee;
    if code in Symbols && Symbols[code] != [] then Symbols[code] else Rupee
  }

  /** Each listed code maps to its own symbol. */
  lemma ListedSymbols()
    ensures CurrencySymbol(Some("INR")) == "\U{20B9}"
    ensures CurrencySymbol(Some("USD")) == "$"
    ensures CurrencySymbol(Some("EUR")) == "\U{20AC}"
    ensures CurrencySymbol(Some("GBP")) == "\U{00A3}"
    ensures CurrencySymbol(Some("AUD")) == "A$"
    ensures CurrencySymbol(Some("CAD")) == "C$"
    ensures CurrencySymbol(Some("JPY")) == "\U{00A5}"
  {
  }

  /** No two listed codes share a symbol. */
  lemma SymbolsDistinct(a: string, b: string)
    requires a in Symbols && b in Symbols && a != b
    ensures CurrencySymbol(Some(a)) != CurrencySymbol(Some(b))
  {
  }

  /** A missing code, an unlisted code, or a listed code in the wrong case gives the rupee. */
  lemma FallsBackToRupee(code: string)
    ensures CurrencySymbol(None) == Rupee
    ensures code !in Symbols ==> CurrencySymbol(Some(code)) == Rupee
    ensures CurrencySymbol(Some("usd")) == Rupee
  {
  }

  /** Every code the form can submit is displayed with the symbol the form's picker shows. */
  lemma FormCurrenciesAgree(i: nat)
    requires i < |TravelForm.Currencies|
    ensures CurrencySymbol(Some(TravelForm.Currencies[i].code)) == TravelForm.Currencies[i].symbol
  {
  }
}
