/** Destination currency lookup and USD conversion (src/utils/currencyService.ts). */
module Currency {
  import opened Basics
  import opened Text

  datatype CurrencyInfo = CurrencyInfo(code: string, rate: real)

  /** The result of convertCurrency: a rounded amount in the destination's currency. */
  datatype Conversion = Conversion(amount: int, currency: string)

  /** currencyByDestination, in declaration order: the order decides overlapping keys. */
  const CurrencyByDestination: seq<(string, CurrencyInfo)> := [
    ("paris", CurrencyInfo("EUR", 0.92)),
    ("france", CurrencyInfo("EUR", 0.92)),
    ("tokyo", CurrencyInfo("JPY", 149.5)),
    ("japan", CurrencyInfo("JPY", 149.5)),
    ("london", CurrencyInfo("GBP", 0.79)),
    ("united kingdom", CurrencyInfo("GBP", 0.79)),
    ("uk", CurrencyInfo("GBP", 0.79)),
    ("new york", CurrencyInfo("USD", 1.0)),
    ("usa", CurrencyInfo("USD", 1.0)),
    ("america", CurrencyInfo("USD", 1.0)),
    ("delhi", CurrencyInfo("INR", 83.2)),
    ("india", CurrencyInfo("INR", 83.2)),
    ("dubai", CurrencyInfo("AED", 3.67)),
    ("uae", CurrencyInfo("AED", 3.67)),
    ("sydney", CurrencyInfo("AUD", 1.52)),
    ("australia", CurrencyInfo("AUD", 1.52)),
    ("singapore", CurrencyInfo("SGD", 1.34)),
    ("bangkok", CurrencyInfo("THB", 35.8)),
    ("thailand", CurrencyInfo("THB", 35.8))
  ]

  /** What an unmatched destination gets. */
  const DefaultCurrency := CurrencyInfo("USD", 1.0)

  /** Every rate in the table is positive. */
  predicate RatesPositive(table: seq<(string, CurrencyInfo)>)
  {
    forall i :: 0 <= i < |table| ==> table[i].1.rate > 0.0
  }

  /**
   * The entry of the first key (in declaration order) occurring in the lower-cased
   * destination, else USD at rate 1.
   */
  function GetCurrencyForDestination(destination: string): (r: CurrencyInfo)
    ensures NoMatch(CurrencyByDestination, Lower(destination)) ==> r == DefaultCurrency
    ensures forall i :: IsFirstMatch(CurrencyByDestination, Lower(destination), i) ==>
      r == CurrencyByDestination[i].1
    ensures r.rate > 0.0
  {
    assert RatesPositive(CurrencyByDestination);
    LookupFirst(CurrencyByDestination, Lower(destination), DefaultCurrency)
  }

  /** convertCurrency: the amount in USD times the destination's rate, rounded, with its code. */
  function ConvertCurrency(amountUsd: real, destination: string): Conversion
  {
    ConvertAt(amountUsd, GetCurrencyForDestination(destination))
  }

  function ConvertAt(amountUsd: real, info: CurrencyInfo): Conversion
  {
    Conversion(Round(amountUsd * info.rate), info.code)
  }

  lemma ConvertAtMonotone(a: real, b: real, info: CurrencyInfo)
    requires a <= b && info.rate > 0.0
    ensures ConvertAt(a, info).amount <= ConvertAt(b, info).amount
  {
    MulMonotone(a, b, info.rate);
    RoundMonotone(a * info.rate, b * info.rate);
  }

  /** Because every rate is positive, conversion preserves the order of amounts. */
  lemma ConvertMonotone(a: real, b: real, destination: string)
    requires a <= b
    ensures ConvertCurrency(a, destination).amount <= ConvertCurrency(b, destination).amount
    ensures ConvertCurrency(a, destination).currency == ConvertCurrency(b, destination).currency
  {
    ConvertAtMonotone(a, b, GetCurrencyForDestination(destination));
  }

  /** A non-negative amount converts to a non-negative amount. */
  lemma ConvertNonNegative(a: real, destination: string)
    requires a >= 0.0
    ensures ConvertCurrency(a, destination).amount >= 0
  {
    ConvertMonotone(0.0, a, destination);
  }

  /** 1000 USD for Tokyo is 149500 JPY. */
  lemma ConvertTokyoExample()
    ensures ConvertCurrency(1000.0, "Tokyo") == Conversion(149500, "JPY")
  {
    var h := Lower("Tokyo");
    assert h == "tokyo";
    MissingCharNotContained(h, "paris", 'p');
    MissingCharNotContained(h, "france", 'f');
    assert IsPrefix("tokyo", h);
    assert IsFirstMatch(CurrencyByDestination, h, 2);
  }

  /** No key of the table occurs in "reykjavik". */
  lemma ReykjavikMatchesNoKey(h: string)
    requires h == "reykjavik"
    ensures NoMatch(CurrencyByDestination, h)
  {
    var A := {'r', 'e', 'y', 'k', 'j', 'a', 'v', 'i'};
    assert forall i :: 0 <= i < |h| ==> h[i] in A;
    NoKeyContained(CurrencyByDestination, h, A, "pftpluunumdndususbt");
  }

  /** A destination that matches no key converts at rate 1 into USD. */
  lemma ConvertUnknownExample()
    ensures ConvertCurrency(1000.0, "Reykjavik") == Conversion(1000, "USD")
  {
    ReykjavikMatchesNoKey(Lower("Reykjavik"));
  }

  /** 'paris' is tried before 'france': "Paris, France" resolves through the first entry. */
  lemma ParisBeforeFrance()
    ensures FirstMatch(CurrencyByDestination, Lower("Paris, France")) == Some(0)
    ensures GetCurrencyForDestination("Paris, France") == CurrencyInfo("EUR", 0.92)
  {
    var h := Lower("Paris, France");
    assert h == "paris, france";
    assert IsPrefix("paris", h);
    FirstMatchUnique(CurrencyByDestination, h, 0);
  }

  lemma PhuketLacksEarlierKeys(h: string)
    requires h == "phuket"
    ensures NoMatch(CurrencyByDestination[..6], h)
  {
    var A := {'p', 'h', 'u', 'k', 'e', 't'};
    assert forall i :: 0 <= i < |h| ==> h[i] in A;
    NoKeyContained(CurrencyByDestination[..6], h, A, "afojln");
  }

  lemma PhuketContainsUk(h: string)
    requires h == "phuket"
    ensures Contains(h, "uk")
  {
    assert IsPrefix("uk", h[2..]);
    assert Contains(h[1..], "uk");
  }

  lemma PhuketFirstMatchIsUk(h: string)
    requires h == "phuket"
    ensures IsFirstMatch(CurrencyByDestination, h, 6)
  {
    PhuketLacksEarlierKeys(h);
    PhuketContainsUk(h);
    assert forall j :: 0 <= j < 6 ==> CurrencyByDestination[..6][j] == CurrencyByDestination[j];
  }

  /** 'uk' is tried before 'bangkok' and 'thailand', and occurs in "phuket". */
  lemma PhuketMatchesUk()
    ensures FirstMatch(CurrencyByDestination, Lower("Phuket")) == Some(6)
  {
    var h := Lower("Phuket");
    assert h == "phuket";
    PhuketFirstMatchIsUk(h);
    FirstMatchUnique(CurrencyByDestination, h, 6);
  }

  /** So Phuket is priced in pounds. */
  lemma PhuketCurrency()
    ensures GetCurrencyForDestination("Phuket") == CurrencyInfo("GBP", 0.79)
  {
    var h := Lower("Phuket");
    PhuketLower(h);
    PhuketFirstMatchIsUk(h);
  }

  lemma PhuketLower(h: string)
    requires h == Lower("Phuket")
    ensures h == "phuket"
  {
  }

  /** 100 USD for Phuket is 79 GBP. */
  lemma PhuketResolvesToPound()
    ensures ConvertCurrency(100.0, "Phuket") == Conversion(79, "GBP")
  {
    PhuketCurrency();
    RoundOfInteger(79);
    assert ConvertAt(100.0, CurrencyInfo("GBP", 0.79)) == Conversion(79, "GBP");
  }
}
