/** Regional prices (`context/CurrencyContext.tsx`): a USD price is multiplied by a fixed
    rate and shown behind the currency's symbol with a per-currency number of decimals.
    `Intl.NumberFormat` is a parameter: only the options handed to it are modelled. */
module CurrencyContext {

  datatype CurrencyCode = USD | TZS | KES | UGX | GHS | NGN | BWP

  const AllCurrencies: seq<CurrencyCode> := [USD, TZS, KES, UGX, GHS, NGN, BWP]

  /** `RATES`: units of the currency per US dollar. */
  function Rate(code: CurrencyCode): (rate: real)
    ensures rate > 0.0
  {
    match code
    case USD => 1.0
    case TZS => 2700.0
    case KES => 130.0
    case UGX => 3700.0
    case GHS => 16.0
    case NGN => 1650.0
    case BWP => 13.5
  }

  /** `SYMBOLS`: the prefix put before a formatted amount. */
  function Symbol(code: CurrencyCode): (symbol: string)
    ensures symbol != ""
  {
    match code
    case USD => "$"
    case TZS => "TSh "
    case KES => "KSh "
    case UGX => "USh "
    case GHS => "\U{20B5}"
    case NGN => "\U{20A6}"
    case BWP => "P"
  }

  /** Both tables are total over the seven codes and every rate is positive. */
  lemma TablesTotal()
    ensures forall c :: c in AllCurrencies
    ensures forall c :: Rate(c) > 0.0 && Symbol(c) != ""
  {
    forall c ensures c in AllCurrencies && Rate(c) > 0.0 && Symbol(c) != "" {
      match c
      case USD => case TZS => case KES => case UGX => case GHS => case NGN => case BWP =>
    }
  }

  /** The currencies shown without minor units (`noDecimals`). */
  const NoDecimals: seq<CurrencyCode> := [TZS, UGX, KES]

  /** The options `formatPrice` passes to `Intl.NumberFormat`. */
  datatype NumberFormatOptions = NumberFormatOptions(minimumFractionDigits: nat, maximumFractionDigits: nat)

  /** Exactly TZS, UGX and KES are shown with no decimals; every other currency with exactly two. */
  function FormatOptions(code: CurrencyCode): (o: NumberFormatOptions)
    ensures o.minimumFractionDigits == o.maximumFractionDigits
    ensures o.maximumFractionDigits == 0 <==> code == TZS || code == UGX || code == KES
    ensures o.maximumFractionDigits == 2 <==> code == USD || code == GHS || code == NGN || code == BWP
  {
    assert code in NoDecimals <==> code == TZS || code == UGX || code == KES by {
      assert NoDecimals == [TZS, UGX, KES];
      if code in NoDecimals {
        var i :| 0 <= i < 3 && NoDecimals[i] == code;
      }
    }
    var shouldHaveDecimals := code !in NoDecimals;
    var digits := if shouldHaveDecimals then 2 else 0;
    NumberFormatOptions(digits, digits)
  }

  /** `convertPrice`: the identity for USD, and a non-negative price stays non-negative. */
  function ConvertPrice(code: CurrencyCode, priceInUsd: real): (r: real)
    ensures code == USD ==> r == priceInUsd
    ensures priceInUsd >= 0.0 ==> r >= 0.0
  {
    TablesTotal();
    priceInUsd * Rate(code)
  }

  /** A dearer USD price is never shown as cheaper. */
  lemma ConvertMonotone(code: CurrencyCode, p: real, q: real)
    requires p <= q
    ensures ConvertPrice(code, p) <= ConvertPrice(code, q)
  {
    TablesTotal();
    assert ConvertPrice(code, q) - ConvertPrice(code, p) == (q - p) * Rate(code);
  }

  /** `formatPrice`: the symbol, immediately followed by what the number formatter makes of
      the converted amount under this currency's options. */
  function FormatPrice(code: CurrencyCode, priceInUsd: real,
                       numberFormat: (real, NumberFormatOptions) -> string): (r: string)
    ensures |r| >= |Symbol(code)| && r[..|Symbol(code)|] == Symbol(code)
    ensures r[|Symbol(code)|..] == numberFormat(ConvertPrice(code, priceInUsd), FormatOptions(code))
  {
    var formattedNumber := numberFormat(ConvertPrice(code, priceInUsd), FormatOptions(code));
    Symbol(code) + formattedNumber
  }

  /** No two currencies share a symbol. */
  lemma SymbolsDistinguish(c: CurrencyCode, d: CurrencyCode)
    requires c != d
    ensures Symbol(c) != Symbol(d)
  {
  }

  /** The selected currency: the provider's only state. */
  class CurrencyState {
    var currency: CurrencyCode

    constructor()
      ensures currency == USD
    {
      currency := USD;
    }

    method SetCurrency(code: CurrencyCode)
      modifies this
      ensures currency == code
    {
      currency := code;
    }
  }
}
