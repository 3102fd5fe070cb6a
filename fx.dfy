/** FX conversion through a USD pivot (fx.js). A rate table maps each quote
    currency to its USD -> quote rate; USD itself is never in the table and
    always has rate 1. All arithmetic is exact. */
module Fx {
  import opened Failures
  import opened Money
  import opened Schema
  import Store

  type RateTable = map<Currency, Rate>

  /** `getUsdToQuote`. */
  function UsdToQuote(rates: RateTable, quote: Currency): (r: Result<real>)
    ensures quote == USD ==> r == Ok(1.0)
    ensures quote != USD ==> (r.Ok? <==> quote in rates)
    ensures r.Ok? ==> r.value > 0.0
    ensures r.Ok? && quote != USD ==> r.value == rates[quote]
    ensures r.Err? ==> r.error == MissingFxRate(quote)
  {
    if quote == USD then Ok(1.0)
    else if quote !in rates then Err(MissingFxRate(quote))
    else Ok(rates[quote] as real)
  }

  /** `getQuoteToUsd`: the reciprocal of `getUsdToQuote`, failing exactly when it fails. */
  function QuoteToUsd(rates: RateTable, quote: Currency): (r: Result<real>)
    ensures r.Ok? <==> UsdToQuote(rates, quote).Ok?
    ensures r.Ok? ==> r.value > 0.0 && r.value * UsdToQuote(rates, quote).value == 1.0
    ensures r.Err? ==> r.error == MissingFxRate(quote)
  {
    var u :- UsdToQuote(rates, quote);
    Ok(1.0 / u)
  }

  predicate Priced(rates: RateTable, c: Currency)
  {
    c == USD || c in rates
  }

  /** The value in US dollars of `amount` units of a priced currency: the
      reference every conversion must preserve. */
  function UsdValue(rates: RateTable, c: Currency, amount: real): real
    requires Priced(rates, c)
  {
    if c == USD then amount else amount / (rates[c] as real)
  }

  /** `a / b` as decimal.js computes it; `None` where it yields no finite
      number (here only ever 0 / 0, which is NaN). */
  function Ratio(a: real, b: real): (r: Option<real>)
    ensures r.Some? <==> b != 0.0
    ensures r.Some? ==> r.value * b == a
  {
    if b == 0.0 then None else Some(a / b)
  }

  datatype Conversion = Conversion(
    fromCurrency: Currency, toCurrency: Currency,
    fromAmount: real, toAmount: real, rate: Option<real>)

  /** `convert`: amount x (from -> USD) x (USD -> to); the identity with rate 1
      when the currencies are equal. */
  function Convert(rates: RateTable, from: Currency, to: Currency, amount: real): (r: Result<Conversion>)
    ensures from == to ==> r == Ok(Conversion(from, to, amount, amount, Some(1.0)))
    ensures from != to ==> (r.Ok? <==> Priced(rates, from) && Priced(rates, to))
    ensures from != to && !Priced(rates, from) ==> r == Err(MissingFxRate(from))
    ensures from != to && Priced(rates, from) && !Priced(rates, to) ==> r == Err(MissingFxRate(to))
    ensures r.Ok? ==> r.value.fromCurrency == from && r.value.toCurrency == to && r.value.fromAmount == amount
    ensures r.Ok? && from != to ==> UsdValue(rates, from, amount) == UsdValue(rates, to, r.value.toAmount)
    ensures r.Ok? && from != to ==> (r.value.rate.Some? <==> amount != 0.0)
    ensures r.Ok? && amount != 0.0 ==> r.value.rate.value * amount == r.value.toAmount
  {
    if from == to then Ok(Conversion(from, to, amount, amount, Some(1.0)))
    else
      var fromToUsd :- if from == USD then Ok(1.0) else QuoteToUsd(rates, from);
      var usdToTo :- if to == USD then Ok(1.0) else UsdToQuote(rates, to);
      var toAmount := amount * fromToUsd * usdToTo;
      ConvertPreservesUsd(rates, from, to, amount, fromToUsd, usdToTo);
      Ok(Conversion(from, to, amount, toAmount, Ratio(toAmount, amount)))
  }

  lemma ConvertPreservesUsd(rates: RateTable, from: Currency, to: Currency, amount: real, f: real, t: real)
    requires Priced(rates, from) && Priced(rates, to)
    requires f == (if from == USD then 1.0 else 1.0 / (rates[from] as real))
    requires t == (if to == USD then 1.0 else rates[to] as real)
    ensures UsdValue(rates, from, amount) == UsdValue(rates, to, amount * f * t)
  {
    if to != USD {
      var rt := rates[to] as real;
      assert amount * f * t / rt == amount * f;
    }
  }

  /** `convertToExactToAmount`: solves for the source amount that converts to
      exactly `desired`. The target currency's rate is looked up first. */
  function ConvertToExactToAmount(rates: RateTable, from: Currency, to: Currency, desired: real): (r: Result<Conversion>)
    ensures from == to ==> r == Ok(Conversion(from, to, desired, desired, Some(1.0)))
    ensures from != to ==> (r.Ok? <==> Priced(rates, from) && Priced(rates, to))
    ensures from != to && !Priced(rates, to) ==> r == Err(MissingFxRate(to))
    ensures from != to && Priced(rates, to) && !Priced(rates, from) ==> r == Err(MissingFxRate(from))
    ensures r.Ok? ==> r.value.fromCurrency == from && r.value.toCurrency == to && r.value.toAmount == desired
    ensures r.Ok? && from != to ==> UsdValue(rates, from, r.value.fromAmount) == UsdValue(rates, to, desired)
    ensures r.Ok? ==> (r.value.fromAmount == 0.0 <==> desired == 0.0)
  {
    if from == to then Ok(Conversion(from, to, desired, desired, Some(1.0)))
    else
      var toToUsd :- if to == USD then Ok(1.0) else QuoteToUsd(rates, to);
      var usdToFrom :- if from == USD then Ok(1.0) else UsdToQuote(rates, from);
      // the two lookups repeated here cannot fail once the two above succeeded
      var fromToUsd := if from == USD then 1.0 else QuoteToUsd(rates, from).value;
      var usdToTo := if to == USD then 1.0 else UsdToQuote(rates, to).value;
      var denom := fromToUsd * usdToTo;
      var fromAmount := desired / denom;
      ExactPreservesUsd(rates, from, to, desired, fromToUsd, usdToTo);
      Ok(Conversion(from, to, fromAmount, desired, Ratio(desired, fromAmount)))
  }

  lemma ExactPreservesUsd(rates: RateTable, from: Currency, to: Currency, desired: real, f: real, t: real)
    requires Priced(rates, from) && Priced(rates, to)
    requires f == (if from == USD then 1.0 else 1.0 / (rates[from] as real))
    requires t == (if to == USD then 1.0 else rates[to] as real)
    ensures f * t > 0.0
    ensures UsdValue(rates, from, desired / (f * t)) == UsdValue(rates, to, desired)
    ensures desired / (f * t) == 0.0 <==> desired == 0.0
  {
    assert f > 0.0 && t > 0.0;
    var x := desired / (f * t);
    assert x * (f * t) == desired;
    ConvertPreservesUsd(rates, from, to, x, f, t);
    assert x * f * t == desired;
  }

  /** Converting the amount `convertToExactToAmount` asks for gives back exactly
      the desired amount. */
  lemma ExactThenConvert(rates: RateTable, from: Currency, to: Currency, desired: real)
    requires ConvertToExactToAmount(rates, from, to, desired).Ok?
    ensures Convert(rates, from, to, ConvertToExactToAmount(rates, from, to, desired).value.fromAmount).Ok?
    ensures Convert(rates, from, to, ConvertToExactToAmount(rates, from, to, desired).value.fromAmount).value.toAmount == desired
  {
    var x := ConvertToExactToAmount(rates, from, to, desired).value.fromAmount;
    if from != to {
      var c := Convert(rates, from, to, x).value;
      UsdValueInjective(rates, to, c.toAmount, desired);
    }
  }

  lemma UsdValueInjective(rates: RateTable, c: Currency, a: real, b: real)
    requires Priced(rates, c)
    requires UsdValue(rates, c, a) == UsdValue(rates, c, b)
    ensures a == b
  {
    if c != USD {
      var rt := rates[c] as real;
      assert a == (a / rt) * rt && b == (b / rt) * rt;
    }
  }

  /** What `fxLogEvent` is given: exact amounts and rate. */
  datatype FxLogRequest = FxLogRequest(
    id: string, paymentId: Option<PaymentId>, bankId: BankId,
    fromCurrency: Currency, toCurrency: Currency,
    fromAmount: real, toAmount: real, rate: Option<real>,
    createdAtMs: int, reason: string)

  /** The fx_history row `fxLogEvent` stores: amounts at 2 dp, the rate as given. */
  function FxHistoryRow(e: FxLogRequest): (row: FxEvent)
    ensures row.fromAmount == Quantize(e.fromAmount) && row.toAmount == Quantize(e.toAmount)
    ensures row.rate == e.rate && row.id == e.id && row.bankId == e.bankId
  {
    FxEvent(e.id, e.paymentId, e.bankId, e.fromCurrency, e.toCurrency,
            Quantize(e.fromAmount), Quantize(e.toAmount), e.rate, e.createdAtMs, e.reason)
  }

  /** `fxLogEvent`: appends one row to fx_history and changes nothing else. */
  method FxLogEvent(db: Store.Database, e: FxLogRequest)
    modifies db`fxHistory
    ensures db.fxHistory == old(db.fxHistory) + [FxHistoryRow(e)]
  {
    db.fxHistory := db.fxHistory + [FxHistoryRow(e)];
  }
}
