/**
 * Expressing a base-currency quote in the service's current currency. The source has
 * three versions of it: the subscribe path converts 1.0 and multiplies the price by the
 * resulting rate; the query path and the update loop convert the price itself; and the
 * helper convertQuoteCurrency, which nothing calls, also converts the price but keeps a
 * quote that is already in the current currency. A failed conversion never escapes:
 * the quote stays in USD at its original price.
 */
module CurrencyOverlay {
  import opened Types

  /** The provider's native currency. */
  const Usd: string := "USD"

  /** Subscribe path: the generated quote, marked USD, then scaled by the rate for one unit. */
  function OverlayByRate(convert: (real, string) -> Result<real>, current: string, q: Quote): (r: Quote)
    ensures r.symbol == q.symbol && r.timestamp == q.timestamp && r.changePercent == q.changePercent
    ensures r.currency == Usd || r.currency == current
  {
    var base := q.(currency := Usd);
    if current == Usd then base
    else match convert(1.0, current)
      case Ok(rate) => base.(price := base.price * rate, currency := current)
      case Err(_) => base
  }

  /** Query path and update loop: the generated quote, marked USD, then its price converted. */
  function OverlayByPrice(convert: (real, string) -> Result<real>, current: string, q: Quote): (r: Quote)
    ensures r.symbol == q.symbol && r.timestamp == q.timestamp && r.changePercent == q.changePercent
    ensures r.currency == Usd || r.currency == current
  {
    var base := q.(currency := Usd);
    if current == Usd then base
    else match convert(q.price, current)
      case Ok(converted) => base.(price := converted, currency := current)
      case Err(_) => base
  }

  /** convertQuoteCurrency: a new quote; the argument is a value and is never modified. */
  function ConvertQuoteCurrency(convert: (real, string) -> Result<real>, current: string, q: Quote): (r: Quote)
    ensures r.symbol == q.symbol && r.timestamp == q.timestamp && r.changePercent == q.changePercent
    ensures r.currency == q.currency || r.currency == current
  {
    if current == Usd || current == q.currency then q
    else match convert(q.price, current)
      case Ok(converted) => q.(price := converted, currency := current)
      case Err(_) => q
  }

  /**
   * Both overlays: in USD the quote is the generated one marked USD; in another currency
   * the quote carries that currency exactly when the conversion succeeded, and otherwise
   * falls back to USD at the generated price.
   */
  lemma OverlayOutcomes(convert: (real, string) -> Result<real>, current: string, q: Quote)
    ensures current == Usd ==>
      OverlayByPrice(convert, current, q) == OverlayByRate(convert, current, q) == q.(currency := Usd)
    ensures current != Usd ==>
      match convert(q.price, current)
      case Ok(p) => OverlayByPrice(convert, current, q) == q.(price := p, currency := current)
      case Err(_) => OverlayByPrice(convert, current, q) == q.(currency := Usd)
    ensures current != Usd ==>
      match convert(1.0, current)
      case Ok(rate) => OverlayByRate(convert, current, q) == q.(price := q.price * rate, currency := current)
      case Err(_) => OverlayByRate(convert, current, q) == q.(currency := Usd)
  {
  }

  /** The two overlays agree for every quote whenever conversion is multiplication by a rate. */
  lemma OverlaysAgreeWhenLinear(convert: (real, string) -> Result<real>, current: string, rate: real, q: Quote)
    requires forall amount :: convert(amount, current).Ok? && convert(amount, current).value == amount * rate
    ensures OverlayByRate(convert, current, q) == OverlayByPrice(convert, current, q)
  {
    if current != Usd {
      assert convert(1.0, current).Ok? && convert(q.price, current).Ok?;
    }
  }

  /** A converter that charges a fixed fee of 1.0 makes the two paths quote different prices. */
  lemma OverlaysDifferUnderFee()
    ensures var convert := (amount: real, cur: string) => Ok(amount * 2.0 - 1.0);
      var q := Quote("AAPL", 100.0, 0, Usd, 0.0);
      OverlayByRate(convert, "EUR", q).price == 100.0 && OverlayByPrice(convert, "EUR", q).price == 199.0
  {
  }

  /**
   * convertQuoteCurrency returns its argument unchanged exactly when the current currency
   * is USD, or is already the quote's, or the conversion fails.
   */
  lemma ConvertQuoteCurrencyUnchanged(convert: (real, string) -> Result<real>, current: string, q: Quote)
    ensures ConvertQuoteCurrency(convert, current, q) == q
      <==> current == Usd || current == q.currency || convert(q.price, current).Err?
    ensures convert(q.price, current).Ok? && current != Usd && current != q.currency ==>
      ConvertQuoteCurrency(convert, current, q) == q.(price := convert(q.price, current).value, currency := current)
  {
  }
}
