/**
  The rules the rate and price-view handlers of both the server and the
  development mock share: the rate table, the base price, how the target
  currency, the failure switch and the correlation id are read off a
  request, and the error bodies of the rates chain.
 */
module Rates {
  import opened Js
  import opened Http

  /** 129.99 USD, in cents. */
  const BASE_PRICE_CENTS: nat := 12999
  const MISSING_CORRELATION := "missing-correlation"

  /** `SUPPORTED_RATES[target]`: EUR 0.92 and GBP 0.78, in hundredths. */
  function RateFor(currency: string): (r: Option<nat>)
    ensures r.Some? <==> currency in {"EUR", "GBP"}
    ensures r.Some? ==> r.value > 0
  {
    if currency == "EUR" then Some(92)
    else if currency == "GBP" then Some(78)
    else None
  }

  /** `(target || 'EUR').toUpperCase()`. */
  function TargetOf(req: Request): (t: string)
    ensures t != "" && ToUpper(t) == t
    ensures req.target.None? || req.target.value == "" ==> t == "EUR"
    ensures req.target.Some? && req.target.value != "" ==> t == ToUpper(req.target.value)
  {
    var raw := OrDefault(req.target, "EUR");
    ToUpperIdempotent(raw);
    ToUpper(raw)
  }

  /** A lower-case or mixed-case code names the same currency. */
  lemma TargetIgnoresCase(req: Request, code: string)
    requires req.target == Some(code) && code != ""
    ensures RateFor(TargetOf(req)).Some? <==> ToUpper(code) in {"EUR", "GBP"}
  {
  }

  /** `failure === 'true'` in the query or `X-Failure-Mode === 'true'`. */
  predicate FailureInjected(req: Request): (on: bool)
    ensures req.failure == Some("true") ==> on
    ensures req.failureMode == Some("true") ==> on
    ensures on ==> req.failure == Some("true") || req.failureMode == Some("true")
  {
    req.failure == Some("true") || req.failureMode == Some("true")
  }

  /** `X-Correlation-Id || 'missing-correlation'`. */
  function CorrelationOf(req: Request): (c: string)
    ensures c != ""
    ensures req.correlationId.Some? && req.correlationId.value != "" ==> c == req.correlationId.value
    ensures req.correlationId.None? || req.correlationId.value == "" ==> c == MISSING_CORRELATION
  {
    OrDefault(req.correlationId, MISSING_CORRELATION)
  }

  /** The base amount times the rate, rounded to whole cents. */
  function Convert(cents: nat, rate: nat): (c: nat)
    ensures c * 100 <= cents * rate + 50 < c * 100 + 100
  {
    (cents * rate + 50) / 100
  }

  function UnsupportedMessage(target: string): string {
    "Unsupported target currency: " + target
  }

  /** The rates service's own 500 body. */
  function RatesFailureBody(id: string): Body {
    FailureBody(id, "rates-service internal failure", None, INTERDEPENDENCY_FAIL)
  }

  /** The 502 body of a price view whose chain failed. */
  function UpstreamFailureBody(id: string): Body {
    FailureBody(id, "Upstream failure: rates-service unavailable (500)",
                Some("Upstream failure: rates-service unavailable (500/slow)"), INTERDEPENDENCY_FAIL)
  }
}
