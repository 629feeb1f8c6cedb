/**
  Where the development mock answers as the server does and where it does
  not.
 */
module Divergence {
  import opened Http
  import opened Rates
  import Backend
  import Mock

  /** The mock's rate handler gives the server's status on every request. */
  lemma RateStatusesAgree(req: Request, freshId: string)
    ensures Mock.Rate(req, freshId).status == Backend.Rate(req).status
  {
  }

  /** The two price views answer alike exactly when the failure switch is on
      or the currency is supported. */
  lemma PriceViewsAgreeUnlessUnsupported(req: Request, id: string)
    ensures Backend.PriceView(req, id) == Mock.PriceView(req, id)
        <==> FailureInjected(req) || RateFor(TargetOf(req)).Some?
  {
  }

  /** An unsupported currency without the switch: 502 from the server, 400
      from the mock. */
  lemma UnsupportedCurrencyDiverges(req: Request, id: string)
    requires !FailureInjected(req) && RateFor(TargetOf(req)).None?
    ensures Backend.PriceView(req, id).status == 502
    ensures Mock.PriceView(req, id).status == 400
  {
  }
}
