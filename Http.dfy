/**
  The request and response values the handlers exchange, with the HTTP and
  JSON plumbing taken away: a request is the handful of query parameters and
  headers the handlers read, a response is a status code and one of the JSON
  bodies the handlers build.
 */
module Http {
  import opened Js

  /** What a price or rate handler reads off a request: the `target` and
      `failure` query parameters and the `X-Failure-Mode` and
      `X-Correlation-Id` headers, each missing (`None`) or present. */
  datatype Request = Request(
    target: Option<string>,
    failure: Option<string>,
    failureMode: Option<string>,
    correlationId: Option<string>)

  /** The `content` of a note: a string, or another JSON value given by its
      `JSON.stringify` text and whether it is truthy. */
  datatype Content = Text(text: string) | Value(json: string, truthy: bool)

  /** A stored note record. */
  datatype Note = Note(docId: string, user: string, size: nat, updatedAt: string, content: Content)

  /** Amounts are fixed-point: prices in cents, rates in hundredths. */
  datatype Body =
    | BasePriceBody(correlationId: string, currency: string, amount: nat)
    | RateBody(correlationId: string, base: string, target: string, rate: nat)
    | PriceViewBody(correlationId: string, baseCurrency: string, targetCurrency: string,
                    baseAmount: nat, rate: nat, convertedAmount: nat)
    | FailureBody(correlationId: string, error: string, humanMessage: Option<string>, code: string)
    | UnsupportedBody(echoedId: Option<string>, error: string)
    | EnospcBody(error: string, message: string, code: string, threshold: nat, size: nat)
    | SavedBody(ok: bool, docId: string, size: nat)
    | WriteFailedBody(error: string, message: string)
    | NoteBody(note: Note)
    | NotFoundBody(error: string)
      /** The value an object literal inherits under `name`, sent as a note. */
    | PrototypeMember(name: string)

  datatype Response = Response(status: nat, body: Body)

  /** `Response.ok` of the Fetch API. */
  predicate IsOk(status: nat) {
    200 <= status <= 299
  }

  const INTERDEPENDENCY_FAIL := "INTERDEPENDENCY_FAIL"
}
