/**
  The request handlers of the development mock: the rate and price-view
  handlers answer from the same table as the server but decide the price
  view in one step, and the notes handlers keep their records in an
  in-memory map instead of a file.
 */
module Mock {
  import opened Js
  import opened Http
  import opened Rates
  import opened NoteRules

  /** The mock's `/api/basePrice`: it mints its own correlation id instead
      of echoing a header. */
  function BasePrice(freshId: string): (r: Response)
    ensures r.status == 200 && r.body.BasePriceBody?
    ensures r.body.correlationId == freshId
    ensures r.body.currency == "USD" && r.body.amount == BASE_PRICE_CENTS
  {
    Response(200, BasePriceBody(freshId, "USD", BASE_PRICE_CENTS))
  }

  /** The mock's `/api/rate`; `freshId` stands for its `correlationId()`. */
  function Rate(req: Request, freshId: string): (r: Response)
    ensures r.status == 500 <==> FailureInjected(req)
    ensures r.status == 500 ==> r.body == RatesFailureBody(freshId)
    ensures r.status == 400 <==> !FailureInjected(req) && RateFor(TargetOf(req)).None?
    ensures r.status == 400 ==> r.body == UnsupportedBody(None, UnsupportedMessage(TargetOf(req)))
    ensures r.status in {200, 400, 500}
    ensures r.status == 200 ==> r.body == RateBody(freshId, "USD", TargetOf(req), RateFor(TargetOf(req)).value)
  {
    var target := TargetOf(req);
    if FailureInjected(req) then Response(500, RatesFailureBody(freshId))
    else match RateFor(target)
      case None => Response(400, UnsupportedBody(None, UnsupportedMessage(target)))
      case Some(rate) => Response(200, RateBody(freshId, "USD", target, rate))
  }

  /** The mock's `/api/priceView`; `id` stands for its `correlationId()`.
      The failure switch answers 502 before the currency is looked at, and
      an unsupported currency answers 400. */
  function PriceView(req: Request, id: string): (r: Response)
    ensures r.status == 502 <==> FailureInjected(req)
    ensures r.status == 502 ==> r.body == UpstreamFailureBody(id)
    ensures r.status == 400 <==> !FailureInjected(req) && RateFor(TargetOf(req)).None?
    ensures r.status == 400 ==> r.body == UnsupportedBody(Some(id), UnsupportedMessage(TargetOf(req)))
    ensures r.status in {200, 400, 502}
    ensures r.status == 200 ==>
      r.body == PriceViewBody(id, "USD", TargetOf(req), BASE_PRICE_CENTS, RateFor(TargetOf(req)).value,
                              Convert(BASE_PRICE_CENTS, RateFor(TargetOf(req)).value))
  {
    var target := TargetOf(req);
    if FailureInjected(req) then Response(502, UpstreamFailureBody(id))
    else match RateFor(target)
      case None => Response(400, UnsupportedBody(Some(id), UnsupportedMessage(target)))
      case Some(rate) =>
        Response(200, PriceViewBody(id, "USD", target, BASE_PRICE_CENTS, rate, Convert(BASE_PRICE_CENTS, rate)))
  }

  /** The module-level `notesDb` map of the mock. */
  class NotesMap {
    var notes: map<string, Note>

    constructor ()
      ensures notes == map[]
    {
      notes := map[];
    }

    /** The mock's `/api/notes/save`: a refused save leaves the map as it
        was; a stored one sets the note's id and nothing else. */
    method Save(req: SaveRequest, now: string) returns (r: Response)
      modifies this
      ensures r.status == 507 <==> req.failToggle && SizeOf(ContentOf(req)) > THRESHOLD
      ensures r == Decide(req, now).reply
      ensures Decide(req, now).Refuse? ==> notes == old(notes)
      ensures Decide(req, now).Store? ==> notes == Put(old(notes), Decide(req, now).note)
    {
      var decision := Decide(req, now);
      r := decision.reply;
      if decision.Store? {
        notes := notes[decision.note.docId := decision.note];
      }
    }

    /** The mock's `/api/notes/:docId`: `notesDb.has` decides 404. */
    method Fetch(docId: string) returns (r: Response)
      ensures r.status == 404 <==> docId !in notes
      ensures r == Lookup(notes, docId)
    {
      r := Lookup(notes, docId);
    }
  }

  /** A stored save is returned by the next fetch of its id. */
  method SaveThenFetch(store: NotesMap, req: SaveRequest, now: string) returns (saved: Response, fetched: Response)
    modifies store
    ensures saved.status == 200 ==> Decide(req, now).Store? && fetched == Response(200, NoteBody(Decide(req, now).note))
    ensures saved.status == 507 ==> store.notes == old(store.notes)
  {
    saved := store.Save(req, now);
    fetched := store.Fetch(DocIdOf(req));
  }
}
