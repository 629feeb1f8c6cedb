/**
  The Express server: the three handlers of the rates chain (base price,
  rate, composed price view), the error mapping of its loopback fetch, and
  the note store kept in one JSON file that every save reads and rewrites
  whole.
 */
module Backend {
  import opened Js
  import opened Http
  import opened Rates
  import opened NoteRules

  /** `GET /api/basePrice`. */
  function BasePrice(req: Request): (r: Response)
    ensures r.status == 200 && r.body.BasePriceBody?
    ensures r.body.currency == "USD" && r.body.amount == BASE_PRICE_CENTS
    ensures r.body.correlationId == CorrelationOf(req)
  {
    Response(200, BasePriceBody(CorrelationOf(req), "USD", BASE_PRICE_CENTS))
  }

  /** `GET /api/rate`: the injected failure is decided before the currency. */
  function Rate(req: Request): (r: Response)
    ensures r.status == 500 <==> FailureInjected(req)
    ensures r.status == 500 ==> r.body == RatesFailureBody(CorrelationOf(req))
    ensures r.status == 400 <==> !FailureInjected(req) && RateFor(TargetOf(req)).None?
    ensures r.status == 400 ==> r.body == UnsupportedBody(Some(CorrelationOf(req)), UnsupportedMessage(TargetOf(req)))
    ensures r.status in {200, 400, 500}
    ensures r.status == 200 ==> r.body == RateBody(CorrelationOf(req), "USD", TargetOf(req), RateFor(TargetOf(req)).value)
  {
    var target := TargetOf(req);
    var id := CorrelationOf(req);
    if FailureInjected(req) then Response(500, RatesFailureBody(id))
    else match RateFor(target)
      case None => Response(400, UnsupportedBody(Some(id), UnsupportedMessage(target)))
      case Some(rate) => Response(200, RateBody(id, "USD", target, rate))
  }

  /** What one loopback `fetch` settles to: a response, or a rejection. */
  datatype Exchange = Reached(response: Response) | Unreachable(message: string)

  /** What `fetchJson` settles to: the parsed body, or the error it throws. */
  datatype Fetched =
    | Resolved(json: Body)
    | Thrown(status: nat, statusReason: string)
    | Rejected(message: string)

  /** `HTTP_${status}`. */
  function StatusReason(status: nat): (reason: string)
    ensures |reason| > 5 && reason[..5] == "HTTP_"
    ensures forall i :: 5 <= i < |reason| ==> '0' <= reason[i] <= '9'
  {
    "HTTP_" + Decimal(status)
  }

  /** Reads the status back out of a `statusReason`. */
  function ReasonStatus(reason: string): (status: Option<nat>)
    ensures status.Some? ==> |reason| > 5 && reason[..5] == "HTTP_"
  {
    if |reason| >= 5 && reason[..5] == "HTTP_" then ParseDecimal(reason[5..]) else None
  }

  lemma ReasonNamesStatus(status: nat)
    ensures ReasonStatus(StatusReason(status)) == Some(status)
  {
    var reason := StatusReason(status);
    assert reason[..5] == "HTTP_";
    assert reason[5..] == Decimal(status);
    ParseDecimalInverts(status);
  }

  /** `fetchJson`: a non-2xx reply throws with its status and the reason
      `HTTP_<status>`; a failed fetch is passed on as it is. */
  function FetchJson(reply: Exchange): (f: Fetched)
    ensures f.Resolved? <==> reply.Reached? && IsOk(reply.response.status)
    ensures f.Resolved? ==> f.json == reply.response.body
    ensures f.Thrown? <==> reply.Reached? && !IsOk(reply.response.status)
    ensures f.Thrown? ==> f.status == reply.response.status && ReasonStatus(f.statusReason) == Some(f.status)
    ensures reply.Unreachable? ==> f == Rejected(reply.message)
  {
    match reply
    case Unreachable(message) => Rejected(message)
    case Reached(response) =>
      if IsOk(response.status) then Resolved(response.body)
      else
        ReasonNamesStatus(response.status);
        Thrown(response.status, StatusReason(response.status))
  }

  /** The body of `/api/priceView` once its two upstream replies are known.
      The rate reply is looked at only when the base price resolved. Any
      exception becomes one 502 under the view's own correlation id. */
  function ComposePriceView(target: string, id: string, baseReply: Exchange, rateReply: Exchange): (r: Response)
    requires baseReply.Reached? && IsOk(baseReply.response.status) ==> baseReply.response.body.BasePriceBody?
    requires rateReply.Reached? && IsOk(rateReply.response.status) ==> rateReply.response.body.RateBody?
    ensures r.status == 200 <==> FetchJson(baseReply).Resolved? && FetchJson(rateReply).Resolved?
    ensures r.status != 200 ==> r == Response(502, UpstreamFailureBody(id))
    ensures r.status == 200 ==>
      var base, quote := baseReply.response.body, rateReply.response.body;
      r.body == PriceViewBody(id, base.currency, target, base.amount, quote.rate, Convert(base.amount, quote.rate))
  {
    match FetchJson(baseReply)
    case Resolved(base) =>
      (match FetchJson(rateReply)
       case Resolved(quote) =>
         Response(200, PriceViewBody(id, base.currency, target, base.amount, quote.rate,
                                     Convert(base.amount, quote.rate)))
       case _ => Response(502, UpstreamFailureBody(id)))
    case _ => Response(502, UpstreamFailureBody(id))
  }

  /** The request the view sends to `/api/basePrice`. */
  function BaseRequestFor(id: string): (r: Request)
    ensures r.correlationId == Some(id)
    ensures r.target.None? && !FailureInjected(r)
  {
    Request(None, None, None, Some(id))
  }

  /** The request the view sends to `/api/rate`: the target and the failure
      switch, both as query parameter and header, and its correlation id. */
  function RateRequestFor(target: string, failure: bool, id: string): (r: Request)
    ensures FailureInjected(r) <==> failure
    ensures target != "" && ToUpper(target) == target ==> TargetOf(r) == target
    ensures id != "" ==> CorrelationOf(r) == id
  {
    var flag := if failure then "true" else "false";
    Request(Some(target), Some(flag), Some(flag), Some(id))
  }

  /** Both upstream calls carry the view's correlation id. */
  lemma UpstreamsShareCorrelation(req: Request, id: string)
    requires id != ""
    ensures CorrelationOf(BaseRequestFor(id)) == id
    ensures CorrelationOf(RateRequestFor(TargetOf(req), FailureInjected(req), id)) == id
  {
  }

  /** `GET /api/priceView`, wired to this server's own base-price and rate
      handlers; `id` is the fresh `randomUUID()`. An injected failure and an
      unsupported currency both surface as 502, never as 400. */
  function PriceView(req: Request, id: string): (r: Response)
    ensures r.status == 502 <==> FailureInjected(req) || RateFor(TargetOf(req)).None?
    ensures r.status == 502 ==> r.body == UpstreamFailureBody(id)
    ensures r.status != 502 ==>
      r == Response(200, PriceViewBody(id, "USD", TargetOf(req), BASE_PRICE_CENTS, RateFor(TargetOf(req)).value,
                                       Convert(BASE_PRICE_CENTS, RateFor(TargetOf(req)).value)))
  {
    var target := TargetOf(req);
    var failure := FailureInjected(req);
    var upstream := RateRequestFor(target, failure, id);
    assert TargetOf(upstream) == target && FailureInjected(upstream) == failure;
    ComposePriceView(target, id, Reached(BasePrice(BaseRequestFor(id))), Reached(Rate(upstream)))
  }

  /** What the notes file holds: JSON that parses to a map, or anything
      `JSON.parse` rejects. */
  datatype StoreFile = Parsed(notes: map<string, Note>) | Unparsable

  /** How `writeFileSync` ends: it returns, or throws with an optional
      `code`. */
  datatype WriteOutcome = Written | WriteFailed(code: Option<string>)

  /** The JSON file behind `/api/notes`. */
  class NotesFile {
    var file: StoreFile

    /** `ensureDataFiles`: a missing file is created holding `{}`. */
    constructor (found: Option<StoreFile>)
      ensures file == if found.None? then Parsed(map[]) else found.value
    {
      file := if found.None? then Parsed(map[]) else found.value;
    }

    /** `readNotesDb`: a file that does not parse reads as the empty map. */
    function Loaded(): (notes: map<string, Note>)
      reads this
      ensures file.Unparsable? ==> notes == map[]
      ensures file.Parsed? ==> notes == file.notes
    {
      match file
      case Parsed(notes) => notes
      case Unparsable => map[]
    }

    /** `POST /api/notes/save`. A refused save returns before the file is
        read; a stored one rewrites the file with the loaded map plus the
        note, unless the write throws, in which case the file keeps its old
        contents and the reply is 500. */
    method Save(req: SaveRequest, now: string, write: WriteOutcome) returns (r: Response)
      modifies this
      ensures r.status == 507 <==> req.failToggle && SizeOf(ContentOf(req)) > THRESHOLD
      ensures Decide(req, now).Refuse? ==> file == old(file) && r == Decide(req, now).reply
      ensures Decide(req, now).Store? && write.Written? ==>
        file == Parsed(Put(old(Loaded()), Decide(req, now).note)) && r == Decide(req, now).reply
      ensures Decide(req, now).Store? && write.WriteFailed? ==>
        file == old(file) && r == Response(500, WriteFailedBody(OrDefault(write.code, "EWRITE"), "Failed to write note"))
    {
      var decision := Decide(req, now);
      if decision.Refuse? {
        return decision.reply;
      }
      var notes := Loaded();
      notes := notes[decision.note.docId := decision.note];
      match write {
        case Written =>
          file := Parsed(notes);
          r := decision.reply;
        case WriteFailed(code) =>
          r := Response(500, WriteFailedBody(OrDefault(code, "EWRITE"), "Failed to write note"));
      }
    }

    /** `GET /api/notes/:docId`, reading the file afresh, with the lookup
        restricted to keys the file holds (see `LookupAsWritten`). */
    method Fetch(docId: string) returns (r: Response)
      ensures r.status == 404 <==> OrDefault(Some(docId), "default") !in Loaded()
      ensures r == Lookup(Loaded(), OrDefault(Some(docId), "default"))
    {
      var notes := Loaded();
      var key := OrDefault(Some(docId), "default");
      r := Lookup(notes, key);
    }
  }

  /** A save that is stored and written is returned by the next fetch of
      its id. */
  method SaveThenFetch(store: NotesFile, req: SaveRequest, now: string) returns (saved: Response, fetched: Response)
    modifies store
    ensures saved.status == 200 ==> Decide(req, now).Store? && fetched == Response(200, NoteBody(Decide(req, now).note))
    ensures saved.status == 507 ==> store.file == old(store.file)
  {
    saved := store.Save(req, now, Written);
    fetched := store.Fetch(DocIdOf(req));
  }

  /** `db[docId]` as the server writes it, on a plain object: an id that is
      not an own key but names an `Object.prototype` member reads as that
      truthy member. */
  function LookupAsWritten(notes: map<string, Note>, docId: string): (r: Response)
    ensures docId !in PrototypeKeys ==> r == Lookup(notes, docId)
    ensures docId in notes ==> r == Lookup(notes, docId)
    ensures docId !in notes && docId in PrototypeKeys ==> r == Response(200, PrototypeMember(docId))
  {
    if docId in notes then Response(200, NoteBody(notes[docId]))
    else if docId in PrototypeKeys then Response(200, PrototypeMember(docId))
    else Response(404, NotFoundBody("NOT_FOUND"))
  }

  /** `db[docId] = note` as the server writes it: assigning `__proto__` to
      an object that does not own that key replaces the object's prototype
      and adds no key to the JSON text; an own `__proto__` key, which
      `JSON.parse` creates, is overwritten like any other. */
  function PutAsWritten(notes: map<string, Note>, note: Note): (m: map<string, Note>)
    ensures note.docId == "__proto__" && "__proto__" !in notes ==> m == notes
    ensures note.docId != "__proto__" || "__proto__" in notes ==> m == Put(notes, note)
  {
    if note.docId == "__proto__" && "__proto__" !in notes then notes else notes[note.docId := note]
  }

  /** The as-written lookup differs from the own-key one exactly on absent
      ids that name an inherited member. */
  lemma LookupDiffersOnlyOnInherited(notes: map<string, Note>, docId: string)
    ensures LookupAsWritten(notes, docId) != Lookup(notes, docId) <==> docId !in notes && docId in PrototypeKeys
  {
  }

  /** As written, fetching a never-saved id `constructor` answers 200. */
  lemma InheritedIdFoundAsWritten()
    ensures LookupAsWritten(map[], "constructor").status == 200
    ensures Lookup(map[], "constructor").status == 404
  {
  }

  /** As written, a note saved under `__proto__` is not what the next fetch
      of that id returns. */
  lemma ProtoNoteLostAsWritten(notes: map<string, Note>, note: Note)
    requires note.docId == "__proto__" && "__proto__" !in notes
    ensures LookupAsWritten(PutAsWritten(notes, note), "__proto__") != Response(200, NoteBody(note))
    ensures Lookup(Put(notes, note), "__proto__") == Response(200, NoteBody(note))
  {
  }
}
