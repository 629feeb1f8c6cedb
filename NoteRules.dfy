/**
  The note-save rules the server and the development mock share: how the
  request body is normalised, how the size is measured, when the simulated
  disk-full refusal fires, what record is stored and what a lookup by
  document id answers.
 */
module NoteRules {
  import opened Js
  import opened Http

  /** Size, in UTF-16 code units, above which a save with the toggle on is
      refused. */
  const THRESHOLD: nat := 500

  /** The JSON body of a save: `docId` and `user` missing (or falsy) as
      `None`, otherwise as their string form; `content` missing as `None`;
      `failToggle` as its truth value. */
  datatype SaveRequest = SaveRequest(
    docId: Option<string>,
    user: Option<string>,
    content: Option<Content>,
    failToggle: bool)

  function DocIdOf(req: SaveRequest): (d: string)
    ensures d != ""
    ensures req.docId.None? || req.docId.value == "" ==> d == "default"
    ensures req.docId.Some? && req.docId.value != "" ==> d == req.docId.value
  {
    OrDefault(req.docId, "default")
  }

  function UserOf(req: SaveRequest): (u: string)
    ensures u != ""
    ensures req.user.None? || req.user.value == "" ==> u == "anonymous"
    ensures req.user.Some? && req.user.value != "" ==> u == req.user.value
  {
    OrDefault(req.user, "anonymous")
  }

  /** A missing `content` defaults to the empty string. */
  function ContentOf(req: SaveRequest): (c: Content)
    ensures req.content.None? ==> c == Text("")
    ensures req.content.Some? ==> c == req.content.value
  {
    if req.content.Some? then req.content.value else Text("")
  }

  /** `.length` of the string, or of `JSON.stringify(content || '')`, where
      a falsy value becomes `""`: in both cases UTF-16 code units. */
  function SizeOf(c: Content): (n: nat)
    ensures c.Text? ==> |c.text| <= n <= 2 * |c.text|
    ensures c.Value? && c.truthy ==> |c.json| <= n <= 2 * |c.json|
    ensures c.Value? && !c.truthy ==> n == 2
  {
    match c
    case Text(t) => Utf16Length(t)
    case Value(json, truthy) => if truthy then Utf16Length(json) else Utf16Length("\"\"")
  }

  /** What a save does once its body is read: refuse with 507 ENOSPC, or
      store `note` under its document id and answer `reply`. */
  datatype Decision = Refuse(reply: Response) | Store(note: Note, reply: Response)

  function Decide(req: SaveRequest, now: string): (d: Decision)
    ensures d.Refuse? <==> req.failToggle && SizeOf(ContentOf(req)) > THRESHOLD
    ensures d.Refuse? ==> d.reply == Response(507, EnospcBody("ENOSPC", "No space left on device", "ENOSPC",
                                                              THRESHOLD, SizeOf(ContentOf(req))))
    ensures d.Store? ==> d.note == Note(DocIdOf(req), UserOf(req), SizeOf(ContentOf(req)), now, ContentOf(req))
    ensures d.Store? ==> d.reply == Response(200, SavedBody(true, DocIdOf(req), SizeOf(ContentOf(req))))
  {
    var docId, user, content := DocIdOf(req), UserOf(req), ContentOf(req);
    var size := SizeOf(content);
    if req.failToggle && size > THRESHOLD then
      Refuse(Response(507, EnospcBody("ENOSPC", "No space left on device", "ENOSPC", THRESHOLD, size)))
    else
      Store(Note(docId, user, size, now, content), Response(200, SavedBody(true, docId, size)))
  }

  /** The limit is exclusive: text of exactly 500 code units is stored even
      with the toggle on, and one more unit is refused. */
  lemma ThresholdIsExclusive(req: SaveRequest, now: string, t: string)
    requires req.failToggle && req.content == Some(Text(t))
    ensures Utf16Length(t) == 500 ==> Decide(req, now).Store?
    ensures Utf16Length(t) == 501 ==> Decide(req, now).Refuse?
  {
  }

  /** On text inside the Basic Multilingual Plane the limit is on the
      character count: with the toggle on, such text is refused exactly when
      it has more than 500 characters. */
  lemma BmpTextRefusedIffOverLimit(req: SaveRequest, now: string, t: string)
    requires req.failToggle && req.content == Some(Text(t))
    requires forall i :: 0 <= i < |t| ==> !IsAstral(t[i])
    ensures Decide(req, now).Refuse? <==> |t| > THRESHOLD
  {
    BmpLengthIsCount(t);
  }

  /** Astral characters such as emoji count twice: 251 of them are refused
      with the toggle on. */
  lemma AstralTextCountsTwice(req: SaveRequest, now: string, t: string)
    requires req.failToggle && req.content == Some(Text(t)) && |t| == 251
    requires forall i :: 0 <= i < |t| ==> IsAstral(t[i])
    ensures Decide(req, now).Refuse?
  {
    AstralLengthDoubles(t);
  }

  /** Without the toggle every save is stored, however large. */
  lemma ToggleOffAlwaysStores(req: SaveRequest, now: string)
    requires !req.failToggle
    ensures Decide(req, now).Store?
  {
  }

  /** `GET /api/notes/:docId` over the store's current map. */
  function Lookup(notes: map<string, Note>, docId: string): (r: Response)
    ensures r.status == 404 <==> docId !in notes
    ensures docId !in notes ==> r.body == NotFoundBody("NOT_FOUND")
    ensures docId in notes ==> r == Response(200, NoteBody(notes[docId]))
  {
    if docId in notes then Response(200, NoteBody(notes[docId]))
    else Response(404, NotFoundBody("NOT_FOUND"))
  }

  /** The store after a stored save: last write wins under the note's id. */
  function Put(notes: map<string, Note>, note: Note): (m: map<string, Note>)
    ensures m.Keys == notes.Keys + {note.docId}
    ensures m[note.docId] == note
    ensures forall k :: k in notes && k != note.docId ==> m[k] == notes[k]
  {
    notes[note.docId := note]
  }

  /** Fetching the saved id returns the saved record; every other id
      answers as before. */
  lemma FetchAfterSave(notes: map<string, Note>, req: SaveRequest, now: string)
    requires Decide(req, now).Store?
    ensures Lookup(Put(notes, Decide(req, now).note), DocIdOf(req)) == Response(200, NoteBody(Decide(req, now).note))
    ensures forall k :: k != DocIdOf(req) ==> Lookup(Put(notes, Decide(req, now).note), k) == Lookup(notes, k)
  {
  }

  /** Two stored saves under one id leave only the second. */
  lemma LastWriteWins(notes: map<string, Note>, first: Note, second: Note)
    requires first.docId == second.docId
    ensures Put(Put(notes, first), second) == Put(notes, second)
  {
  }
}
