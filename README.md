# Failure-simulation demo: request decisions and note store

A model of the request-decision logic of a small demo that simulates two
failures in a client-server web app:

- an **interdependency failure**: the price view (`/api/priceView`) calls the
  base-price handler and then the rate handler. Any failure along that chain
  becomes one `502 INTERDEPENDENCY_FAIL` answer that carries the view's
  correlation id;
- a simulated **disk full**: `/api/notes/save` answers `507 ENOSPC` when the
  fail toggle is on and the note's JavaScript `.length` (UTF-16 code units)
  is over 500.

Each is modelled twice, as the repository has it: once for the Express server
(`backend/index.js`) and once for the development mock
(`frontend/src/mocks/handlers.js`).

Modules:

- `Js`: the JavaScript behaviours the handlers rely on.
  - `v || 'default'` on strings.
  - ASCII `toUpperCase`, and the UTF-16 `.length` of a string.
  - The `HTTP_${status}` decimal text and a parser that reads it back.
  - The names every plain object inherits from `Object.prototype`.
- `Http`: requests, reduced to the query parameters and headers the handlers
  read. Responses, as a status plus one of the handlers' JSON bodies. Note
  records.
- `Rates`: the rate table and base price, shared by both files.
  - Amounts are fixed-point: cents, and rates in hundredths.
  - Also how the target currency, the failure switch and the correlation id
    are read off a request.
- `NoteRules`: the save rules shared by both files.
  - How the body is normalised and how its size is measured.
  - The threshold of 500 UTF-16 code units.
  - The refuse-or-store decision, and lookup by document id.
- `Backend`: the server.
  - Handlers: base price, rate, the `fetchJson` error mapping, and the price
    view. The view is modelled twice: over arbitrary upstream replies, and
    wired to the server's own handlers.
  - The `NotesFile` class: the notes JSON file, read and rewritten whole on
    each save.
- `Mock`: the mock's handlers and its `NotesMap` class (the in-memory
  `notesDb`).
- `Divergence`: where the mock answers as the server does, and where it does
  not.

Clocks, random ids and the outcome of a file write are parameters:
`now` stands for `new Date().toISOString()`, `id`/`freshId` for `randomUUID()`
and `correlationId()`, and `WriteOutcome` for whether `writeFileSync` throws.

## Model

| member | source | states |
|---|---|---|
| `Js.ToUpper` | backend/index.js:41 | upper-casing keeps the length and maps every character through the ASCII upper-case map |
| `Js.ToUpperIdempotent` | backend/index.js:78-87 | upper-casing an upper-cased target changes nothing, so the rate handler sees the target the view computed |
| `Js.UpperCaseNeverInherited` | backend/index.js:60-61 | no upper-cased target names an `Object.prototype` member, so `SUPPORTED_RATES[target]` only finds the table's own keys |
| `Js.Utf16Length` | backend/index.js:182 | a string's `.length` lies between its character count and twice that count |
| `Js.BmpLengthIsCount` | backend/index.js:182 | on text inside the Basic Multilingual Plane, `.length` is the character count |
| `Js.AstralLengthDoubles` | backend/index.js:182 | on text made only of astral characters (such as emoji), `.length` is twice the character count |
| `Js.Decimal` | backend/index.js:125 | the text of a status is a non-empty run of decimal digits, one digit long exactly below 10 |
| `Js.ParseDecimalInverts` | backend/index.js:125 | the decimal text of a status reads back as that status |
| `Js.OrDefault` | backend/index.js:180-181 | a missing or empty string falls back to the default; any other string is kept; a non-empty default gives a non-empty result |
| `Rates.RateFor` | backend/index.js:13-16 | exactly EUR and GBP are supported, each with a positive rate |
| `Rates.TargetOf` | backend/index.js:41 | the target defaults to EUR, is upper-cased, is never empty and is already upper case |
| `Rates.TargetIgnoresCase` | backend/index.js:41-61 | a target is supported exactly when its upper-cased form is EUR or GBP |
| `Rates.FailureInjected` | backend/index.js:42 | failure is injected exactly when the `failure` query parameter or the `X-Failure-Mode` header is the string `true`; either one alone suffices |
| `Rates.CorrelationOf` | backend/index.js:43 | a non-empty `X-Correlation-Id` is echoed; otherwise `missing-correlation` |
| `Rates.Convert` | backend/index.js:94 | the converted amount is the base times the rate, rounded to the nearest cent |
| `Backend.BasePrice` | backend/index.js:32-39 | always 200, USD 129.99, echoing the correlation id |
| `Backend.Rate` | backend/index.js:40-75 | 500 `INTERDEPENDENCY_FAIL` exactly when failure is injected, even for an unsupported currency; otherwise 400 exactly when the currency is unsupported; otherwise 200 with the table rate and the echoed correlation id |
| `Backend.StatusReason` | backend/index.js:125 | the reason is `HTTP_` followed by decimal digits only |
| `Backend.ReasonStatus` | backend/index.js:125 | only a text starting `HTTP_` reads back as a status |
| `Backend.ReasonNamesStatus` | backend/index.js:125 | the `statusReason` `HTTP_<status>` determines the status |
| `Backend.FetchJson` | backend/index.js:119-130 | a 2xx reply resolves to its body; any other reply throws with its status and a reason naming that status; a failed fetch stays a failure |
| `Backend.ComposePriceView` | backend/index.js:83-117 | 200 exactly when both upstream fetches resolve, with the base amount, the rate and the converted amount; any thrown fetch gives 502 `INTERDEPENDENCY_FAIL` under the view's id |
| `Backend.BaseRequestFor` | backend/index.js:84-86 | the base-price call carries the view's correlation id and no target or failure switch |
| `Backend.RateRequestFor` | backend/index.js:87-92 | the rate call injects failure exactly when the view's switch is on, reads back the view's upper-cased target, and carries its non-empty correlation id |
| `Backend.UpstreamsShareCorrelation` | backend/index.js:81-92 | both upstream requests carry the view's correlation id |
| `Backend.PriceView` | backend/index.js:77-118 | 502 exactly when failure is injected or the currency is unsupported, never 400; otherwise 200 with base 129.99 USD, the table rate and the converted amount |
| `Backend.NotesFile.constructor` | backend/index.js:144-152 | a missing notes file starts as the empty map; an existing one is kept |
| `Backend.NotesFile.Loaded` | backend/index.js:154-161 | a file that does not parse reads as the empty map |
| `Backend.NotesFile.Save` | backend/index.js:178-215 | 507 exactly when the toggle is on and size > 500, with the file untouched; otherwise the file becomes the loaded map with the note set under its id and the reply is `{ok, docId, size}`; when the write throws, the file is unchanged and the reply is 500 with the error code or `EWRITE` |
| `Backend.NotesFile.Fetch` | backend/index.js:218-224 | 404 `NOT_FOUND` exactly when the id is not in the loaded map; otherwise 200 with the stored note |
| `Backend.SaveThenFetch` | backend/index.js:199-223 | after a saved write, fetching its id returns the saved record; a refused save leaves the file as it was |
| `Backend.LookupAsWritten` | backend/index.js:220-222 | as written, a stored id answers its note; an absent id naming an inherited member answers 200 with that member; any other absent id answers 404 `NOT_FOUND` as the own-key lookup does |
| `Backend.LookupDiffersOnlyOnInherited` | backend/index.js:220-222 | the as-written lookup differs from the own-key lookup exactly on absent ids that name an `Object.prototype` member |
| `Backend.PutAsWritten` | backend/index.js:200-208 | as written, a save under `__proto__` adds nothing to a map that does not already own that key; an own `__proto__` key, and every other id, is overwritten as by `Put` |
| `Backend.InheritedIdFoundAsWritten` | backend/index.js:218-223 | as written, fetching `constructor` from an empty store answers 200 where the own-key lookup answers 404 |
| `Backend.ProtoNoteLostAsWritten` | backend/index.js:199-223 | as written, a note saved under `__proto__` is not returned by the next fetch; with own-key storage it is |
| `NoteRules.DocIdOf` | backend/index.js:180 | a missing or empty `docId` becomes `default`; any other is kept |
| `NoteRules.UserOf` | backend/index.js:181 | a missing or empty `user` becomes `anonymous`; any other is kept |
| `NoteRules.ContentOf` | backend/index.js:179 | a missing `content` is the empty string; a given one is kept |
| `NoteRules.SizeOf` | backend/index.js:182 | the size counts UTF-16 code units, between the character count and twice it; a falsy non-string content measures 2 |
| `NoteRules.Decide` | backend/index.js:179-210 | refused exactly when `failToggle` is on and size > 500, with a 507 body carrying threshold 500 and the size; otherwise stores `{docId, user, size, updatedAt, content}` and replies `{ok: true, docId, size}` |
| `NoteRules.ThresholdIsExclusive` | backend/index.js:184-185 | text of exactly 500 UTF-16 code units is stored with the toggle on; 501 units are refused |
| `NoteRules.BmpTextRefusedIffOverLimit` | backend/index.js:182-187 | with the toggle on, text inside the Basic Multilingual Plane is refused exactly when it has more than 500 characters |
| `NoteRules.AstralTextCountsTwice` | backend/index.js:182-187 | 251 astral characters (such as emoji) measure over 500 and are refused with the toggle on |
| `NoteRules.ToggleOffAlwaysStores` | backend/index.js:185 | with the toggle off every save is stored |
| `NoteRules.Lookup` | backend/index.js:220-223 | 404 `NOT_FOUND` exactly when the id is absent; otherwise 200 with the note |
| `NoteRules.Put` | backend/index.js:200-206 | the note's id now maps to the note; every other key keeps its record |
| `NoteRules.FetchAfterSave` | backend/index.js:199-223 | after a stored save its id is fetched as the saved record, and every other id answers as before |
| `NoteRules.LastWriteWins` | backend/index.js:200-206 | two saves under one id leave only the second |
| `Mock.BasePrice` | frontend/src/mocks/handlers.js:16-23 | always 200, USD 129.99, under a freshly minted correlation id |
| `Mock.Rate` | frontend/src/mocks/handlers.js:26-58 | 500 exactly when failure is injected, ahead of the currency check; 400 without a correlation id exactly when the currency is unsupported; otherwise 200 with the table rate |
| `Mock.PriceView` | frontend/src/mocks/handlers.js:61-98 | 502 `INTERDEPENDENCY_FAIL` exactly when failure is injected, before any currency check; 400 with the correlation id exactly when the currency is then unsupported; otherwise 200 with base 129.99 USD and the table rate |
| `Mock.NotesMap.constructor` | frontend/src/mocks/handlers.js:7 | the mock store starts empty |
| `Mock.NotesMap.Save` | frontend/src/mocks/handlers.js:101-130 | 507 exactly when the toggle is on and size > 500, with the map untouched; otherwise only the note's id is set, and the reply is `{ok: true, docId, size}` |
| `Mock.NotesMap.Fetch` | frontend/src/mocks/handlers.js:133-140 | 404 `NOT_FOUND` exactly when the id is absent; otherwise the stored note |
| `Mock.SaveThenFetch` | frontend/src/mocks/handlers.js:126-139 | after a stored save, fetching its id returns the saved note; a refused save leaves the map as it was |
| `Divergence.RateStatusesAgree` | frontend/src/mocks/handlers.js:33-50 | the mock's rate status equals the server's on every request |
| `Divergence.PriceViewsAgreeUnlessUnsupported` | frontend/src/mocks/handlers.js:69-97 | the two price views give the same answer exactly when failure is injected or the currency is supported |
| `Divergence.UnsupportedCurrencyDiverges` | frontend/src/mocks/handlers.js:81-87 | with no failure injected, an unsupported currency is 502 from the server and 400 from the mock |

## Left out

- Express and MSW routing, CORS, JSON body parsing, static serving and `app.listen`: framework plumbing.
- Header-name case-insensitivity and repeated query parameters: the framework's concern. A request is modelled as at most one value per parameter.
- The `setTimeout`/`delay` latencies: there is no timing in the model.
- The loopback fetches between handlers are not modelled as network calls. `Backend.PriceView` assumes both fetches reach the server. `Backend.ComposePriceView` takes either reply as an input, including a rejected fetch.
- The `encodeURIComponent` / query-decoding round trip of the target is taken as the identity.
- File-system persistence is not modelled directly. `ensureDataFiles`, `readFileSync` and `writeFileSync` become the `StoreFile` value, and the file's JSON round trip is taken as the identity.
- A notes file whose JSON parses to something other than an object (such as `null`) is not modelled.
- A partially written file is not modelled. A write that throws leaves the old contents.
- Structured console logging is side-effect only and is not modelled: `logStructuredFailure`, `logNotesEvent`, the thrown error's `message` and `body`.
- `randomUUID`, `crypto.randomUUID`/`Math.random` and `new Date().toISOString()` are parameters.
- Rates.Convert: rounds the exact fixed-point product half-up to cents. It does not model the binary floating point of `+(amount * rate).toFixed(2)`. The two can differ only at exact ties.
- Js.Utf16Length: a Dafny `string` holds Unicode scalar values only, so content carrying an unpaired surrogate (a JSON body may hold `"\ud800"`, which JavaScript counts as one code unit) is outside the model.
- Js.ToUpper: upper-cases ASCII letters only. Full Unicode `toUpperCase`, which can lengthen a string, is not modelled.
- JavaScript truthiness of non-string `docId`/`user` and of `failToggle` is not modelled. They arrive already reduced: a missing value, or a string form, and a `bool`.
- Non-string `content` is given by its `JSON.stringify` text and its truthiness.
- The React UI files (`App.jsx`, `main.jsx`, `NotesEditor.jsx`, `PriceViewer.jsx`) are rendering and local storage only.
- Backend.NotesFile.Fetch: looks up own keys only. It does not return the inherited members that the server's `db[docId]` reads (see Findings and `Backend.LookupAsWritten`).
- Backend.NotesFile.Save: stores a note under `__proto__` like any other id. The server's assignment would drop it (see Findings and `Backend.PutAsWritten`).

## Findings

| source | as written | input that shows it | evidently intended | confidence | as-written member | corrected member |
|---|---|---|---|---|---|---|
| backend/index.js:220-222 | `db[docId]` on a plain object also reads inherited `Object.prototype` members, which are truthy, so the 404 branch is skipped | `GET /api/notes/constructor` on an empty store answers 200, not 404 | 404 `NOT_FOUND` for any id never saved | not executed | `Backend.InheritedIdFoundAsWritten` | `NoteRules.Lookup` |
| backend/index.js:200-208 | `db[docId] = {...}` with `docId` `__proto__` replaces the object's prototype and adds no key, so `JSON.stringify` writes nothing for it, yet the reply is `{ok: true}` | save with `docId: "__proto__"`, then `GET /api/notes/__proto__` | the next fetch returns the saved note | not executed | `Backend.ProtoNoteLostAsWritten` | `NoteRules.FetchAfterSave` |

The mock keeps its notes in a `Map`, so neither finding applies to it.
