# Note board persistence and placement, modelled in Dafny

The note board lets clients post short notes with a screen position, list
them, and move them. This project models the parts of it with precise
behaviour:

- **The note handlers** (`note_routes.dfy`, module `NoteRoutes`): the
  create handler's input normalisation (text cut to 100 characters, kind
  coerced to `present` or `note`, coordinates drawn at random when not
  numbers), the choice between the database and the in-memory fallback store
  `memoryNotes`, and the position update of a stored note. The fallback store
  is the class `NoteBoard` with a `seq<Note>` field the methods reassign.
  Whether the database connection is ready and whether a database read, save
  or update succeeds are inputs; the id generator is a fresh-id input; the
  two random draws are inputs in their ranges.
- **The connection cache** (`connection_cache.dfy`, module `MongoConnection`):
  the process-wide `{ conn, promise }` record as the class `ConnectionCache`.
  `Connect` is the synchronous part of `connect()` (return the cached
  connection, join the pending attempt, or start a new cycle); `Settle` runs
  the pending cycle's retry loop, each driver connect being an oracle outcome
  and each backoff delay recorded rather than waited. `Settle` is proved equal
  to `Cycle`, the recursive `attemptConnect`.
- **The remote document API client** (`data_api.dfy`, module `DataApi`):
  configuration from the environment, the `send` guard and payload, `normalizeId`,
  and how `findAll`, `find`, `insertOne` and `updateOne` reshape the response.
  The HTTP exchange is an input `Response`; every operation reports the
  `Request` it sent, if any.
- **Free-position search** (`placement.dfy`, module `Placement`): the client's
  `computeFreePosition` and its `overlaps`, as methods with loops proved equal
  to the specification `FreePosition`, with lemmas on what that position is.

The create handler does not trim the note text, no handler deduplicates
repeated submissions, and no handler calls the remote document API: that
client stands on its own. A fully failed connection cycle waits twice,
250 ms and then 500 ms, and then gives up.

`json.dfy` holds the JavaScript value datatype with truthiness, property read
and string conversion; `wrappers.dfy` holds `Option` and `Result`.

## Model

| member | source | states |
|---|---|---|
| `Json.ConversionThrowsIffOwnToString` | routes/index.js:49 | converting a value to a string throws exactly when it is, or holds as an array element, an object with an own `toString` member |
| `NoteRoutes.NoteText` | routes/index.js:49 | the conversion throws exactly when the input holds an object with an own `toString`; otherwise the note text holds at most 100 characters, is a prefix of the string conversion of the input, has the length min(100, input length), and is empty for a null or undefined input |
| `NoteRoutes.KindOf` | routes/index.js:50 | the kind is `present` exactly when the input is the string 'present', else `note` |
| `NoteRoutes.Normalize` | routes/index.js:49-52 | no draft exactly when the `note` conversion throws; otherwise text bounded and a prefix of the input; empty exactly for null/undefined input or an empty conversion; kind `present` iff type is 'present'; a numeric x/y is kept, otherwise x lies in [50, 449] and y in [50, 349] |
| `NoteRoutes.FindIndex` | routes/index.js:87 | the result is -1 exactly when no note has the id, otherwise the index of the first note with that id |
| `NoteRoutes.Moved` | routes/index.js:91-92 | same length; every other entry unchanged; the moved entry gets the new x and y and keeps its id, text and kind |
| `NoteRoutes.MovedKeepsWellFormed` | routes/index.js:91-92 | moving a note keeps ids non-empty and distinct and texts within 1 to 100 characters |
| `NoteRoutes.NoteBoard.constructor` | routes/index.js:7 | the fallback store starts empty |
| `NoteRoutes.NoteBoard.List` | routes/index.js:34-45 | the database's notes when it is ready and the read succeeds, otherwise the fallback store's notes |
| `NoteRoutes.NoteBoard.Post` | routes/index.js:48-70 | a `note` whose conversion throws: the handler throws, nothing is sent to the database and the store is unchanged; empty text: 400 and no change; database ready: the normalised note is handed to the database; ready and saved: 201 and the store is untouched; otherwise 201 with fallback and exactly one entry appended carrying the fresh id and the normalised fields; the store invariant is kept |
| `NoteRoutes.NoteBoard.Patch` | routes/index.js:73-94 | falsy id or non-number x/y: 400 and no change; database ready and updated: success, store untouched; otherwise an id whose conversion throws gives 404 on an empty store and a thrown handler on a non-empty one, with no change; an id absent from the store gives 404 with no change, and a present one moves only the first matching entry's x and y |
| `MongoConnection.Cycle` | lib/db.js:29-52 | a cycle makes at least one and at most 3 attempts, and records one delay per attempt after the first |
| `MongoConnection.CycleBehaviour` | lib/db.js:30-52 | the delay after failed attempt k is 250 * 2^(k-1); every attempt before the last one made failed; a resolved cycle carries the instance of its last attempt, a rejected one made all 3 attempts and carries the third error |
| `MongoConnection.CycleConnectsIffSomeAttemptDoes` | lib/db.js:30-48 | a cycle connects exactly when one of its three attempts succeeds, and then with the instance of the first attempt that does, every earlier one having failed |
| `MongoConnection.FullFailureWaits750` | lib/db.js:43-52 | when all attempts fail, the delays are 250 then 500 ms, 750 ms in total, and the third attempt's error is rethrown |
| `MongoConnection.ConnectionCache.constructor` | lib/db.js:9-12 | the record starts as `{ conn: null, promise: null }` |
| `MongoConnection.ConnectionCache.Connect` | lib/db.js:14-58 | a cached connection is returned with no change; an existing pending attempt is returned with no change; otherwise a new pending attempt is recorded and returned |
| `MongoConnection.ConnectionCache.Settle` | lib/db.js:30-56 | the retry loop yields exactly `Cycle(outcome, 1)`'s settlement, attempt count and delays; success caches the instance and keeps the promise; total failure clears the promise and leaves no connection |
| `DataApi.EnvOr` | lib/dataApi.js:4-6 | a set, non-empty environment value wins, otherwise the default |
| `DataApi.LoadConfig` | lib/dataApi.js:2-6 | URL and key are taken as found; data source, database and collection are never empty |
| `DataApi.Payload` | lib/dataApi.js:11 | the payload's keys are the three defaults and the body's keys; every body key overrides; a default absent from the body keeps its configured value |
| `DataApi.Send` | lib/dataApi.js:8-25 | without URL or key nothing is sent and the call fails; otherwise the request goes to `<url>/action/<action>` with the key and the payload; a non-ok response is an error with status and text, an ok one yields the body |
| `DataApi.NormalizeId` | lib/dataApi.js:27-36 | a document whose `_id` carries a truthy `$oid` gets that value as `_id` with every other field unchanged; every other value, null and undefined included, is returned unchanged |
| `DataApi.NormalizeIdIdempotent` | lib/dataApi.js:29-34 | normalising twice equals normalising once when the unwrapped `$oid` is not itself an object |
| `DataApi.Documents` | lib/dataApi.js:42 | a null/undefined body is a type error; a `documents` that is not an array gives []; otherwise the same number of documents, in order, each normalised |
| `DataApi.FindAll` | lib/dataApi.js:39-44 | sends `find` with the empty filter; an ok response yields its documents normalised, anything else an error |
| `DataApi.Find` | lib/dataApi.js:45-49 | as `FindAll`, with the caller's filter or `{}` when it is falsy |
| `DataApi.InsertOne` | lib/dataApi.js:50-56 | sends `insertOne` with the document; yields `insertedId.$oid` when present and truthy, otherwise `insertedId` itself; errors otherwise |
| `DataApi.UpdateOne` | lib/dataApi.js:57-61 | sends `updateOne` with the filter and the update; an ok response's body is returned as it is |
| `DataApi.UnconfiguredSendsNothing` | lib/dataApi.js:9 | without URL or key no operation sends a request, and each fails with the configuration error |
| `DataApi.NotOkIsAlwaysAnError` | lib/dataApi.js:20-23 | a response that is not ok makes every operation fail, never return a result |
| `Placement.CellCount` | public/javascripts/script.js:121-122 | at least one cell; otherwise the number of whole 170-pixel cells that fit in the extent |
| `Placement.FirstFreeCellIsFirst` | public/javascripts/script.js:135-141 | the cell the row-major scan finds from a starting cell is free and every cell between is occupied; none is found exactly when all remaining cells are occupied |
| `Placement.Tried` | public/javascripts/script.js:144 | at most 50 candidates are tried, a prefix of the draws |
| `Placement.FirstFreeCandidateIsFirst` | public/javascripts/script.js:144-148 | the candidate found is clear of every note and every earlier tried one overlaps; none is found exactly when all overlap |
| `Placement.Overlaps` | public/javascripts/script.js:125-132 | true exactly when some existing note, with missing coordinates read as 0, is within 150 px on both axes |
| `Placement.ComputeFreePosition` | public/javascripts/script.js:113-152 | the grid scan, the random phase and the last resort yield exactly `FreePosition` |
| `Placement.OnlyLastResortOverlaps` | public/javascripts/script.js:139-151 | a grid or random answer never overlaps an existing note; only (100, 100) may |
| `Placement.GridAnswerIsFirstFreeCell` | public/javascripts/script.js:135-141 | a grid answer is `(c*170+10, r*170+10)` with r, c inside the grid, free, and every earlier cell in row-major order occupied |
| `Placement.EmptyBoardTakesFirstCell` | public/javascripts/script.js:135-139 | with no existing notes the answer is (10, 10) |
| `Placement.RandomPhaseTriesFirstFifty` | public/javascripts/script.js:143-151 | when the grid is full the answer is the first free one among the first 50 candidates, or (100, 100) when all overlap; with in-range draws the answer is in range or (100, 100) |

## Left out

- Numbers are exact unbounded integers whose string form is plain decimal: floating-point coordinates, `NaN` and `Infinity` are not modelled, `Math.floor` is the identity on them, and unlike JavaScript, `String(n)` never switches to exponent form (`1e+21` for |n| >= 1e21) and integers above 2^53 are not rounded by JSON parsing; this affects the note text built from a numeric `note` and the id match in the position update.
- What Express and Node do with a handler that throws (`Reply.Threw`): whether a 500 answer is sent or the rejection goes unhandled depends on the Express version, which is not part of this model.
- HTTP framing, Express routing, body parsing and page rendering; handler answers are the `Reply` datatype, and the request body is a map from keys to JSON values.
- The Mongoose schema and model registration (routes/index.js:12-24) and the database calls themselves; readiness and the success of a read, save or update are inputs, and the save's own validation is part of that outcome.
- `generateId`'s format and `Math.random`: ids come from a fresh-id input, random coordinates from draws given in their ranges.
- NoteRoutes.NoteText: lengths and the 100-character cut count Unicode scalar values, not the UTF-16 code units that `slice(0, 100)` and the schema's `maxlength` count; a note with characters outside the Basic Multilingual Plane keeps more characters in the model than in the source, and a cut through a surrogate pair (which leaves a lone surrogate in the source) cannot be represented.
- NoteRoutes.Normalize: its text bound is that of `NoteRoutes.NoteText`, so it counts Unicode scalar values, not UTF-16 code units.
- `NoteRoutes.NoteBoard.Post`: requires a fresh id even when the database serves the request, where no id is generated.
- Real timers and the concurrent interleaving of callers in `lib/db.js`: single-flight is modelled as the sequential state "promise present or absent", with `Connect` and `Settle` as the two halves of one call; the readiness logging and the driver options (pool size, timeouts) are not modelled.
- `api/index.js` is not part of this model: it only calls `connect()` and swallows its error.
- The HTTPS request and `res.json()` parsing in `send`: the response is an input that always arrives, its body already parsed; a request that fails with no response at all (`fetch` rejecting on a network error) and a body that fails to parse are not modelled.
- `DataApi.Payload`: only object bodies are modelled (every caller passes an object literal); JSON serialisation of the payload (dropping undefined members) is not modelled.
- `Placement.ComputeFreePosition`: the candidate sequence stands for the `Math.random` draws; when it holds fewer than 50 candidates only those are tried. Container and window sizes are whole pixels.
- DOM work, event handlers, `fetch` calls and alerts in public/javascripts/script.js, and console logging everywhere.
