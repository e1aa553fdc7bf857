# Tune Mountain data layer, modelled in Dafny

This project models the server-side data layer of the Tune Mountain game
and the WPI survey in the sandbox API. Five pieces are covered:

- the table of storage error descriptions;
- the one-level codec that stores nested form answers as JSON text;
- the builders of the bulk insert statements (game inputs, survey
  responses, survey buildings);
- the decisions each `TuneMountainDBUtility` method takes on its arguments
  and on what the storage answers;
- the JavaScript promise semantics those methods rely on.

The model is made of these modules.

- `Text` (text.dfy): `Array.prototype.join` on strings (`Join`) and the
  decimal text of integers (`NatToString`, `IntToString`), with the proofs
  that distinct numbers have distinct text.
- `Js` (js.dfy): the JavaScript values the core handles, and the language
  operations it uses:
  - `typeof` (`TypeOf`) and truthiness (`Truthy`);
  - `String(v)` and template literals (`ToJsString`);
  - property access (`Accessible`, `Get`) and `Object.keys` (`OwnEntries`).
- `ErrorTranslator` (error_translator.dfy): the three-entry description table.
- `NestedJson` (nested_json.dfy): `encode` and `parse`.
  - Both are loops over the keys that fill a fresh record (`Encode`,
    `Parse`). Each is proved equal to a record comprehension
    (`EncodedRecord`, `ParsedRecord`).
  - `JSON.stringify` and `JSON.parse` are a pair of functions. `Lawful`
    states the facts the proofs use about them.
- `TuneMountainQueries` (tune_mountain_queries.dfy): the fixed statements,
  as tags, and `insertArrayOfInputs`.
- `DataVisQueries` (data_vis_queries.dfy): `insertArrayOfResponses` and
  `insertArrayOfBuildings`. The per-response loop that appends to
  `valueString` is the method `RenderResponse`.
- `Promises` (promise.dfy): `PromiseCell`, a write-once outcome with
  `Resolve` and `Reject`.
  - The first settlement wins.
  - `reject` does not stop the executor.
- `TuneMountainDb` (tune_mountain_db.dfy): the class
  `TuneMountainDBUtility`.
  - Its field `connected` stands for `this.db !== null`. Its field `log`
    holds the statements handed to the storage, in order.
  - Each method takes what the storage callbacks receive as parameters. It
    returns a fresh `PromiseCell`, and appends the statements it issues to
    `log`.
  - Each method's outcome is tied to an `...Effect` function, which gives
    the settled state and the issued statements. The lemmas beside those
    functions state what the methods promise.

Three behaviours of the code are worth knowing, and the model keeps them:

- **The `maxResults` bound.** `maxResults` is capped only above 20. Zero
  and negative values are bound as given (`LimitBound`).
- **The null check in `insertFeedbackForm`.** The `forEach` callback's
  `return true` leaves only the callback, so `containsANullField()`
  returns false and no form is ever rejected for a null or undefined field
  (`NullCheckIsNoOp`, `NullFieldsAreNotRejected`).
- **`insertIRBName`.** It issues the feedback-form statement, as written
  at src/utils/TuneMountainDBUtility.js:561 (`IRBNameUsesFeedbackStatement`).

## Model

| member | source | states |
|---|---|---|
| `ErrorTranslator.Describe` | src/utils/SQLiteErrorTranslator.js:2-8 | exactly SQLITE_CONSTRAINT, SQLITE_MISMATCH and NONE_FOUND have a description, with their three texts; every other code reads as undefined |
| `ErrorTranslator.UnlistedCodesAreUndefined` | src/utils/SQLiteErrorTranslator.js:2-8 | SQLITE_ERROR, SQLITE_BUSY and SQLITE_RANGE have no description |
| `Js.TypeOf` | src/utils/NestedJSONUtility.js:16 | `typeof` is "object" exactly for null, plain objects and arrays; "string" and "number" exactly for strings and numbers |
| `Js.OwnEntries` | src/utils/NestedJSONUtility.js:12 | `Object.keys` with the indexed values: a TypeError exactly on null and undefined; an object's fields; an array's elements and a string's characters under their decimal indices; nothing for numbers and booleans |
| `NestedJson.EncodedRecord` | src/utils/NestedJSONUtility.js:9-26 | the encoded record has the same keys; each object-typed value (null and arrays included) becomes its JSON text, and every other value is kept; no value stays object-typed |
| `NestedJson.Encode` | src/utils/NestedJSONUtility.js:9-26 | the key-by-key loop builds exactly the encoded record |
| `NestedJson.EncodeIdempotent` | src/utils/NestedJSONUtility.js:16-20 | encoding twice gives the same record as encoding once |
| `NestedJson.ParsedRecord` | src/utils/NestedJSONUtility.js:37-55 | parsing fails with a SyntaxError exactly when a string starting with "{" is not JSON; otherwise it keeps the keys, parses exactly the strings starting with "{", and passes every other value through unchanged |
| `NestedJson.Parse` | src/utils/NestedJSONUtility.js:37-55 | the key-by-key loop, which stops at the first invalid field, gives exactly the parsed outcome |
| `NestedJson.ParseEncodeRoundTrip` | src/utils/NestedJSONUtility.js:9-55 | parse(encode(o)) == o when every object-typed value is a plain object JSON keeps intact and no string starts with "{" |
| `NestedJson.ArrayFieldStaysText` | src/utils/NestedJSONUtility.js:9-55 | an array field comes back as its JSON text |
| `NestedJson.NullFieldBecomesText` | src/utils/NestedJSONUtility.js:9-55 | a null field comes back as the string "null" |
| `NestedJson.BraceStringIsMistaken` | src/utils/NestedJSONUtility.js:45-49 | a string field that is an object's JSON text comes back as that object |
| `NestedJson.ParseDecodesOneLevel` | src/utils/NestedJSONUtility.js:28-36 | an encoded field inside a parsed object stays a string |
| `TuneMountainQueries.InputTuples` | src/queries/TuneMountainQueries.js:27-43 | one tuple per element, in order, each `(<sessionID>, '<action>', '<timestamp>', '<type>')` with nothing escaped; a TypeError exactly when some element fails the type check |
| `TuneMountainQueries.InsertArrayOfInputs` | src/queries/TuneMountainQueries.js:25-47 | a TypeError and no text exactly when the argument is not an array or an element fails the check |
| `TuneMountainQueries.InsertArrayOfInputsText` | src/queries/TuneMountainQueries.js:27-46 | an accepted batch renders as the header, one tuple per element in order, joined by ",", then ";" |
| `TuneMountainQueries.EmptyBatch` | src/queries/TuneMountainQueries.js:45-46 | an empty batch yields the header followed by ";", ending in "VALUES ;" |
| `TuneMountainQueries.ForgedTupleSplits` | src/queries/TuneMountainQueries.js:42 | for any field texts, an action that closes its tuple early renders as two tuples joined by "," |
| `TuneMountainQueries.UnescapedQuoteForgesTuples` | src/queries/TuneMountainQueries.js:42 | a quote in `action` lets one event give the same statement as two different events |
| `DataVisQueries.Convert` | src/queries/DataVisQueries.js:41-45 | booleans become 1 and 0; every other value is kept |
| `DataVisQueries.Cell` | src/queries/DataVisQueries.js:56 | undefined and "" render as NULL, booleans as 1 and 0, null as "null", numbers in decimal, other strings as themselves, unquoted |
| `DataVisQueries.NumericCellsDistinct` | src/queries/DataVisQueries.js:56 | two numeric answers give the same cell text exactly when they are equal |
| `DataVisQueries.ResponseValues` | src/queries/DataVisQueries.js:47-60 | a tuple has 25 values: the shared id, the double-quoted building name, then the cells of the 23 keys in order |
| `DataVisQueries.ValuesFollowColumns` | src/queries/DataVisQueries.js:53-92 | each question value sits at the position of its column in the statement's column list |
| `DataVisQueries.RenderResponse` | src/queries/DataVisQueries.js:37-66 | the appending loop yields "( ", the values separated by ", ", then " )"; a null or undefined response throws a TypeError |
| `DataVisQueries.ResponseTuples` | src/queries/DataVisQueries.js:37-66 | one tuple per response, in order, or a TypeError exactly when a response is null or undefined |
| `DataVisQueries.InsertArrayOfResponses` | src/queries/DataVisQueries.js:8-94 | a TypeError exactly on a non-array or a null or undefined response |
| `DataVisQueries.InsertArrayOfResponsesText` | src/queries/DataVisQueries.js:8-94 | an accepted list renders as the column header, one tuple per response in order, joined by ",", then ";" |
| `DataVisQueries.TupleOpensWithId` | src/queries/DataVisQueries.js:47-48 | every tuple opens with "( ", the id and ", " |
| `DataVisQueries.SameIdInEveryTuple` | src/queries/DataVisQueries.js:37-66 | every tuple of one statement carries the same id |
| `DataVisQueries.BuildingTuples` | src/queries/DataVisQueries.js:98-100 | one `("<name>", "<category>")` per building, in order, or a TypeError exactly when a building is null or undefined |
| `DataVisQueries.InsertArrayOfBuildings` | src/queries/DataVisQueries.js:96-105 | a TypeError exactly on a non-array or a null or undefined building |
| `DataVisQueries.InsertArrayOfBuildingsText` | src/queries/DataVisQueries.js:96-105 | an accepted list renders as the header, one tuple per building in order, joined by ",", then ";" |
| `Promises.Settle` | src/utils/TuneMountainDBUtility.js:58-65 | a pending promise takes the new outcome, and a settled one keeps its own |
| `Promises.SettledIsFinal` | src/utils/TuneMountainDBUtility.js:58-88 | no later resolve or reject changes a settled promise |
| `Promises.FirstSettlementWins` | src/utils/TuneMountainDBUtility.js:58-88 | after a sequence of settlements the promise holds the first one |
| `Promises.PromiseCell.Resolve` | src/utils/TuneMountainDBUtility.js:78-85 | `resolve` fulfils only a pending promise |
| `Promises.PromiseCell.Reject` | src/utils/TuneMountainDBUtility.js:62 | `reject` rejects only a pending promise |
| `TuneMountainDb.StorageFailureFields` | src/utils/TuneMountainDBUtility.js:73-77 | a storage failure carries the status, the error's number and its description, which is undefined for a code the table lacks |
| `TuneMountainDb.NoRowFailure` | src/utils/TuneMountainDBUtility.js:119-123 | a missing row rejects with error code 1 and "No data found." |
| `TuneMountainDb.TypeMismatchError` | src/utils/TuneMountainDBUtility.js:13-17 | `TYPE_MISMATCH_ERROR` is {failure, 20, "Wrong data type used!"} |
| `TuneMountainDb.TypeMismatchIsFinal` | src/utils/TuneMountainDBUtility.js:58-65 | after a failed type check nothing the storage returns changes the outcome |
| `TuneMountainDb.InsertUserMismatch` | src/utils/TuneMountainDBUtility.js:53-92 | a non-string argument gives `TYPE_MISMATCH_ERROR`, yet the insert is still issued with those values |
| `TuneMountainDb.InsertUserReplies` | src/utils/TuneMountainDBUtility.js:72-85 | success echoes exactly the three given fields; a storage error gives {failure, errno, description} |
| `TuneMountainDb.NoRowIsNotStorageError` | src/utils/TuneMountainDBUtility.js:100-246 | in `fetchUserWithID` and `fetchSessionInfoWithID` a missing row rejects with code 1 and "No data found.", a storage error with its own number; the two outcomes differ exactly when the error's number is not 1 or its description is not "No data found." |
| `TuneMountainDb.FoundRowIsCopied` | src/utils/TuneMountainDBUtility.js:124-127 | a found row comes back as a copy under "user" or "sessionInfo" |
| `TuneMountainDb.InsertSessionSteps` | src/utils/TuneMountainDBUtility.js:148-203 | the user's sessions are fetched only after the insert succeeds; the two steps fail with "failure inserting session" and "failure retrieving sessions"; success returns the userID and every fetched row |
| `TuneMountainDb.SessionsFromUserAsInInsert` | src/utils/TuneMountainDBUtility.js:255-286 | `fetchSessionsFromUser` issues and answers exactly as the second step of `insertSession` |
| `TuneMountainDb.SessionWithIDSteps` | src/utils/TuneMountainDBUtility.js:296-348 | the inputs are fetched only when the session row exists; a missing row fails with "failure fetching session info"; success returns the row and the input rows |
| `TuneMountainDb.LimitBound` | src/utils/TuneMountainDBUtility.js:370 | a numeric limit is bound as itself up to 20, including 0 and negatives, and as 20 above; any changed value is 20 |
| `TuneMountainDb.TopSessionsStatementChoice` | src/utils/TuneMountainDBUtility.js:366-399 | the user-scoped statement is issued exactly when `spotifyID` is truthy, the other one exactly when it is not; the omitted limit is bound as 10 and a numeric one as itself up to 20, as 20 above |
| `TuneMountainDb.TopSessionsTypeCheck` | src/utils/TuneMountainDBUtility.js:356-364 | the promise rejects with the type mismatch exactly when the limit is neither omitted nor a number or a truthy id is not a string |
| `TuneMountainDb.InsertInputsBuilderThrows` | src/utils/TuneMountainDBUtility.js:420-447 | when the builder throws no statement runs, and the outcome is {failure, errorCode: "TypeError"} |
| `TuneMountainDb.InsertInputsSuccess` | src/utils/TuneMountainDBUtility.js:421-437 | success carries the first element's sessionID and the unchanged input array; if the storage reports success for an empty batch, the callback throws and the promise never settles |
| `TuneMountainDb.NullVerdictsDropped` | src/utils/TuneMountainDBUtility.js:477-487 | however many keys remain, the `forEach` whose callback verdicts are dropped leaves `containsANullField` returning false |
| `TuneMountainDb.NullCheckIsNoOp` | src/utils/TuneMountainDBUtility.js:477-487 | `containsANullField` (the predicate `ContainsANullField`) is false on every record, whatever null or undefined fields it holds |
| `TuneMountainDb.RunNullCheck` | src/utils/TuneMountainDBUtility.js:477-487 | the loop that runs the callback on every key returns exactly `ContainsANullField` of the record |
| `TuneMountainDb.NullFieldsAreNotRejected` | src/utils/TuneMountainDBUtility.js:461-543 | for every form, connection state and storage outcome, the promise never ends rejected with "one of the required fields was null" |
| `TuneMountainDb.NullFieldFormsAreInserted` | src/utils/TuneMountainDBUtility.js:471-528 | with an open connection every form `Object.keys` accepts, null fields included, issues the insert with its encoded fields, and a truthy one succeeds when the storage does |
| `TuneMountainDb.MissingAnswerSucceeds` | src/utils/TuneMountainDBUtility.js:477-492 | a form whose `q1` is undefined has a null field by the callback's own test, yet is inserted and succeeds |
| `TuneMountainDb.FalsyFormStillInserted` | src/utils/TuneMountainDBUtility.js:465-475 | a missing form is rejected; null issues nothing, but 0 still reaches the insert with every field undefined |
| `TuneMountainDb.IRBNameUsesFeedbackStatement` | src/utils/TuneMountainDBUtility.js:550-581 | the signature is written with the feedback-form statement and only `$name` bound, never with the statement for names |
| `TuneMountainDb.ParsedRows` | src/utils/TuneMountainDBUtility.js:604 | `rows.map(parse)`: every row parsed in order, or a SyntaxError exactly when some row fails to parse |
| `TuneMountainDb.FeedbackFormsDecoded` | src/utils/TuneMountainDBUtility.js:588-614 | a row that fails to parse leaves the promise pending; a fulfilled promise's body has one entry per row, each that row decoded one level |
| `TuneMountainDb.FeedbackFormsResolve` | src/utils/TuneMountainDBUtility.js:588-614 | the promise is fulfilled exactly when every row parses, and then with {status "success", body: the rows parsed in order}; otherwise it stays pending, and a failed select rejects with "failure inserting inputs" |
| `TuneMountainDb.StoredFormComesBack` | src/utils/TuneMountainDBUtility.js:588-614 | a form stored by `encode` that round-trips is read back as submitted |
| `TuneMountainDb.TuneMountainDBUtility.constructor` | src/utils/TuneMountainDBUtility.js:28-43 | a new utility has no connection and has issued nothing |
| `TuneMountainDb.TuneMountainDBUtility.Opened` | src/utils/TuneMountainDBUtility.js:35-37 | the open callback sets the connection and issues nothing |
| `TuneMountainDb.TuneMountainDBUtility.InsertUser` | src/utils/TuneMountainDBUtility.js:53-92 | the promise ends as `InsertUserEffect` says and the log grows by its statement |
| `TuneMountainDb.TuneMountainDBUtility.FetchUserWithID` | src/utils/TuneMountainDBUtility.js:100-135 | the promise ends as `FetchUserWithIDEffect` says and the log grows by its statement |
| `TuneMountainDb.TuneMountainDBUtility.InsertSession` | src/utils/TuneMountainDBUtility.js:148-203 | the promise ends as `InsertSessionEffect` says and the log grows by the one or two statements issued |
| `TuneMountainDb.TuneMountainDBUtility.FetchSessionInfoWithID` | src/utils/TuneMountainDBUtility.js:211-246 | the promise ends as `FetchSessionInfoWithIDEffect` says and the log grows by its statement |
| `TuneMountainDb.TuneMountainDBUtility.FetchSessionsFromUser` | src/utils/TuneMountainDBUtility.js:255-286 | the promise ends as `FetchSessionsFromUserEffect` says and the log grows by its statement |
| `TuneMountainDb.TuneMountainDBUtility.FetchSessionWithID` | src/utils/TuneMountainDBUtility.js:296-348 | the promise ends as `FetchSessionWithIDEffect` says and the log grows by the one or two statements issued |
| `TuneMountainDb.TuneMountainDBUtility.FetchTopSessions` | src/utils/TuneMountainDBUtility.js:356-407 | the promise ends as `FetchTopSessionsEffect` says and the log grows by the chosen statement |
| `TuneMountainDb.TuneMountainDBUtility.InsertInputs` | src/utils/TuneMountainDBUtility.js:415-453 | the promise ends as `InsertInputsEffect` says and the log grows by the built statement, if any |
| `TuneMountainDb.TuneMountainDBUtility.InsertFeedbackForm` | src/utils/TuneMountainDBUtility.js:461-543 | the promise ends as `InsertFeedbackFormEffect` says; the encoded fields are bound, and a missing form still runs the code after the rejection |
| `TuneMountainDb.TuneMountainDBUtility.CheckAndInsert` | src/utils/TuneMountainDBUtility.js:477-536 | the null check and its (never taken) rejection, then the `try` block; state and log equal `EncodedFormEffect` |
| `TuneMountainDb.TuneMountainDBUtility.RunFeedbackInsert` | src/utils/TuneMountainDBUtility.js:495-536 | state and log equal `FeedbackInsertEffect`: with no connection the caught TypeError rejects as {failure, errorCode} and nothing is issued; otherwise the insert is issued with the given parameters and its callback settles the promise |
| `TuneMountainDb.TuneMountainDBUtility.InsertIRBName` | src/utils/TuneMountainDBUtility.js:550-581 | the promise ends as `InsertIRBNameEffect` says and the log grows by its statement |
| `TuneMountainDb.TuneMountainDBUtility.FetchAllFeedbackForms` | src/utils/TuneMountainDBUtility.js:588-614 | the loop parsing each row yields the body of `FetchAllFeedbackFormsEffect`, and a parse failure leaves the promise pending |

## Left out

- Storage is not simulated. Statement results are method parameters, and nothing evaluates SQL: no ORDER BY or LIMIT, no foreign keys, no meaning for a non-positive limit. The fixed statements are tags, not text.
- The `$gameVersion` parameter is referenced by the top-sessions statements and never bound. The model does not represent it.
- The connection's open callback on failure is left out. It throws inside the callback, which JavaScript does not catch. In the model the utility then stays unconnected.
- The PRAGMA statement and console logging are left out. They do not affect any outcome.
- `demoFetchAll` is left out. It depends on a DemoQueries module that is not part of this model.
- A throw inside a storage callback is uncaught in JavaScript. The model leaves that promise pending and does not model the process ending.
- Each call's callbacks run to completion before the next call. Interleaving between requests is concurrency and is left out.
- The routes, the server bootstrap, the DOM loader and the seed script are left out.
- `JSON.stringify` and `JSON.parse` are abstract. Only the facts in `Lawful` are used; cycles and escaping are not modelled.
- Numbers are integers. The text of non-integer numbers, NaN and exponent forms is not modelled.
- Object key order is left out, because objects are maps.
- `Get` is exact only for own, non-index keys other than "length". That covers every key the core reads.
- Inherited prototype properties are left out, such as `errorDescriptions["toString"]` or a custom `toString`.
- The `rows ? ... : []` fallback of `fetchAllFeedbackForms` is left out: rows are always an array here.
- LimitBound: it does not model string-to-number conversion. For a string or array limit, whether `maxResults > 20` holds is a parameter (`textExceeds20`).
- Encode: it takes the argument's own entries. The TypeError of `Object.keys` on null or undefined is modelled where `encode` is called, in `InsertFeedbackForm`.
- Parse: it takes a record's own entries. It is only applied to storage rows, which are always records.
