/** The data-access layer of the game (src/utils/TuneMountainDBUtility.js).
    Each method returns a promise whose executor type-checks its arguments,
    issues one or two statements and settles the promise from the storage
    callbacks. The storage is not simulated: what each callback receives is
    a parameter of the method (`RunOutcome`, `GetOutcome`, `AllOutcome`),
    and the statements issued are recorded in the order they are issued. */
module TuneMountainDb {
  import opened Js
  import opened ErrorTranslator
  import opened NestedJson
  import opened Promises
  import Q = TuneMountainQueries

  /** A row as the storage library hands it over: column name to value. */
  type Row = map<string, JsValue>

  /** The `errno` and `code` of a storage error. */
  datatype StorageError = StorageError(errno: int, code: string)

  /** What the callback of `db.run`, `db.get` and `db.all` receives. */
  datatype RunOutcome = RunFailed(error: StorageError) | RunDone
  datatype GetOutcome = GetFailed(error: StorageError) | NoRow | GotRow(row: Row)
  datatype AllOutcome = AllFailed(error: StorageError) | GotRows(rows: seq<Row>)

  /** One issued statement and the values bound to its named parameters. */
  datatype Statement = Statement(query: Q.Query, params: map<string, JsValue>)

  /** What one call does: the state its promise ends in once every
      callback has run, and the statements it issued. */
  datatype Effect = Effect(state: PromiseState, issued: seq<Statement>)

  // ---------------------------------------------------------------------
  // Response records

  /** A storage failure: the method's status, the error's number and the
      description of its code, undefined for a code the table lacks. */
  function StorageFailure(status: string, e: StorageError): JsValue
  {
    Obj(map["status" := Str(status), "errorCode" := Num(e.errno), "details" := Describe(e.code)])
  }

  /** The fields of a storage failure, in terms of the error table. */
  lemma StorageFailureFields(status: string, e: StorageError)
    ensures var r := StorageFailure(status, e);
      && r.Obj? && r.fields.Keys == {"status", "errorCode", "details"}
      && r.fields["status"] == Str(status) && r.fields["errorCode"] == Num(e.errno)
      && (e.code in ErrorMap ==> r.fields["details"] == Str(ErrorMap[e.code]))
      && (e.code !in ErrorMap ==> r.fields["details"] == Undefined)
  {
  }

  /** The failure for a lookup that found no row. */
  function NoRowFailure(status: string): (r: JsValue)
    ensures r == Obj(map["status" := Str(status), "errorCode" := Num(1), "details" := Str("No data found.")])
  {
    Obj(map["status" := Str(status), "errorCode" := Num(1), "details" := Describe(NoneFound)])
  }

  /** `TYPE_MISMATCH_ERROR`. */
  function TypeMismatchError(): (r: JsValue)
    ensures r == Obj(map["status" := Str("failure"), "errorCode" := Num(20), "details" := Str("Wrong data type used!")])
  {
    Obj(map["status" := Str("failure"), "errorCode" := Num(20), "details" := Describe(Mismatch)])
  }

  /** The record the two `catch` blocks reject with: no `details` field. */
  function CaughtFailure(name: string): JsValue
  {
    Obj(map["status" := Str("failure"), "errorCode" := Str(name)])
  }

  function FormMissing(): JsValue
  {
    Obj(map["status" := Str("failure"), "details" := Str("feedback form object not passed")])
  }

  function NullFieldFailure(): JsValue
  {
    Obj(map["status" := Str("failure"), "details" := Str("one of the required fields was null")])
  }

  function NameMissing(): JsValue
  {
    Obj(map["status" := Str("failure"), "details" := Str("no name passed")])
  }

  function Succeeded(): JsValue
  {
    Obj(map["status" := Str("success")])
  }

  /** The rows of `db.all` as the array of row objects. */
  function RowsValue(rows: seq<Row>): (r: JsValue)
    ensures r.Arr? && |r.elems| == |rows|
    ensures forall i :: 0 <= i < |rows| ==> r.elems[i] == Obj(rows[i])
  {
    Arr(seq(|rows|, i requires 0 <= i < |rows| => Obj(rows[i])))
  }

  function UserEcho(spotifyID: JsValue, displayName: JsValue, imageUrl: JsValue): JsValue
  {
    Obj(map["status" := Str("success"),
            "user" := Obj(map["spotifyID" := spotifyID, "displayName" := displayName, "imageUrl" := imageUrl])])
  }

  function SessionsOfUser(userID: JsValue, rows: seq<Row>): JsValue
  {
    Obj(map["status" := Str("success"), "userID" := userID, "sessions" := RowsValue(rows)])
  }

  function SessionWithInputs(session: Row, inputs: seq<Row>): JsValue
  {
    Obj(map["status" := Str("success"), "sessionInfo" := Obj(session), "inputs" := RowsValue(inputs)])
  }

  function InputsAdded(inputArray: JsValue): JsValue
    requires inputArray.Arr? && |inputArray.elems| > 0 && Accessible(inputArray.elems[0])
  {
    Obj(map["status" := Str("success"), "sessionID" := Get(inputArray.elems[0], "sessionID"),
            "inputsAdded" := inputArray])
  }

  // ---------------------------------------------------------------------
  // The executor's shape

  /** The state left by the checks at the top of an executor: the type
      check rejects with `TYPE_MISMATCH_ERROR` and lets the executor go on. */
  function TypeCheck(ok: bool): PromiseState
  {
    if ok then Pending else Rejected(Value(TypeMismatchError()))
  }

  /** The executor after its early checks: with no open connection the call
      `this.db.run(...)` throws a TypeError out of the executor, which
      rejects the promise; otherwise the storage callbacks settle it. Either
      way an earlier settlement stands. */
  function Executor(early: PromiseState, connected: bool, reply: PromiseState): PromiseState
  {
    Settle(early, if connected then reply else Rejected(Exception(TypeError)))
  }

  /** The statements reach the storage only through an open connection. */
  function Issued(connected: bool, statements: seq<Statement>): seq<Statement>
  {
    if connected then statements else []
  }

  /** Whatever the storage answers, a failed type check is the outcome. */
  lemma TypeMismatchIsFinal(connected: bool, reply: PromiseState)
    ensures Executor(TypeCheck(false), connected, reply) == Rejected(Value(TypeMismatchError()))
  {
  }

  // ---------------------------------------------------------------------
  // insertUser

  predicate UserArgsOk(spotifyID: JsValue, displayName: JsValue, imageUrl: JsValue)
  {
    TypeOf(spotifyID) == "string" && TypeOf(displayName) == "string" && TypeOf(imageUrl) == "string"
  }

  function UserParams(spotifyID: JsValue, displayName: JsValue, imageUrl: JsValue): map<string, JsValue>
  {
    map["$spotifyID" := spotifyID, "$displayName" := displayName, "$imageUrl" := imageUrl]
  }

  function InsertUserEffect(connected: bool, spotifyID: JsValue, displayName: JsValue, imageUrl: JsValue,
                            outcome: RunOutcome): Effect
  {
    var reply := match outcome
      case RunFailed(e) => Rejected(Value(StorageFailure("failure", e)))
      case RunDone => Fulfilled(UserEcho(spotifyID, displayName, imageUrl));
    Effect(Executor(TypeCheck(UserArgsOk(spotifyID, displayName, imageUrl)), connected, reply),
           Issued(connected, [Statement(Q.InsertUser, UserParams(spotifyID, displayName, imageUrl))]))
  }

  /** A non-string argument settles the call on `TYPE_MISMATCH_ERROR`, yet
      the insert is still issued with the offending values. */
  lemma InsertUserMismatch(spotifyID: JsValue, displayName: JsValue, imageUrl: JsValue, outcome: RunOutcome)
    requires !UserArgsOk(spotifyID, displayName, imageUrl)
    ensures var e := InsertUserEffect(true, spotifyID, displayName, imageUrl, outcome);
      && e.state == Rejected(Value(TypeMismatchError()))
      && e.issued == [Statement(Q.InsertUser, UserParams(spotifyID, displayName, imageUrl))]
  {
  }

  /** With valid arguments and an open connection, success echoes exactly the
      three fields and a storage error carries its number and description. */
  lemma InsertUserReplies(spotifyID: JsValue, displayName: JsValue, imageUrl: JsValue, outcome: RunOutcome)
    requires UserArgsOk(spotifyID, displayName, imageUrl)
    ensures var e := InsertUserEffect(true, spotifyID, displayName, imageUrl, outcome);
      && (outcome.RunDone? ==>
            e.state.Fulfilled? && e.state.value.Obj? && e.state.value.fields["status"] == Str("success")
            && e.state.value.fields["user"]
               == Obj(map["spotifyID" := spotifyID, "displayName" := displayName, "imageUrl" := imageUrl]))
      && (outcome.RunFailed? ==> e.state == Rejected(Value(StorageFailure("failure", outcome.error))))
  {
  }

  // ---------------------------------------------------------------------
  // fetchUserWithID and fetchSessionInfoWithID

  /** The reply of a single-row lookup: the storage error, the "no row"
      failure, or the row's copy under `field`. */
  function RowReply(outcome: GetOutcome, field: string): PromiseState
  {
    match outcome
    case GetFailed(e) => Rejected(Value(StorageFailure("failure", e)))
    case NoRow => Rejected(Value(NoRowFailure("failure")))
    case GotRow(row) => Fulfilled(Obj(map["status" := Str("success"), field := Obj(row)]))
  }

  function FetchUserWithIDEffect(connected: bool, spotifyID: JsValue, outcome: GetOutcome): Effect
  {
    Effect(Executor(TypeCheck(TypeOf(spotifyID) == "string"), connected, RowReply(outcome, "user")),
           Issued(connected, [Statement(Q.SelectUser, map["$spotifyID" := spotifyID])]))
  }

  function FetchSessionInfoWithIDEffect(connected: bool, sessionID: JsValue, outcome: GetOutcome): Effect
  {
    Effect(Executor(TypeCheck(TypeOf(sessionID) == "number"), connected, RowReply(outcome, "sessionInfo")),
           Issued(connected, [Statement(Q.SelectSessionWithID, map["$sessionID" := sessionID])]))
  }

  /** "No row" rejects with error code 1 and "No data found.", a storage
      error with its own number and description; the two are told apart
      exactly when the error's number is not 1 or its description is not
      that text. */
  lemma NoRowIsNotStorageError(spotifyID: JsValue, sessionID: JsValue, e: StorageError)
    requires TypeOf(spotifyID) == "string" && TypeOf(sessionID) == "number"
    ensures FetchUserWithIDEffect(true, spotifyID, NoRow).state
         == Rejected(Value(Obj(map["status" := Str("failure"), "errorCode" := Num(1), "details" := Str("No data found.")])))
    ensures FetchSessionInfoWithIDEffect(true, sessionID, NoRow).state
         == FetchUserWithIDEffect(true, spotifyID, NoRow).state
    ensures var s := FetchUserWithIDEffect(true, spotifyID, GetFailed(e)).state;
      s.Rejected? && s.reason.Value? && s.reason.value.fields["errorCode"] == Num(e.errno)
    ensures FetchSessionInfoWithIDEffect(true, sessionID, GetFailed(e)).state
         == FetchUserWithIDEffect(true, spotifyID, GetFailed(e)).state
    ensures FetchUserWithIDEffect(true, spotifyID, GetFailed(e)).state != FetchUserWithIDEffect(true, spotifyID, NoRow).state
        <==> e.errno != 1 || Describe(e.code) != Str("No data found.")
  {
    var failed := StorageFailure("failure", e);
    var none := NoRowFailure("failure");
    if e.errno != 1 {
      assert failed.fields["errorCode"] != none.fields["errorCode"];
    } else if Describe(e.code) != Str("No data found.") {
      assert failed.fields["details"] != none.fields["details"];
    } else {
      assert failed == none;
    }
  }

  /** A found row comes back as a copy under "user" or "sessionInfo". */
  lemma FoundRowIsCopied(spotifyID: JsValue, sessionID: JsValue, row: Row)
    requires TypeOf(spotifyID) == "string" && TypeOf(sessionID) == "number"
    ensures FetchUserWithIDEffect(true, spotifyID, GotRow(row)).state
         == Fulfilled(Obj(map["status" := Str("success"), "user" := Obj(row)]))
    ensures FetchSessionInfoWithIDEffect(true, sessionID, GotRow(row)).state
         == Fulfilled(Obj(map["status" := Str("success"), "sessionInfo" := Obj(row)]))
  {
  }

  // ---------------------------------------------------------------------
  // insertSession and fetchSessionsFromUser

  predicate SessionArgsOk(score: JsValue, songID: JsValue, userID: JsValue, gameVersion: JsValue)
  {
    && TypeOf(score) == "number" && TypeOf(songID) == "string"
    && TypeOf(userID) == "string" && TypeOf(gameVersion) == "string"
  }

  function SessionParams(score: JsValue, songID: JsValue, userID: JsValue, gameVersion: JsValue): map<string, JsValue>
  {
    map["$score" := score, "$songID" := songID, "$userID" := userID, "$gameVersion" := gameVersion]
  }

  /** The reply of a many-row sessions lookup. */
  function SessionsReply(status: string, userID: JsValue, fetched: AllOutcome): PromiseState
  {
    match fetched
    case AllFailed(e) => Rejected(Value(StorageFailure(status, e)))
    case GotRows(rows) => Fulfilled(SessionsOfUser(userID, rows))
  }

  function InsertSessionEffect(connected: bool, score: JsValue, songID: JsValue, userID: JsValue,
                               gameVersion: JsValue, inserted: RunOutcome, fetched: AllOutcome): Effect
  {
    var reply := match inserted
      case RunFailed(e) => Rejected(Value(StorageFailure("failure inserting session", e)))
      case RunDone => SessionsReply("failure retrieving sessions", userID, fetched);
    Effect(Executor(TypeCheck(SessionArgsOk(score, songID, userID, gameVersion)), connected, reply),
           Issued(connected,
             [Statement(Q.InsertSession, SessionParams(score, songID, userID, gameVersion))]
             + if inserted.RunDone? then [Statement(Q.SelectSessionOfUser, map["$userID" := userID])] else []))
  }

  /** The user's sessions are fetched only once the insert has succeeded;
      each step fails with its own status, and success carries the user id
      and every row of the second step. */
  lemma InsertSessionSteps(score: JsValue, songID: JsValue, userID: JsValue, gameVersion: JsValue,
                           inserted: RunOutcome, fetched: AllOutcome)
    requires SessionArgsOk(score, songID, userID, gameVersion)
    ensures var e := InsertSessionEffect(true, score, songID, userID, gameVersion, inserted, fetched);
      && |e.issued| == (if inserted.RunDone? then 2 else 1)
      && e.issued[0].query == Q.InsertSession
      && (inserted.RunDone? ==> e.issued[1] == Statement(Q.SelectSessionOfUser, map["$userID" := userID]))
      && (inserted.RunFailed? ==> e.state == Rejected(Value(StorageFailure("failure inserting session", inserted.error))))
      && (inserted.RunDone? && fetched.AllFailed? ==>
            e.state == Rejected(Value(StorageFailure("failure retrieving sessions", fetched.error))))
      && (inserted.RunDone? && fetched.GotRows? ==> e.state == Fulfilled(SessionsOfUser(userID, fetched.rows)))
  {
  }

  function FetchSessionsFromUserEffect(connected: bool, spotifyID: JsValue, fetched: AllOutcome): Effect
  {
    Effect(Executor(TypeCheck(TypeOf(spotifyID) == "string"), connected,
                    SessionsReply("failure retrieving sessions", spotifyID, fetched)),
           Issued(connected, [Statement(Q.SelectSessionOfUser, map["$userID" := spotifyID])]))
  }

  /** The same lookup as the second step of `insertSession`, keyed by the
      given id, with the same reply. */
  lemma SessionsFromUserAsInInsert(score: JsValue, songID: JsValue, userID: JsValue, gameVersion: JsValue,
                                   fetched: AllOutcome)
    requires SessionArgsOk(score, songID, userID, gameVersion)
    ensures var e := InsertSessionEffect(true, score, songID, userID, gameVersion, RunDone, fetched);
      var f := FetchSessionsFromUserEffect(true, userID, fetched);
      e.state == f.state && e.issued[1..] == f.issued
  {
  }

  // ---------------------------------------------------------------------
  // fetchSessionWithID

  function FetchSessionWithIDEffect(connected: bool, sessionID: JsValue, found: GetOutcome, inputs: AllOutcome): Effect
  {
    var reply := match found
      case GetFailed(e) => Rejected(Value(StorageFailure("failure", e)))
      case NoRow => Rejected(Value(NoRowFailure("failure fetching session info")))
      case GotRow(session) =>
        (match inputs
         case AllFailed(e) => Rejected(Value(StorageFailure("failure", e)))
         case GotRows(rows) => Fulfilled(SessionWithInputs(session, rows)));
    Effect(Executor(TypeCheck(TypeOf(sessionID) == "number"), connected, reply),
           Issued(connected,
             [Statement(Q.SelectSessionWithID, map["$sessionID" := sessionID])]
             + if found.GotRow? then [Statement(Q.SelectAllInputsFromSessionWithID, map["$sessionID" := sessionID])] else []))
  }

  /** The inputs are queried only when the session row exists, and success
      returns that row together with the input rows. */
  lemma SessionWithIDSteps(sessionID: JsValue, found: GetOutcome, inputs: AllOutcome)
    requires TypeOf(sessionID) == "number"
    ensures var e := FetchSessionWithIDEffect(true, sessionID, found, inputs);
      && |e.issued| == (if found.GotRow? then 2 else 1)
      && (found.NoRow? ==> e.state == Rejected(Value(NoRowFailure("failure fetching session info"))))
      && (found.GotRow? && inputs.GotRows? ==>
            && e.issued[1].query == Q.SelectAllInputsFromSessionWithID
            && e.state.Fulfilled?
            && e.state.value.fields["sessionInfo"] == Obj(found.row)
            && e.state.value.fields["inputs"] == RowsValue(inputs.rows))
  {
  }

  // ---------------------------------------------------------------------
  // fetchTopSessions

  /** The default parameter `maxResults = 10`. */
  function DefaultLimit(maxResults: JsValue): JsValue
  {
    if maxResults.Undefined? then Num(10) else maxResults
  }

  /** The value bound to `$maxResults`: `maxResults > 20 ? 20 : maxResults`.
      Only a number is compared exactly; `textExceeds20` says whether the
      number a string or an array reads as exceeds 20. Undefined, null,
      booleans and plain objects never compare above 20. */
  function LimitBound(maxResults: JsValue, textExceeds20: bool): (r: JsValue)
    ensures maxResults.Num? ==> r.Num? && r.n <= 20 && (maxResults.n <= 20 ==> r == maxResults)
    ensures maxResults.Num? && maxResults.n > 20 ==> r == Num(20)
    ensures r != maxResults ==> r == Num(20)
    ensures !(maxResults.Str? || maxResults.Arr? || maxResults.Num?) ==> r == maxResults
  {
    var exceeds := match maxResults
      case Num(n) => n > 20
      case Str(_) => textExceeds20
      case Arr(_) => textExceeds20
      case _ => false;
    if exceeds then Num(20) else maxResults
  }

  predicate TopSessionsArgsOk(maxResults: JsValue, spotifyID: JsValue)
  {
    TypeOf(DefaultLimit(maxResults)) == "number" && !(Truthy(spotifyID) && TypeOf(spotifyID) != "string")
  }

  function TopSessionsStatement(maxResults: JsValue, spotifyID: JsValue, textExceeds20: bool): Statement
  {
    var bound := LimitBound(DefaultLimit(maxResults), textExceeds20);
    if Truthy(spotifyID) then Statement(Q.SelectTopSessionsFromUserWithID, map["$userID" := spotifyID, "$maxResults" := bound])
    else Statement(Q.SelectTopSessions, map["$maxResults" := bound])
  }

  function FetchTopSessionsEffect(connected: bool, maxResults: JsValue, spotifyID: JsValue, textExceeds20: bool,
                                  fetched: AllOutcome): Effect
  {
    var status := if Truthy(spotifyID) then "failure retrieving sessions from user" else "failure retrieving sessions";
    Effect(Executor(TypeCheck(TopSessionsArgsOk(maxResults, spotifyID)), connected,
                    SessionsReply(status, spotifyID, fetched)),
           Issued(connected, [TopSessionsStatement(maxResults, spotifyID, textExceeds20)]))
  }

  /** The user-scoped statement is chosen exactly when `spotifyID` is
      truthy, and a numeric limit is bound as itself up to 20 and as 20
      above it, 10 when it is left out. */
  lemma TopSessionsStatementChoice(maxResults: JsValue, spotifyID: JsValue, textExceeds20: bool, fetched: AllOutcome)
    ensures var e := FetchTopSessionsEffect(true, maxResults, spotifyID, textExceeds20, fetched);
      && |e.issued| == 1
      && (e.issued[0].query == Q.SelectTopSessionsFromUserWithID <==> Truthy(spotifyID))
      && (e.issued[0].query == Q.SelectTopSessions <==> !Truthy(spotifyID))
      && (maxResults.Undefined? ==> e.issued[0].params["$maxResults"] == Num(10))
      && (maxResults.Num? ==> e.issued[0].params["$maxResults"] == Num(if maxResults.n > 20 then 20 else maxResults.n))
  {
  }

  /** The type check fails exactly on a limit that is neither left out nor
      a number, or on a truthy id that is not a string; that failure is the
      outcome whatever the storage answers. */
  lemma TopSessionsTypeCheck(maxResults: JsValue, spotifyID: JsValue, textExceeds20: bool, fetched: AllOutcome)
    ensures var e := FetchTopSessionsEffect(true, maxResults, spotifyID, textExceeds20, fetched);
      && (e.state == Rejected(Value(TypeMismatchError())) <==> !TopSessionsArgsOk(maxResults, spotifyID))
      && (TopSessionsArgsOk(maxResults, spotifyID) <==>
            (maxResults.Undefined? || maxResults.Num?) && (!Truthy(spotifyID) || spotifyID.Str?))
  {
    if fetched.AllFailed? {
      var status := if Truthy(spotifyID) then "failure retrieving sessions from user" else "failure retrieving sessions";
      assert StorageFailure(status, fetched.error).fields["status"] != TypeMismatchError().fields["status"];
    }
  }

  // ---------------------------------------------------------------------
  // insertInputs

  function InsertInputsEffect(connected: bool, inputArray: JsValue, outcome: RunOutcome): Effect
  {
    if !connected then Effect(Rejected(Value(CaughtFailure(TypeError))), [])
    else
      match Q.InsertArrayOfInputs(inputArray)
      case Throw(name) => Effect(Rejected(Value(CaughtFailure(name))), [])
      case Ok(text) =>
        var reply := match outcome
          case RunFailed(e) => Rejected(Value(StorageFailure("failure inserting inputs", e)))
          case RunDone => if |inputArray.elems| == 0 then Pending else Fulfilled(InputsAdded(inputArray));
        Effect(reply, [Statement(Q.Literal(text), map[])])
  }

  /** When the builder rejects the batch, no statement runs and the promise
      rejects with the exception's class name and no details. */
  lemma InsertInputsBuilderThrows(connected: bool, inputArray: JsValue, outcome: RunOutcome)
    requires Q.InsertArrayOfInputs(inputArray).Throw?
    ensures var e := InsertInputsEffect(connected, inputArray, outcome);
      e.issued == [] && e.state == Rejected(Value(Obj(map["status" := Str("failure"), "errorCode" := Str("TypeError")])))
  {
  }

  /** On success the session id is the first element's and the inputs are
      echoed unchanged; if the storage reports success for an empty batch,
      the callback throws reading the first element and the promise never
      settles. */
  lemma InsertInputsSuccess(inputArray: JsValue)
    requires Q.InsertArrayOfInputs(inputArray).Ok?
    ensures var e := InsertInputsEffect(true, inputArray, RunDone);
      && e.issued == [Statement(Q.Literal(Q.InsertArrayOfInputs(inputArray).value), map[])]
      && (|inputArray.elems| == 0 ==> e.state == Pending)
      && (|inputArray.elems| > 0 ==>
            && e.state.Fulfilled?
            && e.state.value.fields["sessionID"] == Num(Q.ToInputEvent(inputArray.elems[0]).sessionID)
            && e.state.value.fields["inputsAdded"] == inputArray)
  {
  }

  // ---------------------------------------------------------------------
  // insertFeedbackForm

  /** The test the `forEach` callback applies to each key: a field other
      than q14 that is null or undefined. */
  predicate NullField(encoded: map<string, JsValue>, key: string)
  {
    key in encoded && key != "q14" && (encoded[key] == Null || encoded[key] == Undefined)
  }

  /** `containsANullField()` once the keys in `keys` are still to be
      visited. The callback's verdict on one key is computed and dropped:
      its `return true` returns from the callback, and `forEach` ignores
      what the callback returns. After the last key the function returns
      false. */
  ghost predicate NullCheckFrom(encoded: map<string, JsValue>, keys: set<string>)
    decreases keys
  {
    if keys == {} then false
    else
      var key :| key in keys;
      var verdict := NullField(encoded, key);
      NullCheckFrom(encoded, keys - {key})
  }

  /** `containsANullField()`: the `forEach` over `Object.keys(encodedObj)`. */
  ghost predicate ContainsANullField(encoded: map<string, JsValue>)
  {
    NullCheckFrom(encoded, encoded.Keys)
  }

  /** No sequence of dropped verdicts reports a null field. */
  lemma {:induction false} NullVerdictsDropped(encoded: map<string, JsValue>, keys: set<string>)
    ensures !NullCheckFrom(encoded, keys)
    decreases keys
  {
    if keys != {} {
      forall key | key in keys
        ensures !NullCheckFrom(encoded, keys - {key})
      {
        NullVerdictsDropped(encoded, keys - {key});
      }
    }
  }

  /** The check never fires: every record, whatever null or undefined
      fields it holds, is reported as having none. */
  lemma NullCheckIsNoOp(encoded: map<string, JsValue>)
    ensures !ContainsANullField(encoded)
  {
    NullVerdictsDropped(encoded, encoded.Keys);
  }

  /** `containsANullField()` as it runs: the callback is applied to every
      key in turn and its verdict is lost. */
  method RunNullCheck(encoded: map<string, JsValue>) returns (found: bool)
    ensures found == ContainsANullField(encoded)
  {
    var keys := encoded.Keys;
    while keys != {}
      invariant keys <= encoded.Keys
      decreases keys
    {
      var key :| key in keys;
      var verdict := NullField(encoded, key);
      keys := keys - {key};
    }
    NullCheckIsNoOp(encoded);
    found := false;
  }

  /** The field the destructuring reads: its value, or undefined. */
  function Field(encoded: map<string, JsValue>, key: string): JsValue
  {
    if key in encoded then encoded[key] else Undefined
  }

  function FeedbackParams(encoded: map<string, JsValue>): map<string, JsValue>
  {
    map["$songID" := Field(encoded, "songID"),
        "$q1" := Field(encoded, "q1"), "$q2" := Field(encoded, "q2"), "$q3" := Field(encoded, "q3"),
        "$q4" := Field(encoded, "q4"), "$q5" := Field(encoded, "q5"), "$q6" := Field(encoded, "q6"),
        "$q7" := Field(encoded, "q7"), "$q8" := Field(encoded, "q8"), "$q9" := Field(encoded, "q9"),
        "$q10" := Field(encoded, "q10"), "$q11" := Field(encoded, "q11"), "$q12" := Field(encoded, "q12"),
        "$q13" := Field(encoded, "q13"), "$q14" := Field(encoded, "q14")]
  }

  /** A falsy form is rejected first; the encoded record is then checked
      for null fields, and the insert runs in a `try` block. */
  ghost function InsertFeedbackFormEffect(json: Json, connected: bool, form: JsValue, outcome: RunOutcome): Effect
  {
    var early := if Truthy(form) then Pending else Rejected(Value(FormMissing()));
    match OwnEntries(form)
    case Throw(name) => Effect(Settle(early, Rejected(Exception(name))), [])
    case Ok(entries) =>
      EncodedFormEffect(connected, early, EncodedRecord(json, entries), outcome)
  }

  /** What follows the encoding, from the state `before` it: the null
      check, then the `try` block with the encoded fields bound. */
  ghost function EncodedFormEffect(connected: bool, before: PromiseState, encoded: map<string, JsValue>,
                                   outcome: RunOutcome): Effect
  {
    var checked := if ContainsANullField(encoded) then Settle(before, Rejected(Value(NullFieldFailure()))) else before;
    FeedbackInsertEffect(connected, checked, FeedbackParams(encoded), outcome)
  }

  /** The `try` block of `insertFeedbackForm`, from the state `before` it:
      with no connection the TypeError of `this.db.run` is caught and
      rejected as `{failure, errorCode}`; otherwise the insert runs and its
      callback settles the promise. */
  function FeedbackInsertEffect(connected: bool, before: PromiseState, params: map<string, JsValue>,
                                outcome: RunOutcome): Effect
  {
    if !connected then Effect(Settle(before, Rejected(Value(CaughtFailure(TypeError)))), [])
    else
      var reply := match outcome
        case RunFailed(e) => Rejected(Value(StorageFailure("failure inserting inputs", e)))
        case RunDone => Fulfilled(Succeeded());
      Effect(Settle(before, reply), [Statement(Q.InsertFeedbackForm, params)])
  }

  /** The records the other branches reject with are not the null-field
      failure. */
  lemma OtherFailuresDiffer(e: StorageError)
    ensures FormMissing() != NullFieldFailure()
    ensures CaughtFailure(TypeError) != NullFieldFailure()
    ensures StorageFailure("failure inserting inputs", e) != NullFieldFailure()
  {
    assert FormMissing().fields["details"] != NullFieldFailure().fields["details"];
    assert "details" !in CaughtFailure(TypeError).fields;
    assert StorageFailure("failure inserting inputs", e).fields["status"] != NullFieldFailure().fields["status"];
  }

  /** The `try` block never rejects with the null-field failure. */
  lemma InsertNeverFailsOnNull(connected: bool, before: PromiseState, params: map<string, JsValue>,
                               outcome: RunOutcome)
    requires before != Rejected(Value(NullFieldFailure()))
    ensures FeedbackInsertEffect(connected, before, params, outcome).state != Rejected(Value(NullFieldFailure()))
  {
    OtherFailuresDiffer(if outcome.RunFailed? then outcome.error else StorageError(0, ""));
  }

  /** No form is ever rejected for a null or undefined field. */
  lemma NullFieldsAreNotRejected(json: Json, connected: bool, form: JsValue, outcome: RunOutcome)
    ensures InsertFeedbackFormEffect(json, connected, form, outcome).state != Rejected(Value(NullFieldFailure()))
  {
    var early := if Truthy(form) then Pending else Rejected(Value(FormMissing()));
    OtherFailuresDiffer(StorageError(0, ""));
    match OwnEntries(form)
    case Throw(name) =>
    case Ok(entries) =>
      var encoded := EncodedRecord(json, entries);
      NullCheckIsNoOp(encoded);
      InsertNeverFailsOnNull(connected, early, FeedbackParams(encoded), outcome);
  }

  /** With an open connection every form that `Object.keys` accepts, null
      fields and all, reaches the insert with its encoded fields, and a
      truthy one succeeds when the storage does. */
  lemma NullFieldFormsAreInserted(json: Json, form: JsValue, outcome: RunOutcome)
    requires OwnEntries(form).Ok?
    ensures var e := InsertFeedbackFormEffect(json, true, form, outcome);
      && e.issued == [Statement(Q.InsertFeedbackForm, FeedbackParams(EncodedRecord(json, OwnEntries(form).value)))]
      && (Truthy(form) && outcome.RunDone? ==> e.state == Fulfilled(Succeeded()))
  {
    NullCheckIsNoOp(EncodedRecord(json, OwnEntries(form).value));
  }

  /** A form whose answer is missing still succeeds. */
  lemma MissingAnswerSucceeds(json: Json, songID: JsValue)
    ensures var form := Obj(map["songID" := songID, "q1" := Undefined]);
      && NullField(EncodedRecord(json, map["songID" := songID, "q1" := Undefined]), "q1")
      && InsertFeedbackFormEffect(json, true, form, RunDone).state == Fulfilled(Succeeded())
  {
    NullFieldFormsAreInserted(json, Obj(map["songID" := songID, "q1" := Undefined]), RunDone);
  }

  /** A missing form is rejected, but a falsy form that has keys to list
      (0, false, "") still reaches the insert, with every field undefined. */
  lemma FalsyFormStillInserted(json: Json, outcome: RunOutcome)
    ensures var e := InsertFeedbackFormEffect(json, true, Num(0), outcome);
      && e.state == Rejected(Value(FormMissing()))
      && |e.issued| == 1 && e.issued[0].query == Q.InsertFeedbackForm
      && e.issued[0].params["$songID"] == Undefined && e.issued[0].params["$q14"] == Undefined
    ensures InsertFeedbackFormEffect(json, true, Null, outcome) == Effect(Rejected(Value(FormMissing())), [])
  {
    assert OwnEntries(Num(0)) == Ok(map[]);
    var encoded := EncodedRecord(json, map[]);
    assert encoded == map[];
    NullCheckIsNoOp(encoded);
    assert Field(encoded, "songID") == Undefined && Field(encoded, "q14") == Undefined;
  }

  // ---------------------------------------------------------------------
  // insertIRBName

  function InsertIRBNameEffect(connected: bool, name: JsValue, outcome: RunOutcome): Effect
  {
    var reply := match outcome
      case RunFailed(e) => Rejected(Value(StorageFailure("failure inserting IRB Name", e)))
      case RunDone => Fulfilled(Succeeded());
    Effect(Executor(if Truthy(name) then Pending else Rejected(Value(NameMissing())), connected, reply),
           Issued(connected, [Statement(Q.InsertFeedbackForm, map["$name" := name])]))
  }

  /** The signature is written with the feedback-form statement, never with
      the statement meant for names, and with only `$name` bound. */
  lemma IRBNameUsesFeedbackStatement(connected: bool, name: JsValue, outcome: RunOutcome)
    ensures var e := InsertIRBNameEffect(connected, name, outcome);
      && (forall s :: s in e.issued ==> s.query == Q.InsertFeedbackForm && s.query != Q.InsertIRBName)
      && (connected ==> e.issued == [Statement(Q.InsertFeedbackForm, map["$name" := name])])
      && (!Truthy(name) ==> e.state == Rejected(Value(NameMissing())))
  {
  }

  // ---------------------------------------------------------------------
  // fetchAllFeedbackForms

  /** `rows.map(parse)`: every row parsed, or the SyntaxError of a row
      holding a field that starts with "{" but is not JSON. */
  function ParsedRows(json: Json, rows: seq<Row>): (r: Result<seq<JsValue>>)
    ensures r.Ok? <==> forall i :: 0 <= i < |rows| ==> ParsedRecord(json, rows[i]).Ok?
    ensures r.Throw? ==> r.error == SyntaxError
    ensures r.Ok? ==> |r.value| == |rows|
    ensures r.Ok? ==> forall i :: 0 <= i < |rows| ==> r.value[i] == Obj(ParsedRecord(json, rows[i]).value)
    decreases |rows|
  {
    if |rows| == 0 then Ok([])
    else
      match ParsedRecord(json, rows[0])
      case Throw(e) => Throw(e)
      case Ok(first) =>
        match ParsedRows(json, rows[1..])
        case Throw(e) => Throw(e)
        case Ok(rest) => Ok([Obj(first)] + rest)
  }

  function FetchAllFeedbackFormsEffect(json: Json, connected: bool, fetched: AllOutcome): Effect
  {
    var reply := match fetched
      case AllFailed(e) => Rejected(Value(StorageFailure("failure inserting inputs", e)))
      case GotRows(rows) =>
        (match ParsedRows(json, rows)
         case Throw(_) => Pending
         case Ok(body) => Fulfilled(Obj(map["status" := Str("success"), "body" := Arr(body)])));
    Effect(Executor(Pending, connected, reply), Issued(connected, [Statement(Q.SelectFeedbackForms, map[])]))
  }

  /** A stored answer that starts with "{" but is not JSON makes the
      callback throw, and the promise never settles; otherwise the body
      holds every row, decoded one level. */
  lemma FeedbackFormsDecoded(json: Json, rows: seq<Row>, i: nat)
    requires i < |rows|
    ensures var s := FetchAllFeedbackFormsEffect(json, true, GotRows(rows)).state;
      && (ParsedRecord(json, rows[i]).Throw? ==> s == Pending)
      && (s.Fulfilled? ==>
            && s.value.fields["body"].Arr? && |s.value.fields["body"].elems| == |rows|
            && ParsedRecord(json, rows[i]).Ok?
            && s.value.fields["body"].elems[i] == Obj(ParsedRecord(json, rows[i]).value))
  {
  }

  /** The promise is fulfilled exactly when every row parses, and then with
      `{status: "success", body: rows.map(parse)}`; a failed select rejects
      with the storage error. */
  lemma FeedbackFormsResolve(json: Json, rows: seq<Row>, e: StorageError)
    ensures var s := FetchAllFeedbackFormsEffect(json, true, GotRows(rows)).state;
      && (s.Fulfilled? <==> ParsedRows(json, rows).Ok?)
      && (ParsedRows(json, rows).Ok? ==>
            s == Fulfilled(Obj(map["status" := Str("success"), "body" := Arr(ParsedRows(json, rows).value)])))
      && (ParsedRows(json, rows).Throw? ==> s == Pending)
    ensures FetchAllFeedbackFormsEffect(json, true, AllFailed(e)).state
         == Rejected(Value(StorageFailure("failure inserting inputs", e)))
  {
  }

  /** A stored form that `encode` wrote and that round-trips comes back as
      it was submitted. */
  lemma StoredFormComesBack(json: Json, form: map<string, JsValue>)
    requires Lawful(json) && RoundTrips(form)
    ensures FetchAllFeedbackFormsEffect(json, true, GotRows([EncodedRecord(json, form)])).state
         == Fulfilled(Obj(map["status" := Str("success"), "body" := Arr([Obj(form)])]))
  {
    ParseEncodeRoundTrip(json, form);
    var rows := [EncodedRecord(json, form)];
    var r := ParsedRows(json, rows);
    assert r.Ok? && |r.value| == 1 && r.value[0] == Obj(form);
    assert r.value == [Obj(form)];
  }

  // ---------------------------------------------------------------------
  // The object

  /** `TuneMountainDBUtility`: `connected` stands for `this.db !== null`,
      `log` for the statements the storage has been handed, in order. */
  class TuneMountainDBUtility {
    var connected: bool
    var log: seq<Statement>

    /** The constructor leaves `this.db` null until the storage's open
        callback runs. */
    constructor ()
      ensures !connected && log == []
    {
      connected := false;
      log := [];
    }

    /** The open callback on success: `this.db` is set. */
    method Opened()
      modifies this
      ensures connected && log == old(log)
    {
      connected := true;
    }

    method InsertUser(spotifyID: JsValue, displayName: JsValue, imageUrl: JsValue, outcome: RunOutcome)
      returns (p: PromiseCell)
      modifies this
      ensures fresh(p) && connected == old(connected)
      ensures var e := InsertUserEffect(old(connected), spotifyID, displayName, imageUrl, outcome);
        p.state == e.state && log == old(log) + e.issued
    {
      ghost var effect := InsertUserEffect(connected, spotifyID, displayName, imageUrl, outcome);
      p := new PromiseCell();
      if TypeOf(spotifyID) != "string" || TypeOf(displayName) != "string" || TypeOf(imageUrl) != "string" {
        p.Reject(Value(TypeMismatchError()));
      }
      assert p.state == TypeCheck(UserArgsOk(spotifyID, displayName, imageUrl));
      if !connected {
        p.Reject(Exception(TypeError));
        return;
      }
      var insert := Statement(Q.InsertUser, UserParams(spotifyID, displayName, imageUrl));
      assert effect.issued == [insert];
      log := log + [insert];
      match outcome {
        case RunFailed(e) => p.Reject(Value(StorageFailure("failure", e)));
        case RunDone => p.Resolve(UserEcho(spotifyID, displayName, imageUrl));
      }
    }

    method FetchUserWithID(spotifyID: JsValue, outcome: GetOutcome) returns (p: PromiseCell)
      modifies this
      ensures fresh(p) && connected == old(connected)
      ensures var e := FetchUserWithIDEffect(old(connected), spotifyID, outcome);
        p.state == e.state && log == old(log) + e.issued
    {
      p := new PromiseCell();
      if TypeOf(spotifyID) != "string" {
        p.Reject(Value(TypeMismatchError()));
      }
      if !connected {
        p.Reject(Exception(TypeError));
        return;
      }
      log := log + [Statement(Q.SelectUser, map["$spotifyID" := spotifyID])];
      match outcome {
        case GetFailed(e) => p.Reject(Value(StorageFailure("failure", e)));
        case NoRow => p.Reject(Value(NoRowFailure("failure")));
        case GotRow(row) => p.Resolve(Obj(map["status" := Str("success"), "user" := Obj(row)]));
      }
    }

    method InsertSession(score: JsValue, songID: JsValue, userID: JsValue, gameVersion: JsValue,
                         inserted: RunOutcome, fetched: AllOutcome) returns (p: PromiseCell)
      modifies this
      ensures fresh(p) && connected == old(connected)
      ensures var e := InsertSessionEffect(old(connected), score, songID, userID, gameVersion, inserted, fetched);
        p.state == e.state && log == old(log) + e.issued
    {
      ghost var effect := InsertSessionEffect(connected, score, songID, userID, gameVersion, inserted, fetched);
      p := new PromiseCell();
      if TypeOf(score) != "number" || TypeOf(songID) != "string" || TypeOf(userID) != "string"
         || TypeOf(gameVersion) != "string" {
        p.Reject(Value(TypeMismatchError()));
      }
      assert p.state == TypeCheck(SessionArgsOk(score, songID, userID, gameVersion));
      if !connected {
        p.Reject(Exception(TypeError));
        return;
      }
      var insert := Statement(Q.InsertSession, SessionParams(score, songID, userID, gameVersion));
      log := log + [insert];
      match inserted {
        case RunFailed(e) =>
          assert effect.issued == [insert];
          p.Reject(Value(StorageFailure("failure inserting session", e)));
        case RunDone =>
          var select := Statement(Q.SelectSessionOfUser, map["$userID" := userID]);
          assert effect.issued == [insert, select];
          log := log + [select];
          match fetched {
            case AllFailed(e) => p.Reject(Value(StorageFailure("failure retrieving sessions", e)));
            case GotRows(rows) => p.Resolve(SessionsOfUser(userID, rows));
          }
      }
    }

    method FetchSessionInfoWithID(sessionID: JsValue, outcome: GetOutcome) returns (p: PromiseCell)
      modifies this
      ensures fresh(p) && connected == old(connected)
      ensures var e := FetchSessionInfoWithIDEffect(old(connected), sessionID, outcome);
        p.state == e.state && log == old(log) + e.issued
    {
      p := new PromiseCell();
      if TypeOf(sessionID) != "number" {
        p.Reject(Value(TypeMismatchError()));
      }
      if !connected {
        p.Reject(Exception(TypeError));
        return;
      }
      log := log + [Statement(Q.SelectSessionWithID, map["$sessionID" := sessionID])];
      match outcome {
        case GetFailed(e) => p.Reject(Value(StorageFailure("failure", e)));
        case NoRow => p.Reject(Value(NoRowFailure("failure")));
        case GotRow(row) => p.Resolve(Obj(map["status" := Str("success"), "sessionInfo" := Obj(row)]));
      }
    }

    method FetchSessionsFromUser(spotifyID: JsValue, fetched: AllOutcome) returns (p: PromiseCell)
      modifies this
      ensures fresh(p) && connected == old(connected)
      ensures var e := FetchSessionsFromUserEffect(old(connected), spotifyID, fetched);
        p.state == e.state && log == old(log) + e.issued
    {
      p := new PromiseCell();
      if TypeOf(spotifyID) != "string" {
        p.Reject(Value(TypeMismatchError()));
      }
      if !connected {
        p.Reject(Exception(TypeError));
        return;
      }
      log := log + [Statement(Q.SelectSessionOfUser, map["$userID" := spotifyID])];
      match fetched {
        case AllFailed(e) => p.Reject(Value(StorageFailure("failure retrieving sessions", e)));
        case GotRows(rows) => p.Resolve(SessionsOfUser(spotifyID, rows));
      }
    }

    method FetchSessionWithID(sessionID: JsValue, found: GetOutcome, inputs: AllOutcome) returns (p: PromiseCell)
      modifies this
      ensures fresh(p) && connected == old(connected)
      ensures var e := FetchSessionWithIDEffect(old(connected), sessionID, found, inputs);
        p.state == e.state && log == old(log) + e.issued
    {
      p := new PromiseCell();
      if TypeOf(sessionID) != "number" {
        p.Reject(Value(TypeMismatchError()));
      }
      if !connected {
        p.Reject(Exception(TypeError));
        return;
      }
      log := log + [Statement(Q.SelectSessionWithID, map["$sessionID" := sessionID])];
      match found {
        case GetFailed(e) => p.Reject(Value(StorageFailure("failure", e)));
        case NoRow => p.Reject(Value(NoRowFailure("failure fetching session info")));
        case GotRow(session) =>
          log := log + [Statement(Q.SelectAllInputsFromSessionWithID, map["$sessionID" := sessionID])];
          match inputs {
            case AllFailed(e) => p.Reject(Value(StorageFailure("failure", e)));
            case GotRows(rows) => p.Resolve(SessionWithInputs(session, rows));
          }
      }
    }

    method FetchTopSessions(maxResults: JsValue, spotifyID: JsValue, textExceeds20: bool, fetched: AllOutcome)
      returns (p: PromiseCell)
      modifies this
      ensures fresh(p) && connected == old(connected)
      ensures var e := FetchTopSessionsEffect(old(connected), maxResults, spotifyID, textExceeds20, fetched);
        p.state == e.state && log == old(log) + e.issued
    {
      ghost var effect := FetchTopSessionsEffect(connected, maxResults, spotifyID, textExceeds20, fetched);
      var limit := if maxResults.Undefined? then Num(10) else maxResults;
      p := new PromiseCell();
      if TypeOf(limit) != "number" || (Truthy(spotifyID) && TypeOf(spotifyID) != "string") {
        p.Reject(Value(TypeMismatchError()));
      }
      assert p.state == TypeCheck(TopSessionsArgsOk(maxResults, spotifyID));
      if !connected {
        p.Reject(Exception(TypeError));
        assert effect == Effect(p.state, []);
        return;
      }
      var bound := LimitBound(limit, textExceeds20);
      var statement;
      if Truthy(spotifyID) {
        statement := Statement(Q.SelectTopSessionsFromUserWithID, map["$userID" := spotifyID, "$maxResults" := bound]);
        log := log + [statement];
        match fetched {
          case AllFailed(e) => p.Reject(Value(StorageFailure("failure retrieving sessions from user", e)));
          case GotRows(rows) => p.Resolve(SessionsOfUser(spotifyID, rows));
        }
      } else {
        statement := Statement(Q.SelectTopSessions, map["$maxResults" := bound]);
        log := log + [statement];
        match fetched {
          case AllFailed(e) => p.Reject(Value(StorageFailure("failure retrieving sessions", e)));
          case GotRows(rows) => p.Resolve(SessionsOfUser(spotifyID, rows));
        }
      }
      assert effect.issued == [statement];
    }

    /** The callee `this.db.run` is looked up before the statement text is
        built, so with no connection the builder is not called; both
        failures are caught and rejected as `{failure, errorCode}`. */
    method InsertInputs(inputArray: JsValue, outcome: RunOutcome) returns (p: PromiseCell)
      modifies this
      ensures fresh(p) && connected == old(connected)
      ensures var e := InsertInputsEffect(old(connected), inputArray, outcome);
        p.state == e.state && log == old(log) + e.issued
    {
      ghost var effect := InsertInputsEffect(connected, inputArray, outcome);
      p := new PromiseCell();
      if !connected {
        p.Reject(Value(CaughtFailure(TypeError)));
        assert effect == Effect(p.state, []);
        return;
      }
      var text := Q.InsertArrayOfInputs(inputArray);
      if text.Throw? {
        p.Reject(Value(CaughtFailure(text.error)));
        assert effect == Effect(p.state, []);
        return;
      }
      log := log + [Statement(Q.Literal(text.value), map[])];
      assert effect.issued == [Statement(Q.Literal(text.value), map[])];
      match outcome {
        case RunFailed(e) =>
          p.Reject(Value(StorageFailure("failure inserting inputs", e)));
          assert effect.state == p.state;
        case RunDone =>
          // on an empty batch `inputArray[0].sessionID` throws inside the callback
          if |inputArray.elems| > 0 {
            p.Resolve(InputsAdded(inputArray));
          }
          assert effect.state == p.state;
      }
    }

    method InsertFeedbackForm(json: Json, form: JsValue, outcome: RunOutcome) returns (p: PromiseCell)
      modifies this
      ensures fresh(p) && connected == old(connected)
      ensures var e := InsertFeedbackFormEffect(json, old(connected), form, outcome);
        p.state == e.state && log == old(log) + e.issued
    {
      ghost var effect := InsertFeedbackFormEffect(json, connected, form, outcome);
      p := new PromiseCell();
      if !Truthy(form) {
        p.Reject(Value(FormMissing()));
      }
      // `Object.keys` inside `encode` throws on null and undefined
      var entries := OwnEntries(form);
      if entries.Throw? {
        p.Reject(Exception(entries.error));
        assert effect == Effect(p.state, []);
        return;
      }
      var encoded := Encode(json, entries.value);
      CheckAndInsert(p, encoded, outcome);
    }

    /** The rest of the executor once the form is encoded: the null check,
        whose rejection is never reached, then the `try` block. */
    method CheckAndInsert(p: PromiseCell, encoded: map<string, JsValue>, outcome: RunOutcome)
      modifies this, p
      ensures connected == old(connected)
      ensures var e := EncodedFormEffect(old(connected), old(p.state), encoded, outcome);
        p.state == e.state && log == old(log) + e.issued
    {
      var hasNullField := RunNullCheck(encoded);
      if hasNullField {
        p.Reject(Value(NullFieldFailure()));
      }
      RunFeedbackInsert(p, FeedbackParams(encoded), outcome);
    }

    /** The `try` block of `insertFeedbackForm`. */
    method RunFeedbackInsert(p: PromiseCell, params: map<string, JsValue>, outcome: RunOutcome)
      modifies this, p
      ensures connected == old(connected)
      ensures var e := FeedbackInsertEffect(old(connected), old(p.state), params, outcome);
        p.state == e.state && log == old(log) + e.issued
    {
      if !connected {
        p.Reject(Value(CaughtFailure(TypeError)));
        return;
      }
      log := log + [Statement(Q.InsertFeedbackForm, params)];
      match outcome {
        case RunFailed(e) => p.Reject(Value(StorageFailure("failure inserting inputs", e)));
        case RunDone => p.Resolve(Succeeded());
      }
    }

    method InsertIRBName(name: JsValue, outcome: RunOutcome) returns (p: PromiseCell)
      modifies this
      ensures fresh(p) && connected == old(connected)
      ensures var e := InsertIRBNameEffect(old(connected), name, outcome);
        p.state == e.state && log == old(log) + e.issued
    {
      p := new PromiseCell();
      if !Truthy(name) {
        p.Reject(Value(NameMissing()));
      }
      if !connected {
        p.Reject(Exception(TypeError));
        return;
      }
      log := log + [Statement(Q.InsertFeedbackForm, map["$name" := name])];
      match outcome {
        case RunFailed(e) => p.Reject(Value(StorageFailure("failure inserting IRB Name", e)));
        case RunDone => p.Resolve(Succeeded());
      }
    }

    method FetchAllFeedbackForms(json: Json, fetched: AllOutcome) returns (p: PromiseCell)
      modifies this
      ensures fresh(p) && connected == old(connected)
      ensures var e := FetchAllFeedbackFormsEffect(json, old(connected), fetched);
        p.state == e.state && log == old(log) + e.issued
    {
      p := new PromiseCell();
      if !connected {
        p.Reject(Exception(TypeError));
        return;
      }
      log := log + [Statement(Q.SelectFeedbackForms, map[])];
      match fetched {
        case AllFailed(e) => p.Reject(Value(StorageFailure("failure inserting inputs", e)));
        case GotRows(rows) =>
          var body: seq<JsValue> := [];
          var i := 0;
          while i < |rows|
            modifies {}
            invariant 0 <= i <= |rows|
            invariant forall j :: 0 <= j < i ==> ParsedRecord(json, rows[j]).Ok?
            invariant |body| == i
            invariant forall j :: 0 <= j < i ==> body[j] == Obj(ParsedRecord(json, rows[j]).value)
          {
            var parsed := Parse(json, rows[i]);
            if parsed.Throw? {
              // thrown inside the storage callback: nothing settles the promise
              return;
            }
            body := body + [Obj(parsed.value)];
            i := i + 1;
          }
          var all := ParsedRows(json, rows);
          assert all.Ok? && |all.value| == |body|;
          assert all.value == body;
          p.Resolve(Obj(map["status" := Str("success"), "body" := Arr(body)]));
      }
    }
  }
}
