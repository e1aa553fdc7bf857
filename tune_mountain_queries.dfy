/** The statements of src/queries/TuneMountainQueries.js. The fixed,
    parameterised statements are tags; `insertArrayOfInputs` builds the
    text of a multi-row insert with every value embedded literally. */
module TuneMountainQueries {
  import opened Js
  import opened Text

  /** The statements the data-access layer issues. `Literal` holds a text
      built at run time. */
  datatype Query =
    | InsertUser
    | SelectUser
    | InsertSession
    | SelectSessionOfUser
    | SelectSessionWithID
    | SelectAllInputsFromSessionWithID
    | SelectTopSessionsFromUserWithID
    | SelectTopSessions
    | InsertFeedbackForm
    | SelectFeedbackForms
    | InsertIRBName
    | Literal(sql: string)

  /** One input event that passed the type check (`type` is a keyword
      here, hence `kind`). */
  datatype InputEvent = InputEvent(sessionID: int, action: string, timestamp: string, kind: string)

  /** The check on one element: destructuring throws on null and undefined,
      and `sessionID` must be a number and `action`, `timestamp`, `type`
      strings. */
  predicate IsInputEvent(v: JsValue)
  {
    && Accessible(v)
    && Get(v, "sessionID").Num?
    && Get(v, "action").Str?
    && Get(v, "timestamp").Str?
    && Get(v, "type").Str?
  }

  function ToInputEvent(v: JsValue): (e: InputEvent)
    requires IsInputEvent(v)
    ensures Num(e.sessionID) == Get(v, "sessionID")
    ensures Str(e.action) == Get(v, "action")
    ensures Str(e.timestamp) == Get(v, "timestamp")
    ensures Str(e.kind) == Get(v, "type")
  {
    InputEvent(Get(v, "sessionID").n, Get(v, "action").s, Get(v, "timestamp").s, Get(v, "type").s)
  }

  /** The value tuple of one event: the number as written, the three
      strings between single quotes and nothing escaped. */
  function InputTuple(e: InputEvent): string
  {
    TupleText(IntToString(e.sessionID), e.action, e.timestamp, e.kind)
  }

  /** The template of one tuple, over the text of its four fields. */
  function TupleText(id: string, action: string, timestamp: string, kind: string): string
  {
    "(" + id + ", '" + action + "', '" + timestamp + "', '" + kind + "')"
  }

  /** `inputs.map(...)`: one tuple per element, in order, or the TypeError
      of the first element that fails the check. */
  function InputTuples(elems: seq<JsValue>): (r: Result<seq<string>>)
    ensures r.Ok? <==> forall i :: 0 <= i < |elems| ==> IsInputEvent(elems[i])
    ensures r.Throw? ==> r.error == TypeError
    ensures r.Ok? ==> |r.value| == |elems|
    ensures r.Ok? ==> forall i :: 0 <= i < |elems| ==> r.value[i] == InputTuple(ToInputEvent(elems[i]))
    decreases |elems|
  {
    if |elems| == 0 then Ok([])
    else if !IsInputEvent(elems[0]) then Throw(TypeError)
    else
      match InputTuples(elems[1..])
      case Throw(e) => Throw(e)
      case Ok(rest) => Ok([InputTuple(ToInputEvent(elems[0]))] + rest)
  }

  /** The text ahead of the tuples, line break and indentation included. */
  const InputsHeader: string := "INSERT INTO inputs(sessionID, action, timestamp, type)\n    VALUES "

  /** `insertArrayOfInputs(inputs)`: a TypeError, and no text, when the
      argument is not an array (it has no `map`) or any element fails the
      check; otherwise the header, the tuples joined by "," (the array's
      string conversion) and ";". */
  function InsertArrayOfInputs(inputs: JsValue): (r: Result<string>)
    ensures r.Ok? <==> inputs.Arr? && forall i :: 0 <= i < |inputs.elems| ==> IsInputEvent(inputs.elems[i])
    ensures r.Throw? ==> r.error == TypeError
  {
    if !inputs.Arr? then Throw(TypeError)
    else
      match InputTuples(inputs.elems)
      case Throw(e) => Throw(e)
      case Ok(tuples) => Ok(InputsHeader + Join(",", tuples) + ";")
  }

  /** The text of an accepted batch: the header, one tuple per element in
      order, joined by ",", and ";". */
  lemma InsertArrayOfInputsText(inputs: JsValue)
    requires InsertArrayOfInputs(inputs).Ok?
    ensures exists tuples: seq<string> ::
      && |tuples| == |inputs.elems|
      && (forall i :: 0 <= i < |tuples| ==> tuples[i] == InputTuple(ToInputEvent(inputs.elems[i])))
      && InsertArrayOfInputs(inputs).value == InputsHeader + Join(",", tuples) + ";"
  {
    var tuples := InputTuples(inputs.elems).value;
    assert InsertArrayOfInputs(inputs).value == InputsHeader + Join(",", tuples) + ";";
  }


  /** An empty batch is not rejected: its text ends in "VALUES ;". */
  lemma EmptyBatch()
    ensures InsertArrayOfInputs(Arr([])) == Ok(InputsHeader + ";")
    ensures var text := InsertArrayOfInputs(Arr([])).value;
      text[|text| - 8..] == "VALUES ;"
  {
    assert InputTuples([]) == Ok([]);
    assert Join(",", []) == "";
    assert InputsHeader + Join(",", []) + ";" == InputsHeader + ";";
  }

  function EventValue(sessionID: int, action: string, timestamp: string, kind: string): JsValue
  {
    Obj(map["sessionID" := Num(sessionID), "action" := Str(action),
            "timestamp" := Str(timestamp), "type" := Str(kind)])
  }

  lemma EventValueChecks(sessionID: int, action: string, timestamp: string, kind: string)
    ensures IsInputEvent(EventValue(sessionID, action, timestamp, kind))
    ensures ToInputEvent(EventValue(sessionID, action, timestamp, kind))
         == InputEvent(sessionID, action, timestamp, kind)
  {
    var v := EventValue(sessionID, action, timestamp, kind);
    assert Get(v, "sessionID") == Num(sessionID);
    assert Get(v, "action") == Str(action);
    assert Get(v, "timestamp") == Str(timestamp);
    assert Get(v, "type") == Str(kind);
  }

  /** The action of an event that spells out the tuples of two events:
      the rest of the first tuple, the separator, and the second tuple up to
      its action. */
  function ForgedAction(id1: string, action1: string, timestamp1: string, kind1: string,
                        id2: string, action2: string): string
  {
    action1 + "', '" + timestamp1 + "', '" + kind1 + "')," + "(" + id2 + ", '" + action2
  }

  /** Nothing is escaped: one tuple whose action closes it early renders as
      two tuples joined by ",". */
  lemma ForgedTupleSplits(id1: string, action1: string, timestamp1: string, kind1: string,
                          id2: string, action2: string, timestamp2: string, kind2: string)
    ensures TupleText(id1, ForgedAction(id1, action1, timestamp1, kind1, id2, action2), timestamp2, kind2)
         == TupleText(id1, action1, timestamp1, kind1) + "," + TupleText(id2, action2, timestamp2, kind2)
  {
    var head := "(" + id1 + ", '";
    var forged := ForgedAction(id1, action1, timestamp1, kind1, id2, action2);
    var tail := "', '" + timestamp2 + "', '" + kind2 + "')";
    var upToAction := TupleText(id1, action1, timestamp1, kind1) + "," + "(" + id2 + ", '" + action2;
    assert TupleText(id1, forged, timestamp2, kind2) == head + forged + tail;
    assert TupleText(id2, action2, timestamp2, kind2) == "(" + id2 + ", '" + action2 + tail;
    assert head + forged == upToAction by {
      assert "')," == "')" + ",";
      assert forged == action1 + "', '" + timestamp1 + "', '" + kind1 + "')" + "," + "(" + id2 + ", '" + action2;
    }
    assert upToAction + tail == TupleText(id1, action1, timestamp1, kind1) + "," + TupleText(id2, action2, timestamp2, kind2);
  }

  /** Nothing is escaped: a quote in `action` lets one event produce the
      same statement as two different events. */
  lemma UnescapedQuoteForgesTuples()
    ensures var forged := Arr([EventValue(1, "a', 'b', 'c'),(2, 'x", "t", "u")]);
      var honest := Arr([EventValue(1, "a", "b", "c"), EventValue(2, "x", "t", "u")]);
      && forged != honest
      && InsertArrayOfInputs(forged).Ok?
      && InsertArrayOfInputs(forged) == InsertArrayOfInputs(honest)
  {
    var first := InputEvent(1, "a", "b", "c");
    var second := InputEvent(2, "x", "t", "u");
    assert IntToString(1) == "1";
    assert IntToString(2) == "2";
    assert ForgedAction("1", "a", "b", "c", "2", "x") == "a', 'b', 'c'),(2, 'x";
    ForgedTupleSplits("1", "a", "b", "c", "2", "x", "t", "u");
    var e1 := EventValue(1, "a', 'b', 'c'),(2, 'x", "t", "u");
    var h1 := EventValue(1, "a", "b", "c");
    var h2 := EventValue(2, "x", "t", "u");
    EventValueChecks(1, "a', 'b', 'c'),(2, 'x", "t", "u");
    EventValueChecks(1, "a", "b", "c");
    EventValueChecks(2, "x", "t", "u");
    var t := InputTuple(ToInputEvent(e1));
    var t1 := InputTuple(first);
    var t2 := InputTuple(second);
    assert t == t1 + "," + t2;
    var rf := InputTuples([e1]);
    assert rf.Ok? && |rf.value| == 1 && rf.value[0] == t;
    assert rf.value == [t];
    var rh := InputTuples([h1, h2]);
    assert rh.Ok? && |rh.value| == 2 && rh.value[0] == t1 && rh.value[1] == t2;
    assert rh.value == [t1] + [t2];
    JoinSnoc(",", [t1], t2);
    assert Join(",", [t]) == t;
    assert h1 != e1;
  }
}
