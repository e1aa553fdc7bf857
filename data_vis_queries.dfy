/** The bulk-insert builders of src/queries/DataVisQueries.js: survey
    responses mapped onto a fixed positional column list, and survey
    buildings. Every value is embedded in the text as it renders, with
    nothing escaped. */
module DataVisQueries {
  import opened Js
  import opened Text

  /** The 23 question keys, in column order. */
  const Keys: seq<string> := [
    "STUDY_QUALITY_0", "STUDY_QUALITY_1", "STUDY_QUALITY_2", "STUDY_QUALITY_3",
    "STUDY_QUALITY_4", "STUDY_QUALITY_5", "STUDY_QUALITY_6", "STUDY_QUALITY_7",
    "STUDY_QUALITY_8", "STUDY_QUALITY_9", "STUDY_QUALITY_10",
    "LIVING_AND_EATING_0", "LIVING_AND_EATING_1", "LIVING_AND_EATING_2",
    "LIVING_AND_EATING_3", "LIVING_AND_EATING_4", "LIVING_AND_EATING_5",
    "LIVING_AND_EATING_6",
    "MISC_0", "MISC_1", "MISC_2", "MISC_3", "MISC_4"
  ]

  /** The columns of the response table: the shared profile id, the
      building name, then the question keys. */
  const Columns: seq<string> := ["responseID", "buildingName"] + Keys

  /** The indentation of the column lines in the statement text. */
  const ColumnIndent: string := "                                            "

  /** The statement text ahead of the tuples: the columns one per line. */
  const ResponsesHeader: string :=
    "INSERT INTO WPISurveyResponses( " + Join(",\n" + ColumnIndent, Columns) + " )\n    VALUES "

  /** `convert`: booleans become 1 and 0, anything else is kept. */
  function Convert(v: JsValue): (r: JsValue)
    ensures v.Bool? ==> r == Num(if v.b then 1 else 0)
    ensures !v.Bool? ==> r == v
  {
    if TypeOf(v) == "boolean" then (if v.b then Num(1) else Num(0)) else v
  }

  /** The text appended for one question value: "NULL" for undefined and
      the empty string, otherwise the converted value's string form,
      unquoted. */
  function Cell(v: JsValue): (s: string)
    ensures v == Undefined || v == Str("") ==> s == "NULL"
    ensures v == Bool(true) ==> s == "1"
    ensures v == Bool(false) ==> s == "0"
    ensures v == Null ==> s == "null"
    ensures v.Num? ==> s == IntToString(v.n)
    ensures v.Str? && v.s != "" ==> s == v.s
  {
    if TypeOf(v) != "undefined" && v != Str("") then ToJsString(Convert(v)) else "NULL"
  }

  /** Numeric answers lose nothing in their cells: two numbers give the
      same cell text exactly when they are equal. */
  lemma NumericCellsDistinct(a: int, b: int)
    ensures Cell(Num(a)) == Cell(Num(b)) <==> a == b
  {
    IntToStringInjective(a, b);
  }

  /** The 25 values of one response tuple, in column order. */
  function ResponseValues(input: JsValue, id: JsValue): (vals: seq<string>)
    requires Accessible(input)
    ensures |vals| == |Columns| == 25
    ensures vals[0] == ToJsString(id)
    ensures vals[1] == "\"" + ToJsString(Get(input, "buildingName")) + "\""
    ensures forall k :: 0 <= k < |Keys| ==> vals[k + 2] == Cell(Get(input, Keys[k]))
  {
    [ToJsString(id), "\"" + ToJsString(Get(input, "buildingName")) + "\""]
      + seq(|Keys|, k requires 0 <= k < |Keys| => Cell(Get(input, Keys[k])))
  }

  /** Each value sits under the column of the same position: the id under
      responseID, the name under buildingName, each key's value under that
      key. */
  lemma ValuesFollowColumns(input: JsValue, id: JsValue, p: nat)
    requires Accessible(input)
    requires 2 <= p < |Columns|
    ensures ResponseValues(input, id)[p] == Cell(Get(input, Columns[p]))
  {
    assert Columns[p] == Keys[p - 2];
  }

  /** One response tuple: "( ", the values separated by ", ", then " )". */
  function ResponseTuple(input: JsValue, id: JsValue): string
    requires Accessible(input)
  {
    "( " + Join(", ", ResponseValues(input, id)) + " )"
  }

  /** The text of a tuple once the id, the name and the first `n`
      question values are appended, each followed by its separator. */
  ghost function Rendered(vals: seq<string>, n: nat): string
    requires n + 2 <= |vals|
  {
    "( " + Join(", ", vals[..n + 2]) + (if n + 2 < |vals| then ", " else " ")
  }

  /** One step of the loop below: appending the next value and its
      separator extends the rendered prefix by one value. */
  lemma RenderStep(vals: seq<string>, n: nat)
    requires n + 2 < |vals|
    ensures Rendered(vals, n) + vals[n + 2] + (if n + 3 < |vals| then ", " else " ")
         == Rendered(vals, n + 1)
  {
    assert vals[..n + 3] == vals[..n + 2] + [vals[n + 2]];
    JoinSnoc(", ", vals[..n + 2], vals[n + 2]);
  }

  /** With every value appended, the closing parenthesis completes the tuple. */
  lemma RenderDone(vals: seq<string>)
    requires 2 <= |vals|
    ensures Rendered(vals, |vals| - 2) + ")" == "( " + Join(", ", vals) + " )"
  {
    assert vals[..|vals|] == vals;
  }

  /** The first two values, before the loop. */
  lemma RenderStart(vals: seq<string>)
    requires 3 <= |vals|
    ensures "( " + vals[0] + ", " + vals[1] + ", " == Rendered(vals, 0)
  {
    assert vals[..2] == [vals[0]] + [vals[1]];
    JoinSnoc(", ", [vals[0]], vals[1]);
  }

  /** The callback of `inputs.map`: builds one tuple by appending to
      `valueString`; reading `buildingName` of null or undefined throws. */
  method RenderResponse(input: JsValue, id: JsValue) returns (r: Result<string>)
    ensures !Accessible(input) ==> r == Throw(TypeError)
    ensures Accessible(input) ==> r == Ok(ResponseTuple(input, id))
  {
    var valueString := "( ";
    valueString := valueString + ToJsString(id) + ", ";
    if !Accessible(input) {
      return Throw(TypeError);
    }
    valueString := valueString + "\"" + ToJsString(Get(input, "buildingName")) + "\", ";
    ghost var vals := ResponseValues(input, id);
    RenderStart(vals);
    var index := 0;
    while index < |Keys|
      invariant 0 <= index <= |Keys|
      invariant valueString == Rendered(vals, index)
    {
      var value := Get(input, Keys[index]);
      var cell := Cell(value);
      RenderStep(vals, index);
      valueString := valueString + cell + (if index < |Keys| - 1 then ", " else " ");
      index := index + 1;
    }
    RenderDone(vals);
    valueString := valueString + ")";
    r := Ok(valueString);
  }

  /** `inputs.map(...)` over the responses: one tuple per response, in
      order, or the TypeError of the first null or undefined response. */
  function ResponseTuples(elems: seq<JsValue>, id: JsValue): (r: Result<seq<string>>)
    ensures r.Ok? <==> forall i :: 0 <= i < |elems| ==> Accessible(elems[i])
    ensures r.Throw? ==> r.error == TypeError
    ensures r.Ok? ==> |r.value| == |elems|
    ensures r.Ok? ==> forall i :: 0 <= i < |elems| ==> r.value[i] == ResponseTuple(elems[i], id)
    decreases |elems|
  {
    if |elems| == 0 then Ok([])
    else if !Accessible(elems[0]) then Throw(TypeError)
    else
      match ResponseTuples(elems[1..], id)
      case Throw(e) => Throw(e)
      case Ok(rest) =>
        assert forall i :: 1 <= i < |elems| ==> elems[i] == elems[1..][i - 1];
        Ok([ResponseTuple(elems[0], id)] + rest)
  }

  /** `insertArrayOfResponses(inputs, id)`: a TypeError when `inputs` is not
      an array or holds null or undefined; otherwise the header, the tuples
      joined by "," and ";". */
  function InsertArrayOfResponses(inputs: JsValue, id: JsValue): (r: Result<string>)
    ensures r.Ok? <==> inputs.Arr? && forall i :: 0 <= i < |inputs.elems| ==> Accessible(inputs.elems[i])
    ensures r.Throw? ==> r.error == TypeError
  {
    if !inputs.Arr? then Throw(TypeError)
    else
      match ResponseTuples(inputs.elems, id)
      case Throw(e) => Throw(e)
      case Ok(tuples) => Ok(ResponsesHeader + Join(",", tuples) + ";")
  }

  /** The text of an accepted list: the header, one tuple per response in
      order, joined by ",", and ";". */
  lemma InsertArrayOfResponsesText(inputs: JsValue, id: JsValue)
    requires InsertArrayOfResponses(inputs, id).Ok?
    ensures exists tuples: seq<string> ::
      && |tuples| == |inputs.elems|
      && (forall i :: 0 <= i < |tuples| ==> tuples[i] == ResponseTuple(inputs.elems[i], id))
      && InsertArrayOfResponses(inputs, id).value == ResponsesHeader + Join(",", tuples) + ";"
  {
    var tuples := ResponseTuples(inputs.elems, id).value;
    assert InsertArrayOfResponses(inputs, id).value == ResponsesHeader + Join(",", tuples) + ";";
  }

  /** Every tuple of one statement opens with the same id. */
  lemma {:induction false} TupleOpensWithId(input: JsValue, id: JsValue)
    requires Accessible(input)
    ensures var prefix := "( " + ToJsString(id) + ", ";
      |prefix| <= |ResponseTuple(input, id)| && ResponseTuple(input, id)[..|prefix|] == prefix
  {
    var vals := ResponseValues(input, id);
    JoinFirst(", ", vals);
    var prefix := "( " + ToJsString(id) + ", ";
    assert ResponseTuple(input, id) == prefix + Join(", ", vals[1..]) + " )";
  }

  /** The shared id heads every tuple of the statement. */
  lemma SameIdInEveryTuple(inputs: JsValue, id: JsValue, i: nat)
    requires inputs.Arr? && i < |inputs.elems|
    requires InsertArrayOfResponses(inputs, id).Ok?
    ensures var t := ResponseTuples(inputs.elems, id).value[i];
      var prefix := "( " + ToJsString(id) + ", ";
      |prefix| <= |t| && t[..|prefix|] == prefix
  {
    assert Accessible(inputs.elems[i]);
    TupleOpensWithId(inputs.elems[i], id);
  }

  /** The tuple of one building: name and category between double quotes. */
  function BuildingTuple(building: JsValue): string
    requires Accessible(building)
  {
    "(\"" + ToJsString(Get(building, "name")) + "\", \"" + ToJsString(Get(building, "category")) + "\")"
  }

  /** `buildings.map(...)`: one tuple per building, in order, or the
      TypeError of the first null or undefined building. */
  function BuildingTuples(elems: seq<JsValue>): (r: Result<seq<string>>)
    ensures r.Ok? <==> forall i :: 0 <= i < |elems| ==> Accessible(elems[i])
    ensures r.Throw? ==> r.error == TypeError
    ensures r.Ok? ==> |r.value| == |elems|
    ensures r.Ok? ==> forall i :: 0 <= i < |elems| ==> r.value[i] == BuildingTuple(elems[i])
    decreases |elems|
  {
    if |elems| == 0 then Ok([])
    else if !Accessible(elems[0]) then Throw(TypeError)
    else
      match BuildingTuples(elems[1..])
      case Throw(e) => Throw(e)
      case Ok(rest) => Ok([BuildingTuple(elems[0])] + rest)
  }

  const BuildingsHeader: string := "INSERT INTO WPISurveyBuildings( name, category )\n    VALUES "

  /** `insertArrayOfBuildings(buildings)`. */
  function InsertArrayOfBuildings(buildings: JsValue): (r: Result<string>)
    ensures r.Ok? <==> buildings.Arr? && forall i :: 0 <= i < |buildings.elems| ==> Accessible(buildings.elems[i])
    ensures r.Throw? ==> r.error == TypeError
  {
    if !buildings.Arr? then Throw(TypeError)
    else
      match BuildingTuples(buildings.elems)
      case Throw(e) => Throw(e)
      case Ok(tuples) => Ok(BuildingsHeader + Join(",", tuples) + ";")
  }

  /** The text of an accepted list: the header, one tuple per building in
      order, joined by ",", and ";". */
  lemma InsertArrayOfBuildingsText(buildings: JsValue)
    requires InsertArrayOfBuildings(buildings).Ok?
    ensures exists tuples: seq<string> ::
      && |tuples| == |buildings.elems|
      && (forall i :: 0 <= i < |tuples| ==> tuples[i] == BuildingTuple(buildings.elems[i]))
      && InsertArrayOfBuildings(buildings).value == BuildingsHeader + Join(",", tuples) + ";"
  {
    var tuples := BuildingTuples(buildings.elems).value;
    assert InsertArrayOfBuildings(buildings).value == BuildingsHeader + Join(",", tuples) + ";";
  }

}
