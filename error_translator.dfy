/** The table of human-readable descriptions for storage error codes
    (src/utils/SQLiteErrorTranslator.js). It is built once and never
    changed; a code without an entry reads as undefined. */
module ErrorTranslator {
  import opened Js

  const Constraint: string := "SQLITE_CONSTRAINT"
  const Mismatch: string := "SQLITE_MISMATCH"
  const NoneFound: string := "NONE_FOUND"

  /** The three entries of the table. */
  const ErrorMap: map<string, string> := map[
    Constraint := "Data does not fit required constraints!",
    Mismatch := "Wrong data type used!",
    NoneFound := "No data found."
  ]

  /** `errorDescriptions[code]`: the entry's text, or undefined for every
      code the table does not name. */
  function Describe(code: string): (r: JsValue)
    ensures r.Str? <==> code in {Constraint, Mismatch, NoneFound}
    ensures !r.Str? ==> r == Undefined
    ensures code == Constraint ==> r == Str("Data does not fit required constraints!")
    ensures code == Mismatch ==> r == Str("Wrong data type used!")
    ensures code == NoneFound ==> r == Str("No data found.")
  {
    if code in ErrorMap then Str(ErrorMap[code]) else Undefined
  }

  /** The generic storage codes have no description. */
  lemma UnlistedCodesAreUndefined()
    ensures Describe("SQLITE_ERROR") == Undefined
    ensures Describe("SQLITE_BUSY") == Undefined
    ensures Describe("SQLITE_RANGE") == Undefined
  {
  }
}
