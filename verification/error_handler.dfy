/** The error-handling middleware: a duplicate-key error (code 11000) is
    answered with 422 and a message naming the offending fields, any other
    error with 500 and its own message. */
module ErrorHandler {
  import opened Common

  /** An error as the handler sees it; `keyPattern` lists the pattern's keys
      in order, None when the error carries no pattern. */
  datatype StoreError = StoreError(code: Option<int>, message: string, keyPattern: Option<seq<string>>)

  datatype ErrorReply = ErrorReply(status: int, error: string, code: string)

  const DUPLICATE_KEY_CODE := 11000

  /** `handleDuplicateKeyError`: several fields are named together, joined by
      " , "; otherwise the single field is named, which for an empty pattern
      is JavaScript's rendering of a missing element, "undefined". */
  function DuplicateKeyMessage(keyPattern: Option<seq<string>>): (m: string)
  {
    var fields := if keyPattern.Some? then keyPattern.value else [];
    if |fields| > 1 then
      "The combination of fields '" + Join(fields, " , ") + "' is already taken. Please use different values."
    else
      "The field '" + (if |fields| == 1 then fields[0] else "undefined") + "' is already taken. Please use a different value."
  }

  /** `globalErrorHandler`. */
  function GlobalErrorHandler(e: StoreError): (r: ErrorReply)
    ensures e.code == Some(DUPLICATE_KEY_CODE) ==> r.status == 422 && r.code == "duplicate_key_error"
    ensures e.code != Some(DUPLICATE_KEY_CODE) ==> r == ErrorReply(500, e.message, "internal_server_error")
    ensures r.status == 422 ==> r.error == DuplicateKeyMessage(e.keyPattern)
  {
    if e.code == Some(DUPLICATE_KEY_CODE) then ErrorReply(422, DuplicateKeyMessage(e.keyPattern), "duplicate_key_error")
    else ErrorReply(500, e.message, "internal_server_error")
  }

  /** The message names every field of the pattern. */
  lemma DuplicateKeyNamesEveryField(fields: seq<string>, k: nat)
    requires k < |fields|
    ensures Contains(DuplicateKeyMessage(Some(fields)), fields[k])
  {
    if |fields| > 1 {
      JoinContainsParts(fields, " , ", k);
      ContainsSuffix("The combination of fields '", Join(fields, " , "), fields[k]);
      ContainsPrefix("The combination of fields '" + Join(fields, " , "), "' is already taken. Please use different values.", fields[k]);
    } else {
      ContainsInfix("The field '", fields[0], "' is already taken. Please use a different value.");
    }
  }

  /** A missing pattern is treated as an empty one, and then the message names
      "undefined". */
  lemma MissingPatternNamesUndefined()
    ensures DuplicateKeyMessage(None) == DuplicateKeyMessage(Some([]))
    ensures Contains(DuplicateKeyMessage(None), "undefined")
  {
    ContainsInfix("The field '", "undefined", "' is already taken. Please use a different value.");
  }

  /** Several fields get the combination wording, one or none the single-field wording. */
  lemma DuplicateKeyWording(fields: seq<string>)
    ensures |fields| > 1 ==> "The combination of fields '" <= DuplicateKeyMessage(Some(fields))
    ensures |fields| <= 1 ==> "The field '" <= DuplicateKeyMessage(Some(fields))
  {
  }
}
