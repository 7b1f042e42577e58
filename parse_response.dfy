/** `parseCovercubeResponse`: the same checks as `validateCovercubeResponse`, in the
    same order with the same messages. It is written here as the first failure of
    the shared check list, and proved to agree with the validator on every
    response. */
module ParseResponse {

  import opened JsonValue
  import opened Guards
  import opened ValidateResponse

  /** `parseCovercubeResponse(rawResponse)`. */
  function ParseCovercubeResponse(raw: Json): (r: Result<Json>)
    ensures r.Ok? ==> r.value == raw
    ensures r.Ok? <==> !raw.JNull? && forall i :: 0 <= i < |ResponseGuards(raw)| ==> ResponseGuards(raw)[i].passes
    ensures !raw.JNull? && r.Err? ==>
      ChainError(ResponseGuards(raw)).Some? && r == Err(Error(ChainError(ResponseGuards(raw)).value))
  {
    if raw.JNull? then Err(TypeError)
    else match ChainError(ResponseGuards(raw))
      case Some(message) => Err(Error(message))
      case None => Ok(raw)
  }

  /** On every response both functions return the same value or raise the same
      error. */
  lemma ParseAgreesWithValidate(raw: Json)
    ensures ParseCovercubeResponse(raw) == ValidateCovercubeResponse(raw)
  {
    if !raw.JNull? {
      var gs := ResponseGuards(raw);
      if !TruthyProp(raw, "quoteCode") {
        ChainErrorAt(gs, 0);
      } else if !NumberProp(raw, "quotePremium") {
        ChainErrorAt(gs, 1);
      } else if !NumberProp(raw, "quoteTotal") {
        ChainErrorAt(gs, 2);
      } else if !ArrayProp(raw, "drivers") {
        ChainErrorAt(gs, 3);
      } else if !ArrayProp(raw, "coverages") {
        ChainErrorAt(gs, 4);
      } else if !ArrayProp(raw, "payplan") {
        ChainErrorAt(gs, 5);
      }
    }
  }
}
