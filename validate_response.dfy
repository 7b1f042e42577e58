/** `validateCovercubeResponse`: read-only type-tag checks on the carrier's
    response, in order; on success the response itself is returned. */
module ValidateResponse {

  import opened JsonValue
  import opened Guards

  const QuoteCodeMessage: string := "Missing quoteCode in Covercube response"
  const QuotePremiumMessage: string := "Invalid or missing quotePremium in Covercube response"
  const QuoteTotalMessage: string := "Invalid or missing quoteTotal in Covercube response"
  const DriversMessage: string := "Invalid or missing drivers array in Covercube response"
  const CoveragesMessage: string := "Invalid or missing coverages array in Covercube response"
  const PayplanMessage: string := "Invalid or missing payplan array in Covercube response"

  /** `rawResponse.key` is truthy. */
  predicate TruthyProp(raw: Json, key: string)
  {
    Prop(raw, key).Some? && Truthy(Prop(raw, key).value)
  }

  /** `typeof rawResponse.key === "number"`. */
  predicate NumberProp(raw: Json, key: string)
  {
    Prop(raw, key).Some? && Prop(raw, key).value.JNum?
  }

  /** `Array.isArray(rawResponse.key)`. */
  predicate ArrayProp(raw: Json, key: string)
  {
    Prop(raw, key).Some? && Prop(raw, key).value.JArr?
  }

  /** The keys the checks read; no other key and no array element is inspected. */
  const InspectedKeys: set<string> := {"quoteCode", "quotePremium", "quoteTotal", "drivers", "coverages", "payplan"}

  /** The checks, in the order both response validators make them. */
  function ResponseGuards(raw: Json): seq<Guard>
  {
    [ Guard(TruthyProp(raw, "quoteCode"), QuoteCodeMessage),
      Guard(NumberProp(raw, "quotePremium"), QuotePremiumMessage),
      Guard(NumberProp(raw, "quoteTotal"), QuoteTotalMessage),
      Guard(ArrayProp(raw, "drivers"), DriversMessage),
      Guard(ArrayProp(raw, "coverages"), CoveragesMessage),
      Guard(ArrayProp(raw, "payplan"), PayplanMessage) ]
  }

  /** `validateCovercubeResponse(rawResponse)`. A `null` response raises a TypeError
      on the first property read. */
  function ValidateCovercubeResponse(raw: Json): (r: Result<Json>)
    ensures r.Ok? ==> r.value == raw
  {
    if raw.JNull? then Err(TypeError)
    else if !TruthyProp(raw, "quoteCode") then Err(Error(QuoteCodeMessage))
    else if !NumberProp(raw, "quotePremium") then Err(Error(QuotePremiumMessage))
    else if !NumberProp(raw, "quoteTotal") then Err(Error(QuoteTotalMessage))
    else if !ArrayProp(raw, "drivers") then Err(Error(DriversMessage))
    else if !ArrayProp(raw, "coverages") then Err(Error(CoveragesMessage))
    else if !ArrayProp(raw, "payplan") then Err(Error(PayplanMessage))
    else Ok(raw)
  }
}
