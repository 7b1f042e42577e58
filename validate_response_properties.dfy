/** What the response validator accepts and rejects. */
module ValidateResponseProperties {

  import opened JsonValue
  import opened ValidateResponse

  /** A falsy `quoteCode` -- missing, "", `null`, 0 -- is reported first; a truthy
      value of another type passes that check. */
  lemma QuoteCodeChecks(m: map<string, Json>)
    ensures ValidateCovercubeResponse(JObj(m - {"quoteCode"})) == Err(Error(QuoteCodeMessage))
    ensures ValidateCovercubeResponse(JObj(m["quoteCode" := JStr("")])) == Err(Error(QuoteCodeMessage))
    ensures ValidateCovercubeResponse(JObj(m["quoteCode" := JNull])) == Err(Error(QuoteCodeMessage))
    ensures ValidateCovercubeResponse(JObj(m["quoteCode" := JNum(0.0)])) == Err(Error(QuoteCodeMessage))
    ensures ValidateCovercubeResponse(JObj(m["quoteCode" := JNum(7.0)])).Err? <==>
            ValidateCovercubeResponse(JObj(m["quoteCode" := JStr("Q7")])).Err?
  {
  }

  /** Only the type of the numbers is checked: zero and negative premiums pass. */
  lemma NumbersAreOnlyTagged(m: map<string, Json>, premium: real, total: real)
    ensures var raw := JObj(m["quoteCode" := JStr("Q1")]["quotePremium" := JNum(premium)]["quoteTotal" := JNum(total)]
                             ["drivers" := JArr([])]["coverages" := JArr([])]["payplan" := JArr([])]);
      ValidateCovercubeResponse(raw) == Ok(raw)
  {
  }

  /** A key the checks do not read never changes the outcome: the same error, or
      success returning the response. */
  lemma UninspectedKeysIrrelevant(m: map<string, Json>, k: string, v: Json)
    requires k !in InspectedKeys
    ensures ValidateCovercubeResponse(JObj(m[k := v])).Err? <==> ValidateCovercubeResponse(JObj(m)).Err?
    ensures ValidateCovercubeResponse(JObj(m)).Err? ==>
      ValidateCovercubeResponse(JObj(m[k := v])) == ValidateCovercubeResponse(JObj(m))
  {
    assert forall key :: key in InspectedKeys ==> Prop(JObj(m[k := v]), key) == Prop(JObj(m), key);
  }

  /** Arrays are checked for being arrays only: whatever the elements of `drivers`,
      `coverages` or `payplan`, the outcome is the same error, or success returning
      the response. */
  lemma ArrayElementsNotInspected(m: map<string, Json>, k: string, xs: seq<Json>, ys: seq<Json>)
    requires k in {"drivers", "coverages", "payplan"}
    ensures ValidateCovercubeResponse(JObj(m[k := JArr(xs)])).Err? <==>
            ValidateCovercubeResponse(JObj(m[k := JArr(ys)])).Err?
    ensures ValidateCovercubeResponse(JObj(m[k := JArr(xs)])).Err? ==>
            ValidateCovercubeResponse(JObj(m[k := JArr(xs)])) == ValidateCovercubeResponse(JObj(m[k := JArr(ys)]))
  {
  }
}
