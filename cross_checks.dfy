/** How the two request paths and the two kinds of response check relate. The Zod
    parser and the hand-written builder implement different policies for Arizona
    quotes carrying Texas-only data: the parser strips what the builder rejects.
    The response schema is stricter than the response validator. */
module CrossChecks {

  import opened JsonValue
  import opened CovercubeSchemas
  import opened CovercubeProperties
  import opened Guards
  import opened BuildRequest
  import opened BuildRequestProperties
  import opened ValidateResponse

  /** The Arizona schema accepts a truthy `PIP` and the transform strips it. */
  lemma ParserStripsArizonaPip(m: map<string, Json>, fmt: Formats)
    requires Accepts(JObj(m), ArizonaRequest, fmt)
    ensures var out := ParseAndSanitizeQuote(JObj(m["PIP" := JStr("2500")]), fmt);
      out.Parsed? && out.variant == Arizona && "PIP" !in out.value.fields
  {
    var q := JObj(m["PIP" := JStr("2500")]);
    ArizonaStrippedPolicyFields();
    SetField(m, ArizonaRequestShape, "PIP", JStr("2500"), fmt);
    FieldOf(JObj(m), ArizonaRequestShape, "state", fmt);
    assert ClassifyQuote(q) == Some(Arizona);
    ArizonaAcceptedPolicy(q, fmt);
  }

  /** A quote the Arizona schema accepts passes the builder's vehicle check. */
  lemma ArizonaSchemaHasBuilderVehicles(m: map<string, Json>, fmt: Formats)
    requires Accepts(JObj(m), ArizonaRequest, fmt)
    ensures !ArizonaVehiclesMissing(m)
    ensures Prop(JObj(m), "state") == Some(JStr("AZ"))
  {
    FieldOf(JObj(m), ArizonaRequestShape, "vehicles", fmt);
    FieldOf(JObj(m), ArizonaRequestShape, "state", fmt);
  }

  /** On an Arizona quote with vehicles that is not a non-owner quote, setting a
      truthy `PIP` makes the builder fail with the PIP message. */
  lemma TruthyPipRejected(m: map<string, Json>, cfg: Config)
    requires Prop(JObj(m), "state") == Some(JStr("AZ"))
    requires !ArizonaVehiclesMissing(m) && !IsNonOwnerFlag(m)
    ensures BuildCovercubeRequest(JObj(m["PIP" := JStr("2500")]), cfg) == Err(Error(ArizonaPipMessage))
  {
    var q := m["PIP" := JStr("2500")];
    assert q["vehicles"] == m["vehicles"] && q["state"] == m["state"];
    assert !ArizonaVehiclesMissing(q) && !IsNonOwnerFlag(q) && TruthyField(q, "PIP");
    ChainErrorAt(ArizonaPolicyGuards(q), 2);
    ArizonaPolicyRejected(q, cfg);
  }

  /** The builder rejects that same quote with "Arizona policies do not support PIP
      coverage" (unless it is a non-owner quote, which is rejected one check
      earlier). */
  lemma BuilderRejectsArizonaPip(m: map<string, Json>, fmt: Formats, cfg: Config)
    requires Accepts(JObj(m), ArizonaRequest, fmt)
    requires !IsNonOwnerFlag(m)
    ensures BuildCovercubeRequest(JObj(m["PIP" := JStr("2500")]), cfg) == Err(Error(ArizonaPipMessage))
  {
    ArizonaSchemaHasBuilderVehicles(m, fmt);
    TruthyPipRejected(m, cfg);
  }

  /** An Arizona quote with vehicles and `IsNonOwner` "Y" fails the builder's
      non-owner check. */
  lemma NonOwnerFlagRejected(m: map<string, Json>, cfg: Config)
    requires Prop(JObj(m), "state") == Some(JStr("AZ"))
    requires !ArizonaVehiclesMissing(m) && IsNonOwnerFlag(m)
    ensures BuildCovercubeRequest(JObj(m), cfg) == Err(Error(ArizonaNonOwnerMessage))
  {
    ChainErrorAt(ArizonaPolicyGuards(m), 1);
    ArizonaPolicyRejected(m, cfg);
  }

  /** The Arizona schema accepts `IsNonOwner` "Y" (and the transform strips it),
      while the builder rejects such a quote as a non-owner policy. */
  lemma ArizonaNonOwnerFlagTreatedDifferently(m: map<string, Json>, fmt: Formats, cfg: Config)
    requires Accepts(JObj(m), ArizonaRequest, fmt)
    requires "IsNonOwner" in m && m["IsNonOwner"] == JStr("Y")
    ensures ParseAndSanitizeQuote(JObj(m), fmt).Parsed?
    ensures "IsNonOwner" !in ParseAndSanitizeQuote(JObj(m), fmt).value.fields
    ensures BuildCovercubeRequest(JObj(m), cfg) == Err(Error(ArizonaNonOwnerMessage))
  {
    ArizonaSchemaHasBuilderVehicles(m, fmt);
    NonOwnerFlagRejected(m, cfg);
    assert ClassifyQuote(JObj(m)) == Some(Arizona);
    ArizonaAcceptedPolicy(JObj(m), fmt);
  }

  /** Every response the response schema accepts passes the validator, which returns
      it unchanged. */
  lemma ResponseSchemaImpliesValidator(raw: Json, fmt: Formats)
    requires Accepts(raw, CovercubeResponseSchema, fmt)
    ensures ValidateCovercubeResponse(raw) == Ok(raw)
  {
    ResponseScalars(raw, fmt);
    ResponseLists(raw, fmt);
  }

  /** A numeric `quoteCode` with no URLs, which the validator lets through. */
  const NumericQuoteCodeResponse: Json :=
    JObj(map["quoteCode" := JNum(1.0), "quotePremium" := JNum(0.0), "quoteTotal" := JNum(-5.0),
             "drivers" := JArr([]), "coverages" := JArr([]), "payplan" := JArr([])])

  /** The validator accepts that response and returns it unchanged. */
  lemma ValidatorAcceptsNumericQuoteCode()
    ensures ValidateCovercubeResponse(NumericQuoteCodeResponse) == Ok(NumericQuoteCodeResponse)
  {
  }

  /** The response schema rejects it: `quoteCode` must be a string. */
  lemma SchemaRejectsNumericQuoteCode(fmt: Formats)
    ensures !Accepts(NumericQuoteCodeResponse, CovercubeResponseSchema, fmt)
  {
    if Accepts(NumericQuoteCodeResponse, CovercubeResponseSchema, fmt) {
      FieldOf(NumericQuoteCodeResponse, CovercubeResponseShape, "quoteCode", fmt);
    }
  }

  /** So the converse fails: the validator is strictly weaker than the schema. */
  lemma ValidatorWeakerThanSchema(fmt: Formats)
    ensures exists raw :: ValidateCovercubeResponse(raw) == Ok(raw) && !Accepts(raw, CovercubeResponseSchema, fmt)
  {
    ValidatorAcceptsNumericQuoteCode();
    SchemaRejectsNumericQuoteCode(fmt);
  }
}
