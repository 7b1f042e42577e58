/** The constant tables of the quote integration (states, transaction types,
    yes/no flags, per-state coverage limits) and the three small helpers that
    look things up in them. */
module Constants {

  import opened JsonValue

  /** STATES: each supported state code maps to itself. */
  const States: map<string, string> := map["AZ" := "AZ", "TX" := "TX"]

  /** TRANS_TYPES: the only transaction type the integration sends. */
  const TransTypes: map<string, string> := map["NEW_BUSINESS" := "NB"]

  const NewBusiness: string := "NB"

  /** YES_NO: the flag values the carrier understands. */
  const YesNo: map<string, string> := map["YES" := "Y", "NO" := "N"]

  const Yes: string := "Y"

  /** AZ_COVERAGE_LIMITS: allowed limits per coverage code for Arizona. */
  const AzCoverageLimits: map<string, seq<string>> := map[
    "BI" := ["25/50", "50/100", "100/300"],
    "PD" := ["15", "25", "50"],
    "UMBI" := ["25/50", "50/100", "100/300"],
    "UIMBI" := ["25/50", "50/100", "100/300"],
    "MP" := ["500", "1000", "2000", "5000"],
    "COM" := ["500", "1000"],
    "COL" := ["500", "1000"]
  ]

  /** TX_COVERAGE_LIMITS: allowed limits per coverage code for Texas, which names
      the physical-damage coverages CMP/COLL and adds UMPD and PIP. */
  const TxCoverageLimits: map<string, seq<string>> := map[
    "BI" := ["30/60", "50/100", "100/300"],
    "PD" := ["25", "50", "100"],
    "UMBI" := ["30/60", "50/100", "100/300"],
    "UIMBI" := ["30/60", "50/100", "100/300"],
    "UMPD" := ["25"],
    "MP" := ["500", "1000", "2000", "5000"],
    "PIP" := ["2500"],
    "COLL" := ["250", "500", "1000"],
    "CMP" := ["250", "500", "1000"]
  ]

  /** The configured producer code of each state (`Record<State, string>`). */
  datatype ProducerCodes = ProducerCodes(az: string, tx: string)

  /** `producerCodes[state]`: the configured code for "AZ" or "TX"; for any other
      string the record has no such own property and the read yields `undefined`. */
  function GetProducerCodeForState(state: string, codes: ProducerCodes): (r: Option<string>)
    ensures r.Some? <==> state in States
    ensures r == Some(codes.az) || r == Some(codes.tx) || r == None
  {
    if state == "AZ" then Some(codes.az)
    else if state == "TX" then Some(codes.tx)
    else None
  }

  /** `state === "TX"` on a value read from untyped input (None is `undefined`).
      Only a supported state is Texas. */
  predicate IsTexasState(state: Option<Json>)
    ensures IsTexasState(state) ==> state.Some? && state.value.JStr? && state.value.s in States
  {
    state == Some(JStr("TX"))
  }

  /** The table `isValidCoverageLimit` consults: Arizona's for "AZ", Texas's otherwise. */
  function CoverageLimitsFor(state: string): map<string, seq<string>>
  {
    if state == "AZ" then AzCoverageLimits else TxCoverageLimits
  }

  /** `limits[coverageType]?.includes(limit) ?? false`: Arizona's table is used for
      "AZ" only, Texas's for every other state, and an unknown code is never valid. */
  predicate IsValidCoverageLimit(state: string, coverageType: string, limit: string)
    ensures state == "AZ" ==>
      (IsValidCoverageLimit(state, coverageType, limit) <==>
         coverageType in AzCoverageLimits && limit in AzCoverageLimits[coverageType])
    ensures state != "AZ" ==>
      (IsValidCoverageLimit(state, coverageType, limit) <==>
         coverageType in TxCoverageLimits && limit in TxCoverageLimits[coverageType])
  {
    var limits := CoverageLimitsFor(state);
    coverageType in limits && limit in limits[coverageType]
  }

  // ---------------------------------------------------------------------------
  // Properties of the tables and lookups
  // ---------------------------------------------------------------------------

  /** STATES is the identity on {AZ, TX}; TRANS_TYPES.NEW_BUSINESS is "NB". */
  lemma StateAndTransTypeTables()
    ensures States.Keys == {"AZ", "TX"}
    ensures forall s :: s in States ==> States[s] == s
    ensures TransTypes.Keys == {"NEW_BUSINESS"} && TransTypes["NEW_BUSINESS"] == NewBusiness == "NB"
  {
  }

  /** YES_NO holds exactly "Y" and "N", under YES and NO. */
  lemma YesNoTable()
    ensures YesNo.Keys == {"YES", "NO"} && YesNo.Values == {"Y", "N"}
    ensures YesNo["YES"] == Yes && YesNo["NO"] == "N"
  {
    assert YesNo["YES"] in YesNo.Values && YesNo["NO"] in YesNo.Values;
  }

  /** The producer code for a supported state is that state's configured code. */
  lemma ProducerCodeRouting(codes: ProducerCodes)
    ensures GetProducerCodeForState("AZ", codes) == Some(codes.az)
    ensures GetProducerCodeForState("TX", codes) == Some(codes.tx)
    ensures GetProducerCodeForState("CA", codes) == None
  {
  }

  /** PIP and UMPD are never valid Arizona coverages; COM and COL are never valid
      Texas coverages (Texas uses CMP and COLL); an unknown code is never valid. */
  lemma CoverageCodesPerState(limit: string, other: string)
    requires other !in AzCoverageLimits && other !in TxCoverageLimits
    ensures !IsValidCoverageLimit("AZ", "PIP", limit) && !IsValidCoverageLimit("AZ", "UMPD", limit)
    ensures !IsValidCoverageLimit("TX", "COM", limit) && !IsValidCoverageLimit("TX", "COL", limit)
    ensures !IsValidCoverageLimit("AZ", other, limit) && !IsValidCoverageLimit("TX", other, limit)
    ensures IsValidCoverageLimit("TX", "PIP", "2500") && IsValidCoverageLimit("AZ", "COM", "500")
  {
    assert "PIP" !in AzCoverageLimits.Keys && "UMPD" !in AzCoverageLimits.Keys;
    assert "COM" !in TxCoverageLimits.Keys && "COL" !in TxCoverageLimits.Keys;
  }
}
