/** What `validateQuoteInput` guarantees: it reports exactly the first failing check
    of its list, and what each check lets through. */
module ValidateInputProperties {

  import opened JsonValue
  import opened Guards
  import opened ValidateInput

  /** The validator reports the message of the first failing check, and returns
      exactly when every check passes. */
  lemma ValidateQuoteInputOrder(input: Json)
    ensures ValidateQuoteInput(input) == ChainError(QuoteInputGuards(input))
  {
    if !IsObjectBody(input) || !HasSupportedState(input) || !HasDrivers(input) {
      StructureChecksOrder(input);
    } else {
      HolderChecksOrder(input);
    }
  }

  /** When the body, state or drivers check fails, the first of them to fail
      decides. */
  lemma StructureChecksOrder(input: Json)
    requires !IsObjectBody(input) || !HasSupportedState(input) || !HasDrivers(input)
    ensures ValidateQuoteInput(input) == ChainError(QuoteInputGuards(input))
  {
    var gs := QuoteInputGuards(input);
    if !IsObjectBody(input) {
      ChainErrorAt(gs, 0);
    } else if !HasSupportedState(input) {
      ChainErrorAt(gs, 1);
    } else {
      ChainErrorAt(gs, 2);
    }
  }
  /** Once body, state and drivers pass, the first policy-holder string that is
      missing or empty decides. */
  lemma HolderChecksOrder(input: Json)
    requires IsObjectBody(input) && HasSupportedState(input) && HasDrivers(input)
    ensures ValidateQuoteInput(input) == ChainError(QuoteInputGuards(input))
  {
    var gs := QuoteInputGuards(input);
    if !NonEmptyStringProp(input, "holderFirstName") {
      ChainErrorAt(gs, 3);
    } else if !NonEmptyStringProp(input, "holderLastName") {
      ChainErrorAt(gs, 4);
    } else if !NonEmptyStringProp(input, "email") {
      ChainErrorAt(gs, 5);
    } else if !NonEmptyStringProp(input, "cellPhone") {
      ChainErrorAt(gs, 6);
    } else if !NonEmptyStringProp(input, "address") {
      ChainErrorAt(gs, 7);
    } else if !NonEmptyStringProp(input, "city") {
      ChainErrorAt(gs, 8);
    } else if !NonEmptyStringProp(input, "zipCode") {
      ChainErrorAt(gs, 9);
    } else {
      assert forall i :: 0 <= i < |gs| ==> gs[i].passes;
    }
  }

  /** The body check lets arrays through; they then fail the state check. `null`
      and the other primitives fail the body check. */
  lemma RootChecks(items: seq<Json>, n: real)
    ensures ValidateQuoteInput(JArr(items)) == Some(StateMessage)
    ensures ValidateQuoteInput(JNull) == Some(BodyMessage)
    ensures ValidateQuoteInput(JNum(n)) == Some(BodyMessage)
    ensures ValidateQuoteInput(JStr("AZ")) == Some(BodyMessage)
  {
  }

  /** The state comparison is exact: "az", "" and "CA" are rejected. */
  lemma StateChecks(m: map<string, Json>)
    ensures ValidateQuoteInput(JObj(m["state" := JStr("az")])) == Some(StateMessage)
    ensures ValidateQuoteInput(JObj(m["state" := JStr("")])) == Some(StateMessage)
    ensures ValidateQuoteInput(JObj(m["state" := JStr("CA")])) == Some(StateMessage)
    ensures ValidateQuoteInput(JObj(m - {"state"})) == Some(StateMessage)
  {
  }

  /** With a supported state, drivers must be a non-empty array: an empty array, an
      object or a string is rejected. */
  lemma DriverChecks(m: map<string, Json>, f: map<string, Json>)
    requires "state" in m && m["state"] == JStr("TX")
    ensures ValidateQuoteInput(JObj(m["drivers" := JArr([])])) == Some(DriversMessage)
    ensures ValidateQuoteInput(JObj(m["drivers" := JObj(f)])) == Some(DriversMessage)
    ensures ValidateQuoteInput(JObj(m["drivers" := JStr("driver")])) == Some(DriversMessage)
  {
  }

  /** The email check is only "non-empty string": any such string passes it, so a
      body whose earlier checks pass and whose email is not an address fails on the
      phone number when that is missing, not on the email. */
  lemma EmailNotFormatChecked(m: map<string, Json>)
    requires ValidateQuoteInput(JObj(m)) == Some("Email address is required")
    ensures ValidateQuoteInput(JObj(m["email" := JStr("not-an-email")]["cellPhone" := JNull]))
              == Some("Phone number is required")
  {
  }
}
