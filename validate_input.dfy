/** `validateQuoteInput`: a fixed sequence of read-only checks on the request body,
    in which the first failing check decides the error. */
module ValidateInput {

  import opened JsonValue
  import opened Guards

  const BodyMessage: string := "Invalid request body: expected an object"
  const StateMessage: string := "Invalid state: must be either AZ or TX"
  const DriversMessage: string := "At least one driver is required"

  /** `input && typeof input === 'object'`: `null` is excluded, arrays are objects. */
  predicate IsObjectBody(input: Json)
  {
    input.JObj? || input.JArr?
  }

  /** `input.state && ['AZ', 'TX'].includes(input.state)`: exactly one of the two
      strings, compared case-sensitively. */
  predicate HasSupportedState(input: Json)
  {
    Prop(input, "state") == Some(JStr("AZ")) || Prop(input, "state") == Some(JStr("TX"))
  }

  /** `input.drivers && Array.isArray(input.drivers) && input.drivers.length !== 0`. */
  predicate HasDrivers(input: Json)
  {
    var d := Prop(input, "drivers");
    d.Some? && d.value.JArr? && |d.value.items| > 0
  }

  /** `validateQuoteInput(input)`: None when it returns, otherwise the message it
      throws. */
  function ValidateQuoteInput(input: Json): (r: Option<string>)
    ensures r.None? ==> input.JObj? && HasSupportedState(input) && HasDrivers(input)
  {
    if !IsObjectBody(input) then Some(BodyMessage)
    else if !HasSupportedState(input) then Some(StateMessage)
    else if !HasDrivers(input) then Some(DriversMessage)
    else if !NonEmptyStringProp(input, "holderFirstName") then Some("Policyholder first name is required")
    else if !NonEmptyStringProp(input, "holderLastName") then Some("Policyholder last name is required")
    else if !NonEmptyStringProp(input, "email") then Some("Email address is required")
    else if !NonEmptyStringProp(input, "cellPhone") then Some("Phone number is required")
    else if !NonEmptyStringProp(input, "address") then Some("Address is required")
    else if !NonEmptyStringProp(input, "city") then Some("City is required")
    else if !NonEmptyStringProp(input, "zipCode") then Some("Zip code is required")
    else None
  }

  /** The checks of `validateQuoteInput` as a list: body, state, drivers, then the
      policy-holder strings, each with its message. */
  function QuoteInputGuards(input: Json): seq<Guard>
  {
    [ Guard(IsObjectBody(input), BodyMessage),
      Guard(HasSupportedState(input), StateMessage),
      Guard(HasDrivers(input), DriversMessage),
      Guard(NonEmptyStringProp(input, "holderFirstName"), "Policyholder first name is required"),
      Guard(NonEmptyStringProp(input, "holderLastName"), "Policyholder last name is required"),
      Guard(NonEmptyStringProp(input, "email"), "Email address is required"),
      Guard(NonEmptyStringProp(input, "cellPhone"), "Phone number is required"),
      Guard(NonEmptyStringProp(input, "address"), "Address is required"),
      Guard(NonEmptyStringProp(input, "city"), "City is required"),
      Guard(NonEmptyStringProp(input, "zipCode"), "Zip code is required") ]
  }
}
