# Covercube quote integration: a Dafny model of its request and response core

The integration turns a client's auto-insurance quote request for Arizona ("AZ")
or Texas ("TX") into a request for the Covercube rating API. It also checks the
carrier's response. This project models the pure decision logic of that integration
in Dafny and proves what it guarantees.

The model covers six parts:

- **The Zod schemas and `parseAndSanitizeQuote`** (`covercube_schemas.dfy`,
  properties in `covercube_properties.dfy`).
  - Schemas are data: a `Schema` datatype and one `Shape` per strict object
    schema, with `ShapeField` as the shape's field table.
  - `Accepts` says which JSON values a schema's `parse` lets through.
  - The dispatch reads `state` and `IsNonOwner` and picks one of three variants:
    Arizona, Texas owned, Texas non-owner.
  - The Arizona transform strips the Texas-only keys.
  - The response schema is modelled the same way.
- **The hand-written builder `buildCovercubeRequest`** (`build_request.dfy`,
  properties in `build_request_properties.dfy`).
  - Its state-specific validation is an ordered first-error chain.
  - It merges the backend fields with the input.
  - It reshapes the result per variant.
  - JavaScript TypeErrors the code can raise on odd input are modelled as `TypeError`.
- **`validateQuoteInput`** (`validate_input.dfy`, `validate_input_properties.dfy`):
  ten ordered guards.
- **`validateCovercubeResponse` and `parseCovercubeResponse`**
  (`validate_response.dfy`, `parse_response.dfy`, `validate_response_properties.dfy`):
  the same six type-tag checks, proved to agree on every response.
- **The constant tables and lookups** (`constants.dfy`).
- **How the parts relate** (`cross_checks.dfy`):
  - the Zod path strips what the builder rejects;
  - the response schema is stricter than the response validator.

Shared pieces:

- `json_value.dfy` holds parsed JSON values, truthiness and property reads.
- `guards.dfy` holds a generic first-failure chain, which the validators are
  proved to follow.

Several behaviours of the code are easy to get wrong, and the model follows the code in each:

- An input's own `username`, `password`, `action`, `transType` and `producerCode`
  override the backend's values. The input is spread last (`src/lib/buildRequest.ts:38-48`).
  `BackendFieldsInjected` states this.
- The Zod transform does not remove the mail-address fields or `address2`; only the
  builder does.
- An Arizona quote with a truthy `PIP` behaves differently on the two paths. The Zod
  path accepts it and strips the key. The builder rejects it. Both are modelled;
  `CrossChecks` proves the difference.
- `Array.isArray` is missing from the builder's Arizona vehicle test. A truthy
  non-array `vehicles` passes the length test and then raises a TypeError in `forEach`.
  An object whose `length` is 0 counts as "no vehicles".
- Zod's `.extend` keeps `.strict()`. So every request shape, including the Arizona
  shapes declared without `.strict()`, rejects keys it does not declare.

## Model

| member | source | states |
|---|---|---|
| Constants.StateAndTransTypeTables | src/lib/constants.ts:9-20 | STATES maps exactly AZ and TX to themselves; TRANS_TYPES has only NEW_BUSINESS, which is "NB" |
| Constants.YesNoTable | src/lib/constants.ts:148-151 | YES_NO has exactly the keys YES and NO, with values "Y" and "N" |
| Constants.GetProducerCodeForState | src/lib/constants.ts:169-171 | the lookup yields a code exactly for the keys of STATES, and the code is one of the configured ones |
| Constants.ProducerCodeRouting | src/lib/constants.ts:169-171 | "AZ" gets the Arizona code, "TX" the Texas code, any other state nothing |
| Constants.IsTexasState | src/lib/constants.ts:176-178 | only a supported state, given as a string, is Texas (the exact pass condition of the Texas branch is stated by `BuildRequestProperties.TexasValidation` and `OtherStatesCheckedAsArizona`) |
| Constants.IsValidCoverageLimit | src/lib/constants.ts:183-189 | a limit is valid iff it is listed under the coverage code in Arizona's table when the state is "AZ", and in Texas's table for every other state |
| Constants.CoverageCodesPerState | src/lib/constants.ts:35-59 | PIP and UMPD are never valid for Arizona; COM and COL never for Texas; a code in neither table is never valid; sample valid pairs exist |
| CovercubeSchemas.Accepts | src/zod-schemas/covercube.ts:33-323 | the definition of what a schema's `parse` lets through; it has no ensures of its own, and its properties are the lemmas `CovercubeProperties.AcceptedKinds`, `FieldOf` and `UnknownKeyRejected` |
| CovercubeProperties.AcceptedKinds | src/zod-schemas/covercube.ts:33-323 | `undefined` accepts nothing present, an object schema accepts only objects, and an array schema only arrays of at least its minimum length |
| CovercubeSchemas.StripVehicles | src/zod-schemas/covercube.ts:223-226 | the vehicle map keeps the number and order of the vehicles, each one stripped |
| CovercubeSchemas.ArizonaTransform | src/zod-schemas/covercube.ts:215-229 | the output has exactly the input's keys minus the six Texas-only policy keys, and every key but `vehicles` keeps its value |
| CovercubeSchemas.ClassifyQuote | src/zod-schemas/covercube.ts:273-285 | Arizona iff state is "AZ"; non-owner iff state is "TX" and IsNonOwner is "Y"; owned otherwise for "TX"; no variant for any other state |
| CovercubeSchemas.ParseAndSanitizeQuote | src/zod-schemas/covercube.ts:271-286 | the unsupported-state error (with its message) comes exactly when no variant is chosen; otherwise the outcome names the chosen variant, and a success was accepted by that variant's schema; `CovercubeProperties.ParseDispatch` states the converse and the returned value |
| CovercubeProperties.UnknownKeyRejected | src/zod-schemas/covercube.ts:33-202 | a strict object schema rejects any object carrying a key outside its shape |
| CovercubeProperties.FieldOf | src/zod-schemas/covercube.ts:33-202 | an accepted object has every required key, and each key it has holds a value that key's field accepts |
| CovercubeProperties.DateStringShape | src/zod-schemas/covercube.ts:29-30 | a DateString is exactly four digits, "/", two digits, "/", two digits |
| CovercubeProperties.DateStringExamples | src/zod-schemas/covercube.ts:29-30 | "2025/11/01" passes; "11/01/2025", "2025-11-01" and "" fail |
| CovercubeProperties.RequestShapes | src/zod-schemas/covercube.ts:141-245 | the three request variants admit the same keys, which are the base policy keys plus vehicles and drivers, and they agree with the base schema on every key except state, IsNonOwner, vehicles and drivers |
| CovercubeProperties.ParseDispatch | src/zod-schemas/covercube.ts:271-286 | the outcome is the plain unsupported-state error iff state is neither the string "AZ" nor "TX"; otherwise it is the chosen variant's schema result, and parsing succeeds iff that schema accepts the input |
| CovercubeProperties.UnsupportedStates | src/zod-schemas/covercube.ts:271-286 | "az", "CA", a missing state, and null, string and array roots all give the unsupported-state error |
| CovercubeProperties.ArizonaWinsOverNonOwnerFlag | src/zod-schemas/covercube.ts:276-278 | "AZ" picks the Arizona schema even with IsNonOwner "Y" |
| CovercubeProperties.StripVehicleKeys | src/zod-schemas/covercube.ts:223-226 | a stripped vehicle has exactly its keys minus the five Texas-only ones, with the same values |
| CovercubeProperties.ArizonaTransformVehicles | src/zod-schemas/covercube.ts:223-228 | the transformed vehicles have the same count and order, each the stripped original |
| CovercubeProperties.StripVehiclesIdempotent | src/zod-schemas/covercube.ts:223-226 | stripping the vehicles twice equals stripping them once |
| CovercubeProperties.ArizonaTransformIdempotent | src/zod-schemas/covercube.ts:215-229 | applying the transform twice equals applying it once |
| CovercubeProperties.StripVehiclesPreservesSchema | src/zod-schemas/covercube.ts:74-81 | a list of accepted vehicles stays accepted once stripped |
| CovercubeProperties.ArizonaTransformPreservesSchema | src/zod-schemas/covercube.ts:207-229 | the transform of an accepted Arizona quote is again accepted by the Arizona schema |
| CovercubeProperties.ParseAndSanitizeIdempotent | src/zod-schemas/covercube.ts:271-286 | parsing a sanitized value again gives the same variant and the same value |
| CovercubeProperties.ArizonaParsed | src/zod-schemas/covercube.ts:276-278 | an Arizona parse result comes from an object the Arizona schema accepts, and its value is that object's transform |
| CovercubeProperties.TexasParsed | src/zod-schemas/covercube.ts:279-284 | a Texas parse result was accepted by its variant's schema and is the input unchanged |
| CovercubeProperties.ArizonaAcceptedPolicy | src/zod-schemas/covercube.ts:207-229 | a sanitized Arizona quote is accepted by the Arizona schema, has state "AZ" and none of the six stripped policy keys |
| CovercubeProperties.ArizonaRequestVehicles | src/zod-schemas/covercube.ts:209 | an accepted Arizona quote's transformed vehicles are at least one, each an object without the five stripped vehicle keys |
| CovercubeProperties.ArizonaAcceptedVehicles | src/zod-schemas/covercube.ts:207-229 | the same for the value that parsing returns |
| CovercubeProperties.ArizonaDriverAccepted | src/zod-schemas/covercube.ts:93-115 | every accepted Arizona driver has licenseState "AZ", married and sr22 in {Y, N}, and non-empty licenseNumber and licenseStatus |
| CovercubeProperties.ArizonaRequestDrivers | src/zod-schemas/covercube.ts:210 | an accepted Arizona quote has at least one driver, and all of them have those facts |
| CovercubeProperties.ArizonaAcceptedDrivers | src/zod-schemas/covercube.ts:207-229 | a sanitized Arizona quote keeps the input's drivers unchanged: at least one, and all with those facts |
| CovercubeProperties.TexasDriverAccepted | src/zod-schemas/covercube.ts:118-138 | every accepted Texas driver is an object with licenseState "TX" |
| CovercubeProperties.TexasDriverExtrasOptional | src/zod-schemas/covercube.ts:93-138 | a Texas driver stays accepted without married, licenseNumber, licenseStatus and sr22; an Arizona driver missing any one of them is rejected |
| CovercubeProperties.Sr22DateOnlyForArizona | src/zod-schemas/covercube.ts:93-138 | a driver with Sr22Date is rejected by the Texas driver schema, and Sr22Date is an optional date for Arizona |
| CovercubeProperties.TexasOwnedRequestFacts | src/zod-schemas/covercube.ts:232-237 | an accepted owned Texas quote without IsNonOwner "Y" has no IsNonOwner at all, state "TX", at least one vehicle, and at least one driver, each with a Texas licence |
| CovercubeProperties.TexasOwnedAccepted | src/zod-schemas/covercube.ts:279-284 | a quote parsed as owned Texas is unchanged, never has IsNonOwner, and has state TX, vehicles, and drivers with Texas licences |
| CovercubeProperties.TexasNonOwnerRequestFacts | src/zod-schemas/covercube.ts:240-256 | an accepted non-owner quote has IsNonOwner "Y", no vehicles key, state "TX" and at least one driver |
| CovercubeProperties.TexasNonOwnerAccepted | src/zod-schemas/covercube.ts:279-281 | a quote parsed as non-owner is unchanged, with IsNonOwner "Y", no vehicles and at least one driver |
| CovercubeProperties.NonOwnerRejectsVehicles | src/zod-schemas/covercube.ts:240-256 | a TX non-owner quote carrying any vehicles value is a schema error |
| CovercubeProperties.NonOwnerRejectsEmptyVehicles | src/zod-schemas/covercube.ts:244 | even an empty vehicles list is a schema error for a non-owner quote |
| CovercubeProperties.TexasOwnedRejectsOtherNonOwnerFlag | src/zod-schemas/covercube.ts:232-237 | a TX quote with IsNonOwner present but not "Y" goes to the owned schema and is rejected |
| CovercubeProperties.UnknownKeysRejected | src/zod-schemas/covercube.ts:141-202 | a key outside the request keys makes any AZ or TX quote a schema error |
| CovercubeProperties.ArizonaAcceptsTexasOnlyKeys | src/zod-schemas/covercube.ts:141-229 | adding PIP, UMPD, priorpolicynumber and IsNonOwner values keeps an Arizona quote acceptable |
| CovercubeProperties.ArizonaStripsTexasOnlyKeys | src/zod-schemas/covercube.ts:215-229 | such a quote parses as Arizona, and its value has none of those keys |
| CovercubeProperties.ResponseScalars | src/zod-schemas/covercube.ts:312-323 | an accepted response has a non-empty string quoteCode, numeric quotePremium, quoteFeesTotal, quoteTotal and policyFee, and URL strings viewQuote and consumerBridge |
| CovercubeProperties.ResponseLists | src/zod-schemas/covercube.ts:290-323 | an accepted response has array drivers, coverages and payplan, and every plan has an integer instalments |
| CovercubeProperties.PayplanInstalments | src/zod-schemas/covercube.ts:296-303 | an accepted plan has an integer instalments |
| CovercubeProperties.EmptyQuoteCodeRejected | src/zod-schemas/covercube.ts:313 | a response with an empty quoteCode is rejected |
| CovercubeProperties.FractionalInstalmentsRejected | src/zod-schemas/covercube.ts:301 | a plan with 2.5 instalments is rejected |
| BuildRequest.VehicleIssue | src/lib/buildRequest.ts:126-143 | its own ensures: an error message is only raised for an object vehicle, and an array vehicle has no issue; the full first-error chain is stated by `BuildRequestProperties.VehicleCheckOrder` |
| BuildRequest.ScanVehicles | src/lib/buildRequest.ts:125-143 | the scan passes iff no vehicle has an issue; otherwise it reports the first offending vehicle's issue |
| BuildRequest.TexasRequirements | src/lib/buildRequest.ts:82-99 | a non-owner quote passes iff it has no non-empty vehicle array and no roadsideAssistance, an owned quote passes iff it has one, and every failure is an error message; `BuildRequestProperties.TexasValidation` names each message |
| BuildRequest.ArizonaRequirements | src/lib/buildRequest.ts:100-144 | a passing quote has vehicles, is not a non-owner quote, has no truthy PIP, UMPD, priorbicoveragelimit or priorpipcoveragelimit, and has a vehicles array none of whose vehicles has an issue; `BuildRequestProperties.ArizonaValidationOrder` states which error comes first |
| BuildRequest.ValidateStateRequirements | src/lib/buildRequest.ts:81-146 | its own ensures: only an object input passes; the Texas and Arizona branches are stated by `TexasRequirements`, `ArizonaRequirements`, `BuildRequestProperties.TexasValidation`, `ArizonaValidationOrder` and `NonObjectRoots` |
| BuildRequest.ProducerCodeFor | src/lib/buildRequest.ts:32-35 | a producer code exists iff state is the string "AZ" or "TX", and it is that state's configured code |
| BuildRequest.BackendFields | src/lib/buildRequest.ts:38-44 | the backend supplies action, username, password and transType, plus producerCode when one exists |
| BuildRequest.BaseRequest | src/lib/buildRequest.ts:38-48 | the base request has the backend keys and the input keys, and every input key keeps the input's value |
| BuildRequest.BuildTexasRequest | src/lib/buildRequest.ts:155-167 | the owned Texas request is the base without IsNonOwner, with the other values kept |
| BuildRequest.BuildTexasNonOwnerRequest | src/lib/buildRequest.ts:176-196 | the non-owner request lacks vehicles and roadsideAssistance, has IsNonOwner "Y", and keeps every other value |
| BuildRequest.CleanVehicle | src/lib/buildRequest.ts:227-240 | destructuring fails only on null; an object vehicle loses exactly the eight dropped keys |
| BuildRequest.CleanVehicles | src/lib/buildRequest.ts:226-242 | the map fails iff some vehicle is null; otherwise it has the same length, each element cleaned |
| BuildRequest.BuildArizonaRequest | src/lib/buildRequest.ts:206-252 | a built request has exactly the base keys minus the twelve dropped policy keys, plus vehicles, which is an array; every other key keeps its base value; failure needs a vehicles array in the base; `BuildRequestProperties.ArizonaRequestBuilt` states the cleaned vehicles |
| BuildRequest.BuildCovercubeRequest | src/lib/buildRequest.ts:27-61 | a validation failure is the builder's error, and a built request keeps every base key that no variant drops; `BuildRequestProperties.BuildFailsOnlyInValidation` states the converse |
| BuildRequestProperties.ArizonaValidationOrder | src/lib/buildRequest.ts:100-144 | for every state but "TX", the first failing Arizona policy check decides the error; if none fails, the vehicle scan decides, and a non-array vehicles raises a TypeError |
| BuildRequestProperties.VehicleCheckOrder | src/lib/buildRequest.ts:126-143 | the checks on one vehicle are a first-error chain over vehiclepurchasedate, estimatemilage, ownershiplength, platenumber and platestate |
| BuildRequestProperties.VehicleMessageExample | src/lib/buildRequest.ts:137-139 | vehicles are counted from 1 in the message |
| BuildRequestProperties.VehicleCheckExamples | src/lib/buildRequest.ts:126-143 | falsy values pass, a truthy plate number fails with its message, and a null vehicle raises a TypeError |
| BuildRequestProperties.TexasValidation | src/lib/buildRequest.ts:82-99 | for TX, a non-owner quote passes iff it has no non-empty vehicle array and no roadsideAssistance, and an owned quote passes iff it has one; each failure has its message |
| BuildRequestProperties.TexasEmptyVehicles | src/lib/buildRequest.ts:84-98 | an empty vehicle list passes the non-owner checks and fails the owned ones |
| BuildRequestProperties.OtherStatesCheckedAsArizona | src/lib/buildRequest.ts:82-104 | any state other than "TX" is validated exactly as "AZ" is |
| BuildRequestProperties.NonObjectRoots | src/lib/buildRequest.ts:81-104 | null and string roots raise TypeErrors; an array root fails the Arizona vehicle check |
| BuildRequestProperties.ArizonaValidatedVehicles | src/lib/buildRequest.ts:102-143 | an input passing the Arizona checks has a vehicles array with no null element |
| BuildRequestProperties.BuildFailsOnlyInValidation | src/lib/buildRequest.ts:27-61 | the builder fails iff validation fails, with the same error |
| BuildRequestProperties.ArizonaPolicyRejected | src/lib/buildRequest.ts:102-122 | when an Arizona policy check fails, the builder returns that check's message |
| BuildRequestProperties.TexasOwnedRequestBuilt | src/lib/buildRequest.ts:155-167 | an owned Texas request is the base request minus IsNonOwner, and it carries the input's non-empty vehicle array |
| BuildRequestProperties.TexasNonOwnerRequestBuilt | src/lib/buildRequest.ts:176-196 | a non-owner request is the base request minus vehicles and roadsideAssistance, with IsNonOwner "Y" |
| BuildRequestProperties.ArizonaRequestBuilt | src/lib/buildRequest.ts:206-252 | an Arizona request lacks the twelve dropped keys, keeps all other base values, and carries the input's vehicles cleaned, in the same number and order |
| BuildRequestProperties.ArizonaVehiclesCleaned | src/lib/buildRequest.ts:227-240 | each object vehicle of an Arizona request has lost exactly the eight dropped keys |
| BuildRequestProperties.BuildKeepsOtherKeys | src/lib/buildRequest.ts:38-60 | in every variant, a key that no builder drops keeps its base value |
| BuildRequestProperties.BackendKeysKept | src/lib/buildRequest.ts:209-223 | no builder drops a backend field |
| BuildRequestProperties.BaseRequestFields | src/lib/buildRequest.ts:38-48 | each backend field is the input's value if the input has the key, and the backend's otherwise |
| BuildRequestProperties.BackendFieldsInjected | src/lib/buildRequest.ts:38-48 | the same holds in the returned request of every variant |
| BuildRequestProperties.ProducerCodeInjected | src/lib/buildRequest.ts:31-48 | without an input producerCode, the request carries the state's configured code for "AZ" and "TX", and no producerCode for any other state |
| ValidateInput.ValidateQuoteInput | src/lib/validateInput.ts:10-51 | its own ensures: a passing input is an object with a supported state and a non-empty drivers array; `ValidateInputProperties.ValidateQuoteInputOrder` states the full ten-check order |
| ValidateInputProperties.ValidateQuoteInputOrder | src/lib/validateInput.ts:10-51 | the validator reports exactly the message of the first failing check of its ten, and passes iff all pass |
| ValidateInputProperties.StructureChecksOrder | src/lib/validateInput.ts:11-23 | when the body, state or drivers check fails, the first of them to fail decides |
| ValidateInputProperties.HolderChecksOrder | src/lib/validateInput.ts:26-50 | after those checks, the first missing or empty policy-holder string decides |
| ValidateInputProperties.RootChecks | src/lib/validateInput.ts:11-18 | array roots pass the body check and fail the state check; null, number and string roots fail the body check |
| ValidateInputProperties.StateChecks | src/lib/validateInput.ts:16-18 | "az", "", "CA" and a missing state are rejected |
| ValidateInputProperties.DriverChecks | src/lib/validateInput.ts:21-23 | an empty array, an object or a string as drivers is rejected |
| ValidateInputProperties.EmailNotFormatChecked | src/lib/validateInput.ts:34-39 | any non-empty string passes the email check |
| ValidateResponse.ValidateCovercubeResponse | src/lib/validateResponse.ts:15-43 | on success the response itself is returned |
| ValidateResponseProperties.QuoteCodeChecks | src/lib/validateResponse.ts:18-20 | a missing, empty, null or zero quoteCode is rejected with its message; a truthy number and a string behave alike |
| ValidateResponseProperties.NumbersAreOnlyTagged | src/lib/validateResponse.ts:22-28 | any numeric premium and total, zero and negative included, pass |
| ValidateResponseProperties.UninspectedKeysIrrelevant | src/lib/validateResponse.ts:15-43 | a key outside the six inspected ones never changes the outcome |
| ValidateResponseProperties.ArrayElementsNotInspected | src/lib/validateResponse.ts:30-40 | replacing the elements of drivers, coverages or payplan never changes whether the response fails, nor which error it fails with |
| ParseResponse.ParseCovercubeResponse | src/lib/parseResponse.ts:15-46 | parsing succeeds iff all six checks pass on a non-null response, and then returns the response unchanged; a non-null response that fails gets the message of the first failing check |
| ParseResponse.ParseAgreesWithValidate | src/lib/parseResponse.ts:19-45 | on every response both functions give the same result or the same error |
| CrossChecks.ParserStripsArizonaPip | src/zod-schemas/covercube.ts:215-229 | an accepted Arizona quote with a truthy PIP parses as Arizona, and PIP is stripped |
| CrossChecks.BuilderRejectsArizonaPip | src/lib/buildRequest.ts:111-113 | the builder rejects that same quote with the PIP message |
| CrossChecks.ArizonaNonOwnerFlagTreatedDifferently | src/lib/buildRequest.ts:106-108 | an accepted Arizona quote with IsNonOwner "Y" is parsed with the flag stripped but rejected by the builder |
| CrossChecks.ResponseSchemaImpliesValidator | src/lib/validateResponse.ts:15-43 | every response the response schema accepts passes the validator unchanged |
| CrossChecks.ValidatorAcceptsNumericQuoteCode | src/lib/validateResponse.ts:18-20 | a numeric quoteCode with no URLs passes the validator |
| CrossChecks.SchemaRejectsNumericQuoteCode | src/zod-schemas/covercube.ts:313 | the schema rejects that response |
| CrossChecks.ValidatorWeakerThanSchema | src/lib/validateResponse.ts:15-43 | some response passes the validator and fails the schema |

## Left out

- Zod's issue lists and messages are not modelled. A failed parse is `SchemaError(variant)`. The non-owner `superRefine` issue for a non-empty `vehicles` array is subsumed: `NonOwnerRejectsVehicles` shows the schema already rejects any `vehicles` value.
- The Arizona schema's `superRefine` is an empty placeholder, so it is not modelled.
- The email and URL checks are library code. They are parameters (`Formats`).
- Zod's `.min(n)` counts UTF-16 code units. The model counts the characters of a `seq<char>`.
- Object key order is not modelled; objects are maps.
- JSON has no `undefined`. A key that would hold `undefined` is modelled as absent, which is how the payload is serialised.
- TypeError texts raised by the JavaScript runtime are not modelled.
- `producerCodes[state]` with a non-string state is not modelled. It would coerce the state to a property name, and an inherited name such as `toString` would yield a function. The model yields no code for anything but the strings "AZ" and "TX".
- Zod returns a fresh copy of an accepted strict object. The model returns the input value, which is the same JSON value.
- Object-valued `vehicles`, strings and other non-array roots are handled as the JavaScript code handles them. Truthiness of numbers treats every non-zero real as truthy; JSON has no NaN.
- `Truthy`, `TruthyField`: numbers are exact reals. The JavaScript JSON parser rounds a numeral to a double, so `1e400` becomes Infinity and `1e-400` becomes 0, which is falsy. A quote with `PIP` `1e-400` therefore passes the Arizona PIP check in the code and fails it in the model.
- `ValidateStateRequirements`, `VehicleIssue` and `ValidateQuoteInput`: their own ensures state only the facts given in the table. Their complete behaviour is stated by the lemmas named in their rows.
- Constant tables that no core function reads (policy terms, payment plans, drive types, vehicle uses and the other code tables in `src/lib/constants.ts`) are not modelled. `LicenseStatusEnum` and `OccupationEnum` are declared but unused by the schemas, so they are not modelled either.
- These are not part of this model:
  - the Next.js route `src/app/api/quote/route.ts`;
  - the HTTP client `src/lib/covercubeClient.ts`, which does network I/O;
  - the environment configuration `src/config/index.ts`, which becomes the `Config` parameter;
  - the mock response `src/lib/mockCovercubeResponse.ts`;
  - the type declarations;
  - the tests.
