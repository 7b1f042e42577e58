/** The Zod request and response schemas of the Covercube integration, and
    `parseAndSanitizeQuote`, which picks one of the three request variants from
    `state` and `IsNonOwner`, validates the input against that variant's schema
    and, for Arizona, strips the Texas-only keys.

    A schema is a value of the datatype `Schema`, written the way the Zod source
    declares it. Each strict object schema of the source is one `Shape`, and
    `ShapeField(shape, key)` is its `z.object({...})` literal read as a lookup:
    the field declared for the key, or None. The larger lookups are grouped by
    key length, so that finding a key takes only a few string comparisons.
    Zod's `.extend({...})` is a lookup that tries the new fields first and then
    the base shape. `Accepts` says which
    JSON values a schema's `parse` returns without throwing. */
module CovercubeSchemas {

  import opened JsonValue

  /** The string formats Zod checks with library code (`z.string().email()` and
      `z.string().url()`), taken as parameters. */
  datatype Formats = Formats(isEmail: string -> bool, isUrl: string -> bool)

  // ---------------------------------------------------------------------------
  // Schemas as data
  // ---------------------------------------------------------------------------

  /** Whether an object key must be present, or may be left out (`.optional()`). */
  datatype Presence = Required | Optional

  /** The Zod schemas the integration uses. A `z.literal(v)` is `OneOf({v})`. */
  datatype Schema =
    | Str                           // z.string()
    | StrMin(min: nat)              // z.string().min(n)
    | Num                           // z.number()
    | Int                           // z.number().int()
    | OneOf(values: set<string>)    // z.enum([...]) and z.literal(...)
    | StrOrNum                      // z.union([z.string(), z.number()])
    | Date                          // DateString
    | Email                         // z.string().email()
    | Url                           // z.string().url()
    | Undefined                     // z.undefined()
    | ArrayOf(element: Schema, min: nat)      // z.array(element).min(n)
    | Object(shape: Shape)                    // a strict z.object({...})

  /** One entry of an object shape. */
  datatype Field = Field(presence: Presence, schema: Schema)

  /** The strict object schemas of the source. Every one is declared `.strict()` or
      extends a strict schema, so it rejects keys it does not declare. */
  datatype Shape =
    | PartyShape | ViolationShape | VehicleShape | ArizonaDriverShape | TexasDriverShape
    | ArizonaRequestShape | TexasOwnedRequestShape | TexasNonOwnerRequestShape
    | CoverageShape | PayplanShape | DriverOutShape | CovercubeResponseShape

  predicate AllDigits(s: string)
  {
    forall i :: 0 <= i < |s| ==> IsDecimalDigit(s[i])
  }

  /** The regular expression `^\d{4}\/\d{2}\/\d{2}$`: four digits, a slash, two
      digits, a slash, two digits, and nothing else. */
  predicate IsDateString(s: string)
  {
    && |s| == 10
    && AllDigits(s[0..4]) && s[4] == '/'
    && AllDigits(s[5..7]) && s[7] == '/'
    && AllDigits(s[8..10])
  }

  predicate IsInteger(r: real)
  {
    r.Floor as real == r
  }

  /** `schema.parse(j)` succeeds. An object may hold only declared keys; a declared
      key that is absent is fine exactly when its field is optional (JSON has no
      `undefined`, so `null` does not count as absent). */
  ghost predicate Accepts(j: Json, s: Schema, fmt: Formats)
    decreases j
  {
    match s
    case Str => j.JStr?
    case StrMin(n) => j.JStr? && |j.s| >= n
    case Num => j.JNum?
    case Int => j.JNum? && IsInteger(j.n)
    case OneOf(vs) => j.JStr? && j.s in vs
    case StrOrNum => j.JStr? || j.JNum?
    case Date => j.JStr? && IsDateString(j.s)
    case Email => j.JStr? && fmt.isEmail(j.s)
    case Url => j.JStr? && fmt.isUrl(j.s)
    case Undefined => false
    case ArrayOf(e, n) =>
      j.JArr? && |j.items| >= n && forall i :: 0 <= i < |j.items| ==> Accepts(j.items[i], e, fmt)
    case Object(shape) =>
      && j.JObj?
      && (forall k :: k in j.fields ==> ShapeField(shape, k).Some?)
      && forall k :: ShapeField(shape, k).Some? ==>
           if k in j.fields then Accepts(j.fields[k], ShapeField(shape, k).value.schema, fmt)
           else ShapeField(shape, k).value.presence == Optional
  }

  function Req(s: Schema): Option<Field> { Some(Field(Required, s)) }
  function Opt(s: Schema): Option<Field> { Some(Field(Optional, s)) }

  // ---------------------------------------------------------------------------
  // Enums
  // ---------------------------------------------------------------------------

  const YesNo: Schema := OneOf({"Y", "N"})
  const YesNoUpper: Schema := OneOf({"YES", "NO"})
  const StateEnum: Schema := OneOf({"AZ", "TX"})
  const VehicleUseEnum: Schema := OneOf({"WRK", "SCH", "PLS", "ART", "BUS"})
  const OwnershipLengthEnum: Schema :=
    OneOf({"NOREG", "60DAY", "6MON", "1YR", "2YR", "3YR", "5YR", "5YRP", "UNK"})
  const GenderEnum: Schema := OneOf({"M", "F"})

  // ---------------------------------------------------------------------------
  // Object shapes
  // ---------------------------------------------------------------------------

  /** The field each shape declares for a key. */
  function ShapeField(shape: Shape, k: string): Option<Field>
  {
    match shape
    case PartyShape => PartyField(k)
    case ViolationShape => ViolationField(k)
    case VehicleShape => VehicleField(k)
    case ArizonaDriverShape => ArizonaDriverField(k)
    case TexasDriverShape => TexasDriverField(k)
    case ArizonaRequestShape => ArizonaRequestField(k)
    case TexasOwnedRequestShape => TexasOwnedRequestField(k)
    case TexasNonOwnerRequestShape => TexasNonOwnerRequestField(k)
    case CoverageShape => CoverageField(k)
    case PayplanShape => PayplanField(k)
    case DriverOutShape => DriverOutField(k)
    case CovercubeResponseShape => CovercubeResponseField(k)
  }

  /** PartySchema: a lien-holder or additional interest. */
  function PartyField(k: string): Option<Field>
  {
    match k
    case "partyName" => Req(StrMin(1))
    case "partyType" => Req(StrMin(1))
    case "address1" => Req(StrMin(1))
    case "address2" => Opt(Str)
    case "city" => Req(StrMin(1))
    case "state" => Req(StrMin(2))
    case "zip" => Req(StrMin(3))
    case _ => None
  }

  /** ViolationSchema: one entry of a driver's violation history. */
  function ViolationField(k: string): Option<Field>
  {
    match k
    case "date" => Req(Date)
    case "code" => Req(StrMin(1))
    case "description" => Req(StrMin(1))
    case "points" => Req(StrOrNum)
    case _ => None
  }

  /** BaseVehicleSchema. */
  function BaseVehicleField(k: string): Option<Field>
  {
    match |k|
    case 2 => (
      match k
      case "SE" => Opt(Str)
      case "TR" => Opt(Str)
      case _ => None)
    case 3 => (
      match k
      case "vin" => Opt(Str)
      case "COM" => Opt(StrOrNum)
      case "COL" => Opt(StrOrNum)
      case _ => None)
    case 4 => (
      match k
      case "year" => Req(Int)
      case "make" => Req(StrMin(1))
      case "trim" => Opt(Str)
      case _ => None)
    case 5 => (
      match k
      case "model" => Req(StrMin(1))
      case "price" => Opt(Num)
      case _ => None)
    case 6 => (
      match k
      case "weight" => Opt(Num)
      case _ => None)
    case 7 => (
      match k
      case "braking" => Opt(Str)
      case "parties" => Opt(ArrayOf(PartySchema, 0))
      case _ => None)
    case 9 => (
      match k
      case "antitheft" => Opt(Str)
      case "drivetype" => Opt(Str)
      case _ => None)
    case 10 => (
      match k
      case "vehicleUse" => Req(VehicleUseEnum)
      case _ => None)
    case 11 => (
      match k
      case "ridesharing" => Opt(YesNo)
      case _ => None)
    case 18 => (
      match k
      case "roadsideAssistance" => Opt(YesNo)
      case _ => None)
    case _ => None
  }

  /** ArizonaVehicleSchema and TexasVehicleSchema: both extend the strict base with
      the same five optional keys, so they are one shape. */
  function VehicleField(k: string): Option<Field>
  {
    match k
    case "platenumber" => Opt(Str)
    case "platestate" => Opt(Str)
    case "vehiclepurchasedate" => Opt(Date)
    case "estimatemilage" => Opt(Num)
    case "ownershiplength" => Opt(OwnershipLengthEnum)
    case _ => BaseVehicleField(k)
  }

  /** ArizonaDriverSchema: marital status, licence number and status and the SR-22
      flag are required, and the licence must be an Arizona one. */
  function ArizonaDriverField(k: string): Option<Field>
  {
    match |k|
    case 3 => (
      match k
      case "dob" => Req(Date)
      case _ => None)
    case 4 => (
      match k
      case "sr22" => Req(YesNo)
      case "av12" => Opt(Num)
      case "av24" => Opt(Num)
      case "av36" => Opt(Num)
      case _ => None)
    case 6 => (
      match k
      case "gender" => Req(GenderEnum)
      case "points" => Opt(Num)
      case _ => None)
    case 7 => (
      match k
      case "married" => Req(YesNo)
      case _ => None)
    case 8 => (
      match k
      case "lastName" => Req(StrMin(1))
      case "Sr22Date" => Opt(Date)
      case _ => None)
    case 9 => (
      match k
      case "firstName" => Req(StrMin(1))
      case "driverDNA" => Opt(Num)
      case _ => None)
    case 10 => (
      match k
      case "occupation" => Opt(Str)
      case "violations" => Opt(ArrayOf(ViolationSchema, 0))
      case _ => None)
    case 12 => (
      match k
      case "licenseState" => Req(OneOf({"AZ"}))
      case "employerName" => Opt(Str)
      case _ => None)
    case 13 => (
      match k
      case "licenseNumber" => Req(StrMin(1))
      case "licenseStatus" => Req(StrMin(1))
      case "businessPhone" => Opt(Str)
      case _ => None)
    case 19 => (
      match k
      case "excludeFromCoverage" => Opt(YesNo)
      case _ => None)
    case _ => None
  }

  /** TexasDriverSchema: a Texas licence; marital status, licence number and status
      and the SR-22 flag are optional, and there is no `Sr22Date`. */
  function TexasDriverField(k: string): Option<Field>
  {
    match |k|
    case 3 => (
      match k
      case "dob" => Req(Date)
      case _ => None)
    case 4 => (
      match k
      case "sr22" => Opt(YesNo)
      case "av12" => Opt(Num)
      case "av24" => Opt(Num)
      case "av36" => Opt(Num)
      case _ => None)
    case 6 => (
      match k
      case "gender" => Req(GenderEnum)
      case "points" => Opt(Num)
      case _ => None)
    case 7 => (
      match k
      case "married" => Opt(YesNo)
      case _ => None)
    case 8 => (
      match k
      case "lastName" => Req(StrMin(1))
      case _ => None)
    case 9 => (
      match k
      case "firstName" => Req(StrMin(1))
      case "driverDNA" => Opt(Num)
      case _ => None)
    case 10 => (
      match k
      case "occupation" => Opt(Str)
      case "violations" => Opt(ArrayOf(ViolationSchema, 0))
      case _ => None)
    case 12 => (
      match k
      case "licenseState" => Req(OneOf({"TX"}))
      case "employerName" => Opt(Str)
      case _ => None)
    case 13 => (
      match k
      case "licenseNumber" => Opt(Str)
      case "licenseStatus" => Opt(Str)
      case "businessPhone" => Opt(Str)
      case _ => None)
    case 19 => (
      match k
      case "excludeFromCoverage" => Opt(YesNo)
      case _ => None)
    case _ => None
  }

  const PartySchema: Schema := Object(PartyShape)
  const ViolationSchema: Schema := Object(ViolationShape)
  const VehicleSchema: Schema := Object(VehicleShape)
  const ArizonaDriverSchema: Schema := Object(ArizonaDriverShape)
  const TexasDriverSchema: Schema := Object(TexasDriverShape)

  // ---------------------------------------------------------------------------
  // Policy-level shapes
  // ---------------------------------------------------------------------------

  /** BasePolicySchema. */
  function BasePolicyField(k: string): Option<Field>
  {
    match |k|
    case 2 => (
      match k
      case "BI" => Req(StrMin(1))
      case "PD" => Req(StrMin(1))
      case "MP" => Opt(StrOrNum)
      case _ => None)
    case 3 => (
      match k
      case "PIP" => Opt(StrOrNum)
      case _ => None)
    case 4 => (
      match k
      case "city" => Req(StrMin(1))
      case "UMBI" => Opt(Str)
      case "UMPD" => Opt(Str)
      case _ => None)
    case 5 => (
      match k
      case "state" => Req(StateEnum)
      case "email" => Opt(Email)
      case "UIMBI" => Opt(Str)
      case _ => None)
    case 6 => (
      match k
      case "action" => Opt(OneOf({"RATEQUOTE"}))
      case _ => None)
    case 7 => (
      match k
      case "address" => Req(StrMin(1))
      case "zipCode" => Req(StrMin(3))
      case "payplan" => Req(StrMin(1))
      case _ => None)
    case 8 => (
      match k
      case "username" => Opt(StrMin(1))
      case "password" => Opt(StrMin(1))
      case "rateDate" => Req(Date)
      case "address2" => Opt(Str)
      case "mailSame" => Opt(YesNo)
      case "mailCity" => Opt(Str)
      case _ => None)
    case 9 => (
      match k
      case "transType" => Opt(OneOf({"NB", "RN"}))
      case "cellPhone" => Opt(Str)
      case "mailState" => Opt(Str)
      case _ => None)
    case 10 => (
      match k
      case "policyTerm" => Req(StrMin(1))
      case "IsNonOwner" => Opt(YesNo)
      case _ => None)
    case 11 => (
      match k
      case "mailAddress" => Opt(Str)
      case "mailZipCode" => Opt(Str)
      case _ => None)
    case 12 => (
      match k
      case "producerCode" => Opt(StrMin(1))
      case "mailAddress2" => Opt(Str)
      case _ => None)
    case 13 => (
      match k
      case "inceptionDate" => Req(Date)
      case "effectiveDate" => Req(Date)
      case "ispriorpolicy" => Opt(YesNoUpper)
      case "monthsinprior" => Opt(StrOrNum)
      case _ => None)
    case 14 => (
      match k
      case "holderLastName" => Req(StrMin(1))
      case "priordayslapse" => Opt(StrOrNum)
      case _ => None)
    case 15 => (
      match k
      case "holderFirstName" => Req(StrMin(1))
      case "renewalDiscount" => Opt(YesNo)
      case "advanceDiscount" => Opt(YesNo)
      case _ => None)
    case 16 => (
      match k
      case "unacceptableRisk" => Opt(YesNo)
      case _ => None)
    case 17 => (
      match k
      case "homeownerDiscount" => Opt(YesNo)
      case "priorpolicynumber" => Opt(Str)
      case _ => None)
    case 18 => (
      match k
      case "roadsideAssistance" => Opt(YesNo)
      case _ => None)
    case 19 => (
      match k
      case "holderMiddleInitial" => Opt(Str)
      case "priorexpirationdate" => Opt(Date)
      case "ispriorinsameagency" => Opt(YesNoUpper)
      case _ => None)
    case 20 => (
      match k
      case "priorbicoveragelimit" => Opt(Str)
      case _ => None)
    case 21 => (
      match k
      case "priorpipcoveragelimit" => Opt(StrOrNum)
      case _ => None)
    case _ => None
  }

  /** ArizonaRequestSchema before its transform: state "AZ", at least one vehicle and
      at least one Arizona driver; `IsNonOwner` keeps the base's optional Y/N. */
  function ArizonaRequestField(k: string): Option<Field>
  {
    match k
    case "state" => Req(OneOf({"AZ"}))
    case "vehicles" => Req(ArrayOf(VehicleSchema, 1))
    case "drivers" => Req(ArrayOf(ArizonaDriverSchema, 1))
    case _ => BasePolicyField(k)
  }

  /** TexasOwnedRequestSchema: state "TX", `IsNonOwner` only "Y" or absent, at least
      one vehicle and at least one Texas driver. */
  function TexasOwnedRequestField(k: string): Option<Field>
  {
    match k
    case "state" => Req(OneOf({"TX"}))
    case "IsNonOwner" => Opt(OneOf({"Y"}))
    case "vehicles" => Req(ArrayOf(VehicleSchema, 1))
    case "drivers" => Req(ArrayOf(TexasDriverSchema, 1))
    case _ => BasePolicyField(k)
  }

  /** TexasNonOwnerRequestSchema: state "TX", `IsNonOwner` literally "Y", `vehicles`
      declared `z.undefined().optional()` -- so any present value, even `[]`, is
      rejected -- and at least one Texas driver. Its refinement (no non-empty
      vehicle array) can never fail once the shape is accepted. */
  function TexasNonOwnerRequestField(k: string): Option<Field>
  {
    match k
    case "state" => Req(OneOf({"TX"}))
    case "IsNonOwner" => Req(OneOf({"Y"}))
    case "vehicles" => Opt(Undefined)
    case "drivers" => Req(ArrayOf(TexasDriverSchema, 1))
    case _ => BasePolicyField(k)
  }

  const ArizonaRequest: Schema := Object(ArizonaRequestShape)
  const TexasOwnedRequest: Schema := Object(TexasOwnedRequestShape)
  const TexasNonOwnerRequest: Schema := Object(TexasNonOwnerRequestShape)

  // ---------------------------------------------------------------------------
  // The Arizona transform
  // ---------------------------------------------------------------------------

  /** The Texas-only policy keys the Arizona transform drops. */
  const ArizonaStrippedPolicyKeys: set<string> :=
    {"UMPD", "PIP", "priorpolicynumber", "priorbicoveragelimit", "priorpipcoveragelimit", "IsNonOwner"}

  /** The keys the Arizona transform drops from each vehicle. */
  const ArizonaStrippedVehicleKeys: set<string> :=
    {"platenumber", "platestate", "vehiclepurchasedate", "estimatemilage", "ownershiplength"}

  /** Destructuring the five plate and ownership keys out of a vehicle object and
      keeping the rest (every vehicle the schema accepts is an object). */
  function StripVehicle(v: Json): (r: Json)
  {
    if v.JObj? then JObj(v.fields - ArizonaStrippedVehicleKeys) else v
  }

  /** `vehicles.map(StripVehicle)`. */
  function StripVehicles(vs: seq<Json>): (r: seq<Json>)
    ensures |r| == |vs|
    ensures forall i :: 0 <= i < |vs| ==> r[i] == StripVehicle(vs[i])
  {
    if vs == [] then [] else [StripVehicle(vs[0])] + StripVehicles(vs[1..])
  }

  /** The transform of ArizonaRequestSchema: drop the Texas-only policy keys, then
      replace `vehicles` by its element-wise stripped copy. */
  function ArizonaTransform(m: map<string, Json>): (r: map<string, Json>)
    ensures r.Keys == m.Keys - ArizonaStrippedPolicyKeys
    ensures forall k :: k in r && k != "vehicles" ==> r[k] == m[k]
  {
    var rest := m - ArizonaStrippedPolicyKeys;
    if "vehicles" in rest && rest["vehicles"].JArr?
    then rest["vehicles" := JArr(StripVehicles(rest["vehicles"].items))]
    else rest
  }

  // ---------------------------------------------------------------------------
  // parseAndSanitizeQuote
  // ---------------------------------------------------------------------------

  datatype Variant = Arizona | TexasOwned | TexasNonOwner

  /** What `parseAndSanitizeQuote` does: return the sanitized value of the chosen
      variant, throw that variant's ZodError (its issue list is not modelled), or
      throw the plain "unsupported state" Error before any schema runs. */
  datatype ParseOutcome =
    | Parsed(variant: Variant, value: Json)
    | SchemaError(variant: Variant)
    | UnsupportedState(message: string)

  const UnsupportedStateMessage: string := "Invalid or unsupported state. Must be 'AZ' or 'TX'."

  /** The pre-check of `parseAndSanitizeQuote`: `input?.state` and
      `input?.IsNonOwner === "Y"`, compared with `===` (so case-sensitively). */
  function ClassifyQuote(input: Json): (r: Option<Variant>)
    ensures r == Some(Arizona) <==> Prop(input, "state") == Some(JStr("AZ"))
    ensures r == Some(TexasNonOwner) <==>
              Prop(input, "state") == Some(JStr("TX")) && Prop(input, "IsNonOwner") == Some(JStr("Y"))
    ensures r == Some(TexasOwned) <==>
              Prop(input, "state") == Some(JStr("TX")) && Prop(input, "IsNonOwner") != Some(JStr("Y"))
    ensures r == None <==> Prop(input, "state") != Some(JStr("AZ")) && Prop(input, "state") != Some(JStr("TX"))
  {
    var state := Prop(input, "state");
    var isNonOwner := Prop(input, "IsNonOwner") == Some(JStr("Y"));
    if state == Some(JStr("AZ")) then Some(Arizona)
    else if state == Some(JStr("TX")) && isNonOwner then Some(TexasNonOwner)
    else if state == Some(JStr("TX")) then Some(TexasOwned)
    else None
  }

  /** The schema each variant is parsed with. */
  function VariantSchema(v: Variant): Schema
  {
    match v
    case Arizona => ArizonaRequest
    case TexasOwned => TexasOwnedRequest
    case TexasNonOwner => TexasNonOwnerRequest
  }

  /** `parseAndSanitizeQuote(input)`. Zod's output of an accepted strict object is
      the input itself; only the Arizona transform changes it. */
  ghost function ParseAndSanitizeQuote(input: Json, fmt: Formats): (r: ParseOutcome)
    ensures r.UnsupportedState? <==> ClassifyQuote(input).None?
    ensures r.UnsupportedState? ==> r.message == UnsupportedStateMessage
    ensures !r.UnsupportedState? ==> Some(r.variant) == ClassifyQuote(input)
    ensures r.Parsed? ==> Accepts(input, VariantSchema(r.variant), fmt)
  {
    match ClassifyQuote(input)
    case None => UnsupportedState(UnsupportedStateMessage)
    case Some(v) =>
      if !Accepts(input, VariantSchema(v), fmt) then SchemaError(v)
      else if v == Arizona then Parsed(Arizona, JObj(ArizonaTransform(input.fields)))
      else Parsed(v, input)
  }

  // ---------------------------------------------------------------------------
  // The response schema
  // ---------------------------------------------------------------------------

  /** CoverageSchema. */
  function CoverageField(k: string): Option<Field>
  {
    match k
    case "coverageCode" => Req(Str)
    case "coverageLimit" => Req(Str)
    case "coverageTotal" => Req(Num)
    case _ => None
  }

  /** PayplanSchema. */
  function PayplanField(k: string): Option<Field>
  {
    match k
    case "description" => Req(Str)
    case "downPayment" => Req(Num)
    case "downPercent" => Req(Num)
    case "totalPremium" => Req(Num)
    case "instalments" => Req(Int)
    case "refCode" => Req(Str)
    case _ => None
  }

  /** DriverOutSchema. */
  function DriverOutField(k: string): Option<Field>
  {
    match k
    case "firstName" => Req(Str)
    case "lastName" => Req(Str)
    case "driverAge" => Req(Num)
    case "rateOrder" => Req(Num)
    case _ => None
  }

  /** CovercubeResponseSchema. */
  function CovercubeResponseField(k: string): Option<Field>
  {
    match |k|
    case 7 => (
      match k
      case "drivers" => Req(ArrayOf(Object(DriverOutShape), 0))
      case "payplan" => Req(ArrayOf(Object(PayplanShape), 0))
      case _ => None)
    case 9 => (
      match k
      case "quoteCode" => Req(StrMin(1))
      case "policyFee" => Req(Num)
      case "coverages" => Req(ArrayOf(Object(CoverageShape), 0))
      case "viewQuote" => Req(Url)
      case _ => None)
    case 10 => (
      match k
      case "quoteTotal" => Req(Num)
      case _ => None)
    case 12 => (
      match k
      case "quotePremium" => Req(Num)
      case _ => None)
    case 14 => (
      match k
      case "quoteFeesTotal" => Req(Num)
      case "consumerBridge" => Req(Url)
      case _ => None)
    case _ => None
  }

  const CovercubeResponseSchema: Schema := Object(CovercubeResponseShape)
}
