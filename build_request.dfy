/** The hand-written request builder, `buildCovercubeRequest`: state-specific
    validation with first-error reporting, the merge of backend fields with the
    client's input, and the per-variant reshaping of the merged object.

    The input is any parsed JSON body. Reading a property of `null`, using `in` on
    a primitive and calling `forEach` on a non-array are the JavaScript TypeErrors
    the code can raise; they are modelled as `TypeError`. A key whose value would be
    `undefined` is modelled as absent, which is how the payload is serialised. */
module BuildRequest {

  import opened JsonValue
  import opened Guards
  import opened Constants

  /** The part of the configuration the builder reads: the Covercube credentials and
      the producer code of each state. */
  datatype Config = Config(username: string, password: string, producerCodes: ProducerCodes)

  // ---------------------------------------------------------------------------
  // Error messages
  // ---------------------------------------------------------------------------

  const TexasNonOwnerVehiclesMessage: string := "Texas non-owner policies cannot have vehicles"
  const TexasNonOwnerRoadsideMessage: string := "Texas non-owner policies cannot have roadsideAssistance"
  const TexasVehicleRequiredMessage: string := "Texas policies require at least one vehicle (or set IsNonOwner='Y')"
  const ArizonaVehicleRequiredMessage: string := "Arizona policies require at least one vehicle"
  const ArizonaNonOwnerMessage: string := "Arizona does not support non-owner policies"
  const ArizonaPipMessage: string := "Arizona policies do not support PIP coverage"
  const ArizonaUmpdMessage: string := "Arizona policies do not support UMPD coverage"
  const ArizonaPriorBiMessage: string := "Arizona policies do not use priorbicoveragelimit"
  const ArizonaPriorPipMessage: string := "Arizona policies do not use priorpipcoveragelimit"

  /** The message for vehicle number `index` (counted from 0) carrying `key`. */
  function VehicleMessage(index: nat, key: string): string
  {
    "Vehicle " + NatToString(index + 1) + " should not have " + key + " for Arizona"
  }

  // ---------------------------------------------------------------------------
  // The tests the validation is made of
  // ---------------------------------------------------------------------------

  /** `'IsNonOwner' in input && input.IsNonOwner === YES_NO.YES`. */
  predicate IsNonOwnerFlag(m: map<string, Json>)
  {
    "IsNonOwner" in m && m["IsNonOwner"] == JStr(Yes)
  }

  /** `'vehicles' in input && input.vehicles && Array.isArray(input.vehicles) &&
      input.vehicles.length > 0`: a non-empty vehicle array. */
  predicate HasVehicleArray(m: map<string, Json>)
  {
    "vehicles" in m && m["vehicles"].JArr? && |m["vehicles"].items| > 0
  }

  /** `v.length === 0`: the length of an array or a string, or an object's own
      `length` property; numbers and booleans have no length. */
  predicate LengthIsZero(v: Json)
  {
    match v
    case JArr(items) => |items| == 0
    case JStr(s) => |s| == 0
    case JObj(f) => "length" in f && f["length"] == JNum(0.0)
    case _ => false
  }

  /** The Arizona vehicle test, which has no `Array.isArray`:
      `!('vehicles' in input) || !input.vehicles || input.vehicles.length === 0`. */
  predicate ArizonaVehiclesMissing(m: map<string, Json>)
  {
    "vehicles" !in m || !Truthy(m["vehicles"]) || LengthIsZero(m["vehicles"])
  }

  /** The Arizona policy-level checks, in the order the code makes them. */
  function ArizonaPolicyGuards(m: map<string, Json>): seq<Guard>
  {
    [ Guard(!ArizonaVehiclesMissing(m), ArizonaVehicleRequiredMessage),
      Guard(!IsNonOwnerFlag(m), ArizonaNonOwnerMessage),
      Guard(!TruthyField(m, "PIP"), ArizonaPipMessage),
      Guard(!TruthyField(m, "UMPD"), ArizonaUmpdMessage),
      Guard(!TruthyField(m, "priorbicoveragelimit"), ArizonaPriorBiMessage),
      Guard(!TruthyField(m, "priorpipcoveragelimit"), ArizonaPriorPipMessage) ]
  }

  /** The vehicle keys an Arizona vehicle may not carry with a truthy value, in the
      order they are checked. */
  const ArizonaForbiddenVehicleKeys: seq<string> :=
    ["vehiclepurchasedate", "estimatemilage", "ownershiplength", "platenumber", "platestate"]

  /** The checks on an Arizona vehicle object, in order. */
  function VehicleGuards(f: map<string, Json>, index: nat): seq<Guard>
  {
    seq(|ArizonaForbiddenVehicleKeys|, i requires 0 <= i < |ArizonaForbiddenVehicleKeys| =>
      Guard(!TruthyField(f, ArizonaForbiddenVehicleKeys[i]), VehicleMessage(index, ArizonaForbiddenVehicleKeys[i])))
  }

  /** The body of the `forEach` callback for vehicle number `index`. On an array
      element the `in` tests are false (its keys are indices); on any other
      primitive, `null` included, `in` raises a TypeError. */
  function VehicleIssue(v: Json, index: nat): (r: Option<JsError>)
    ensures r.Some? && r.value.Error? ==> v.JObj?
    ensures v.JArr? ==> r.None?
  {
    match v
    case JObj(f) =>
      if TruthyField(f, "vehiclepurchasedate") then Some(Error(VehicleMessage(index, "vehiclepurchasedate")))
      else if TruthyField(f, "estimatemilage") then Some(Error(VehicleMessage(index, "estimatemilage")))
      else if TruthyField(f, "ownershiplength") then Some(Error(VehicleMessage(index, "ownershiplength")))
      else if TruthyField(f, "platenumber") then Some(Error(VehicleMessage(index, "platenumber")))
      else if TruthyField(f, "platestate") then Some(Error(VehicleMessage(index, "platestate")))
      else None
    case JArr(_) => None
    case _ => Some(TypeError)
  }

  /** The `forEach` scan from vehicle number `from` on: the first vehicle with an
      issue decides, and every vehicle before it has none. */
  function ScanVehicles(vs: seq<Json>, from: nat): (r: Option<JsError>)
    requires from <= |vs|
    ensures r.None? <==> forall i :: from <= i < |vs| ==> VehicleIssue(vs[i], i).None?
    ensures r.Some? ==>
      exists k :: from <= k < |vs| && VehicleIssue(vs[k], k) == r
                  && forall i :: from <= i < k ==> VehicleIssue(vs[i], i).None?
    decreases |vs| - from
  {
    if from == |vs| then None
    else match VehicleIssue(vs[from], from)
      case Some(e) => Some(e)
      case None => ScanVehicles(vs, from + 1)
  }

  // ---------------------------------------------------------------------------
  // validateStateRequirements
  // ---------------------------------------------------------------------------

  /** The Texas branch of validateStateRequirements. */
  function TexasRequirements(m: map<string, Json>): (r: Option<JsError>)
    ensures r.None? <==>
      if IsNonOwnerFlag(m) then !HasVehicleArray(m) && "roadsideAssistance" !in m else HasVehicleArray(m)
    ensures r.Some? ==> r.value.Error?
  {
    if IsNonOwnerFlag(m) then
      if HasVehicleArray(m) then Some(Error(TexasNonOwnerVehiclesMessage))
      else if "roadsideAssistance" in m then Some(Error(TexasNonOwnerRoadsideMessage))
      else None
    else if !HasVehicleArray(m) then Some(Error(TexasVehicleRequiredMessage))
    else None
  }

  /** The Arizona branch of validateStateRequirements on an object. */
  function ArizonaRequirements(m: map<string, Json>): (r: Option<JsError>)
    ensures r.None? ==> !ArizonaVehiclesMissing(m) && !IsNonOwnerFlag(m)
    ensures r.None? ==> !TruthyField(m, "PIP") && !TruthyField(m, "UMPD")
    ensures r.None? ==> !TruthyField(m, "priorbicoveragelimit") && !TruthyField(m, "priorpipcoveragelimit")
    ensures r.None? ==>
      && "vehicles" in m && m["vehicles"].JArr?
      && forall i :: 0 <= i < |m["vehicles"].items| ==> VehicleIssue(m["vehicles"].items[i], i).None?
  {
    if ArizonaVehiclesMissing(m) then Some(Error(ArizonaVehicleRequiredMessage))
    else if IsNonOwnerFlag(m) then Some(Error(ArizonaNonOwnerMessage))
    else if TruthyField(m, "PIP") then Some(Error(ArizonaPipMessage))
    else if TruthyField(m, "UMPD") then Some(Error(ArizonaUmpdMessage))
    else if TruthyField(m, "priorbicoveragelimit") then Some(Error(ArizonaPriorBiMessage))
    else if TruthyField(m, "priorpipcoveragelimit") then Some(Error(ArizonaPriorPipMessage))
    else if m["vehicles"].JArr? then ScanVehicles(m["vehicles"].items, 0)
    else Some(TypeError)
  }

  /** `validateStateRequirements(input)`: None when it returns, otherwise what it
      throws. Texas is `state === "TX"`; every other input takes the Arizona
      checks. On a root that is not an object, `'vehicles' in input` is false for an
      array and raises a TypeError for a primitive. */
  function ValidateStateRequirements(input: Json): (r: Option<JsError>)
    ensures r.None? ==> input.JObj?
  {
    if input.JNull? then Some(TypeError)
    else if IsTexasState(Prop(input, "state")) then TexasRequirements(input.fields)
    else
      match input
      case JObj(m) => ArizonaRequirements(m)
      case JArr(_) => Some(Error(ArizonaVehicleRequiredMessage))
      case _ => Some(TypeError)
  }

  // ---------------------------------------------------------------------------
  // The base request
  // ---------------------------------------------------------------------------

  /** `producerCodes[input.state]` for a string state; None is `undefined`. */
  function ProducerCodeFor(state: Option<Json>, codes: ProducerCodes): (r: Option<string>)
    ensures r.Some? <==> state == Some(JStr("AZ")) || state == Some(JStr("TX"))
    ensures state == Some(JStr("AZ")) ==> r == Some(codes.az)
    ensures state == Some(JStr("TX")) ==> r == Some(codes.tx)
  {
    if state.Some? && state.value.JStr? then GetProducerCodeForState(state.value.s, codes) else None
  }

  /** The fields the backend injects. */
  function BackendFields(state: Option<Json>, cfg: Config): (r: map<string, Json>)
    ensures r.Keys == {"action", "username", "password", "transType"}
                      + (if ProducerCodeFor(state, cfg.producerCodes).Some? then {"producerCode"} else {})
  {
    var fixed := map["action" := JStr("RATEQUOTE"), "username" := JStr(cfg.username),
                     "password" := JStr(cfg.password), "transType" := JStr(TransTypes["NEW_BUSINESS"])];
    match ProducerCodeFor(state, cfg.producerCodes)
    case Some(code) => fixed["producerCode" := JStr(code)]
    case None => fixed
  }

  /** `{ ...backend fields, ...input }`: the input is spread last, so its keys win. */
  function BaseRequest(m: map<string, Json>, cfg: Config): (r: map<string, Json>)
    ensures r.Keys == BackendFields(Prop(JObj(m), "state"), cfg).Keys + m.Keys
    ensures forall k :: k in m ==> r[k] == m[k]
  {
    BackendFields(Prop(JObj(m), "state"), cfg) + m
  }

  // ---------------------------------------------------------------------------
  // The three builders
  // ---------------------------------------------------------------------------

  /** buildTexasRequest: the base request without `IsNonOwner`. */
  function BuildTexasRequest(base: map<string, Json>): (r: map<string, Json>)
    ensures r.Keys == base.Keys - {"IsNonOwner"}
    ensures forall k :: k in r ==> r[k] == base[k]
  {
    base - {"IsNonOwner"}
  }

  /** buildTexasNonOwnerRequest: the base request without `vehicles` and
      `roadsideAssistance`, with `IsNonOwner` set to "Y". */
  function BuildTexasNonOwnerRequest(base: map<string, Json>): (r: map<string, Json>)
    ensures r.Keys == base.Keys - {"vehicles", "roadsideAssistance"} + {"IsNonOwner"}
    ensures r["IsNonOwner"] == JStr(Yes)
    ensures forall k :: k in r && k != "IsNonOwner" ==> r[k] == base[k]
  {
    (base - {"vehicles", "roadsideAssistance"})["IsNonOwner" := JStr(Yes)]
  }

  /** The policy-level keys buildArizonaRequest leaves out. */
  const ArizonaDroppedPolicyKeys: set<string> :=
    { "PIP", "UMPD", "IsNonOwner", "priorbicoveragelimit", "priorpipcoveragelimit", "address2",
      "priorpolicynumber", "mailAddress", "mailAddress2", "mailCity", "mailState", "mailZipCode" }

  /** The vehicle keys buildArizonaRequest leaves out. */
  const ArizonaDroppedVehicleKeys: set<string> :=
    { "vehiclepurchasedate", "estimatemilage", "ownershiplength", "platenumber", "platestate",
      "weight", "ridesharing", "roadsideAssistance" }

  /** The object rest of a sequence: each element under its decimal index. */
  function IndexObject(items: seq<Json>): (r: map<string, Json>)
    ensures forall k :: k in r ==> exists i :: 0 <= i < |items| && k == NatToString(i) && r[k] == items[i]
    decreases |items|
  {
    if items == [] then map[]
    else IndexObject(items[..|items| - 1])[NatToString(|items| - 1) := items[|items| - 1]]
  }

  /** The characters of a string as one-character strings. */
  function Characters(s: string): (r: seq<Json>)
    ensures |r| == |s|
  {
    seq(|s|, i requires 0 <= i < |s| => JStr([s[i]]))
  }

  /** The object rest `{ vehiclepurchasedate, ..., ...cleanVehicle } = vehicle`:
      an object loses the eight keys; an array or string becomes an object keyed by
      index (no index is one of the eight keys); a number or boolean becomes `{}`;
      destructuring `null` raises a TypeError. */
  function CleanVehicle(v: Json): (r: Result<Json>)
    ensures r.Err? <==> v.JNull?
    ensures v.JObj? ==> r == Ok(JObj(v.fields - ArizonaDroppedVehicleKeys))
  {
    match v
    case JNull => Err(TypeError)
    case JObj(f) => Ok(JObj(f - ArizonaDroppedVehicleKeys))
    case JArr(items) => Ok(JObj(IndexObject(items)))
    case JStr(s) => Ok(JObj(IndexObject(Characters(s))))
    case _ => Ok(JObj(map[]))
  }

  /** `vehicles.map(...)`: the first element that cannot be destructured raises. */
  function CleanVehicles(vs: seq<Json>): (r: Result<seq<Json>>)
    ensures r.Err? <==> exists i :: 0 <= i < |vs| && vs[i].JNull?
    ensures r.Ok? ==> |r.value| == |vs| && forall i :: 0 <= i < |vs| ==> Ok(r.value[i]) == CleanVehicle(vs[i])
  {
    if vs == [] then Ok([])
    else match CleanVehicle(vs[0])
      case Err(e) => Err(e)
      case Ok(w) =>
        match CleanVehicles(vs[1..])
        case Err(e) => Err(e)
        case Ok(ws) => Ok([w] + ws)
  }

  /** buildArizonaRequest: drop the twelve policy keys, then set `vehicles` to the
      cleaned vehicles, or to `[]` when the value is not an array. */
  function BuildArizonaRequest(base: map<string, Json>): (r: Result<map<string, Json>>)
    ensures r.Ok? ==> r.value.Keys == base.Keys - ArizonaDroppedPolicyKeys + {"vehicles"}
    ensures r.Ok? ==> forall k :: k in r.value && k != "vehicles" ==> r.value[k] == base[k]
    ensures r.Ok? ==> r.value["vehicles"].JArr?
    ensures r.Err? ==> "vehicles" in base && base["vehicles"].JArr?
  {
    var clean := base - ArizonaDroppedPolicyKeys;
    if "vehicles" in clean && clean["vehicles"].JArr? then
      match CleanVehicles(clean["vehicles"].items)
      case Err(e) => Err(e)
      case Ok(ws) => Ok(clean["vehicles" := JArr(ws)])
    else Ok(clean["vehicles" := JArr([])])
  }

  // ---------------------------------------------------------------------------
  // buildCovercubeRequest
  // ---------------------------------------------------------------------------

  /** `buildCovercubeRequest(input)` with the configuration as a parameter. */
  function BuildCovercubeRequest(input: Json, cfg: Config): (r: Result<map<string, Json>>)
    ensures ValidateStateRequirements(input).Some? ==> r == Err(ValidateStateRequirements(input).value)
    ensures r.Ok? ==> input.JObj? && BaseRequest(input.fields, cfg).Keys - ArizonaDroppedPolicyKeys
                                     - {"vehicles", "roadsideAssistance"} <= r.value.Keys
  {
    match ValidateStateRequirements(input)
    case Some(e) => Err(e)
    case None =>
      var base := BaseRequest(input.fields, cfg);
      if IsTexasState(Prop(input, "state")) then
        if IsNonOwnerFlag(input.fields) then Ok(BuildTexasNonOwnerRequest(base))
        else Ok(BuildTexasRequest(base))
      else BuildArizonaRequest(base)
  }
}
