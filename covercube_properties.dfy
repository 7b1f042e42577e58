/** What `parseAndSanitizeQuote` and its schemas guarantee: exclusive dispatch on
    `state`/`IsNonOwner`, the keys each accepted variant must and must not carry,
    strip-not-reject for Arizona's Texas-only keys, idempotent sanitisation, and
    the date format. */
module CovercubeProperties {

  import opened JsonValue
  import opened CovercubeSchemas

  // ---------------------------------------------------------------------------
  // Object schemas in general
  // ---------------------------------------------------------------------------

  /** `z.undefined()` accepts nothing present, an object schema accepts only objects,
      and an array schema only arrays of at least its minimum length. */
  lemma AcceptedKinds(j: Json, s: Schema, fmt: Formats)
    requires Accepts(j, s, fmt)
    ensures !s.Undefined?
    ensures s.Object? ==> j.JObj?
    ensures s.ArrayOf? ==> j.JArr? && |j.items| >= s.min
  {
  }

  /** A strict object schema rejects any key outside its shape. */
  lemma UnknownKeyRejected(j: Json, shape: Shape, k: string, fmt: Formats)
    requires j.JObj? && k in j.fields && ShapeField(shape, k).None?
    ensures !Accepts(j, Object(shape), fmt)
  {
  }

  /** An accepted object carries each required key, with a value its field accepts,
      and each optional key it carries has such a value. */
  lemma FieldOf(j: Json, shape: Shape, k: string, fmt: Formats)
    requires Accepts(j, Object(shape), fmt) && ShapeField(shape, k).Some?
    ensures j.JObj?
    ensures ShapeField(shape, k).value.presence == Required ==> k in j.fields
    ensures k in j.fields ==> Accepts(j.fields[k], ShapeField(shape, k).value.schema, fmt)
  {
  }

  /** Leaving out keys whose fields are optional keeps an object accepted. */
  lemma RemoveOptionalKeys(m: map<string, Json>, shape: Shape, drop: set<string>, fmt: Formats)
    requires Accepts(JObj(m), Object(shape), fmt)
    requires forall k :: k in drop && ShapeField(shape, k).Some? ==> ShapeField(shape, k).value.presence == Optional
    ensures Accepts(JObj(m - drop), Object(shape), fmt)
  {
  }

  /** Setting a key of the shape to a value its field accepts keeps an object
      accepted. */
  lemma SetField(m: map<string, Json>, shape: Shape, k: string, v: Json, fmt: Formats)
    requires Accepts(JObj(m), Object(shape), fmt)
    requires ShapeField(shape, k).Some? && Accepts(v, ShapeField(shape, k).value.schema, fmt)
    ensures Accepts(JObj(m[k := v]), Object(shape), fmt)
  {
  }

  // ---------------------------------------------------------------------------
  // DateString
  // ---------------------------------------------------------------------------

  /** A DateString is exactly a four-digit year, a slash, a two-digit month, a
      slash and a two-digit day. */
  lemma DateStringShape(s: string)
    ensures IsDateString(s) <==>
      exists y: string, mo: string, d: string ::
        && |y| == 4 && |mo| == 2 && |d| == 2
        && AllDigits(y) && AllDigits(mo) && AllDigits(d)
        && s == y + "/" + mo + "/" + d
  {
    if IsDateString(s) {
      var y, mo, d := s[0..4], s[5..7], s[8..10];
      assert s == y + "/" + mo + "/" + d;
    }
    if exists y: string, mo: string, d: string ::
        && |y| == 4 && |mo| == 2 && |d| == 2
        && AllDigits(y) && AllDigits(mo) && AllDigits(d)
        && s == y + "/" + mo + "/" + d
    {
      var y: string, mo: string, d: string :|
        && |y| == 4 && |mo| == 2 && |d| == 2
        && AllDigits(y) && AllDigits(mo) && AllDigits(d)
        && s == y + "/" + mo + "/" + d;
      DateStringOf(y, mo, d);
    }
  }

  /** Joining four, two and two digits with slashes gives a DateString. */
  lemma DateStringOf(y: string, mo: string, d: string)
    requires |y| == 4 && |mo| == 2 && |d| == 2
    requires AllDigits(y) && AllDigits(mo) && AllDigits(d)
    ensures IsDateString(y + "/" + mo + "/" + d)
  {
    var t := y + "/" + mo + "/" + d;
    assert t[0..4] == y;
    assert t[5..7] == mo;
    assert t[8..10] == d;
  }

  /** Month-first dates such as "11/01/2025" and ISO dashes are rejected;
      "2025/11/01" is accepted. */
  lemma DateStringExamples()
    ensures IsDateString("2025/11/01")
    ensures !IsDateString("11/01/2025")
    ensures !IsDateString("2025-11-01")
    ensures !IsDateString("")
  {
    assert "11/01/2025"[4] == '1';
    assert "2025-11-01"[4] == '-';
  }

  // ---------------------------------------------------------------------------
  // The three request shapes
  // ---------------------------------------------------------------------------

  /** The three variants admit the same keys -- BasePolicySchema's plus `vehicles`
      and `drivers` -- and agree with BasePolicySchema on every key except `state`,
      `IsNonOwner`, `vehicles` and `drivers`. */
  lemma RequestShapes(k: string)
    ensures ArizonaRequestField(k).Some? <==> BasePolicyField(k).Some? || k == "vehicles" || k == "drivers"
    ensures TexasOwnedRequestField(k).Some? <==> ArizonaRequestField(k).Some?
    ensures TexasNonOwnerRequestField(k).Some? <==> ArizonaRequestField(k).Some?
    ensures k != "state" && k != "IsNonOwner" && k != "vehicles" && k != "drivers" ==>
      && ArizonaRequestField(k) == BasePolicyField(k)
      && TexasOwnedRequestField(k) == BasePolicyField(k)
      && TexasNonOwnerRequestField(k) == BasePolicyField(k)
  {
  }

  // ---------------------------------------------------------------------------
  // Dispatch
  // ---------------------------------------------------------------------------

  /** Exactly one outcome kind per input: the plain "unsupported state" Error exactly
      when `state` is neither the string "AZ" nor "TX" (a missing state, "az", "CA",
      a null, array or string root), and otherwise the result of the schema that the
      pre-check chose and of no other. */
  lemma ParseDispatch(input: Json, fmt: Formats)
    ensures var out := ParseAndSanitizeQuote(input, fmt);
      && (out.UnsupportedState? <==>
            Prop(input, "state") != Some(JStr("AZ")) && Prop(input, "state") != Some(JStr("TX")))
      && (out.UnsupportedState? ==> out.message == UnsupportedStateMessage)
      && (!out.UnsupportedState? ==> Some(out.variant) == ClassifyQuote(input))
      && (!out.UnsupportedState? ==> (out.Parsed? <==> Accepts(input, VariantSchema(out.variant), fmt)))
  {
  }

  /** The state test is `===`: case-sensitive and type-strict, and only an object
      root has a `state`. */
  lemma UnsupportedStates(m: map<string, Json>, fmt: Formats)
    ensures ParseAndSanitizeQuote(JObj(m["state" := JStr("az")]), fmt) == UnsupportedState(UnsupportedStateMessage)
    ensures ParseAndSanitizeQuote(JObj(m["state" := JStr("CA")]), fmt) == UnsupportedState(UnsupportedStateMessage)
    ensures ParseAndSanitizeQuote(JObj(m - {"state"}), fmt) == UnsupportedState(UnsupportedStateMessage)
    ensures ParseAndSanitizeQuote(JNull, fmt) == UnsupportedState(UnsupportedStateMessage)
    ensures ParseAndSanitizeQuote(JStr("AZ"), fmt) == UnsupportedState(UnsupportedStateMessage)
    ensures ParseAndSanitizeQuote(JArr([JObj(m)]), fmt) == UnsupportedState(UnsupportedStateMessage)
  {
  }

  /** "AZ" selects the Arizona schema even when `IsNonOwner` is "Y". */
  lemma ArizonaWinsOverNonOwnerFlag(m: map<string, Json>, fmt: Formats)
    requires "state" in m && m["state"] == JStr("AZ")
    requires "IsNonOwner" in m && m["IsNonOwner"] == JStr("Y")
    ensures ClassifyQuote(JObj(m)) == Some(Arizona)
    ensures Accepts(JObj(m), ArizonaRequest, fmt) ==>
      ParseAndSanitizeQuote(JObj(m), fmt) == Parsed(Arizona, JObj(ArizonaTransform(m)))
  {
  }

  // ---------------------------------------------------------------------------
  // The Arizona transform
  // ---------------------------------------------------------------------------

  /** StripVehicle removes exactly the five Texas-only vehicle keys and keeps every
      other key with its value. */
  lemma StripVehicleKeys(v: map<string, Json>)
    ensures StripVehicle(JObj(v)).JObj?
    ensures StripVehicle(JObj(v)).fields.Keys == v.Keys - ArizonaStrippedVehicleKeys
    ensures forall k :: k in v && k !in ArizonaStrippedVehicleKeys ==> StripVehicle(JObj(v)).fields[k] == v[k]
  {
  }

  /** The transform keeps the number and order of vehicles and strips each one. */
  lemma ArizonaTransformVehicles(m: map<string, Json>)
    requires "vehicles" in m && m["vehicles"].JArr?
    ensures "vehicles" in ArizonaTransform(m)
    ensures var out := ArizonaTransform(m)["vehicles"];
      && out.JArr? && |out.items| == |m["vehicles"].items|
      && forall i :: 0 <= i < |out.items| ==> out.items[i] == StripVehicle(m["vehicles"].items[i])
  {
  }

  lemma {:induction false} StripVehiclesIdempotent(vs: seq<Json>)
    ensures StripVehicles(StripVehicles(vs)) == StripVehicles(vs)
    decreases |vs|
  {
    if vs != [] {
      var v := vs[0];
      if v.JObj? {
        assert (v.fields - ArizonaStrippedVehicleKeys) - ArizonaStrippedVehicleKeys
            == v.fields - ArizonaStrippedVehicleKeys;
      }
      StripVehiclesIdempotent(vs[1..]);
      assert StripVehicles(vs)[1..] == StripVehicles(vs[1..]);
    }
  }

  /** The transform's output holds none of the keys it strips, so applying it again
      changes nothing. */
  lemma ArizonaTransformIdempotent(m: map<string, Json>)
    ensures ArizonaTransform(ArizonaTransform(m)) == ArizonaTransform(m)
  {
    var once := ArizonaTransform(m);
    if "vehicles" in once && once["vehicles"].JArr? {
      var rest := m - ArizonaStrippedPolicyKeys;
      assert "vehicles" in rest && rest["vehicles"].JArr?;
      StripVehiclesIdempotent(rest["vehicles"].items);
    }
  }

  /** The Arizona schema inherits the six Texas-only policy keys from the base
      schema, each optional. */
  lemma ArizonaStrippedPolicyFields()
    ensures ArizonaRequestField("UMPD") == Opt(Str)
    ensures ArizonaRequestField("PIP") == Opt(StrOrNum)
    ensures ArizonaRequestField("priorpolicynumber") == Opt(Str)
    ensures ArizonaRequestField("priorbicoveragelimit") == Opt(Str)
    ensures ArizonaRequestField("priorpipcoveragelimit") == Opt(StrOrNum)
    ensures ArizonaRequestField("IsNonOwner") == Opt(YesNo)
  {
  }

  /** The policy keys the transform drops are optional in the Arizona schema. */
  lemma StrippedPolicyKeysOptional()
    ensures forall k :: k in ArizonaStrippedPolicyKeys ==>
      ShapeField(ArizonaRequestShape, k).Some? && ShapeField(ArizonaRequestShape, k).value.presence == Optional
  {
    ArizonaStrippedPolicyFields();
  }

  /** The vehicle keys the transform drops are optional in the vehicle schema. */
  lemma StrippedVehicleKeysOptional()
    ensures forall k :: k in ArizonaStrippedVehicleKeys ==>
      ShapeField(VehicleShape, k).Some? && ShapeField(VehicleShape, k).value.presence == Optional
  {
  }

  /** A stripped vehicle still satisfies the vehicle schema: the five keys it loses
      are optional. */
  lemma StripVehiclePreservesSchema(v: Json, fmt: Formats)
    requires Accepts(v, VehicleSchema, fmt)
    ensures Accepts(StripVehicle(v), VehicleSchema, fmt)
  {
    StrippedVehicleKeysOptional();
    RemoveOptionalKeys(v.fields, VehicleShape, ArizonaStrippedVehicleKeys, fmt);
  }

  /** Stripping every vehicle of an accepted vehicle list gives an accepted list. */
  lemma StripVehiclesPreservesSchema(vs: seq<Json>, fmt: Formats)
    requires Accepts(JArr(vs), ArrayOf(VehicleSchema, 1), fmt)
    ensures Accepts(JArr(StripVehicles(vs)), ArrayOf(VehicleSchema, 1), fmt)
  {
    var ws := StripVehicles(vs);
    forall i | 0 <= i < |ws|
      ensures Accepts(ws[i], VehicleSchema, fmt)
    {
      StripVehiclePreservesSchema(vs[i], fmt);
    }
  }

  /** The sanitized Arizona value satisfies the Arizona schema again: the six keys
      the transform drops are optional there, and the stripped vehicles are still
      vehicles. */
  lemma ArizonaTransformPreservesSchema(m: map<string, Json>, fmt: Formats)
    requires Accepts(JObj(m), ArizonaRequest, fmt)
    ensures Accepts(JObj(ArizonaTransform(m)), ArizonaRequest, fmt)
  {
    var rest := m - ArizonaStrippedPolicyKeys;
    StrippedPolicyKeysOptional();
    RemoveOptionalKeys(m, ArizonaRequestShape, ArizonaStrippedPolicyKeys, fmt);
    FieldOf(JObj(m), ArizonaRequestShape, "vehicles", fmt);
    StripVehiclesPreservesSchema(m["vehicles"].items, fmt);
    SetField(rest, ArizonaRequestShape, "vehicles", JArr(StripVehicles(m["vehicles"].items)), fmt);
  }

  /** Sanitisation is idempotent: parsing a sanitized value again returns it
      unchanged, under the same variant. */
  lemma ParseAndSanitizeIdempotent(input: Json, fmt: Formats)
    requires ParseAndSanitizeQuote(input, fmt).Parsed?
    ensures var out := ParseAndSanitizeQuote(input, fmt);
      ParseAndSanitizeQuote(out.value, fmt) == out
  {
    var out := ParseAndSanitizeQuote(input, fmt);
    if out.variant == Arizona {
      var m := input.fields;
      var once := ArizonaTransform(m);
      ArizonaTransformPreservesSchema(m, fmt);
      ArizonaTransformIdempotent(m);
      assert Prop(JObj(once), "state") == Some(JStr("AZ"));
    }
  }

  // ---------------------------------------------------------------------------
  // What each accepted variant looks like
  // ---------------------------------------------------------------------------

  /** A quote parsed as Arizona was an object accepted by the Arizona schema, and
      its value is the transform of that object. */
  lemma ArizonaParsed(input: Json, fmt: Formats)
    requires ParseAndSanitizeQuote(input, fmt).Parsed?
    requires ParseAndSanitizeQuote(input, fmt).variant == Arizona
    ensures Accepts(input, ArizonaRequest, fmt) && input.JObj?
    ensures ParseAndSanitizeQuote(input, fmt).value == JObj(ArizonaTransform(input.fields))
  {
  }

  /** A quote parsed as one of the Texas variants was accepted by that variant's
      schema and is returned unchanged. */
  lemma TexasParsed(input: Json, fmt: Formats)
    requires ParseAndSanitizeQuote(input, fmt).Parsed?
    requires ParseAndSanitizeQuote(input, fmt).variant != Arizona
    ensures Accepts(input, VariantSchema(ParseAndSanitizeQuote(input, fmt).variant), fmt)
    ensures ParseAndSanitizeQuote(input, fmt).value == input
  {
  }

  /** An accepted Arizona quote comes from a value of the Arizona schema and its
      sanitized form is again one, with state "AZ" and none of the six Texas-only
      policy keys. */
  lemma ArizonaAcceptedPolicy(input: Json, fmt: Formats)
    requires ParseAndSanitizeQuote(input, fmt).Parsed?
    requires ParseAndSanitizeQuote(input, fmt).variant == Arizona
    ensures Accepts(input, ArizonaRequest, fmt)
    ensures var y := ParseAndSanitizeQuote(input, fmt).value;
      && y == JObj(ArizonaTransform(input.fields))
      && Accepts(y, ArizonaRequest, fmt)
      && "state" in y.fields && y.fields["state"] == JStr("AZ")
      && forall k :: k in ArizonaStrippedPolicyKeys ==> k !in y.fields
  {
    ArizonaParsed(input, fmt);
    ArizonaTransformPreservesSchema(input.fields, fmt);
    FieldOf(input, ArizonaRequestShape, "state", fmt);
  }

  /** The vehicles of an Arizona request, once transformed: at least one, each an
      object without the five Texas-only vehicle keys. */
  lemma ArizonaRequestVehicles(m: map<string, Json>, fmt: Formats)
    requires Accepts(JObj(m), ArizonaRequest, fmt)
    ensures var y := ArizonaTransform(m);
      && "vehicles" in y && y["vehicles"].JArr? && |y["vehicles"].items| >= 1
      && forall i, k :: 0 <= i < |y["vehicles"].items| && k in ArizonaStrippedVehicleKeys ==>
           y["vehicles"].items[i].JObj? && k !in y["vehicles"].items[i].fields
  {
    FieldOf(JObj(m), ArizonaRequestShape, "vehicles", fmt);
    ArizonaTransformVehicles(m);
    var vs := m["vehicles"].items;
    var ws := ArizonaTransform(m)["vehicles"].items;
    forall i, k | 0 <= i < |ws| && k in ArizonaStrippedVehicleKeys
      ensures ws[i].JObj? && k !in ws[i].fields
    {
      assert Accepts(vs[i], VehicleSchema, fmt);
      StripVehicleKeys(vs[i].fields);
    }
  }

  /** An accepted Arizona quote has at least one vehicle, each an object without the
      five Texas-only vehicle keys. */
  lemma ArizonaAcceptedVehicles(input: Json, fmt: Formats)
    requires ParseAndSanitizeQuote(input, fmt).Parsed?
    requires ParseAndSanitizeQuote(input, fmt).variant == Arizona
    ensures var y := ParseAndSanitizeQuote(input, fmt).value;
      && y.JObj? && "vehicles" in y.fields && y.fields["vehicles"].JArr?
      && |y.fields["vehicles"].items| >= 1
      && forall i, k :: 0 <= i < |y.fields["vehicles"].items| && k in ArizonaStrippedVehicleKeys ==>
           y.fields["vehicles"].items[i].JObj? && k !in y.fields["vehicles"].items[i].fields
  {
    ArizonaParsed(input, fmt);
    ArizonaRequestVehicles(input.fields, fmt);
  }

  /** What ArizonaDriverSchema guarantees of a driver: an Arizona licence, a Y/N
      marital status and SR-22 flag, and a non-empty licence number and status. */
  ghost predicate ArizonaDriverFacts(d: Json)
  {
    && d.JObj?
    && "licenseState" in d.fields && d.fields["licenseState"] == JStr("AZ")
    && "married" in d.fields && d.fields["married"] in {JStr("Y"), JStr("N")}
    && "sr22" in d.fields && d.fields["sr22"] in {JStr("Y"), JStr("N")}
    && "licenseNumber" in d.fields && d.fields["licenseNumber"].JStr? && d.fields["licenseNumber"].s != ""
    && "licenseStatus" in d.fields && d.fields["licenseStatus"].JStr? && d.fields["licenseStatus"].s != ""
  }

  /** Every driver ArizonaDriverSchema accepts has those facts. */
  lemma ArizonaDriverAccepted(d: Json, fmt: Formats)
    requires Accepts(d, ArizonaDriverSchema, fmt)
    ensures ArizonaDriverFacts(d)
  {
    FieldOf(d, ArizonaDriverShape, "licenseState", fmt);
    FieldOf(d, ArizonaDriverShape, "married", fmt);
    FieldOf(d, ArizonaDriverShape, "sr22", fmt);
    FieldOf(d, ArizonaDriverShape, "licenseNumber", fmt);
    FieldOf(d, ArizonaDriverShape, "licenseStatus", fmt);
  }

  /** The drivers of an Arizona request: at least one, each with those facts. */
  lemma ArizonaRequestDrivers(m: map<string, Json>, fmt: Formats)
    requires Accepts(JObj(m), ArizonaRequest, fmt)
    ensures "drivers" in m && m["drivers"].JArr? && |m["drivers"].items| >= 1
    ensures forall i :: 0 <= i < |m["drivers"].items| ==> ArizonaDriverFacts(m["drivers"].items[i])
  {
    FieldOf(JObj(m), ArizonaRequestShape, "drivers", fmt);
    var ds := m["drivers"].items;
    forall i | 0 <= i < |ds|
      ensures ArizonaDriverFacts(ds[i])
    {
      ArizonaDriverAccepted(ds[i], fmt);
    }
  }

  /** Every driver of an accepted Arizona quote has those facts; there is at least
      one driver, and the transform leaves the drivers as they were. */
  lemma ArizonaAcceptedDrivers(input: Json, fmt: Formats)
    requires ParseAndSanitizeQuote(input, fmt).Parsed?
    requires ParseAndSanitizeQuote(input, fmt).variant == Arizona
    ensures var y := ParseAndSanitizeQuote(input, fmt).value;
      && y.JObj? && "drivers" in y.fields && y.fields["drivers"] == input.fields["drivers"]
      && y.fields["drivers"].JArr? && |y.fields["drivers"].items| >= 1
      && forall i :: 0 <= i < |y.fields["drivers"].items| ==> ArizonaDriverFacts(y.fields["drivers"].items[i])
  {
    ArizonaParsed(input, fmt);
    ArizonaRequestDrivers(input.fields, fmt);
    ArizonaTransformKeepsDrivers(input.fields);
  }

  /** The transform leaves `drivers` alone. */
  lemma ArizonaTransformKeepsDrivers(m: map<string, Json>)
    requires "drivers" in m
    ensures "drivers" in ArizonaTransform(m) && ArizonaTransform(m)["drivers"] == m["drivers"]
  {
    assert "drivers" !in ArizonaStrippedPolicyKeys;
  }

  /** Every driver the Texas driver schema accepts holds a Texas licence. */
  lemma TexasDriverAccepted(d: Json, fmt: Formats)
    requires Accepts(d, TexasDriverSchema, fmt)
    ensures d.JObj? && "licenseState" in d.fields && d.fields["licenseState"] == JStr("TX")
  {
    FieldOf(d, TexasDriverShape, "licenseState", fmt);
  }

  /** What the owned Texas schema guarantees: no `IsNonOwner` (it admits only "Y"),
      state "TX", at least one vehicle and at least one driver, each with a Texas
      licence. */
  lemma TexasOwnedRequestFacts(m: map<string, Json>, fmt: Formats)
    requires Accepts(JObj(m), TexasOwnedRequest, fmt)
    requires "IsNonOwner" in m ==> m["IsNonOwner"] != JStr("Y")
    ensures "IsNonOwner" !in m
    ensures "state" in m && m["state"] == JStr("TX")
    ensures "vehicles" in m && m["vehicles"].JArr? && |m["vehicles"].items| >= 1
    ensures "drivers" in m && m["drivers"].JArr? && |m["drivers"].items| >= 1
    ensures forall i :: 0 <= i < |m["drivers"].items| ==>
      var d := m["drivers"].items[i];
      d.JObj? && "licenseState" in d.fields && d.fields["licenseState"] == JStr("TX")
  {
    FieldOf(JObj(m), TexasOwnedRequestShape, "IsNonOwner", fmt);
    FieldOf(JObj(m), TexasOwnedRequestShape, "state", fmt);
    FieldOf(JObj(m), TexasOwnedRequestShape, "vehicles", fmt);
    FieldOf(JObj(m), TexasOwnedRequestShape, "drivers", fmt);
    var ds := m["drivers"].items;
    forall i | 0 <= i < |ds|
      ensures ds[i].JObj? && "licenseState" in ds[i].fields && ds[i].fields["licenseState"] == JStr("TX")
    {
      TexasDriverAccepted(ds[i], fmt);
    }
  }

  /** An accepted owned Texas quote is returned unchanged, never carries `IsNonOwner`
      ("Y" is routed to the non-owner schema, and the owned schema admits nothing
      else), has at least one vehicle and at least one driver, each with a Texas
      licence. */
  lemma TexasOwnedAccepted(input: Json, fmt: Formats)
    requires ParseAndSanitizeQuote(input, fmt).Parsed?
    requires ParseAndSanitizeQuote(input, fmt).variant == TexasOwned
    ensures ParseAndSanitizeQuote(input, fmt).value == input
    ensures input.JObj? && "IsNonOwner" !in input.fields
    ensures "state" in input.fields && input.fields["state"] == JStr("TX")
    ensures "vehicles" in input.fields && input.fields["vehicles"].JArr? && |input.fields["vehicles"].items| >= 1
    ensures "drivers" in input.fields && input.fields["drivers"].JArr? && |input.fields["drivers"].items| >= 1
    ensures forall i :: 0 <= i < |input.fields["drivers"].items| ==>
      var d := input.fields["drivers"].items[i];
      d.JObj? && "licenseState" in d.fields && d.fields["licenseState"] == JStr("TX")
  {
    TexasParsed(input, fmt);
    assert ClassifyQuote(input) == Some(TexasOwned);
    TexasOwnedRequestFacts(input.fields, fmt);
  }

  /** What the non-owner schema guarantees: `IsNonOwner` "Y", no `vehicles` key at
      all, state "TX" and at least one driver. */
  lemma TexasNonOwnerRequestFacts(m: map<string, Json>, fmt: Formats)
    requires Accepts(JObj(m), TexasNonOwnerRequest, fmt)
    ensures "vehicles" !in m
    ensures "IsNonOwner" in m && m["IsNonOwner"] == JStr("Y")
    ensures "state" in m && m["state"] == JStr("TX")
    ensures "drivers" in m && m["drivers"].JArr? && |m["drivers"].items| >= 1
  {
    FieldOf(JObj(m), TexasNonOwnerRequestShape, "vehicles", fmt);
    FieldOf(JObj(m), TexasNonOwnerRequestShape, "IsNonOwner", fmt);
    FieldOf(JObj(m), TexasNonOwnerRequestShape, "state", fmt);
    FieldOf(JObj(m), TexasNonOwnerRequestShape, "drivers", fmt);
  }

  /** An accepted non-owner quote is returned unchanged, has `IsNonOwner` "Y", no
      `vehicles` key at all, and at least one driver. */
  lemma TexasNonOwnerAccepted(input: Json, fmt: Formats)
    requires ParseAndSanitizeQuote(input, fmt).Parsed?
    requires ParseAndSanitizeQuote(input, fmt).variant == TexasNonOwner
    ensures ParseAndSanitizeQuote(input, fmt).value == input
    ensures input.JObj? && "vehicles" !in input.fields
    ensures "IsNonOwner" in input.fields && input.fields["IsNonOwner"] == JStr("Y")
    ensures "drivers" in input.fields && input.fields["drivers"].JArr? && |input.fields["drivers"].items| >= 1
  {
    TexasParsed(input, fmt);
    TexasNonOwnerRequestFacts(input.fields, fmt);
  }

  // ---------------------------------------------------------------------------
  // What is rejected, and what is stripped instead
  // ---------------------------------------------------------------------------

  /** A non-owner quote carrying any `vehicles` value -- even `[]` -- is rejected by
      the non-owner schema. The custom "Non-Owner policies must not include vehicles."
      issue for a non-empty array therefore never decides the outcome on its own. */
  lemma NonOwnerRejectsVehicles(m: map<string, Json>, fmt: Formats)
    requires "state" in m && m["state"] == JStr("TX")
    requires "IsNonOwner" in m && m["IsNonOwner"] == JStr("Y")
    requires "vehicles" in m
    ensures ParseAndSanitizeQuote(JObj(m), fmt) == SchemaError(TexasNonOwner)
  {
    if Accepts(JObj(m), TexasNonOwnerRequest, fmt) {
      TexasNonOwnerRequestFacts(m, fmt);
    }
  }

  /** The same holds for an empty vehicle list. */
  lemma NonOwnerRejectsEmptyVehicles(m: map<string, Json>, fmt: Formats)
    requires "state" in m && m["state"] == JStr("TX")
    requires "IsNonOwner" in m && m["IsNonOwner"] == JStr("Y")
    ensures ParseAndSanitizeQuote(JObj(m["vehicles" := JArr([])]), fmt) == SchemaError(TexasNonOwner)
  {
    NonOwnerRejectsVehicles(m["vehicles" := JArr([])], fmt);
  }

  /** A Texas quote whose `IsNonOwner` is present but not "Y" (e.g. "N") goes to the
      owned schema, which rejects it. */
  lemma TexasOwnedRejectsOtherNonOwnerFlag(m: map<string, Json>, fmt: Formats)
    requires "state" in m && m["state"] == JStr("TX")
    requires "IsNonOwner" in m && m["IsNonOwner"] != JStr("Y")
    ensures ParseAndSanitizeQuote(JObj(m), fmt) == SchemaError(TexasOwned)
  {
    if Accepts(JObj(m), TexasOwnedRequest, fmt) {
      TexasOwnedRequestFacts(m, fmt);
    }
  }

  /** Strictness: a key outside the request keys rejects any quote with a supported
      state. */
  lemma UnknownKeysRejected(m: map<string, Json>, k: string, fmt: Formats)
    requires "state" in m && (m["state"] == JStr("AZ") || m["state"] == JStr("TX"))
    requires k in m && BasePolicyField(k).None? && k != "vehicles" && k != "drivers"
    ensures ParseAndSanitizeQuote(JObj(m), fmt).SchemaError?
  {
    RequestShapes(k);
  }

  /** The four driver keys Arizona requires and Texas leaves optional. */
  const StateDependentDriverKeys: set<string> := {"married", "licenseNumber", "licenseStatus", "sr22"}

  /** A Texas driver stays acceptable without marital status, licence number,
      licence status and SR-22 flag; an Arizona driver never lacks them. */
  lemma TexasDriverExtrasOptional(d: map<string, Json>, k: string, fmt: Formats)
    requires k in StateDependentDriverKeys
    ensures Accepts(JObj(d), TexasDriverSchema, fmt) ==>
      Accepts(JObj(d - StateDependentDriverKeys), TexasDriverSchema, fmt)
    ensures !Accepts(JObj(d - {k}), ArizonaDriverSchema, fmt)
  {
    assert TexasDriverField("married") == Opt(YesNo) && TexasDriverField("sr22") == Opt(YesNo);
    assert TexasDriverField("licenseNumber") == Opt(Str) && TexasDriverField("licenseStatus") == Opt(Str);
    if Accepts(JObj(d), TexasDriverSchema, fmt) {
      RemoveOptionalKeys(d, TexasDriverShape, StateDependentDriverKeys, fmt);
    }
    if Accepts(JObj(d - {k}), ArizonaDriverSchema, fmt) {
      ArizonaDriverAccepted(JObj(d - {k}), fmt);
    }
  }

  /** Texas drivers may not carry `Sr22Date`, which Arizona drivers may. */
  lemma Sr22DateOnlyForArizona(d: map<string, Json>, fmt: Formats)
    requires "Sr22Date" in d
    ensures !Accepts(JObj(d), TexasDriverSchema, fmt)
    ensures ArizonaDriverField("Sr22Date") == Some(Field(Optional, Date))
  {
  }

  /** Adding Texas-only `PIP`, `UMPD`, `priorpolicynumber` and `IsNonOwner` values to
      an acceptable Arizona quote keeps it acceptable. */
  lemma ArizonaAcceptsTexasOnlyKeys(m: map<string, Json>, fmt: Formats)
    requires Accepts(JObj(m), ArizonaRequest, fmt)
    ensures Accepts(JObj(m["PIP" := JStr("2500")]["UMPD" := JStr("25")]
                          ["priorpolicynumber" := JStr("TX123456")]["IsNonOwner" := JStr("Y")]),
                    ArizonaRequest, fmt)
  {
    ArizonaStrippedPolicyFields();
    var m1 := m["PIP" := JStr("2500")];
    SetField(m, ArizonaRequestShape, "PIP", JStr("2500"), fmt);
    var m2 := m1["UMPD" := JStr("25")];
    SetField(m1, ArizonaRequestShape, "UMPD", JStr("25"), fmt);
    var m3 := m2["priorpolicynumber" := JStr("TX123456")];
    SetField(m2, ArizonaRequestShape, "priorpolicynumber", JStr("TX123456"), fmt);
    SetField(m3, ArizonaRequestShape, "IsNonOwner", JStr("Y"), fmt);
  }

  /** Strip, not reject: such a quote is parsed as Arizona, and the sanitized value
      carries none of those keys. */
  lemma ArizonaStripsTexasOnlyKeys(m: map<string, Json>, fmt: Formats)
    requires Accepts(JObj(m), ArizonaRequest, fmt)
    ensures var m' := m["PIP" := JStr("2500")]["UMPD" := JStr("25")]
                       ["priorpolicynumber" := JStr("TX123456")]["IsNonOwner" := JStr("Y")];
      && ParseAndSanitizeQuote(JObj(m'), fmt).Parsed?
      && ParseAndSanitizeQuote(JObj(m'), fmt).variant == Arizona
      && var y := ParseAndSanitizeQuote(JObj(m'), fmt).value.fields;
         "PIP" !in y && "UMPD" !in y && "priorpolicynumber" !in y && "IsNonOwner" !in y
  {
    var m' := m["PIP" := JStr("2500")]["UMPD" := JStr("25")]
               ["priorpolicynumber" := JStr("TX123456")]["IsNonOwner" := JStr("Y")];
    ArizonaAcceptsTexasOnlyKeys(m, fmt);
    FieldOf(JObj(m), ArizonaRequestShape, "state", fmt);
    assert ClassifyQuote(JObj(m')) == Some(Arizona);
  }

  // ---------------------------------------------------------------------------
  // The response schema
  // ---------------------------------------------------------------------------

  /** The scalar part of an accepted response: a non-empty string `quoteCode`,
      four numbers, and two strings the URL check accepts. */
  lemma ResponseScalars(raw: Json, fmt: Formats)
    requires Accepts(raw, CovercubeResponseSchema, fmt)
    ensures raw.JObj?
    ensures "quoteCode" in raw.fields && raw.fields["quoteCode"].JStr? && |raw.fields["quoteCode"].s| >= 1
    ensures "quotePremium" in raw.fields && raw.fields["quotePremium"].JNum?
    ensures "quoteFeesTotal" in raw.fields && raw.fields["quoteFeesTotal"].JNum?
    ensures "quoteTotal" in raw.fields && raw.fields["quoteTotal"].JNum?
    ensures "policyFee" in raw.fields && raw.fields["policyFee"].JNum?
    ensures "viewQuote" in raw.fields && raw.fields["viewQuote"].JStr? && fmt.isUrl(raw.fields["viewQuote"].s)
    ensures "consumerBridge" in raw.fields && raw.fields["consumerBridge"].JStr?
              && fmt.isUrl(raw.fields["consumerBridge"].s)
  {
    FieldOf(raw, CovercubeResponseShape, "quoteCode", fmt);
    FieldOf(raw, CovercubeResponseShape, "quotePremium", fmt);
    FieldOf(raw, CovercubeResponseShape, "quoteFeesTotal", fmt);
    FieldOf(raw, CovercubeResponseShape, "quoteTotal", fmt);
    FieldOf(raw, CovercubeResponseShape, "policyFee", fmt);
    FieldOf(raw, CovercubeResponseShape, "viewQuote", fmt);
    FieldOf(raw, CovercubeResponseShape, "consumerBridge", fmt);
  }

  /** The lists of an accepted response: `drivers`, `coverages` and `payplan` are
      arrays, possibly empty, and every plan has a whole number of instalments. */
  lemma ResponseLists(raw: Json, fmt: Formats)
    requires Accepts(raw, CovercubeResponseSchema, fmt)
    ensures raw.JObj?
    ensures "drivers" in raw.fields && raw.fields["drivers"].JArr?
    ensures "coverages" in raw.fields && raw.fields["coverages"].JArr?
    ensures "payplan" in raw.fields && raw.fields["payplan"].JArr?
    ensures forall i :: 0 <= i < |raw.fields["payplan"].items| ==>
      var p := raw.fields["payplan"].items[i];
      p.JObj? && "instalments" in p.fields && p.fields["instalments"].JNum? && IsInteger(p.fields["instalments"].n)
  {
    FieldOf(raw, CovercubeResponseShape, "drivers", fmt);
    FieldOf(raw, CovercubeResponseShape, "coverages", fmt);
    FieldOf(raw, CovercubeResponseShape, "payplan", fmt);
    var ps := raw.fields["payplan"].items;
    forall i | 0 <= i < |ps|
      ensures ps[i].JObj? && "instalments" in ps[i].fields && ps[i].fields["instalments"].JNum?
              && IsInteger(ps[i].fields["instalments"].n)
    {
      PayplanInstalments(ps[i], fmt);
    }
  }

  /** A plan the payplan schema accepts has a whole number of instalments. */
  lemma PayplanInstalments(p: Json, fmt: Formats)
    requires Accepts(p, Object(PayplanShape), fmt)
    ensures p.JObj? && "instalments" in p.fields && p.fields["instalments"].JNum? && IsInteger(p.fields["instalments"].n)
  {
    FieldOf(p, PayplanShape, "instalments", fmt);
  }

  /** An empty `quoteCode` is rejected. */
  lemma EmptyQuoteCodeRejected(m: map<string, Json>, fmt: Formats)
    ensures !Accepts(JObj(m["quoteCode" := JStr("")]), CovercubeResponseSchema, fmt)
  {
    if Accepts(JObj(m["quoteCode" := JStr("")]), CovercubeResponseSchema, fmt) {
      ResponseScalars(JObj(m["quoteCode" := JStr("")]), fmt);
    }
  }

  /** A fractional instalment count is rejected. */
  lemma FractionalInstalmentsRejected(p: map<string, Json>, fmt: Formats)
    ensures !Accepts(JObj(p["instalments" := JNum(2.5)]), Object(PayplanShape), fmt)
  {
    if Accepts(JObj(p["instalments" := JNum(2.5)]), Object(PayplanShape), fmt) {
      PayplanInstalments(JObj(p["instalments" := JNum(2.5)]), fmt);
    }
  }
}
