/** What `buildCovercubeRequest` guarantees: the order of its checks, that it fails
    exactly when its validation does, where the backend fields come from, and the
    shape of the request it builds for each variant. */
module BuildRequestProperties {

  import opened JsonValue
  import opened Guards
  import opened Constants
  import opened BuildRequest

  // ---------------------------------------------------------------------------
  // Validation order
  // ---------------------------------------------------------------------------

  /** The Arizona checks are a first-error chain: the first failing policy-level
      check decides the error; once all pass, the vehicle scan runs on an array
      and a non-array `vehicles` raises a TypeError in `forEach`. */
  lemma ArizonaValidationOrder(m: map<string, Json>)
    requires Prop(JObj(m), "state") != Some(JStr("TX"))
    ensures var e := ChainError(ArizonaPolicyGuards(m));
      e.Some? ==> ValidateStateRequirements(JObj(m)) == Some(Error(e.value))
    ensures ChainError(ArizonaPolicyGuards(m)).None? ==>
      && "vehicles" in m
      && ValidateStateRequirements(JObj(m)) ==
           if m["vehicles"].JArr? then ScanVehicles(m["vehicles"].items, 0) else Some(TypeError)
  {
    var gs := ArizonaPolicyGuards(m);
    if ArizonaVehiclesMissing(m) {
      ChainErrorAt(gs, 0);
    } else if IsNonOwnerFlag(m) {
      ChainErrorAt(gs, 1);
    } else if TruthyField(m, "PIP") {
      ChainErrorAt(gs, 2);
    } else if TruthyField(m, "UMPD") {
      ChainErrorAt(gs, 3);
    } else if TruthyField(m, "priorbicoveragelimit") {
      ChainErrorAt(gs, 4);
    } else if TruthyField(m, "priorpipcoveragelimit") {
      ChainErrorAt(gs, 5);
    } else {
      assert forall i :: 0 <= i < |gs| ==> gs[i].passes;
    }
  }

  /** The checks on one Arizona vehicle object are a first-error chain over
      `vehiclepurchasedate`, `estimatemilage`, `ownershiplength`, `platenumber` and
      `platestate`, in that order. */
  lemma VehicleCheckOrder(f: map<string, Json>, index: nat)
    ensures var e := ChainError(VehicleGuards(f, index));
      VehicleIssue(JObj(f), index) == if e.Some? then Some(Error(e.value)) else None
  {
    var gs := VehicleGuards(f, index);
    if TruthyField(f, "vehiclepurchasedate") {
      ChainErrorAt(gs, 0);
    } else if TruthyField(f, "estimatemilage") {
      ChainErrorAt(gs, 1);
    } else if TruthyField(f, "ownershiplength") {
      ChainErrorAt(gs, 2);
    } else if TruthyField(f, "platenumber") {
      ChainErrorAt(gs, 3);
    } else if TruthyField(f, "platestate") {
      ChainErrorAt(gs, 4);
    } else {
      assert forall i :: 0 <= i < |gs| ==> gs[i].passes;
    }
  }

  /** Vehicles are counted from 1 in the message. */
  lemma VehicleMessageExample()
    ensures VehicleMessage(1, "platenumber") == "Vehicle 2 should not have platenumber for Arizona"
  {
    // The message is compared with the literal one concatenation at a time.
    assert NatToString(2) == ['2'];
    var a := "Vehicle " + ['2'];
    assert a == "Vehicle 2";
    var b := a + " should not have ";
    assert b == "Vehicle 2 should not have ";
    var c := b + "platenumber";
    assert c == "Vehicle 2 should not have platenumber";
    assert c + " for Arizona" == "Vehicle 2 should not have platenumber for Arizona";
  }

  /** Falsy values pass the vehicle checks; a truthy one fails them; a `null`
      vehicle raises a TypeError. */
  lemma VehicleCheckExamples()
    ensures VehicleIssue(JObj(map["platenumber" := JStr(""), "estimatemilage" := JNum(0.0)]), 0) == None
    ensures VehicleIssue(JObj(map["platenumber" := JStr("ABC123")]), 1)
              == Some(Error("Vehicle 2 should not have platenumber for Arizona"))
    ensures VehicleIssue(JNull, 0) == Some(TypeError)
  {
    VehicleMessageExample();
  }

  /** The Texas checks: a non-owner policy passes exactly when it has no non-empty
      vehicle array and no `roadsideAssistance`; an owned policy passes exactly when
      it has a non-empty vehicle array. */
  lemma TexasValidation(m: map<string, Json>)
    requires Prop(JObj(m), "state") == Some(JStr("TX"))
    ensures ValidateStateRequirements(JObj(m)).None? <==>
      if IsNonOwnerFlag(m) then !HasVehicleArray(m) && "roadsideAssistance" !in m else HasVehicleArray(m)
    ensures IsNonOwnerFlag(m) && HasVehicleArray(m) ==>
      ValidateStateRequirements(JObj(m)) == Some(Error(TexasNonOwnerVehiclesMessage))
    ensures IsNonOwnerFlag(m) && !HasVehicleArray(m) && "roadsideAssistance" in m ==>
      ValidateStateRequirements(JObj(m)) == Some(Error(TexasNonOwnerRoadsideMessage))
    ensures !IsNonOwnerFlag(m) && !HasVehicleArray(m) ==>
      ValidateStateRequirements(JObj(m)) == Some(Error(TexasVehicleRequiredMessage))
  {
  }

  /** An empty vehicle array passes the non-owner checks but fails the owned ones. */
  lemma TexasEmptyVehicles(m: map<string, Json>)
    requires "roadsideAssistance" !in m
    ensures ValidateStateRequirements(JObj(m["state" := JStr("TX")]["IsNonOwner" := JStr("Y")]["vehicles" := JArr([])])) == None
    ensures ValidateStateRequirements(JObj(m["state" := JStr("TX")]["IsNonOwner" := JStr("N")]["vehicles" := JArr([])]))
              == Some(Error(TexasVehicleRequiredMessage))
  {
  }

  /** Only "TX" is Texas: any other state, whatever its value, is checked exactly as
      "AZ" is. */
  lemma OtherStatesCheckedAsArizona(m: map<string, Json>, s: Json)
    requires s != JStr("TX")
    ensures ValidateStateRequirements(JObj(m["state" := s])) == ValidateStateRequirements(JObj(m["state" := JStr("AZ")]))
  {
  }

  /** Roots that are not objects: `null` and the other primitives raise TypeErrors,
      an array has no `vehicles` and fails the Arizona vehicle check. */
  lemma NonObjectRoots(items: seq<Json>, s: string)
    ensures ValidateStateRequirements(JNull) == Some(TypeError)
    ensures ValidateStateRequirements(JStr(s)) == Some(TypeError)
    ensures ValidateStateRequirements(JArr(items)) == Some(Error(ArizonaVehicleRequiredMessage))
  {
  }

  // ---------------------------------------------------------------------------
  // Success and failure
  // ---------------------------------------------------------------------------

  /** Arizona validation passes only on an object whose vehicles are an array of
      objects and arrays. */
  lemma ArizonaValidatedVehicles(m: map<string, Json>)
    requires Prop(JObj(m), "state") != Some(JStr("TX"))
    requires ValidateStateRequirements(JObj(m)).None?
    ensures "vehicles" in m && m["vehicles"].JArr?
    ensures forall i :: 0 <= i < |m["vehicles"].items| ==> !m["vehicles"].items[i].JNull?
  {
    ArizonaValidationOrder(m);
    var vs := m["vehicles"].items;
    forall i | 0 <= i < |vs|
      ensures !vs[i].JNull?
    {
      assert VehicleIssue(vs[i], i).None?;
    }
  }

  /** The builder fails exactly when its validation does, with the same error: none
      of the builders can fail on a validated input. */
  lemma BuildFailsOnlyInValidation(input: Json, cfg: Config)
    ensures BuildCovercubeRequest(input, cfg).Err? <==> ValidateStateRequirements(input).Some?
    ensures BuildCovercubeRequest(input, cfg).Err? ==>
      Some(BuildCovercubeRequest(input, cfg).error) == ValidateStateRequirements(input)
  {
    if ValidateStateRequirements(input).None? && !IsTexasState(Prop(input, "state")) {
      var m := input.fields;
      ArizonaValidatedVehicles(m);
      var base := BaseRequest(m, cfg);
      var clean := base - ArizonaDroppedPolicyKeys;
      assert clean["vehicles"] == m["vehicles"];
    }
  }

  /** An Arizona-path input whose policy-level checks fail is rejected by the
      builder with the first failing check's message. */
  lemma ArizonaPolicyRejected(m: map<string, Json>, cfg: Config)
    requires Prop(JObj(m), "state") != Some(JStr("TX"))
    requires ChainError(ArizonaPolicyGuards(m)).Some?
    ensures BuildCovercubeRequest(JObj(m), cfg) == Err(Error(ChainError(ArizonaPolicyGuards(m)).value))
  {
    ArizonaValidationOrder(m);
    BuildFailsOnlyInValidation(JObj(m), cfg);
  }

  // ---------------------------------------------------------------------------
  // The request of each variant
  // ---------------------------------------------------------------------------

  /** An owned Texas request is the base request with only `IsNonOwner` removed; its
      vehicles are a non-empty array. */
  lemma TexasOwnedRequestBuilt(m: map<string, Json>, cfg: Config)
    requires BuildCovercubeRequest(JObj(m), cfg).Ok?
    requires Prop(JObj(m), "state") == Some(JStr("TX")) && !IsNonOwnerFlag(m)
    ensures var r := BuildCovercubeRequest(JObj(m), cfg).value;
      && r.Keys == BaseRequest(m, cfg).Keys - {"IsNonOwner"}
      && (forall k :: k in r ==> r[k] == BaseRequest(m, cfg)[k])
      && "vehicles" in r && r["vehicles"] == m["vehicles"] && r["vehicles"].JArr? && |r["vehicles"].items| > 0
  {
  }

  /** A non-owner request has no `vehicles` and no `roadsideAssistance`, has
      `IsNonOwner` "Y", and carries every other key of the base request unchanged. */
  lemma TexasNonOwnerRequestBuilt(m: map<string, Json>, cfg: Config)
    requires BuildCovercubeRequest(JObj(m), cfg).Ok?
    requires Prop(JObj(m), "state") == Some(JStr("TX")) && IsNonOwnerFlag(m)
    ensures var r := BuildCovercubeRequest(JObj(m), cfg).value;
      && r.Keys == BaseRequest(m, cfg).Keys - {"vehicles", "roadsideAssistance"}
      && r["IsNonOwner"] == JStr("Y")
      && (forall k :: k in r ==> r[k] == BaseRequest(m, cfg)[k])
  {
  }

  /** An Arizona request lacks the twelve dropped policy keys, keeps every other key
      of the base request except `vehicles` unchanged, and carries the input's
      vehicles cleaned one by one, in the same number and order. */
  lemma ArizonaRequestBuilt(m: map<string, Json>, cfg: Config)
    requires BuildCovercubeRequest(JObj(m), cfg).Ok?
    requires Prop(JObj(m), "state") != Some(JStr("TX"))
    ensures var r := BuildCovercubeRequest(JObj(m), cfg).value;
      && r.Keys == BaseRequest(m, cfg).Keys - ArizonaDroppedPolicyKeys
      && (forall k :: k in r && k != "vehicles" ==> r[k] == BaseRequest(m, cfg)[k])
      && "vehicles" in m && m["vehicles"].JArr?
      && r["vehicles"].JArr? && |r["vehicles"].items| == |m["vehicles"].items|
      && forall i :: 0 <= i < |m["vehicles"].items| ==>
           Ok(r["vehicles"].items[i]) == CleanVehicle(m["vehicles"].items[i])
  {
    ArizonaValidatedVehicles(m);
    var base := BaseRequest(m, cfg);
    assert "vehicles" in base;
    assert (base - ArizonaDroppedPolicyKeys)["vehicles"] == m["vehicles"];
  }

  /** In an Arizona request every vehicle that was an object has lost the eight
      dropped vehicle keys and kept all its other keys. */
  lemma ArizonaVehiclesCleaned(m: map<string, Json>, cfg: Config, i: nat)
    requires BuildCovercubeRequest(JObj(m), cfg).Ok?
    requires Prop(JObj(m), "state") != Some(JStr("TX"))
    requires "vehicles" in m && m["vehicles"].JArr? && i < |m["vehicles"].items| && m["vehicles"].items[i].JObj?
    ensures var r := BuildCovercubeRequest(JObj(m), cfg).value;
      && r["vehicles"].JArr? && i < |r["vehicles"].items|
      && r["vehicles"].items[i] == JObj(m["vehicles"].items[i].fields - ArizonaDroppedVehicleKeys)
  {
    ArizonaRequestBuilt(m, cfg);
  }

  /** Whatever the variant, a key that no builder drops or rewrites keeps its base
      value. */
  lemma BuildKeepsOtherKeys(m: map<string, Json>, cfg: Config, k: string)
    requires BuildCovercubeRequest(JObj(m), cfg).Ok?
    requires k !in ArizonaDroppedPolicyKeys && k != "vehicles" && k != "roadsideAssistance"
    ensures var r := BuildCovercubeRequest(JObj(m), cfg).value;
      (k in r <==> k in BaseRequest(m, cfg)) && (k in r ==> r[k] == BaseRequest(m, cfg)[k])
  {
    if !IsTexasState(Prop(JObj(m), "state")) {
      ArizonaRequestBuilt(m, cfg);
    } else if IsNonOwnerFlag(m) {
      TexasNonOwnerRequestBuilt(m, cfg);
    } else {
      TexasOwnedRequestBuilt(m, cfg);
    }
  }

  // ---------------------------------------------------------------------------
  // Backend fields
  // ---------------------------------------------------------------------------

  /** No builder drops or rewrites a backend field. */
  lemma BackendKeysKept()
    ensures "action" !in ArizonaDroppedPolicyKeys && "username" !in ArizonaDroppedPolicyKeys
    ensures "password" !in ArizonaDroppedPolicyKeys && "transType" !in ArizonaDroppedPolicyKeys
    ensures "producerCode" !in ArizonaDroppedPolicyKeys
  {
  }

  /** The base request's backend fields: each is the input's own value when the
      input has that key, and the backend's otherwise. */
  lemma BaseRequestFields(m: map<string, Json>, cfg: Config)
    ensures var base := BaseRequest(m, cfg);
      && "action" in base && base["action"] == (if "action" in m then m["action"] else JStr("RATEQUOTE"))
      && "username" in base && base["username"] == (if "username" in m then m["username"] else JStr(cfg.username))
      && "password" in base && base["password"] == (if "password" in m then m["password"] else JStr(cfg.password))
      && "transType" in base && base["transType"] == (if "transType" in m then m["transType"] else JStr("NB"))
  {
  }

  /** In every variant the request carries `action`, `username`, `password` and
      `transType`; each is the input's own value when the input has that key (the
      input is spread last), and the backend's value otherwise. */
  lemma BackendFieldsInjected(m: map<string, Json>, cfg: Config)
    requires BuildCovercubeRequest(JObj(m), cfg).Ok?
    ensures var r := BuildCovercubeRequest(JObj(m), cfg).value;
      && "action" in r && r["action"] == (if "action" in m then m["action"] else JStr("RATEQUOTE"))
      && "username" in r && r["username"] == (if "username" in m then m["username"] else JStr(cfg.username))
      && "password" in r && r["password"] == (if "password" in m then m["password"] else JStr(cfg.password))
      && "transType" in r && r["transType"] == (if "transType" in m then m["transType"] else JStr("NB"))
  {
    BaseRequestFields(m, cfg);
    BackendKeysKept();
    BuildKeepsOtherKeys(m, cfg, "action");
    BuildKeepsOtherKeys(m, cfg, "username");
    BuildKeepsOtherKeys(m, cfg, "password");
    BuildKeepsOtherKeys(m, cfg, "transType");
  }

  /** With no `producerCode` in the input, the request's producer code is the
      configured code of its state, and there is none for a state other than the
      strings "AZ" and "TX". */
  lemma ProducerCodeInjected(m: map<string, Json>, cfg: Config)
    requires BuildCovercubeRequest(JObj(m), cfg).Ok? && "producerCode" !in m
    ensures var r := BuildCovercubeRequest(JObj(m), cfg).value;
      && (Prop(JObj(m), "state") == Some(JStr("AZ")) ==>
            "producerCode" in r && r["producerCode"] == JStr(cfg.producerCodes.az))
      && (Prop(JObj(m), "state") == Some(JStr("TX")) ==>
            "producerCode" in r && r["producerCode"] == JStr(cfg.producerCodes.tx))
      && (Prop(JObj(m), "state") != Some(JStr("AZ")) && Prop(JObj(m), "state") != Some(JStr("TX")) ==>
            "producerCode" !in r)
  {
    BackendKeysKept();
    BuildKeepsOtherKeys(m, cfg, "producerCode");
  }
}
