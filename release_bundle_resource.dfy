/**
 * The plugin-framework form of the release-bundle webhook resource: the
 * configuration check and the criteria parts of the mapping between the
 * resource model and the API model. Each operation appends to a list of
 * diagnostics step by step, so it is written as a method. The base
 * webhook code it calls is passed in as functions.
 */
module ReleaseBundleWebhookResource {
  import opened Wrappers
  import opened Json
  import opened Framework
  import opened ReleaseBundleCriteria
  import ReleaseBundleSdkV2

  /** The name the schema gives the name-set attribute; the code reads `RegisteredNamesAttr`. */
  const SelectedBuildsAttr := "selected_builds"

  /** The plural key `fromAPIModel` reads; the struct tag is `AnyReleaseBundleKey`. */
  const AnyReleaseBundlesKey := "anyReleaseBundles"

  /**
   * `releaseBundleCriteriaSetResourceModelAttributeTypes`: the pattern
   * attribute types of the base criteria with the two release-bundle
   * attributes laid over them.
   */
  function CriteriaAttrTypes(patternTypes: map<string, AttrType>): (r: map<string, AttrType>)
    ensures r.Keys == patternTypes.Keys + {AnyReleaseBundleAttr, RegisteredNamesAttr}
    ensures r[AnyReleaseBundleAttr] == BoolType && r[RegisteredNamesAttr] == StringSetType
    ensures forall k :: k in patternTypes && k != AnyReleaseBundleAttr && k != RegisteredNamesAttr ==>
              r[k] == patternTypes[k]
  {
    patternTypes[AnyReleaseBundleAttr := BoolType][RegisteredNamesAttr := StringSetType]
  }

  /** The path `criteria[<obj>].any_release_bundle` the validation error is reported at. */
  function FlagPath(criteriaObj: ObjectValue): seq<PathStep> {
    [AttributeName("criteria"), SetElement(criteriaObj), AttributeName(AnyReleaseBundleAttr)]
  }

  function InvalidCriteriaDiagnostic(criteriaObj: ObjectValue): (d: Diagnostic)
    ensures d.severity == Error && d.detail == EmptyNamesMessage
    ensures d.summary == "Invalid Attribute Configuration"
    ensures d.path == [AttributeName("criteria"), SetElement(criteriaObj), AttributeName(AnyReleaseBundleAttr)]
  {
    AttributeError(FlagPath(criteriaObj), "Invalid Attribute Configuration", EmptyNamesMessage)
  }

  /**
   * What `ValidateConfig` asserts about the first criteria element once the
   * configuration was read: the flag attribute is a Bool, and when the flag
   * is false the name attribute is a Set.
   */
  predicate ValidatableCriteria(criteria: seq<ObjectValue>) {
    && |criteria| > 0
    && AnyReleaseBundleAttr in Attributes(criteria[0])
    && Attributes(criteria[0])[AnyReleaseBundleAttr].Bool?
    && (!ValueBool(Attributes(criteria[0])[AnyReleaseBundleAttr].b) ==>
          RegisteredNamesAttr in Attributes(criteria[0]) &&
          Attributes(criteria[0])[RegisteredNamesAttr].StringSet?)
  }

  /** The rejected case: the flag reads false and the name set has no elements. */
  predicate CriteriaRejected(criteria: seq<ObjectValue>)
    requires ValidatableCriteria(criteria)
  {
    var attrs := Attributes(criteria[0]);
    !ValueBool(attrs[AnyReleaseBundleAttr].b) && |Elements(attrs[RegisteredNamesAttr].s)| == 0
  }

  /**
   * `ValidateConfig`. `configDiags` is what reading the configuration
   * reported and `criteria` the elements of its criteria set. Exactly one
   * attribute error is added when the flag is false and the name set has no
   * elements; nothing is added otherwise.
   */
  method ValidateConfig(configDiags: Diagnostics, criteria: seq<ObjectValue>) returns (diags: Diagnostics)
    requires !HasError(configDiags) ==> ValidatableCriteria(criteria)
    ensures HasError(configDiags) ==> diags == Append([], configDiags)
    ensures !HasError(configDiags) && !CriteriaRejected(criteria) ==> diags == Append([], configDiags)
    ensures !HasError(configDiags) && CriteriaRejected(criteria) ==>
              diags == Append(Append([], configDiags), [InvalidCriteriaDiagnostic(criteria[0])])
    ensures !HasError(configDiags) ==> (HasError(diags) <==> CriteriaRejected(criteria))
  {
    diags := Append([], configDiags);
    if HasError(diags) {
      return;
    }
    var criteriaObj := criteria[0];
    var criteriaAttrs := Attributes(criteriaObj);
    var anyReleaseBundle := ValueBool(criteriaAttrs[AnyReleaseBundleAttr].b);
    if !anyReleaseBundle && |Elements(criteriaAttrs[RegisteredNamesAttr].s)| == 0 {
      diags := Append(diags, [InvalidCriteriaDiagnostic(criteriaObj)]);
    }
  }

  /** The type assertions `toAPIModel` makes on the first criteria element. */
  predicate MappableCriteria(criteria: seq<ObjectValue>) {
    && |criteria| > 0
    && RegisteredNamesAttr in Attributes(criteria[0])
    && Attributes(criteria[0])[RegisteredNamesAttr].StringSet?
    && AnyReleaseBundleAttr in Attributes(criteria[0])
    && Attributes(criteria[0])[AnyReleaseBundleAttr].Bool?
  }

  /**
   * The criteria part of `toAPIModel`. `toBase` is
   * `toBaseCriteriaAPIModel` and `baseToApi` the diagnostics of the base
   * `toAPIModel` that receives the criteria. A failing step does not stop
   * the later ones; the errors of every step are kept.
   */
  method ToApiModel<B>(
    criteria: seq<ObjectValue>,
    toBase: map<string, AttrValue> -> (B, Diagnostics),
    baseToApi: CriteriaApiModel<B> -> Diagnostics)
    returns (criteriaApi: CriteriaApiModel<B>, diags: Diagnostics)
    requires MappableCriteria(criteria)
    ensures var attrs := Attributes(criteria[0]);
            && criteriaApi.base == toBase(attrs).0
            && criteriaApi.anyReleaseBundle == ValueBool(attrs[AnyReleaseBundleAttr].b)
            && (attrs[RegisteredNamesAttr].s.SetKnown? ==>
                  criteriaApi.registeredReleaseBundlesNames == Some(attrs[RegisteredNamesAttr].s.elements))
            && (!attrs[RegisteredNamesAttr].s.SetKnown? ==> criteriaApi.registeredReleaseBundlesNames == None)
    ensures var attrs := Attributes(criteria[0]);
            HasError(diags) <==>
              HasError(toBase(attrs).1) || attrs[RegisteredNamesAttr].s.SetUnknown? || HasError(baseToApi(criteriaApi))
    ensures var attrs := Attributes(criteria[0]);
            forall d :: d in diags <==>
              || (HasError(toBase(attrs).1) && d in toBase(attrs).1)
              || (HasError(ElementsAs(attrs[RegisteredNamesAttr].s).1) && d in ElementsAs(attrs[RegisteredNamesAttr].s).1)
              || (HasError(baseToApi(criteriaApi)) && d in baseToApi(criteriaApi))
  {
    diags := [];
    var criteriaAttrs := Attributes(criteria[0]);

    var (baseCriteria, d) := toBase(criteriaAttrs);
    if HasError(d) {
      diags := Append(diags, d);
    }

    var (releaseBundleNames, d2) := ElementsAs(criteriaAttrs[RegisteredNamesAttr].s);
    if HasError(d2) {
      diags := Append(diags, d2);
    }

    criteriaApi := CriteriaApiModel(baseCriteria, ValueBool(criteriaAttrs[AnyReleaseBundleAttr].b), releaseBundleNames);

    var d3 := baseToApi(criteriaApi);
    if HasError(d3) {
      diags := Append(diags, d3);
    }
  }

  /**
   * The base attributes match the pattern types outside the two
   * release-bundle attributes, which are laid over them.
   */
  predicate BaseAttrsConform(patternTypes: map<string, AttrType>, baseAttrs: map<string, AttrValue>) {
    && (forall k :: k in baseAttrs && k != AnyReleaseBundleAttr && k != RegisteredNamesAttr ==>
          k in patternTypes && TypeOf(baseAttrs[k]) == patternTypes[k])
    && (forall k :: k in patternTypes && k != AnyReleaseBundleAttr && k != RegisteredNamesAttr ==> k in baseAttrs)
  }

  /** The criteria attributes `fromAPIModel` assembles (`lo.Assign`: the later map wins). */
  function MergedCriteria(baseAttrs: map<string, AttrValue>, flag: bool, names: SetValue): map<string, AttrValue> {
    baseAttrs[AnyReleaseBundleAttr := Bool(BoolKnown(flag))][RegisteredNamesAttr := StringSet(names)]
  }

  /** The assembled criteria object type-checks exactly when the base attributes do. */
  lemma MergedCriteriaConforms(patternTypes: map<string, AttrType>, baseAttrs: map<string, AttrValue>, flag: bool, names: SetValue)
    ensures Conforms(CriteriaAttrTypes(patternTypes), MergedCriteria(baseAttrs, flag, names)) <==>
            BaseAttrsConform(patternTypes, baseAttrs)
  {
    var types := CriteriaAttrTypes(patternTypes);
    var attrs := MergedCriteria(baseAttrs, flag, names);
    if BaseAttrsConform(patternTypes, baseAttrs) {
      forall k | k in attrs ensures k in types && TypeOf(attrs[k]) == types[k] {
        if k != AnyReleaseBundleAttr && k != RegisteredNamesAttr {
          assert k in baseAttrs;
        }
      }
      assert attrs.Keys == types.Keys;
    }
    if Conforms(types, attrs) {
      forall k | k in baseAttrs && k != AnyReleaseBundleAttr && k != RegisteredNamesAttr
        ensures k in patternTypes && TypeOf(baseAttrs[k]) == patternTypes[k]
      {
        assert k in attrs && attrs[k] == baseAttrs[k];
      }
      forall k | k in patternTypes && k != AnyReleaseBundleAttr && k != RegisteredNamesAttr
        ensures k in baseAttrs
      {
        assert k in types;
      }
    }
  }

  /** The name value of `registeredReleaseBundlesNames` is present and not JSON null. */
  predicate NamesGiven(j: map<string, Json>) {
    RegisteredNamesKey in j && j[RegisteredNamesKey] != JNull
  }

  /**
   * What `fromAPIModel` reads back into a known criteria object: it has
   * the criteria type, holds `flag`, holds the name set in three states
   * (null when the key is absent or null, the known strings for a string
   * array, unknown otherwise) and keeps the base attributes unchanged.
   */
  predicate ReadBackCriteria(
    obj: ObjectValue, criteriaApi: map<string, Json>, flag: bool,
    patternTypes: map<string, AttrType>, baseAttrs: map<string, AttrValue>)
  {
    obj.ObjectKnown? ==>
      && Conforms(CriteriaAttrTypes(patternTypes), obj.attributes)
      && obj.attributes[AnyReleaseBundleAttr] == Bool(BoolKnown(flag))
      && (!NamesGiven(criteriaApi) ==> obj.attributes[RegisteredNamesAttr] == StringSet(SetNull))
      && (NamesGiven(criteriaApi) && IsStringArray(criteriaApi[RegisteredNamesKey]) ==>
            obj.attributes[RegisteredNamesAttr] == StringSet(SetKnown(Strings(criteriaApi[RegisteredNamesKey].items))))
      && (NamesGiven(criteriaApi) && !IsStringArray(criteriaApi[RegisteredNamesKey]) ==>
            obj.attributes[RegisteredNamesAttr] == StringSet(SetUnknown))
      && forall k :: k in baseAttrs && k != AnyReleaseBundleAttr && k != RegisteredNamesAttr ==>
           k in obj.attributes && obj.attributes[k] == baseAttrs[k]
  }

  /**
   * The name-set step of `fromAPIModel`: null unless the key holds a
   * non-null value, the converted set otherwise, its errors appended to
   * `diags0`.
   */
  method ReadNames(diags0: Diagnostics, criteriaApi: map<string, Json>) returns (names: SetValue, diags: Diagnostics)
    ensures !NamesGiven(criteriaApi) ==> names == SetNull
    ensures NamesGiven(criteriaApi) && IsStringArray(criteriaApi[RegisteredNamesKey]) ==>
              names == SetKnown(Strings(criteriaApi[RegisteredNamesKey].items))
    ensures NamesGiven(criteriaApi) && !IsStringArray(criteriaApi[RegisteredNamesKey]) ==> names == SetUnknown
    ensures HasError(diags) <==>
              HasError(diags0) || (NamesGiven(criteriaApi) && !IsStringArray(criteriaApi[RegisteredNamesKey]))
    ensures |diags0| <= |diags| && diags[..|diags0|] == diags0
  {
    diags := diags0;
    names := SetNull;
    if RegisteredNamesKey in criteriaApi && criteriaApi[RegisteredNamesKey] != JNull {
      var (rb, d) := SetValueFrom(criteriaApi[RegisteredNamesKey]);
      if HasError(d) {
        diags := Append(diags, d);
      }
      names := rb;
    }
  }

  /**
   * The steps of `fromAPIModel` after the base criteria were read: the name
   * set, the criteria object, the one-element criteria set and the base
   * `fromAPIModel`, each appending its errors to `diags0`.
   */
  method AssembleCriteria(
    diags0: Diagnostics,
    criteriaApi: map<string, Json>,
    flag: bool,
    baseAttrs: map<string, AttrValue>,
    patternTypes: map<string, AttrType>,
    baseFromApi: seq<ObjectValue> -> Diagnostics)
    returns (criteriaSet: seq<ObjectValue>, diags: Diagnostics)
    ensures |criteriaSet| == 1
    ensures criteriaSet[0].ObjectKnown? <==> BaseAttrsConform(patternTypes, baseAttrs)
    ensures ReadBackCriteria(criteriaSet[0], criteriaApi, flag, patternTypes, baseAttrs)
    ensures HasError(diags) <==>
              || HasError(diags0)
              || (NamesGiven(criteriaApi) && !IsStringArray(criteriaApi[RegisteredNamesKey]))
              || !BaseAttrsConform(patternTypes, baseAttrs)
              || HasError(baseFromApi(criteriaSet))
  {
    var releaseBundleNames;
    releaseBundleNames, diags := ReadNames(diags0, criteriaApi);

    var attrs := MergedCriteria(baseAttrs, flag, releaseBundleNames);
    MergedCriteriaConforms(patternTypes, baseAttrs, flag, releaseBundleNames);
    var (criteria, d) := ObjectValueOf(CriteriaAttrTypes(patternTypes), attrs);
    if HasError(d) {
      diags := Append(diags, d);
    }

    var (objects, d') := SetOfObjects([criteria]);
    criteriaSet := objects;
    if HasError(d') {
      diags := Append(diags, d');
    }

    var d'' := baseFromApi(criteriaSet);
    if HasError(d'') {
      diags := Append(diags, d'');
    }
  }

  /**
   * The criteria part of `fromAPIModel`, as written. `fromBase` is
   * `fromBaseCriteriaAPIModel` and `baseFromApi` the diagnostics of the base
   * `fromAPIModel` that receives the criteria set. The flag is read under
   * the key `anyReleaseBundles`, and the diagnostics `fromBase` returns are
   * overwritten before anything looks at them.
   */
  method FromApiModel(
    criteriaJson: Json,
    patternTypes: map<string, AttrType>,
    fromBase: map<string, Json> -> (map<string, AttrValue>, Diagnostics),
    baseFromApi: seq<ObjectValue> -> Diagnostics)
    returns (criteriaSet: seq<ObjectValue>, diags: Diagnostics)
    requires criteriaJson.JObject?
    requires AnyReleaseBundlesKey in criteriaJson.fields && criteriaJson.fields[AnyReleaseBundlesKey].JBool?
    ensures |criteriaSet| == 1
    ensures var j := criteriaJson.fields;
            criteriaSet[0].ObjectKnown? <==> BaseAttrsConform(patternTypes, fromBase(j).0)
    ensures var j := criteriaJson.fields;
            ReadBackCriteria(criteriaSet[0], j, j[AnyReleaseBundlesKey].b, patternTypes, fromBase(j).0)
    ensures var j := criteriaJson.fields;
            HasError(diags) <==>
              || (NamesGiven(j) && !IsStringArray(j[RegisteredNamesKey]))
              || !BaseAttrsConform(patternTypes, fromBase(j).0)
              || HasError(baseFromApi(criteriaSet))
  {
    var criteriaApi := criteriaJson.fields;
    var (baseCriteriaAttrs, _) := fromBase(criteriaApi);
    criteriaSet, diags := AssembleCriteria([], criteriaApi, criteriaApi[AnyReleaseBundlesKey].b,
                                           baseCriteriaAttrs, patternTypes, baseFromApi);
  }

  /**
   * `fromAPIModel` as evidently intended: the flag is read under the key the
   * API struct is written with, and errors of `fromBase` are reported like
   * those of every other step.
   */
  method FromApiModelCorrected(
    criteriaJson: Json,
    patternTypes: map<string, AttrType>,
    fromBase: map<string, Json> -> (map<string, AttrValue>, Diagnostics),
    baseFromApi: seq<ObjectValue> -> Diagnostics)
    returns (criteriaSet: seq<ObjectValue>, diags: Diagnostics)
    requires criteriaJson.JObject?
    requires AnyReleaseBundleKey in criteriaJson.fields && criteriaJson.fields[AnyReleaseBundleKey].JBool?
    ensures |criteriaSet| == 1
    ensures var j := criteriaJson.fields;
            criteriaSet[0].ObjectKnown? <==> BaseAttrsConform(patternTypes, fromBase(j).0)
    ensures var j := criteriaJson.fields;
            ReadBackCriteria(criteriaSet[0], j, j[AnyReleaseBundleKey].b, patternTypes, fromBase(j).0)
    ensures var j := criteriaJson.fields;
            HasError(diags) <==>
              || HasError(fromBase(j).1)
              || (NamesGiven(j) && !IsStringArray(j[RegisteredNamesKey]))
              || !BaseAttrsConform(patternTypes, fromBase(j).0)
              || HasError(baseFromApi(criteriaSet))
  {
    var criteriaApi := criteriaJson.fields;
    diags := [];
    var (baseCriteriaAttrs, d) := fromBase(criteriaApi);
    if HasError(d) {
      diags := Append(diags, d);
    }
    criteriaSet, diags := AssembleCriteria(diags, criteriaApi, criteriaApi[AnyReleaseBundleKey].b,
                                           baseCriteriaAttrs, patternTypes, baseFromApi);
  }
  /**
   * The payload the provider writes never carries the key the as-written
   * `fromAPIModel` asserts on, unless the base criteria happen to write it.
   */
  lemma ProviderPayloadLacksPluralKey<B>(c: CriteriaApiModel<B>, baseJson: B -> map<string, Json>)
    requires AnyReleaseBundlesKey !in baseJson(c.base)
    ensures AnyReleaseBundlesKey !in ToJson(c, baseJson)
    ensures AnyReleaseBundleKey in ToJson(c, baseJson)
  {
  }

  /**
   * A concrete input on which `fromBaseCriteriaAPIModel` reports an error
   * and the as-written `fromAPIModel` reports none.
   */
  method BaseCriteriaErrorDropped() returns (baseHasError: bool, reported: bool)
    ensures baseHasError && !reported
  {
    var j := map[AnyReleaseBundlesKey := JBool(true)];
    var fromBase := (_: map<string, Json>) => (map[], [ConversionError]);
    var baseFromApi := (_: seq<ObjectValue>) => [];
    assert BaseAttrsConform(map[], map[]);
    var criteriaSet, diags := FromApiModel(JObject(j), map[], fromBase, baseFromApi);
    baseHasError := HasError(fromBase(j).1);
    reported := HasError(diags);
    assert ConversionError in fromBase(j).1;
  }

  /**
   * The corrected round trip: criteria mapped to the API model, written as
   * JSON and read back keep the flag's truth value, and keep the name set
   * in all three states — a null set comes back null, a known set (empty or
   * not) comes back with the same elements, and an unknown set is reported
   * as an error on the way out.
   */
  method CriteriaRoundTrip<B>(
    criteria: seq<ObjectValue>,
    toBase: map<string, AttrValue> -> (B, Diagnostics),
    baseToApi: CriteriaApiModel<B> -> Diagnostics,
    baseJson: B -> map<string, Json>,
    patternTypes: map<string, AttrType>,
    fromBase: map<string, Json> -> (map<string, AttrValue>, Diagnostics),
    baseFromApi: seq<ObjectValue> -> Diagnostics)
    returns (readBack: seq<ObjectValue>, toDiags: Diagnostics, fromDiags: Diagnostics)
    requires MappableCriteria(criteria)
    ensures |readBack| == 1
    ensures var original := Attributes(criteria[0]);
            readBack[0].ObjectKnown? ==>
              && Conforms(CriteriaAttrTypes(patternTypes), readBack[0].attributes)
              && readBack[0].attributes[AnyReleaseBundleAttr] ==
                   Bool(BoolKnown(ValueBool(original[AnyReleaseBundleAttr].b)))
              && (!original[RegisteredNamesAttr].s.SetUnknown? ==>
                    readBack[0].attributes[RegisteredNamesAttr] == original[RegisteredNamesAttr])
    ensures Attributes(criteria[0])[RegisteredNamesAttr].s.SetUnknown? ==> HasError(toDiags)
    ensures var original := Attributes(criteria[0]);
            var sent := CriteriaApiModel(toBase(original).0, ValueBool(original[AnyReleaseBundleAttr].b),
                                         ElementsAs(original[RegisteredNamesAttr].s).0);
            readBack[0].ObjectKnown? <==> BaseAttrsConform(patternTypes, fromBase(ToJson(sent, baseJson)).0)
  {
    var criteriaApi;
    criteriaApi, toDiags := ToApiModel(criteria, toBase, baseToApi);
    var json := ToJson(criteriaApi, baseJson);
    readBack, fromDiags := FromApiModelCorrected(JObject(json), patternTypes, fromBase, baseFromApi);
    var names := Attributes(criteria[0])[RegisteredNamesAttr].s;
    if names.SetKnown? {
      StringsOfStringArray(names.elements);
    }
  }

  /**
   * The criteria attribute types the framework schema declares: the
   * pattern attributes, `any_release_bundle` and `selected_builds`.
   */
  function SchemaCriteriaAttrTypes(patternTypes: map<string, AttrType>): (r: map<string, AttrType>)
    ensures r.Keys == patternTypes.Keys + {AnyReleaseBundleAttr, SelectedBuildsAttr}
    ensures r[AnyReleaseBundleAttr] == BoolType && r[SelectedBuildsAttr] == StringSetType
    ensures forall k :: k in patternTypes && k != AnyReleaseBundleAttr && k != SelectedBuildsAttr ==>
              r[k] == patternTypes[k]
  {
    patternTypes[AnyReleaseBundleAttr := BoolType][SelectedBuildsAttr := StringSetType]
  }

  /**
   * A criteria object shaped as the schema declares it lacks the attribute
   * the mapping asserts on, and so does validation whenever the flag is
   * false.
   */
  lemma SchemaCriteriaNotMappable(patternTypes: map<string, AttrType>, attrs: map<string, AttrValue>)
    requires RegisteredNamesAttr !in patternTypes
    requires Conforms(SchemaCriteriaAttrTypes(patternTypes), attrs)
    ensures !MappableCriteria([ObjectKnown(attrs)])
    ensures !ValueBool(attrs[AnyReleaseBundleAttr].b) ==> !ValidatableCriteria([ObjectKnown(attrs)])
  {
    assert RegisteredNamesAttr !in SchemaCriteriaAttrTypes(patternTypes);
  }

  /**
   * A criteria object shaped as `CriteriaAttrTypes` says — the types
   * `fromAPIModel` builds with — is accepted by validation and mapping.
   */
  lemma CriteriaTypesMappable(patternTypes: map<string, AttrType>, attrs: map<string, AttrValue>)
    requires Conforms(CriteriaAttrTypes(patternTypes), attrs)
    ensures MappableCriteria([ObjectKnown(attrs)])
    ensures ValidatableCriteria([ObjectKnown(attrs)])
  {
    var types := CriteriaAttrTypes(patternTypes);
    assert TypeOf(attrs[AnyReleaseBundleAttr]) == types[AnyReleaseBundleAttr];
    assert TypeOf(attrs[RegisteredNamesAttr]) == types[RegisteredNamesAttr];
  }

  /**
   * The two forms of the rule agree: a framework criteria object and an
   * SDKv2 criteria map holding the same known flag and the same names are
   * rejected together, with the same message.
   */
  lemma ValidationFormsAgree(criteria: seq<ObjectValue>, m: ReleaseBundleSdkV2.TerraformCriteria)
    requires ValidatableCriteria(criteria) && ReleaseBundleSdkV2.WellTyped(m)
    requires Attributes(criteria[0])[AnyReleaseBundleAttr] == Bool(BoolKnown(m[AnyReleaseBundleAttr].b))
    requires RegisteredNamesAttr in Attributes(criteria[0])
    requires Attributes(criteria[0])[RegisteredNamesAttr] == StringSet(SetKnown(m[RegisteredNamesAttr].list))
    ensures CriteriaRejected(criteria) <==> ReleaseBundleSdkV2.Validation(m).Some?
    ensures CriteriaRejected(criteria) ==>
              InvalidCriteriaDiagnostic(criteria[0]).detail == ReleaseBundleSdkV2.Validation(m).value
  {
  }
}

