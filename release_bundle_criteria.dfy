/**
 * The release-bundle criteria as the webhook API sees it
 * (`ReleaseBundleCriteriaAPIModel`) and its JSON form. The shared base
 * criteria are a type parameter `B`: this code only carries them along.
 */
module ReleaseBundleCriteria {
  import opened Wrappers
  import opened Json

  /** JSON tags of the two fields the release-bundle criteria add. */
  const AnyReleaseBundleKey := "anyReleaseBundle"
  const RegisteredNamesKey := "registeredReleaseBundlesNames"

  /** The Terraform attribute names used by validation and the mappings. */
  const AnyReleaseBundleAttr := "any_release_bundle"
  const RegisteredNamesAttr := "registered_release_bundle_names"

  /** The error text both validation forms report. */
  const EmptyNamesMessage := "registered_release_bundle_names cannot be empty when any_release_bundle is false"

  /**
   * The API struct. A nil Go slice is `None`; a non-nil one, empty or not,
   * is `Some`.
   */
  datatype CriteriaApiModel<B> = CriteriaApiModel(
    base: B,
    anyReleaseBundle: bool,
    registeredReleaseBundlesNames: Option<seq<string>>)

  /**
   * encoding/json on the struct: the fields of the embedded base criteria
   * (written by `baseJson`) together with the two tagged fields, which win
   * over a base field of the same name. A nil slice is written as `null`.
   */
  function ToJson<B>(c: CriteriaApiModel<B>, baseJson: B -> map<string, Json>): (r: map<string, Json>)
    ensures r.Keys == baseJson(c.base).Keys + {AnyReleaseBundleKey, RegisteredNamesKey}
    ensures r[AnyReleaseBundleKey] == JBool(c.anyReleaseBundle)
    ensures c.registeredReleaseBundlesNames.None? ==> r[RegisteredNamesKey] == JNull
    ensures c.registeredReleaseBundlesNames.Some? ==>
              IsStringArray(r[RegisteredNamesKey]) &&
              Strings(r[RegisteredNamesKey].items) == c.registeredReleaseBundlesNames.value
    ensures forall k :: k in baseJson(c.base) && k != AnyReleaseBundleKey && k != RegisteredNamesKey ==>
              r[k] == baseJson(c.base)[k]
  {
    var names := match c.registeredReleaseBundlesNames
      case None => JNull
      case Some(xs) => StringArray(xs);
    StringsOfStringArray(if c.registeredReleaseBundlesNames.Some? then c.registeredReleaseBundlesNames.value else []);
    baseJson(c.base)[AnyReleaseBundleKey := JBool(c.anyReleaseBundle)][RegisteredNamesKey := names]
  }
}
