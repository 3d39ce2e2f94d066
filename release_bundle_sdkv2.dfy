/**
 * The SDKv2 form of the release-bundle webhook criteria: the cross-field
 * validation and the pack/unpack pair between the Terraform criteria map
 * and the API criteria.
 */
module ReleaseBundleSdkV2 {
  import opened Wrappers
  import opened Json
  import opened ReleaseBundleCriteria

  /**
   * A value of the SDKv2 criteria map (`map[string]interface{}`). A
   * `*schema.Set` of strings is held as the list `List()` returns; its order
   * is the SDK's business and nothing here depends on it.
   */
  datatype SdkValue = SdkBool(b: bool) | SdkStringSet(list: seq<string>) | SdkOther(payload: nat)

  type TerraformCriteria = map<string, SdkValue>

  predicate Distinct(xs: seq<string>) {
    forall i, j :: 0 <= i < j < |xs| ==> xs[i] != xs[j]
  }

  /** The two type assertions the SDKv2 code makes on a Terraform criteria map. */
  predicate WellTyped(m: TerraformCriteria) {
    && AnyReleaseBundleAttr in m && m[AnyReleaseBundleAttr].SdkBool?
    && RegisteredNamesAttr in m && m[RegisteredNamesAttr].SdkStringSet?
  }

  /**
   * `releaseBundleCriteriaValidation`: an error exactly when the flag is
   * false and the name set is empty.
   */
  function Validation(m: TerraformCriteria): (r: Option<string>)
    requires WellTyped(m)
    ensures r.Some? <==> !m[AnyReleaseBundleAttr].b && |m[RegisteredNamesAttr].list| == 0
    ensures r.Some? ==> r.value == EmptyNamesMessage
    ensures m[AnyReleaseBundleAttr].b ==> r == None
  {
    var anyReleaseBundle := m[AnyReleaseBundleAttr].b;
    var names := m[RegisteredNamesAttr].list;
    if !anyReleaseBundle && |names| == 0 then Some(EmptyNamesMessage) else None
  }

  /**
   * `unpackReleaseBundleCriteria`: the flag and the set's elements go into
   * the API struct (as a non-nil slice), the base criteria go through as given.
   */
  function Unpack<B>(m: TerraformCriteria, base: B): (r: CriteriaApiModel<B>)
    requires WellTyped(m)
    ensures r.base == base
    ensures r.anyReleaseBundle == m[AnyReleaseBundleAttr].b
    ensures r.registeredReleaseBundlesNames == Some(m[RegisteredNamesAttr].list)
  {
    CriteriaApiModel(base, m[AnyReleaseBundleAttr].b, Some(m[RegisteredNamesAttr].list))
  }

  /** The two type assertions `packReleaseBundleCriteria` makes on decoded API criteria. */
  predicate PackableJson(j: map<string, Json>) {
    && AnyReleaseBundleKey in j && j[AnyReleaseBundleKey].JBool?
    && RegisteredNamesKey in j && IsStringArray(j[RegisteredNamesKey])
  }

  /**
   * `schema.NewSet(schema.HashString, items)`: each distinct string once.
   * The SDK tells items apart by their hash code; here two strings are the
   * same item only when they are equal. First occurrences are kept in order.
   */
  function NewStringSet(xs: seq<string>): (r: seq<string>)
    ensures Distinct(r)
    ensures forall x :: x in r <==> x in xs
    ensures |r| == 0 <==> |xs| == 0
    decreases |xs|
  {
    if xs == [] then []
    else
      var rest := NewStringSet(xs[..|xs| - 1]);
      var last := xs[|xs| - 1];
      assert forall x :: x in xs <==> x in xs[..|xs| - 1] || x == last;
      if last in rest then rest else rest + [last]
  }

  /**
   * `packReleaseBundleCriteria`: a Terraform criteria map with exactly the
   * flag and the set of names; the base criteria are packed elsewhere.
   */
  function Pack(j: map<string, Json>): (r: TerraformCriteria)
    requires PackableJson(j)
    ensures r.Keys == {AnyReleaseBundleAttr, RegisteredNamesAttr}
    ensures WellTyped(r)
    ensures r[AnyReleaseBundleAttr].b == j[AnyReleaseBundleKey].b
    ensures Distinct(r[RegisteredNamesAttr].list)
    ensures forall x :: x in r[RegisteredNamesAttr].list <==> x in Strings(j[RegisteredNamesKey].items)
  {
    map[AnyReleaseBundleAttr := SdkBool(j[AnyReleaseBundleKey].b),
        RegisteredNamesAttr := SdkStringSet(NewStringSet(Strings(j[RegisteredNamesKey].items)))]
  }

  /**
   * Unpacking, writing the struct as JSON and packing the result gives back
   * the same flag and the same set of names.
   */
  lemma PackAfterUnpack<B>(m: TerraformCriteria, base: B, baseJson: B -> map<string, Json>)
    requires WellTyped(m)
    ensures PackableJson(ToJson(Unpack(m, base), baseJson))
    ensures var p := Pack(ToJson(Unpack(m, base), baseJson));
            && p[AnyReleaseBundleAttr] == m[AnyReleaseBundleAttr]
            && forall x :: x in p[RegisteredNamesAttr].list <==> x in m[RegisteredNamesAttr].list
  {
  }

  /**
   * API criteria that came from unpacking are recovered by packing and
   * unpacking again: same base, same flag, the same names without duplicates.
   */
  lemma UnpackAfterPack<B>(c: CriteriaApiModel<B>, baseJson: B -> map<string, Json>)
    requires c.registeredReleaseBundlesNames.Some?
    ensures PackableJson(ToJson(c, baseJson))
    ensures var u := Unpack(Pack(ToJson(c, baseJson)), c.base);
            && u.base == c.base
            && u.anyReleaseBundle == c.anyReleaseBundle
            && u.registeredReleaseBundlesNames.Some?
            && Distinct(u.registeredReleaseBundlesNames.value)
            && forall x :: x in u.registeredReleaseBundlesNames.value <==> x in c.registeredReleaseBundlesNames.value
  {
  }

  /** A criteria map accepted by validation is still accepted after the round trip, and a rejected one still rejected. */
  lemma ValidationSurvivesRoundTrip<B>(m: TerraformCriteria, base: B, baseJson: B -> map<string, Json>)
    requires WellTyped(m)
    ensures PackableJson(ToJson(Unpack(m, base), baseJson))
    ensures Validation(Pack(ToJson(Unpack(m, base), baseJson))) == Validation(m)
  {
  }
}
