# Release-bundle webhook criteria and configuration lookup, in Dafny

This project models two pieces of pure logic from the Artifactory Terraform provider.

- **Release-bundle webhook criteria.** A webhook's criteria carry an `any_release_bundle` flag, a set of release-bundle names and the shared base criteria (include/exclude patterns). The model covers:
  - the cross-field rule "the name set may be empty only when the flag is true", in the SDKv2 form (`releaseBundleCriteriaValidation`) and in the plugin-framework form (`ValidateConfig`);
  - the SDKv2 mapping pair `unpackReleaseBundleCriteria` (Terraform to API struct) and `packReleaseBundleCriteria` (API JSON to Terraform);
  - the criteria parts of the framework mapping pair `toAPIModel` / `fromAPIModel`. These keep the three states of the name set: null, empty and populated.
- **`FindConfigurationById`.** A generic linear search for the first configuration whose `Id()` equals a key.

Modules:

- `Wrappers` holds `Option`.
- `Json` models decoded JSON the way Go's `encoding/json` produces it.
- `Framework` models what the resource relies on from the plugin framework: bool and set values with null and unknown states, objects, diagnostics with `HasError` and the de-duplicating `Append`, and the conversions `ElementsAs`, `SetValueFrom`, `ObjectValue` and `SetValue`.
- `ReleaseBundleCriteria` holds the API struct and its JSON form.
- `ReleaseBundleSdkV2` holds the SDKv2 functions.
- `ReleaseBundleWebhookResource` holds the framework methods. They add diagnostics step by step, so they are methods.
- `Configuration` holds the search.

The shared base criteria are a type parameter. The base-criteria mapping and the base webhook `toAPIModel` / `fromAPIModel` are defined outside the modelled files, so they are passed in as functions. Each Go type assertion that would panic becomes a `requires` clause. So does the index `Elements()[0]` at lines 87 and 206: `ValidatableCriteria` and `MappableCriteria` require a criteria set with at least one element. The size validator at lines 65-68 makes that hold for `toAPIModel`; nothing in the modelled files says it runs before `ValidateConfig`.

One would expect `toAPIModel` followed by `fromAPIModel` to give back the flag; the code as written does not (see Findings). The model follows the code and proves the round trip for the corrected version.

## Model

| member | source | states |
|---|---|---|
| ReleaseBundleSdkV2.Validation | pkg/artifactory/resource/webhook/resource_artifactory_webhook_release_bundle.go:339-348 | Returns an error exactly when the flag is false and the name set is empty. The error text is the fixed message. Both attributes are asserted unconditionally. When the flag is true, no name set is rejected. |
| ReleaseBundleSdkV2.Unpack | pkg/artifactory/resource/webhook/resource_artifactory_webhook_release_bundle.go:331-337 | Copies the flag to `AnyReleaseBundle` and the set's elements to a non-nil `RegisteredReleaseBundlesNames`. Passes the base criteria through unchanged. |
| ReleaseBundleSdkV2.Pack | pkg/artifactory/resource/webhook/resource_artifactory_webhook_release_bundle.go:324-329 | Returns a Terraform map with exactly the two keys. The flag comes from `anyReleaseBundle`. The names form a duplicate-free set whose elements are exactly the strings of `registeredReleaseBundlesNames`. |
| ReleaseBundleSdkV2.NewStringSet | pkg/artifactory/resource/webhook/resource_artifactory_webhook_release_bundle.go:327 | `schema.NewSet(HashString, ...)`, with set identity taken as string equality: holds each given string exactly once and no other, and is empty iff the input is. |
| ReleaseBundleSdkV2.PackAfterUnpack | pkg/artifactory/resource/webhook/resource_artifactory_webhook_release_bundle.go:324-337 | Unpack, write as JSON, then pack: the flag is the same and the set of names is the same. |
| ReleaseBundleSdkV2.UnpackAfterPack | pkg/artifactory/resource/webhook/resource_artifactory_webhook_release_bundle.go:324-337 | Write as JSON, pack, then unpack: the base, the flag and the names as a set are recovered, without duplicates. |
| ReleaseBundleSdkV2.ValidationSurvivesRoundTrip | pkg/artifactory/resource/webhook/resource_artifactory_webhook_release_bundle.go:324-348 | Validation gives the same verdict before and after the unpack/pack round trip. |
| ReleaseBundleCriteria.ToJson | pkg/artifactory/resource/webhook/resource_artifactory_webhook_release_bundle.go:292-296 | The struct's JSON has the base fields plus `anyReleaseBundle` and `registeredReleaseBundlesNames`. A nil slice is written as `null` and a non-nil one as a string array with the same strings in order. |
| ReleaseBundleWebhookResource.ValidateConfig | pkg/artifactory/resource/webhook/resource_artifactory_webhook_release_bundle.go:79-99 | If reading the configuration failed, returns just those diagnostics. Otherwise it adds exactly one attribute error, at `criteria[obj].any_release_bundle` with the fixed message, when the flag is false (null and unknown read as false) and the name set has no elements. It adds nothing otherwise. The names attribute is touched only when the flag is false. |
| ReleaseBundleWebhookResource.ValidationFormsAgree | pkg/artifactory/resource/webhook/resource_artifactory_webhook_release_bundle.go:87-98 | The SDKv2 and framework forms of the rule agree. Given the same known flag and names, they reject together with the same message. |
| ReleaseBundleWebhookResource.ToApiModel | pkg/artifactory/resource/webhook/resource_artifactory_webhook_release_bundle.go:205-232 | Reads only criteria element 0. The base comes from `toBaseCriteriaAPIModel` and the flag from `ValueBool`. Known names become a slice with the same elements; null or unknown names become a nil slice. Every step runs even after an error. The result has an error iff some step failed, and its diagnostics are exactly those of the erroneous steps. |
| ReleaseBundleWebhookResource.CriteriaAttrTypes | pkg/artifactory/resource/webhook/resource_artifactory_webhook_release_bundle.go:234-240 | The pattern attribute types, plus `any_release_bundle` as a Bool and `registered_release_bundle_names` as a string Set. |
| ReleaseBundleWebhookResource.MergedCriteriaConforms | pkg/artifactory/resource/webhook/resource_artifactory_webhook_release_bundle.go:263-272 | The object assembled with `lo.Assign` type-checks exactly when the base attributes match the pattern types. |
| ReleaseBundleWebhookResource.ReadNames | pkg/artifactory/resource/webhook/resource_artifactory_webhook_release_bundle.go:253-261 | An absent or `null` key gives a null set, not an empty one. A string array gives the known set of those strings, and `[]` gives the empty set. Anything else gives an unknown set and an error. |
| ReleaseBundleWebhookResource.AssembleCriteria | pkg/artifactory/resource/webhook/resource_artifactory_webhook_release_bundle.go:253-289 | Always builds a set of exactly one object. The object is known iff the attributes type-check, and then it holds the flag, the three-state names and the base attributes unchanged. Errors accumulate: the result has an error iff an earlier one was given or some step failed. |
| ReleaseBundleWebhookResource.FromApiModel | pkg/artifactory/resource/webhook/resource_artifactory_webhook_release_bundle.go:246-290 | As written. Requires the `anyReleaseBundles` key to hold a bool. Builds exactly one criteria object, with the three-state names. Its error verdict ignores the diagnostics of `fromBaseCriteriaAPIModel`. |
| ReleaseBundleWebhookResource.FromApiModelCorrected | pkg/artifactory/resource/webhook/resource_artifactory_webhook_release_bundle.go:246-290 | The same, but reading `anyReleaseBundle` (the key of line 294) and also reporting errors from `fromBaseCriteriaAPIModel`. |
| ReleaseBundleWebhookResource.ProviderPayloadLacksPluralKey | pkg/artifactory/resource/webhook/resource_artifactory_webhook_release_bundle.go:268 | JSON written from the criteria struct has `anyReleaseBundle` and never `anyReleaseBundles`. So the as-written `fromAPIModel` assertion fails on the provider's own payload. |
| ReleaseBundleWebhookResource.BaseCriteriaErrorDropped | pkg/artifactory/resource/webhook/resource_artifactory_webhook_release_bundle.go:251-263 | On a concrete input, the base-criteria conversion reports an error and the as-written `fromAPIModel` reports none. |
| ReleaseBundleWebhookResource.CriteriaRoundTrip | pkg/artifactory/resource/webhook/resource_artifactory_webhook_release_bundle.go:205-290 | Runs `toAPIModel`, then JSON, then the corrected `fromAPIModel`. The read-back object is known exactly when the base attributes that `fromBaseCriteriaAPIModel` reads from the sent JSON match the pattern types. A known read-back keeps the flag's truth value and keeps a null or known name set exactly. An unknown name set is reported as an error on the way out. |
| ReleaseBundleWebhookResource.SchemaCriteriaAttrTypes | pkg/artifactory/resource/webhook/resource_artifactory_webhook_release_bundle.go:48-63 | The criteria attributes the framework schema declares: the patterns, `any_release_bundle` and `selected_builds`. |
| ReleaseBundleWebhookResource.SchemaCriteriaNotMappable | pkg/artifactory/resource/webhook/resource_artifactory_webhook_release_bundle.go:57 | A criteria object shaped by the schema fails the assertions of `toAPIModel`, and those of `ValidateConfig` whenever the flag is false. |
| ReleaseBundleWebhookResource.CriteriaTypesMappable | pkg/artifactory/resource/webhook/resource_artifactory_webhook_release_bundle.go:234-240 | A criteria object shaped by the attribute types `fromAPIModel` uses passes the assertions of both `ValidateConfig` and `toAPIModel`. |
| Framework.ElementsAs | pkg/artifactory/resource/webhook/resource_artifactory_webhook_release_bundle.go:215 | A known set gives its elements, a null set gives a nil slice. An error is reported iff the set is unknown. |
| Framework.SetValueFrom | pkg/artifactory/resource/webhook/resource_artifactory_webhook_release_bundle.go:255 | An array of strings gives the known set of them. Anything else gives an unknown set and an error. |
| Framework.ObjectValueOf | pkg/artifactory/resource/webhook/resource_artifactory_webhook_release_bundle.go:263-272 | The object is known, with the given attributes, iff they match the type exactly. Otherwise the object is unknown and there is an error. |
| Framework.Append | pkg/artifactory/resource/webhook/resource_artifactory_webhook_release_bundle.go:211 | Keeps the existing diagnostics as a prefix and adds each new one unless it is already present, so nothing added repeats an earlier entry. It has an error iff either side has one. |
| Framework.SetOfObjects | pkg/artifactory/resource/webhook/resource_artifactory_webhook_release_bundle.go:276-279 | `types.SetValue` on the one criteria object returns that single element and never reports an error, because `types.ObjectValue` returns a value of the element type whether it succeeds or not. |
| Framework.ValueBool | pkg/artifactory/resource/webhook/resource_artifactory_webhook_release_bundle.go:90 | `ValueBool` is true exactly for a known `true`; null and unknown read as false. |
| Framework.Elements | pkg/artifactory/resource/webhook/resource_artifactory_webhook_release_bundle.go:92 | `Elements` gives a known set's elements, and none for a null or unknown set. |
| Framework.Attributes | pkg/artifactory/resource/webhook/resource_artifactory_webhook_release_bundle.go:88 | `Attributes` gives a known object's attributes, and none for an unknown object. |
| Framework.AttributeError | pkg/artifactory/resource/webhook/resource_artifactory_webhook_release_bundle.go:93-97 | `AddAttributeError` makes an error-severity diagnostic with the given path, summary and detail. |
| ReleaseBundleWebhookResource.InvalidCriteriaDiagnostic | pkg/artifactory/resource/webhook/resource_artifactory_webhook_release_bundle.go:93-97 | The rejection diagnostic is an error with summary "Invalid Attribute Configuration" and the fixed message as detail, reported at `criteria[obj].any_release_bundle`. |
| Json.Strings | pkg/artifactory/resource/webhook/resource_artifactory_webhook_release_bundle.go:327 | A decoded array of JSON strings gives those strings, one for one and in order. |
| Json.StringArray | pkg/artifactory/resource/webhook/resource_artifactory_webhook_release_bundle.go:295 | encoding/json writes a non-nil `[]string` as an array of JSON strings, one for one and in order. |
| Configuration.FindConfigurationById | pkg/artifactory/resource/configuration/configuration.go:21-32 | A returned element has the requested id and is the first such element in slice order. Nothing is returned iff no element has that id, for example on an empty slice. |

## Findings

| source | as written | input that shows it | evidently intended | confidence | as-written member | corrected member |
|---|---|---|---|---|---|---|
| pkg/artifactory/resource/webhook/resource_artifactory_webhook_release_bundle.go:268 | `fromAPIModel` asserts `criteria["anyReleaseBundles"].(bool)`, but the struct is written with the tag `anyReleaseBundle` (line 294) | the criteria JSON `{"anyReleaseBundle": true, "registeredReleaseBundlesNames": []}` that the provider itself sends: the key is missing, so the assertion panics | read `anyReleaseBundle` | not executed; medium (the key the server returns is not visible here) | ReleaseBundleWebhookResource.ProviderPayloadLacksPluralKey | ReleaseBundleWebhookResource.CriteriaRoundTrip |
| pkg/artifactory/resource/webhook/resource_artifactory_webhook_release_bundle.go:251 | the diagnostics `d` returned by `fromBaseCriteriaAPIModel` are overwritten at line 263 before anything checks them | a base conversion that reports an error while every other step succeeds: `fromAPIModel` reports no error | append them when they hold an error, as `toAPIModel` does at lines 209-212 | not executed; high | ReleaseBundleWebhookResource.BaseCriteriaErrorDropped | ReleaseBundleWebhookResource.FromApiModelCorrected |
| pkg/artifactory/resource/webhook/resource_artifactory_webhook_release_bundle.go:57 | the framework schema names the name-set attribute `selected_builds`, but lines 92 and 215 assert on `registered_release_bundle_names` | a configuration with `any_release_bundle = false` and `selected_builds = ["x"]`: the assertion at line 92 panics, and the one at line 215 panics for every configuration | name it `registered_release_bundle_names`, as the attribute types at line 238 and the SDKv2 schema at line 311 do | not executed; high | ReleaseBundleWebhookResource.SchemaCriteriaNotMappable | ReleaseBundleWebhookResource.CriteriaTypesMappable |

## Left out

- Create, Read, Update, Delete and ImportState are left out. They only sequence framework calls and HTTP calls through the base webhook resource, which is not part of this model.
- The usage-telemetry goroutines are left out. They are fire-and-forget concurrency.
- Schema declarations are left out except for the criteria attribute names and types (`SchemaCriteriaAttrTypes`, `CriteriaAttrTypes`). The rest is declarative framework configuration.
- `SendConfigurationPatch` is left out. It is an HTTP PATCH.
- Provider bootstrap (`pkg/artifactory/provider/sdkv2.go`) and the two data sources are left out. They are I/O and calls into code that is not part of this model.
- The base-criteria mapping (`toBaseCriteriaAPIModel`, `fromBaseCriteriaAPIModel`) and the base webhook `toAPIModel` / `fromAPIModel` are function parameters. The model does not say what other webhook fields they write.
- Reading the configuration (`req.Config.Get`) is an input: the diagnostics it reported and the elements of the criteria set.
- The exact text of the framework's conversion errors is not modelled. They are represented by one error-severity diagnostic.
- The order of elements in an SDKv2 `schema.Set` (hash order) and in a framework set is not modelled. Properties involving sets are stated on their elements.
- ReleaseBundleSdkV2.NewStringSet: an SDKv2 set identifies items by their `HashString` code (the CRC-32 of the string), and the first item with a given code wins. The model identifies names by string equality, so two distinct names with the same CRC-32 are both kept here, while the SDK keeps only the first.
- ReleaseBundleSdkV2.Pack: because of the hash-code identity above, "exactly the given strings" holds only when no two names share a CRC-32.
- ReleaseBundleSdkV2.PackAfterUnpack: the same set of names comes back only when no two names share a CRC-32; a collision loses a name in the SDK.
- ReleaseBundleSdkV2.UnpackAfterPack: likewise holds only for names with pairwise distinct CRC-32 codes.
- `Framework.ElementsAs`: modelled on the framework's behaviour with unhandled null and unknown not allowed. The framework source is not part of this model.
- `Framework.SetValueFrom`: modelled as accepting exactly arrays of strings. The framework source is not part of this model.
- ReleaseBundleWebhookResource.FromApiModel: the receiver update is left out. `fromAPIModel` hands the criteria set to the base `fromAPIModel`, which is not part of this model, so the model returns the set instead of storing it in the receiver.
- ReleaseBundleWebhookResource.ToApiModel: the write through the `apiModel` pointer is left out. The model returns the criteria struct handed to the base `toAPIModel` instead.
- `context.Context` arguments are left out, since nothing here reads them.
- Configuration.FindConfigurationById: Go returns a pointer to a copy of the element. The model returns the value, which is the same thing, since Dafny sequences are values and cannot alias.
