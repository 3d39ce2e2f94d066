/**
 * Lookup of a system-configuration entry by its id. A Go value of a type
 * with an `Id() string` method is modelled as an element of `C` together
 * with the function `id` that gives its id.
 */
module Configuration {
  import opened Wrappers

  /**
   * `FindConfigurationById`: the first element, in slice order, whose id is
   * `key`, or nothing when no element has that id. The result is a copy of
   * the element; the sequence itself is a value and cannot change.
   */
  method FindConfigurationById<C>(configurations: seq<C>, key: string, id: C -> string) returns (r: Option<C>)
    ensures r.Some? ==> id(r.value) == key
    ensures r.None? <==> forall i :: 0 <= i < |configurations| ==> id(configurations[i]) != key
    ensures r.Some? ==> exists k :: 0 <= k < |configurations| && configurations[k] == r.value &&
                          forall j :: 0 <= j < k ==> id(configurations[j]) != key
  {
    var i := 0;
    while i < |configurations|
      invariant 0 <= i <= |configurations|
      invariant forall j :: 0 <= j < i ==> id(configurations[j]) != key
    {
      var configuration := configurations[i];
      if id(configuration) == key {
        return Some(configuration);
      }
      i := i + 1;
    }
    return None;
  }
}
