/**
 * The slice of the Terraform plugin framework that the release-bundle
 * webhook resource touches: attribute values with their null and unknown
 * states, objects, diagnostics, and the conversions between these and Go
 * values. Only the observable behaviour the resource relies on is modelled.
 */
module Framework {
  import opened Wrappers
  import opened Json

  // ---------------------------------------------------------------- diagnostics

  datatype Severity = Error | Warning

  /** One step of an attribute path: `AtName(...)` or `AtSetValue(...)`. */
  datatype PathStep = AttributeName(name: string) | SetElement(element: ObjectValue)

  datatype Diagnostic = Diagnostic(severity: Severity, summary: string, detail: string, path: seq<PathStep>)

  type Diagnostics = seq<Diagnostic>

  /** `diag.Diagnostics.HasError`: some diagnostic has error severity. */
  predicate HasError(ds: Diagnostics) {
    exists d :: d in ds && d.severity == Error
  }

  /**
   * `diag.Diagnostics.Append`: adds each new diagnostic unless an equal one
   * is already present, and keeps what was there in front.
   */
  function Append(ds: Diagnostics, extra: Diagnostics): (r: Diagnostics)
    ensures |ds| <= |r| && r[..|ds|] == ds
    ensures forall d :: d in r <==> d in ds || d in extra
    ensures forall i :: |ds| <= i < |r| ==> r[i] !in r[..i]
    ensures HasError(r) <==> HasError(ds) || HasError(extra)
    decreases |extra|
  {
    if extra == [] then ds
    else
      var next := if extra[0] in ds then ds else ds + [extra[0]];
      assert next[..|ds|] == ds;
      var r := Append(next, extra[1..]);
      assert r[..|ds|] == next[..|ds|] by {
        assert r[..|next|] == next;
      }
      assert forall i :: |ds| <= i < |next| ==> r[i] !in r[..i] by {
        forall i | |ds| <= i < |next| ensures r[i] !in r[..i] {
          assert r[..|next|] == next;
          assert i == |ds| && r[i] == next[i] == extra[0];
          assert r[..i] == ds;
        }
      }
      r
  }

  /** `AddAttributeError`: an error-severity diagnostic at a path. */
  function AttributeError(path: seq<PathStep>, summary: string, detail: string): (d: Diagnostic)
    ensures d.severity == Error && d.path == path && d.summary == summary && d.detail == detail
  {
    Diagnostic(Error, summary, detail, path)
  }

  // ---------------------------------------------------------------- values

  datatype BoolValue = BoolNull | BoolUnknown | BoolKnown(value: bool)

  /** A set of strings: null, unknown, or known with its elements. */
  datatype SetValue = SetNull | SetUnknown | SetKnown(elements: seq<string>)

  datatype AttrType = BoolType | StringSetType | OpaqueType(tag: nat)

  /**
   * An attribute value of a criteria object. `Opaque` stands for the
   * attributes that the shared base-criteria code owns (the pattern lists).
   */
  datatype AttrValue = Bool(b: BoolValue) | StringSet(s: SetValue) | Opaque(tag: nat, payload: nat)

  datatype ObjectValue = ObjectUnknown | ObjectKnown(attributes: map<string, AttrValue>)

  function TypeOf(v: AttrValue): AttrType {
    match v
    case Bool(_) => BoolType
    case StringSet(_) => StringSetType
    case Opaque(tag, _) => OpaqueType(tag)
  }

  /** `types.Bool.ValueBool`: the value, or false when null or unknown. */
  function ValueBool(b: BoolValue): (r: bool)
    ensures r <==> b == BoolKnown(true)
  {
    if b.BoolKnown? then b.value else false
  }

  /** `types.Set.Elements`: the elements, or none when null or unknown. */
  function Elements(s: SetValue): (r: seq<string>)
    ensures s.SetKnown? ==> r == s.elements
    ensures !s.SetKnown? ==> r == []
  {
    if s.SetKnown? then s.elements else []
  }

  /** `types.Object.Attributes`: the attributes, or none when unknown. */
  function Attributes(o: ObjectValue): (r: map<string, AttrValue>)
    ensures o.ObjectKnown? ==> r == o.attributes
    ensures o.ObjectUnknown? ==> r == map[]
  {
    if o.ObjectKnown? then o.attributes else map[]
  }

  // ---------------------------------------------------------------- conversions

  const ConversionError := Diagnostic(Error, "Value Conversion Error", "", [])

  /**
   * `types.Set.ElementsAs` into a `[]string` with unhandled null and unknown
   * not allowed: a known set gives its elements, a null set leaves the slice
   * nil, an unknown set is an error and leaves the slice nil.
   */
  function ElementsAs(s: SetValue): (r: (Option<seq<string>>, Diagnostics))
    ensures HasError(r.1) <==> s.SetUnknown?
    ensures s.SetKnown? ==> r.0 == Some(s.elements)
    ensures !s.SetKnown? ==> r.0 == None
  {
    match s
    case SetKnown(e) => (Some(e), [])
    case SetNull => (None, [])
    case SetUnknown => (None, [ConversionError])
  }

  /**
   * `types.SetValueFrom(ctx, types.StringType, v)` on a decoded JSON value:
   * an array of strings becomes a known set; anything else is an error and
   * gives an unknown set.
   */
  function SetValueFrom(v: Json): (r: (SetValue, Diagnostics))
    ensures HasError(r.1) <==> !IsStringArray(v)
    ensures IsStringArray(v) ==> r.0 == SetKnown(Strings(v.items))
    ensures !IsStringArray(v) ==> r.0 == SetUnknown
  {
    if IsStringArray(v) then (SetKnown(Strings(v.items)), []) else (SetUnknown, [ConversionError])
  }

  /** Attribute values that match an object type exactly: same names, same types. */
  predicate Conforms(types: map<string, AttrType>, attrs: map<string, AttrValue>) {
    attrs.Keys == types.Keys && forall k :: k in attrs ==> TypeOf(attrs[k]) == types[k]
  }

  /**
   * `types.ObjectValue(attrTypes, attrs)`: a known object when the
   * attributes conform to the type, an unknown object and an error otherwise.
   */
  function ObjectValueOf(types: map<string, AttrType>, attrs: map<string, AttrValue>): (r: (ObjectValue, Diagnostics))
    ensures r.0.ObjectKnown? <==> Conforms(types, attrs)
    ensures r.0.ObjectKnown? ==> r.0.attributes == attrs
    ensures HasError(r.1) <==> !Conforms(types, attrs)
  {
    if Conforms(types, attrs) then (ObjectKnown(attrs), []) else (ObjectUnknown, [ConversionError])
  }

  /**
   * `types.SetValue(elementType, elems)` for elements built with that
   * element type: `types.ObjectValue` returns a value of the object type
   * whether it succeeds or not, so this call reports nothing.
   */
  function SetOfObjects(elems: seq<ObjectValue>): (r: (seq<ObjectValue>, Diagnostics))
    ensures r.0 == elems && !HasError(r.1)
  {
    (elems, [])
  }
}
