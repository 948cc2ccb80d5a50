/** The binary-sensor platform: which declarations become binary sensors, and
    how a record's `state` is coerced to on, off or unknown. */
module BinarySensor {
  import opened Values
  import opened Declarations
  import opened Render

  const KIND := "binary_sensor"

  /** The strings that mean "on", compared after lower-casing. */
  const ON_WORDS: seq<string> := ["true", "on", "yes", "1", "active", "open"]

  /** The coercion of a non-missing `state`: a boolean passes through (it is
      tested before the numeric rule, although a Python bool is an int), a
      string is on iff its lower-cased form is one of ON_WORDS, a number is on
      iff it is strictly positive, anything else is its truthiness. */
  function CoerceState(state: Value): (r: Option<bool>)
    ensures r.None? <==> state == VNone
    ensures state.VBool? ==> r == Some(state.b)
    ensures state.VStr? ==> r == Some(Lower(state.s) in ON_WORDS)
    ensures state.VInt? ==> r == Some(state.i > 0)
    ensures state.VFloat? ==> r == Some(state.f > 0.0)
    ensures state.VOther? ==> r == Some(state.nonEmpty)
  {
    match state
    case VNone => None
    case VBool(b) => Some(b)
    case VStr(s) => Some(Lower(s) in ON_WORDS)
    case VInt(i) => Some(i > 0)
    case VFloat(f) => Some(f > 0.0)
    case VOther(_, nonEmpty) => Some(nonEmpty)
  }

  /** The `is_on` property: unknown (None), never off, when there is no data
      or the sensor's record has no `state`; otherwise the coerced state. */
  function IsOn(data: Option<Snapshot>, name: string): (r: Option<bool>)
    ensures r.None? <==> !HasData(data) || Field(data, name, "state") == VNone
    ensures HasData(data) ==> r == CoerceState(Field(data, name, "state"))
  {
    if !HasData(data) then None else CoerceState(Field(data, name, "state"))
  }

  /** The coercion departs from Python's truthiness only for strings and for
      negative numbers. */
  lemma CoercionAgreesWithTruthiness(state: Value)
    requires state != VNone && !state.VStr?
    requires state.VInt? ==> state.i >= 0
    requires state.VFloat? ==> state.f >= 0.0
    ensures CoerceState(state) == Some(Truthy(state))
  {
  }

  /** A string state has no fallback: it is on exactly for the six words,
      whatever its truthiness. */
  lemma StringStateIsOnlyWords(s: string)
    ensures CoerceState(VStr(s)) == Some(true) <==> Lower(s) in ON_WORDS
  {
  }

  /** Worked examples: "Active" is on, while "0", "off" and "" are off; 1 is
      on and 0 off. */
  lemma {:induction false} CoercionExamples()
    ensures CoerceState(VStr("Active")) == Some(true)
    ensures CoerceState(VStr("0")) == Some(false)
    ensures CoerceState(VStr("off")) == Some(false)
    ensures CoerceState(VStr("")) == Some(false)
    ensures CoerceState(VInt(1)) == Some(true)
    ensures CoerceState(VInt(0)) == Some(false)
    ensures CoerceState(VNone) == None
  {
    assert Lower("Active") == "active";
    assert Lower("0") == "0";
    assert Lower("off") == "off";
  }

  /** With no coordinator data, None or an empty dictionary, the sensor is
      unknown. */
  lemma NoDataIsUnknown(name: string)
    ensures IsOn(None, name) == None
    ensures IsOn(Some(map[]), name) == None
  {
  }

  /** `async_setup_entry`: one binary sensor per declaration whose kind
      (defaulting to "sensor") is "binary_sensor", bound to the first
      declaration carrying its name. */
  method SetupEntry(entryId: string, decls: seq<Decl>) returns (es: seq<Entity>)
    requires Named(decls)
    ensures |es| == |OfKind(decls, KIND)|
    ensures forall i :: 0 <= i < |es| ==>
              NAME in OfKind(decls, KIND)[i] &&
              es[i] == LookupEntity(entryId, decls, OfKind(decls, KIND)[i][NAME])
  {
    es := LookupEntities(entryId, decls, KIND);
    EntitiesOfKindMatchDecls(entryId, decls, decls, KIND);
  }
}
