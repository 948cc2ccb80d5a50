/** The number platform: read-only numeric entities whose value is the
    record's `state` converted to a number. */
module Number {
  import opened Values
  import opened Declarations
  import opened Render

  const KIND := "number"

  /** The `native_value` property. `toFloat` is Python's `float()`, returning
      None where it raises ValueError or TypeError; the property then reports
      None instead of raising. */
  function NativeValue(data: Option<Snapshot>, name: string, toFloat: Value -> Option<real>): (r: Option<real>)
    ensures !HasData(data) ==> r == None
    ensures Field(data, name, "state") == VNone ==> r == None
    ensures HasData(data) && Field(data, name, "state") != VNone ==> r == toFloat(Field(data, name, "state"))
  {
    if !HasData(data) then None
    else
      var state := Field(data, name, "state");
      if state == VNone then None else toFloat(state)
  }

  /** A value is reported only when the conversion of a present state
      succeeds. */
  lemma ValueNeedsConvertibleState(data: Option<Snapshot>, name: string, toFloat: Value -> Option<real>)
    ensures NativeValue(data, name, toFloat).Some? <==>
            HasData(data) && Field(data, name, "state") != VNone && toFloat(Field(data, name, "state")).Some?
  {
  }

  /** `async_set_native_value`: number entities are read-only, so every
      attempt raises NotImplementedError, whatever the value. */
  function SetNativeValue(value: real): (r: Outcome<()>)
    ensures r.Raise? && r.error == NotImplementedError
  {
    Raise(NotImplementedError)
  }

  /** `async_setup_entry`: one number entity per declaration of kind
      "number", bound to the first declaration carrying its name. */
  method SetupEntry(entryId: string, decls: seq<Decl>) returns (es: seq<Entity>)
    requires Named(decls)
    ensures |es| == |OfKind(decls, KIND)|
    ensures forall i :: 0 <= i < |es| ==>
              NAME in OfKind(decls, KIND)[i] &&
              es[i] == LookupEntity(entryId, decls, OfKind(decls, KIND)[i][NAME])
  {
    es := LookupEntities(entryId, decls, KIND);
    EntitiesOfKindMatchDecls(entryId, decls, decls, KIND);
  }
}
