/** The ORM model instance behind a mapping (`instance._model`): its column
    values, and the per-call context that `to_fhir` installs on it and the
    reference attributes update. */
module Models {
  import opened Values
  import opened Resources

  class Record {
    /** The columns (and properties) readable with `getattr`. */
    var fields: map<string, Value>
    /** `_contained_names`: the reference names to embed as contained resources. */
    var containedNames: seq<string>
    /** `_elements`: the requested element names, if any. */
    var elements: Option<seq<string>>
    /** `_contained_items`: the resources embedded so far. */
    var containedItems: seq<Resource>
    /** `_refcount`: how many references have been contained so far. */
    var refcount: int
    /** `_hidden_attributes`, when it has been set. */
    var hiddenAttributes: Option<seq<string>>
    /** `_protected_attributes`, when it has been set. */
    var protectedAttributes: Option<seq<string>>
    /** `_Fhir`: the FhirMap instance, once the `Fhir` property has made it. */
    var fhir: Option<MapInstance>

    /** A record with the given columns and no context yet. */
    constructor (fields: map<string, Value>)
      ensures this.fields == fields
      ensures containedNames == [] && elements == None && containedItems == [] && refcount == 0
      ensures hiddenAttributes == None && protectedAttributes == None && fhir == None
    {
      this.fields := fields;
      containedNames := [];
      elements := None;
      containedItems := [];
      refcount := 0;
      hiddenAttributes := None;
      protectedAttributes := None;
      fhir := None;
    }

    /** `protect_attributes(names)`: replaces the protected list. */
    method ProtectAttributes(names: seq<string>)
      modifies this
      ensures protectedAttributes == Some(names)
      ensures fields == old(fields) && hiddenAttributes == old(hiddenAttributes)
      ensures containedNames == old(containedNames) && elements == old(elements)
      ensures containedItems == old(containedItems) && refcount == old(refcount) && fhir == old(fhir)
    {
      protectedAttributes := Some(names);
    }

    /** `hide_attributes(names)`: replaces the hidden list. */
    method HideAttributes(names: seq<string>)
      modifies this
      ensures hiddenAttributes == Some(names)
      ensures fields == old(fields) && protectedAttributes == old(protectedAttributes)
      ensures containedNames == old(containedNames) && elements == old(elements)
      ensures containedItems == old(containedItems) && refcount == old(refcount) && fhir == old(fhir)
    {
      hiddenAttributes := Some(names);
    }

    /** The `Fhir` property: the FhirMap instance is made on first use,
        bound to this record and listing the mapping's attribute names;
        later uses return the same instance. */
    method Fhir(properties: seq<string>) returns (inst: MapInstance)
      modifies this
      ensures old(fhir).Some? ==> inst == old(fhir).value && fhir == old(fhir)
      ensures old(fhir).None? ==> fresh(inst) && inst.model == this && inst.properties == properties && fhir == Some(inst)
      ensures fields == old(fields) && hiddenAttributes == old(hiddenAttributes) && protectedAttributes == old(protectedAttributes)
      ensures containedNames == old(containedNames) && elements == old(elements)
      ensures containedItems == old(containedItems) && refcount == old(refcount)
    {
      if fhir.Some? {
        return fhir.value;
      }
      inst := new MapInstance(this, properties);
      fhir := Some(inst);
    }
  }

  /** An instance of a mapping's FhirMap class: the record it reads and
      writes (`_model`) and its attribute names (`_properties`). */
  class MapInstance {
    const model: Record
    const properties: seq<string>

    constructor (model: Record, properties: seq<string>)
      ensures this.model == model && this.properties == properties
    {
      this.model := model;
      this.properties := properties;
    }
  }
}
