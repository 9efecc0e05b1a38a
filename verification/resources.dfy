/** The FHIR resources the mapping layer produces and consumes, as values.
    The generated resource classes themselves (their validation and JSON
    serialisation) are collaborators: a `ResourceClass` says which element
    names a class declares, which are mandatory, and how a parameter
    dictionary is turned into a resource. */
module Resources {
  import opened Values

  /** A resource: its type, its elements in order (`id` is an element), and
      the resources it contains. */
  datatype Resource = Resource(resourceType: string, elements: seq<(string, Value)>, contained: seq<Resource>)

  /** A resource class of the FHIR library. `construct` is `Resource(jsondict,
      strict=...)`; `None` stands for the FHIRValidationError it raises. */
  datatype ResourceClass = ResourceClass(
    name: string,
    declares: string -> bool,
    mandatoryFields: seq<string>,
    construct: (seq<(string, Value)>, bool) -> Option<Resource>)

  /** `resource.id = id`: the id element is replaced (or added last). */
  function WithId(r: Resource, id: string): (r': Resource)
    ensures Lookup(r'.elements, "id") == Some(Str(id))
    ensures forall k :: k != "id" ==> Lookup(r'.elements, k) == Lookup(r.elements, k)
    ensures r'.resourceType == r.resourceType && r'.contained == r.contained
  {
    LookupPutEverywhere(r.elements, "id", Str(id));
    r.(elements := Put(r.elements, "id", Str(id)))
  }

  lemma LookupPutEverywhere<T>(d: seq<(string, T)>, k: string, v: T)
    ensures forall k' :: Lookup(Put(d, k, v), k') == if k' == k then Some(v) else Lookup(d, k')
  {
    forall k' ensures Lookup(Put(d, k, v), k') == if k' == k then Some(v) else Lookup(d, k') {
      LookupPut(d, k, v, k');
    }
  }

  /** One entry of `auditEvent.entity[0].detail`. */
  datatype Detail = Detail(kind: string, valueString: Option<string>)

  /** The parts of an AuditEvent the server reads and writes: its outcome
      code ("0" is success), its optional description, and the details of
      its first entity. */
  datatype AuditEvent = AuditEvent(outcome: string, outcomeDesc: Option<string>, details: seq<Detail>)

  /** The outcome code of a successful audit. */
  const AuditSuccess: string := "0"

  /** The outcome code the handlers write on failure. */
  const AuditFailure: string := "4"

  datatype Issue = Issue(severity: string, code: string, diagnostics: Option<string>, detailsText: Option<string>)

  datatype OperationOutcome = OperationOutcome(issues: seq<Issue>)
}
