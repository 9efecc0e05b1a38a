/** The parsed form of a request (`FhirRequestQuery`), shared by the parser,
    the mapping mixins and the request handlers. */
module RequestQuery {
  import opened Values

  /** A query-string dictionary: every parameter name with the list of its
      values, in order of first appearance. */
  type Params = seq<(string, seq<string>)>

  datatype FhirRequestQuery = FhirRequestQuery(
    resource: Option<string>,
    resourceId: Option<string>,
    operation: Option<string>,
    operationId: Option<string>,
    modifiers: Params,
    searchParams: Params,
    body: Option<Value> := None)

  /** The entries of `p` whose name satisfies `keep`, in order (a dictionary
      comprehension with a condition on the key). */
  function FilterKeys(p: Params, keep: string -> bool): (r: Params)
    ensures |r| <= |p|
    ensures forall i :: 0 <= i < |r| ==> keep(r[i].0) && r[i] in p
    ensures forall k :: keep(k) ==> Lookup(r, k) == Lookup(p, k)
    ensures forall k :: !keep(k) ==> Lookup(r, k).None?
  {
    if p == [] then []
    else if keep(p[0].0) then [p[0]] + FilterKeys(p[1..], keep)
    else FilterKeys(p[1..], keep)
  }

  /** `d.get(k, default)` on a Params dictionary. */
  function GetOr(p: Params, k: string, default: seq<string>): (r: seq<string>)
    ensures HasKey(p, k) ==> Some(r) == Lookup(p, k)
    ensures !HasKey(p, k) ==> r == default
  {
    match Lookup(p, k)
    case Some(v) => v
    case None => default
  }
}
