/** The collaborators `FhirAbstractBaseMixin` works with (the mapping
    classes, the FHIR resource classes, the rows another class's search
    selects) and what `get_rev_includes` computes over them. */
module MixinWorld {
  import opened Values
  import opened Resources
  import opened Exceptions
  import opened RequestQuery
  import opened Plans
  import opened Models
  import opened Attributes
  import opened Searchables

  /** What an audit hook decides, and the protected list it leaves behind
      (a hook may call `protect_attributes`). */
  datatype Audit = Audit(event: AuditEvent, protect: Option<seq<string>>)

  /** A mapping class: its name, the resource it produces (`__Resource__`
      or the class name), its FhirMap, the column `_get_item_from_pk`
      compares with, the columns of a newly made row, and the audit hooks it
      defines. */
  datatype ModelClass = ModelClass(
    name: string,
    resourceName: string,
    fhirMap: FhirMap,
    pkColumn: string,
    blank: Fields,
    auditRead: Option<(Fields, FhirRequestQuery) -> AuditEvent>,
    auditCreate: Option<(Fields, Option<FhirRequestQuery>) -> Audit>,
    auditUpdate: Option<(Fields, Option<FhirRequestQuery>) -> Audit>,
    auditDelete: Option<(Fields, Option<FhirRequestQuery>) -> AuditEvent>)

  /** The collaborators of the mixin: attribute collaborators, the FHIR
      resource classes and the mapping classes by name, the resources that
      another class's rows matching a plan materialize to, and `re.match`. */
  datatype World = World(
    env: Env,
    resources: string -> Option<ResourceClass>,
    models: string -> Option<ModelClass>,
    revRows: (string, Plan) -> seq<Resource>,
    rematch: (string, string) -> bool)

  // ---------------------------------------------------------------- get_rev_includes

  /** The outcome of a run of steps that may fail, with the containment
      context after them. */
  datatype Run = Run(result: Result<()>, ctx: Context)

  function NotEnoughValues(): Error
  {
    Raised(ValueError, "not enough values to unpack (expected at least 2, got 1)")
  }

  function NoAttribute(name: string): Error
  {
    Raised(AttributeError, "'FhirMap' object has no attribute '" + name + "'")
  }

  function NoModel(name: string): Error
  {
    Raised(AttributeError, "module has no attribute '" + name + "'")
  }

  /** One `_revinclude` value `Type:param`: too few parts raise
      ValueError, an unknown type raises AttributeError, a parameter the
      type cannot search is skipped; otherwise the mapping's id is read
      and the rows the search for it selects are appended to the contained
      items. */
  function RevStep(rev: string, m: FhirMap, fields: Fields, ctx: Context, q: FhirRequestQuery, w: World): Run
  {
    var parts := Split(rev, ':');
    if |parts| < 2 then Run(Err(NotEnoughValues()), ctx)
    else match w.models(parts[0])
      case None => Run(Err(NoModel(parts[0])), ctx)
      case Some(model) =>
        var reg := Registry(model.fhirMap);
        if !HasKey(reg, parts[1]) then Run(Ok(()), ctx)
        else RevSearch(parts[1], Lookup(reg, parts[1]).value, model.name, m, fields, ctx, q, w)
  }

  /** The part of the step once the other model's searcher for `key` is
      found: the record's id is read, the searcher applied to it, and the
      rows it selects are appended. */
  function RevSearch(key: string, searcher: Searcher, modelName: string, m: FhirMap, fields: Fields, ctx: Context,
                     q: FhirRequestQuery, w: World): Run
  {
    match Lookup(m, "id")
    case None => Run(Err(NoAttribute("id")), ctx)
    case Some(idAttr) =>
      var o := ReadSpec(idAttr, fields, ctx, w.env);
      var read := Context(ctx.containedNames, o.refcount, o.items);
      match o.result
      case Err(e) => Run(Err(e), read)
      case Ok(id) =>
        match searcher(key, PyStr(id), [], q)
        case Err(e) => Run(Err(e), read)
        case Ok(plan) => Run(Ok(()), read.(items := read.items + w.revRows(modelName, plan)))
  }

  /** The step `RevStep` for one record's columns, mapping and query. */
  function RevSteps(m: FhirMap, fields: Fields, q: FhirRequestQuery, w: World): (string, Context) -> Run
  {
    (rev, ctx) => RevStep(rev, m, fields, ctx, q, w)
  }

  /** `step` is `RevStep` for these columns, mapping and query. A method
      that asks for this gets it as one fact; the pointwise statement is
      `AgreesWithRevStep`. */
  ghost predicate IsRevStep(step: (string, Context) -> Run, m: FhirMap, fields: Fields, q: FhirRequestQuery, w: World)
  {
    AgreesWithRevStep(step, m, fields, q, w)
  }

  ghost predicate AgreesWithRevStep(step: (string, Context) -> Run, m: FhirMap, fields: Fields, q: FhirRequestQuery, w: World)
  {
    forall rev, ctx {:trigger RevStep(rev, m, fields, ctx, q, w)} :: step(rev, ctx) == RevStep(rev, m, fields, ctx, q, w)
  }

  lemma RevStepsIsRevStep(m: FhirMap, fields: Fields, q: FhirRequestQuery, w: World)
    ensures IsRevStep(RevSteps(m, fields, q, w), m, fields, q, w)
  {
  }

  /** The `_revinclude` loop: each value is handled in turn by `step`, and
      the first failure ends it. */
  function RevAll(revs: seq<string>, step: (string, Context) -> Run, ctx: Context): Run
    decreases |revs|
  {
    if revs == [] then Run(Ok(()), ctx)
    else
      var s := step(revs[0], ctx);
      if s.result.Err? then s else RevAll(revs[1..], step, s.ctx)
  }

  /** One step of `RevAll` from position `i` of the values. */
  lemma RevAllStep(revs: seq<string>, i: nat, step: (string, Context) -> Run, ctx: Context)
    requires i < |revs|
    ensures var s := step(revs[i], ctx);
            RevAll(revs[i..], step, ctx) == if s.result.Err? then s else RevAll(revs[i + 1..], step, s.ctx)
  {
    assert revs[i..][0] == revs[i] && revs[i..][1..] == revs[i + 1..];
  }

  /** The id of a mapping is an attribute whose reading changes no
      containment state. */
  predicate IdStable(m: FhirMap)
  {
    Lookup(m, "id").Some? ==> !Lookup(m, "id").value.kind.Reference? && !Lookup(m, "id").value.kind.PolyReference?
  }

  /** With a stable id, one rev-include only appends to the contained items
      and leaves the counter alone. */
  lemma RevStepAppends(rev: string, m: FhirMap, fields: Fields, ctx: Context, q: FhirRequestQuery, w: World)
    requires IdStable(m)
    ensures var step := RevStep(rev, m, fields, ctx, q, w);
            step.ctx.refcount == ctx.refcount && ctx.items <= step.ctx.items && step.ctx.containedNames == ctx.containedNames
  {
    var parts := Split(rev, ':');
    if |parts| >= 2 && w.models(parts[0]).Some? && HasKey(Registry(w.models(parts[0]).value.fhirMap), parts[1]) {
      var reg := Registry(w.models(parts[0]).value.fhirMap);
      assert Lookup(reg, parts[1]).Some?;
      RevSearchAppends(parts[1], Lookup(reg, parts[1]).value, w.models(parts[0]).value.name, m, fields, ctx, q, w);
    }
  }

  /** The searcher part of a step only appends as well. */
  lemma RevSearchAppends(key: string, searcher: Searcher, modelName: string, m: FhirMap, fields: Fields, ctx: Context,
                         q: FhirRequestQuery, w: World)
    requires IdStable(m)
    ensures var step := RevSearch(key, searcher, modelName, m, fields, ctx, q, w);
            step.ctx.refcount == ctx.refcount && ctx.items <= step.ctx.items && step.ctx.containedNames == ctx.containedNames
  {
  }

  /** With a stable id, rev-includes only append to the contained items and
      leave the counter alone. */
  lemma {:induction false} RevAllAppends(revs: seq<string>, m: FhirMap, fields: Fields, ctx: Context, q: FhirRequestQuery, w: World)
    requires IdStable(m)
    ensures var run := RevAll(revs, RevSteps(m, fields, q, w), ctx);
            run.ctx.refcount == ctx.refcount && ctx.items <= run.ctx.items && run.ctx.containedNames == ctx.containedNames
    decreases |revs|
  {
    if revs != [] {
      RevStepAppends(revs[0], m, fields, ctx, q, w);
      var step := RevStep(revs[0], m, fields, ctx, q, w);
      assert RevSteps(m, fields, q, w)(revs[0], ctx) == step;
      if step.result.Ok? {
        RevAllAppends(revs[1..], m, fields, step.ctx, q, w);
      }
    }
  }
}
