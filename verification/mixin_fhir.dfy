/** `FhirAbstractBaseMixin`: turning a record into a FHIR resource
    (`to_fhir`, `get_params_dict`, `get_rev_includes`) and a FHIR resource
    into record columns (`create_from_resource`, `update_from_resource`),
    with the audit hooks that gate them. */
module AbstractBaseMixin {
  import opened Values
  import opened Resources
  import opened Exceptions
  import opened RequestQuery
  import opened Plans
  import opened Models
  import opened Attributes
  import opened Searchables
  import opened MixinWorld

  // ---------------------------------------------------------------- dir() order

  predicate StrLe(a: string, b: string)
  {
    StrSign(a, b) <= 0
  }

  lemma {:induction false} StrSignFlip(a: string, b: string)
    ensures StrSign(b, a) == -StrSign(a, b)
    decreases |a|
  {
    if a != b && a != [] && b != [] && a[0] == b[0] {
      StrSignFlip(a[1..], b[1..]);
    }
  }

  predicate SortedNames(s: seq<string>)
  {
    forall i :: 0 < i < |s| ==> StrLe(s[i - 1], s[i])
  }

  function Insert(x: string, s: seq<string>): (r: seq<string>)
    requires SortedNames(s)
    ensures SortedNames(r) && multiset(r) == multiset(s) + multiset{x}
    ensures |r| > 0 && (r[0] == x || (|s| > 0 && r[0] == s[0]))
  {
    if s == [] || StrLe(x, s[0]) then [x] + s
    else
      StrSignFlip(x, s[0]);
      var rest := Insert(x, s[1..]);
      assert s == [s[0]] + s[1..];
      [s[0]] + rest
  }

  /** The names in the order `dir` lists them. */
  function SortNames(s: seq<string>): (r: seq<string>)
    ensures SortedNames(r) && multiset(r) == multiset(s)
  {
    if s == [] then []
    else
      assert s == [s[0]] + s[1..];
      Insert(s[0], SortNames(s[1..]))
  }

  /** The names satisfying `keep`, in order. */
  function KeepNames(s: seq<string>, keep: string -> bool): (r: seq<string>)
    ensures forall x :: x in r <==> x in s && keep(x)
  {
    if s == [] then []
    else
      assert forall x :: x in s <==> x == s[0] || x in s[1..];
      (if keep(s[0]) then [s[0]] else []) + KeepNames(s[1..], keep)
  }

  // ---------------------------------------------------------------- get_params_dict

  function LowerAll(names: seq<string>): (r: seq<string>)
    ensures |r| == |names| && forall i :: 0 <= i < |names| ==> r[i] == ToLower(names[i])
  {
    seq(|names|, i requires 0 <= i < |names| => ToLower(names[i]))
  }

  /** Whether an attribute name is materialized: it is public, requested
      (when `_elements` is non-empty: listed, mandatory or "id"), declared
      by the resource class, and not hidden (compared in lower case). */
  predicate Wanted(n: string, cls: ResourceClass, elements: Option<seq<string>>, hidden: Option<seq<string>>)
  {
    !StartsWith(n, "_") &&
    (elements.None? || elements.value == [] || n in elements.value + cls.mandatoryFields + ["id"]) &&
    cls.declares(n) &&
    ToLower(n) !in LowerAll(if hidden.Some? then hidden.value else [])
  }

  /** The attribute names `get_params_dict` reads, in `dir` order. */
  function SelectedNames(m: FhirMap, cls: ResourceClass, elements: Option<seq<string>>, hidden: Option<seq<string>>): (names: seq<string>)
    ensures forall n :: n in names <==> n in Keys(m) && Wanted(n, cls, elements, hidden)
  {
    var sorted := SortNames(Keys(m));
    assert forall n :: n in sorted <==> n in Keys(m) by {
      forall n ensures n in sorted <==> n in Keys(m) {
        assert n in sorted <==> n in multiset(sorted);
        assert n in Keys(m) <==> n in multiset(Keys(m));
      }
    }
    KeepNames(sorted, n => Wanted(n, cls, elements, hidden))
  }

  /** The containment ids "ref1", "ref2", ... in order. */
  predicate Numbered(items: seq<Resource>)
  {
    forall i :: 0 <= i < |items| ==> Lookup(items[i].elements, "id") == Some(Str("ref" + IntToString(i + 1)))
  }

  /** Reading any attribute keeps the containment context consistent: the
      counter equals the number of contained items, which only grow, and
      they are numbered from "ref1". */
  lemma ReadKeepsNumbering(a: Attribute, fields: Fields, ctx: Context, env: Env)
    requires ctx.refcount == |ctx.items| && Numbered(ctx.items)
    ensures var o := ReadSpec(a, fields, ctx, env);
            o.refcount == |o.items| && Numbered(o.items) && ctx.items <= o.items
  {
    match a.kind
    case Reference(cls, idCol, refName, force) =>
      ReferenceKeepsNumbering(fields, ctx, cls, idCol, refName, force, env.find);
    case PolyReference(types, pkGetter, refName, force) =>
      PolyReferenceKeepsNumbering(fields, ctx, types, pkGetter, refName, force, env.known, env.find);
    case _ =>
  }

  lemma ReferenceKeepsNumbering(fields: Fields, ctx: Context, cls: string, idCol: string, refName: string, force: bool,
                                find: (string, Value) -> Option<Target>)
    requires ctx.refcount == |ctx.items| && Numbered(ctx.items)
    ensures var o := ReferenceRead(fields, ctx, cls, idCol, refName, force, find);
            o.refcount == |o.items| && Numbered(o.items) && ctx.items <= o.items
  {
    if idCol in fields && refName in ctx.containedNames && find(cls, fields[idCol]).Some? {
      ContainKeepsNumbering(ctx, find(cls, fields[idCol]).value);
    }
  }

  lemma PolyReferenceKeepsNumbering(fields: Fields, ctx: Context, types: seq<string>, pkGetter: Getter, refName: string, force: bool,
                                    known: string -> bool, find: (string, Value) -> Option<Target>)
    requires ctx.refcount == |ctx.items| && Numbered(ctx.items)
    ensures var o := PolyReferenceRead(fields, ctx, types, pkGetter, refName, force, known, find);
            o.refcount == |o.items| && Numbered(o.items) && ctx.items <= o.items
  {
    if FirstUnknown(types, known).None? && Get(pkGetter, fields).Ok? && refName in ctx.containedNames {
      match FirstResolving(types, Get(pkGetter, fields).value, find)
      case None =>
      case Some((_, t)) => ContainKeepsNumbering(ctx, t);
    }
  }

  /** Containing a resource numbers it one past the items already contained. */
  lemma ContainKeepsNumbering(ctx: Context, t: Target)
    requires ctx.refcount == |ctx.items| && Numbered(ctx.items)
    ensures var o := Contain(ctx, t);
            o.refcount == |o.items| && Numbered(o.items) && ctx.items <= o.items
  {
    NumberedAppend(ctx.items, WithId(t.resource, "ref" + IntToString(ctx.refcount + 1)));
  }

  /** Appending the resource numbered one past the end keeps the numbering. */
  lemma NumberedAppend(items: seq<Resource>, r: Resource)
    requires Numbered(items)
    requires Lookup(r.elements, "id") == Some(Str("ref" + IntToString(|items| + 1)))
    ensures Numbered(items + [r])
  {
    var s := items + [r];
    forall i | 0 <= i < |s|
      ensures Lookup(s[i].elements, "id") == Some(Str("ref" + IntToString(i + 1)))
    {
      if i < |items| { assert s[i] == items[i]; }
    }
  }

  /** The outcome of reading several attributes in turn into a dictionary,
      with the containment context after them. */
  datatype Collected = Collected(result: Result<seq<(string, Value)>>, ctx: Context)

  /** The dictionary comprehension of `get_params_dict`: each name's
      attribute is read in turn, threading the containment context, and the
      first failure ends the reading. */
  function ReadAll(m: FhirMap, names: seq<string>, fields: Fields, ctx: Context, env: Env, acc: seq<(string, Value)>): (c: Collected)
    ensures c.ctx.containedNames == ctx.containedNames
    decreases |names|
  {
    if names == [] then Collected(Ok(acc), ctx)
    else
      match Lookup(m, names[0])
      case None => Collected(Err(NoAttribute(names[0])), ctx)
      case Some(a) =>
        var o := ReadSpec(a, fields, ctx, env);
        var next := Context(ctx.containedNames, o.refcount, o.items);
        match o.result
        case Err(e) => Collected(Err(e), next)
        case Ok(v) => ReadAll(m, names[1..], fields, next, env, Put(acc, names[0], v))
  }

  lemma HasKeyPut<T>(d: seq<(string, T)>, k: string, v: T, n: string)
    ensures HasKey(Put(d, k, v), n) <==> HasKey(d, n) || n == k
  {
    LookupPut(d, k, v, n);
    assert HasKey(Put(d, k, v), n) <==> Lookup(Put(d, k, v), n).Some?;
    assert HasKey(d, n) <==> Lookup(d, n).Some?;
  }

  /** A successful reading has exactly one key per name read, and leaves
      the containment context numbered. */
  lemma {:induction false} ReadAllKeys(m: FhirMap, names: seq<string>, fields: Fields, ctx: Context, env: Env, acc: seq<(string, Value)>)
    requires ctx.refcount == |ctx.items| && Numbered(ctx.items)
    ensures var c := ReadAll(m, names, fields, ctx, env, acc);
            c.ctx.refcount == |c.ctx.items| && Numbered(c.ctx.items) && ctx.items <= c.ctx.items &&
            c.ctx.containedNames == ctx.containedNames
    ensures var c := ReadAll(m, names, fields, ctx, env, acc);
            c.result.Ok? ==> forall n :: HasKey(c.result.value, n) <==> HasKey(acc, n) || n in names
    decreases |names|
  {
    if names != [] {
      match Lookup(m, names[0])
      case None =>
      case Some(a) =>
        ReadKeepsNumbering(a, fields, ctx, env);
        var o := ReadSpec(a, fields, ctx, env);
        var next := Context(ctx.containedNames, o.refcount, o.items);
        if o.result.Ok? {
          var acc' := Put(acc, names[0], o.result.value);
          ReadAllKeys(m, names[1..], fields, next, env, acc');
          forall n ensures HasKey(acc', n) <==> HasKey(acc, n) || n == names[0] {
            HasKeyPut(acc, names[0], o.result.value, n);
          }
          assert forall n :: n in names <==> n == names[0] || n in names[1..];
        }
    }
  }

  /** `get_params_dict(resource, elements)` on a record: the selected
      attributes are read in `dir` order. */
  method ParamsDict(rec: Record, m: FhirMap, cls: ResourceClass, elements: Option<seq<string>>, env: Env)
    returns (r: Result<seq<(string, Value)>>)
    modifies rec
    ensures var c := ReadAll(m, SelectedNames(m, cls, elements, old(rec.hiddenAttributes)), old(rec.fields),
                             Context(old(rec.containedNames), old(rec.refcount), old(rec.containedItems)), env, []);
            r == c.result && rec.refcount == c.ctx.refcount && rec.containedItems == c.ctx.items
    ensures rec.fields == old(rec.fields) && rec.containedNames == old(rec.containedNames) && rec.elements == old(rec.elements)
    ensures rec.hiddenAttributes == old(rec.hiddenAttributes) && rec.protectedAttributes == old(rec.protectedAttributes)
  {
    var names := SelectedNames(m, cls, elements, rec.hiddenAttributes);
    ghost var target := ReadAll(m, names, rec.fields, Context(rec.containedNames, rec.refcount, rec.containedItems), env, []);
    var paramDict: seq<(string, Value)> := [];
    var i := 0;
    while i < |names|
      invariant 0 <= i <= |names|
      invariant rec.fields == old(rec.fields) && rec.containedNames == old(rec.containedNames) && rec.elements == old(rec.elements)
      invariant rec.hiddenAttributes == old(rec.hiddenAttributes) && rec.protectedAttributes == old(rec.protectedAttributes)
      invariant target == ReadAll(m, names[i..], rec.fields, Context(rec.containedNames, rec.refcount, rec.containedItems), env, paramDict)
    {
      ghost var ctx := Context(rec.containedNames, rec.refcount, rec.containedItems);
      var attribute := Lookup(m, names[i]);
      if attribute.None? {
        ReadAllStep(m, names, i, rec.fields, ctx, env, paramDict);
        return Err(NoAttribute(names[i]));
      }
      var value := Read(rec, attribute.value, env);
      ReadAllStep(m, names, i, rec.fields, ctx, env, paramDict);
      if value.Err? {
        return Err(value.error);
      }
      paramDict := Put(paramDict, names[i], value.value);
      i := i + 1;
    }
    r := Ok(paramDict);
  }

  /** One step of `ReadAll` from position `i` of the names. */
  lemma ReadAllStep(m: FhirMap, names: seq<string>, i: nat, fields: Fields, ctx: Context, env: Env, acc: seq<(string, Value)>)
    requires i < |names|
    ensures var c := ReadAll(m, names[i..], fields, ctx, env, acc);
            match Lookup(m, names[i])
            case None => c == Collected(Err(NoAttribute(names[i])), ctx)
            case Some(a) =>
              var o := ReadSpec(a, fields, ctx, env);
              var next := Context(ctx.containedNames, o.refcount, o.items);
              if o.result.Err? then c == Collected(Err(o.result.error), next)
              else c == ReadAll(m, names[i + 1..], fields, next, env, Put(acc, names[i], o.result.value))
  {
    assert names[i..][0] == names[i] && names[i..][1..] == names[i + 1..];
  }

  // ---------------------------------------------------------------- get_rev_includes

  /** `get_rev_includes(query)` on a record, with `step` standing for the
      loop's body on this record's columns. */
  method RevIncludes(rec: Record, m: FhirMap, query: Option<FhirRequestQuery>, w: World, ghost step: (string, Context) -> Run)
    returns (r: Result<()>)
    requires query.Some? ==> IsRevStep(step, m, rec.fields, query.value, w)
    modifies rec
    ensures query.None? || !HasKey(query.value.modifiers, "_revinclude") ==>
              r == Ok(()) && rec.refcount == old(rec.refcount) && rec.containedItems == old(rec.containedItems)
    ensures query.Some? && HasKey(query.value.modifiers, "_revinclude") ==>
              var run := RevAll(Lookup(query.value.modifiers, "_revinclude").value, step,
                                Context(old(rec.containedNames), old(rec.refcount), old(rec.containedItems)));
              r == run.result && rec.refcount == run.ctx.refcount && rec.containedItems == run.ctx.items
    ensures rec.fields == old(rec.fields) && rec.containedNames == old(rec.containedNames) && rec.elements == old(rec.elements)
    ensures rec.hiddenAttributes == old(rec.hiddenAttributes) && rec.protectedAttributes == old(rec.protectedAttributes)
  {
    if query.None? || !HasKey(query.value.modifiers, "_revinclude") {
      return Ok(());
    }
    r := RevIncludeAll(rec, Lookup(query.value.modifiers, "_revinclude").value, m, query.value, w, step);
  }

  /** The `_revinclude` loop of `get_rev_includes`: each value in turn,
      stopping at the first error. */
  method RevIncludeAll(rec: Record, revs: seq<string>, m: FhirMap, q: FhirRequestQuery, w: World, ghost step: (string, Context) -> Run)
    returns (r: Result<()>)
    requires IsRevStep(step, m, rec.fields, q, w)
    modifies rec
    ensures var run := RevAll(revs, step, Context(old(rec.containedNames), old(rec.refcount), old(rec.containedItems)));
            r == run.result && rec.refcount == run.ctx.refcount && rec.containedItems == run.ctx.items
    ensures rec.fields == old(rec.fields) && rec.containedNames == old(rec.containedNames) && rec.elements == old(rec.elements)
    ensures rec.hiddenAttributes == old(rec.hiddenAttributes) && rec.protectedAttributes == old(rec.protectedAttributes)
  {
    ghost var target := RevAll(revs, step, Context(rec.containedNames, rec.refcount, rec.containedItems));
    var i := 0;
    while i < |revs|
      invariant 0 <= i <= |revs|
      invariant rec.fields == old(rec.fields) && rec.containedNames == old(rec.containedNames) && rec.elements == old(rec.elements)
      invariant rec.hiddenAttributes == old(rec.hiddenAttributes) && rec.protectedAttributes == old(rec.protectedAttributes)
      invariant target == RevAll(revs[i..], step, Context(rec.containedNames, rec.refcount, rec.containedItems))
    {
      RevAllStep(revs, i, step, Context(rec.containedNames, rec.refcount, rec.containedItems));
      var res := RevIncludeOne(rec, revs[i], m, q, w, step);
      if res.Err? {
        return res;
      }
      i := i + 1;
    }
    r := Ok(());
  }

  /** The body of the `_revinclude` loop on a record. */
  method RevIncludeOne(rec: Record, rev: string, m: FhirMap, q: FhirRequestQuery, w: World, ghost step: (string, Context) -> Run)
    returns (r: Result<()>)
    requires IsRevStep(step, m, rec.fields, q, w)
    modifies rec
    ensures var s := step(rev, Context(old(rec.containedNames), old(rec.refcount), old(rec.containedItems)));
            r == s.result && Context(rec.containedNames, rec.refcount, rec.containedItems) == s.ctx
    ensures rec.fields == old(rec.fields) && rec.containedNames == old(rec.containedNames) && rec.elements == old(rec.elements)
    ensures rec.hiddenAttributes == old(rec.hiddenAttributes) && rec.protectedAttributes == old(rec.protectedAttributes)
  {
    ghost var ctx := Context(rec.containedNames, rec.refcount, rec.containedItems);
    assert step(rev, ctx) == RevStep(rev, m, rec.fields, ctx, q, w);
    var parts := Split(rev, ':');
    if |parts| < 2 {
      return Err(NotEnoughValues());
    }
    var model := w.models(parts[0]);
    if model.None? {
      return Err(NoModel(parts[0]));
    }
    var reg := SearchablesOf(model.value.fhirMap);
    if !HasKey(reg, parts[1]) {
      return Ok(());
    }
    var idAttr := Lookup(m, "id");
    if idAttr.None? {
      return Err(NoAttribute("id"));
    }
    var id := Read(rec, idAttr.value, w.env);
    if id.Err? {
      return Err(id.error);
    }
    var searcher := Lookup(reg, parts[1]);
    var plan := searcher.value(parts[1], PyStr(id.value), [], q);
    if plan.Err? {
      return Err(plan.error);
    }
    rec.containedItems := rec.containedItems + w.revRows(model.value.name, plan.value);
    r := Ok(());
  }

  // ---------------------------------------------------------------- to_fhir

  /** `_contained_names` as `to_fhir` sets it. */
  function IncludeNames(query: Option<FhirRequestQuery>): seq<string>
  {
    if query.Some? then GetOr(query.value.modifiers, "_include", []) else []
  }

  /** `_elements` as `to_fhir` sets it. */
  function ElementsOf(query: Option<FhirRequestQuery>): Option<seq<string>>
  {
    if query.Some? then Lookup(query.value.modifiers, "_elements") else None
  }

  /** `resource.contained = items`, done only when items were collected. */
  function Attach(res: Resource, items: seq<Resource>): (r: Resource)
    ensures items != [] ==> r.contained == items
    ensures items == [] ==> r == res
    ensures r.resourceType == res.resourceType && r.elements == res.elements
  {
    if items == [] then res else res.(contained := items)
  }

  /** The tail of `to_fhir` once the resource is built: rev-includes when
      the query asks for them, then the contained items attached. */
  function CompleteSpec(res: Resource, ctx: Context, m: FhirMap, fields: Fields, query: Option<FhirRequestQuery>, w: World): (Result<Resource>, Context)
  {
    if query.Some? && HasKey(query.value.modifiers, "_revinclude") then
      var run := RevAll(Lookup(query.value.modifiers, "_revinclude").value, RevSteps(m, fields, query.value, w), ctx);
      match run.result
      case Err(e) => (Err(e), run.ctx)
      case Ok(_) => (Ok(Attach(res, run.ctx.items)), run.ctx)
    else (Ok(Attach(res, ctx.items)), ctx)
  }

  /** What `to_fhir` computes from a record's columns and hidden list: the
      resource and the containment context it leaves on the record. The
      context starts blank on every call. */
  function ToFhirSpec(fields: Fields, hidden: Option<seq<string>>, cls: ModelClass, query: Option<FhirRequestQuery>,
                      strict: bool, w: World): (Result<Resource>, Context)
  {
    var blank := Context(IncludeNames(query), 0, []);
    match w.resources(cls.resourceName)
    case None => (Err(NoModel(cls.resourceName)), blank)
    case Some(resClass) => BuildSpec(fields, hidden, ElementsOf(query), blank, resClass, cls, query, strict, w)
  }

  /** `to_fhir` once the resource class is found: the selected attributes
      read from `ctx` on, the resource constructed, then completed. */
  function BuildSpec(fields: Fields, hidden: Option<seq<string>>, elements: Option<seq<string>>, ctx: Context,
                     resClass: ResourceClass, cls: ModelClass, query: Option<FhirRequestQuery>, strict: bool, w: World): (Result<Resource>, Context)
  {
    var c := ReadAll(cls.fhirMap, SelectedNames(cls.fhirMap, resClass, elements, hidden), fields, ctx, w.env, []);
    match c.result
    case Err(e) => (Err(e), c.ctx)
    case Ok(params) =>
      match resClass.construct(params, strict)
      case None => (Err(FhirValidation("Invalid resource")), c.ctx)
      case Some(res) => CompleteSpec(res, c.ctx, cls.fhirMap, fields, query, w)
  }

  /** What a row contributes to `to_fhir`: its columns and hidden list. */
  type Snap = (Fields, Option<seq<string>>)

  /** `item.to_fhir(query=query)` on a row. */
  function ConvertRow(row: Snap, cls: ModelClass, q: FhirRequestQuery, strict: bool, w: World): Result<Resource>
  {
    ToFhirSpec(row.0, row.1, cls, Some(q), strict, w).0
  }

  /** `convert` is `to_fhir` on every row, for this class, query and world.
      A method that asks for this gets it as one fact; the pointwise
      statement is `AgreesWithConvertRow`. */
  ghost predicate ConvertsRows(convert: Snap -> Result<Resource>, cls: ModelClass, q: FhirRequestQuery, strict: bool, w: World)
  {
    AgreesWithConvertRow(convert, cls, q, strict, w)
  }

  ghost predicate AgreesWithConvertRow(convert: Snap -> Result<Resource>, cls: ModelClass, q: FhirRequestQuery, strict: bool, w: World)
  {
    forall row {:trigger ConvertRow(row, cls, q, strict, w)} :: convert(row) == ConvertRow(row, cls, q, strict, w)
  }

  /** The tail keeps a numbered prefix numbered and only appends. */
  lemma CompleteNumbering(res: Resource, ctx: Context, m: FhirMap, fields: Fields, query: Option<FhirRequestQuery>, w: World)
    requires IdStable(m) && ctx.refcount == |ctx.items| && Numbered(ctx.items)
    ensures var (_, c) := CompleteSpec(res, ctx, m, fields, query, w);
            c.refcount == ctx.refcount && ctx.items <= c.items && c.containedNames == ctx.containedNames
  {
    if query.Some? && HasKey(query.value.modifiers, "_revinclude") {
      RevAllAppends(Lookup(query.value.modifiers, "_revinclude").value, m, fields, ctx, query.value, w);
    }
  }

  /** With a stable id, the references contained while reading the
      attributes are numbered "ref1" to "ref{n}" where n is the final
      counter, and any rev-included resources follow them. */
  lemma ToFhirNumbering(fields: Fields, hidden: Option<seq<string>>, cls: ModelClass, query: Option<FhirRequestQuery>, strict: bool, w: World)
    requires IdStable(cls.fhirMap)
    ensures var (_, ctx) := ToFhirSpec(fields, hidden, cls, query, strict, w);
            0 <= ctx.refcount <= |ctx.items| && Numbered(ctx.items[..ctx.refcount]) && ctx.containedNames == IncludeNames(query)
  {
    if w.resources(cls.resourceName).Some? {
      BuildNumbering(fields, hidden, ElementsOf(query), w.resources(cls.resourceName).value, cls, query, strict, w);
    }
  }

  /** The numbering once the resource class is found, from a blank context. */
  lemma BuildNumbering(fields: Fields, hidden: Option<seq<string>>, elements: Option<seq<string>>, resClass: ResourceClass,
                       cls: ModelClass, query: Option<FhirRequestQuery>, strict: bool, w: World)
    requires IdStable(cls.fhirMap)
    ensures var (_, ctx) := BuildSpec(fields, hidden, elements, Context(IncludeNames(query), 0, []), resClass, cls, query, strict, w);
            0 <= ctx.refcount <= |ctx.items| && Numbered(ctx.items[..ctx.refcount]) && ctx.containedNames == IncludeNames(query)
  {
    var blank := Context(IncludeNames(query), 0, []);
    var names := SelectedNames(cls.fhirMap, resClass, elements, hidden);
    ReadAllKeys(cls.fhirMap, names, fields, blank, w.env, []);
    var c := ReadAll(cls.fhirMap, names, fields, blank, w.env, []);
    var spec := BuildSpec(fields, hidden, elements, blank, resClass, cls, query, strict, w);
    if c.result.Ok? && resClass.construct(c.result.value, strict).Some? {
      var res := resClass.construct(c.result.value, strict).value;
      CompleteNumbering(res, c.ctx, cls.fhirMap, fields, query, w);
      assert spec == CompleteSpec(res, c.ctx, cls.fhirMap, fields, query, w);
      NumberedPrefix(c.ctx, spec.1);
    } else {
      assert spec.1 == c.ctx;
      NumberedPrefix(c.ctx, c.ctx);
    }
  }

  /** A context that keeps the counter of a numbered one and only appends
      to its items is numbered up to the counter. */
  lemma NumberedPrefix(ctx: Context, d: Context)
    requires ctx.refcount == |ctx.items| && Numbered(ctx.items)
    requires d.refcount == ctx.refcount && ctx.items <= d.items
    ensures 0 <= d.refcount <= |d.items| && Numbered(d.items[..d.refcount])
  {
    assert d.items[..d.refcount] == ctx.items;
  }

  /** The tail of `to_fhir` on a record. */
  method Complete(rec: Record, res: Resource, m: FhirMap, query: Option<FhirRequestQuery>, w: World) returns (r: Result<Resource>)
    modifies rec
    ensures var (out, ctx) := CompleteSpec(res, Context(old(rec.containedNames), old(rec.refcount), old(rec.containedItems)),
                                           m, old(rec.fields), query, w);
            r == out && rec.refcount == ctx.refcount && rec.containedItems == ctx.items
    ensures rec.fields == old(rec.fields) && rec.containedNames == old(rec.containedNames) && rec.elements == old(rec.elements)
    ensures rec.hiddenAttributes == old(rec.hiddenAttributes) && rec.protectedAttributes == old(rec.protectedAttributes)
  {
    ghost var step := if query.Some? then RevSteps(m, rec.fields, query.value, w) else (rev, ctx) => Run(Ok(()), ctx);
    if query.Some? {
      RevStepsIsRevStep(m, rec.fields, query.value, w);
    }
    var revs := RevIncludes(rec, m, query, w, step);
    if revs.Err? {
      return Err(revs.error);
    }
    r := Ok(Attach(res, rec.containedItems));
  }

  /** `to_fhir(query=..., strict=...)` on a record: a blank context, the
      selected attributes read into the resource, rev-includes, and the
      contained items attached when there are any. */
  method ToFhir(rec: Record, cls: ModelClass, query: Option<FhirRequestQuery>, strict: bool, w: World) returns (r: Result<Resource>)
    modifies rec
    ensures var (res, ctx) := ToFhirSpec(old(rec.fields), old(rec.hiddenAttributes), cls, query, strict, w);
            r == res && rec.refcount == ctx.refcount && rec.containedItems == ctx.items
    ensures rec.containedNames == IncludeNames(query) && rec.elements == ElementsOf(query)
    ensures rec.fields == old(rec.fields)
    ensures rec.hiddenAttributes == old(rec.hiddenAttributes) && rec.protectedAttributes == old(rec.protectedAttributes)
  {
    rec.containedNames := IncludeNames(query);
    rec.elements := ElementsOf(query);
    rec.containedItems := [];
    rec.refcount := 0;
    var resClass := w.resources(cls.resourceName);
    if resClass.None? {
      return Err(NoModel(cls.resourceName));
    }
    r := Build(rec, resClass.value, cls, query, strict, w);
  }

  /** `to_fhir` on a record once the resource class is found. */
  method Build(rec: Record, resClass: ResourceClass, cls: ModelClass, query: Option<FhirRequestQuery>, strict: bool, w: World)
    returns (r: Result<Resource>)
    modifies rec
    ensures var (res, ctx) := BuildSpec(old(rec.fields), old(rec.hiddenAttributes), old(rec.elements),
                                        Context(old(rec.containedNames), old(rec.refcount), old(rec.containedItems)),
                                        resClass, cls, query, strict, w);
            r == res && rec.refcount == ctx.refcount && rec.containedItems == ctx.items
    ensures rec.fields == old(rec.fields) && rec.containedNames == old(rec.containedNames) && rec.elements == old(rec.elements)
    ensures rec.hiddenAttributes == old(rec.hiddenAttributes) && rec.protectedAttributes == old(rec.protectedAttributes)
  {
    ghost var c := ReadAll(cls.fhirMap, SelectedNames(cls.fhirMap, resClass, rec.elements, rec.hiddenAttributes),
                           rec.fields, Context(rec.containedNames, rec.refcount, rec.containedItems), w.env, []);
    var params := ParamsDict(rec, cls.fhirMap, resClass, rec.elements, w.env);
    if params.Err? {
      return Err(params.error);
    }
    var resource := resClass.construct(params.value, strict);
    if resource.None? {
      return Err(FhirValidation("Invalid resource"));
    }
    assert Context(rec.containedNames, rec.refcount, rec.containedItems) == c.ctx;
    r := Complete(rec, resource.value, cls.fhirMap, query, w);
  }

  // ---------------------------------------------------------------- create / update / delete

  /** The attribute name with every "_" turned into ".", the name that
      `getattr` is given on the incoming resource. */
  function ResourcePath(name: string): (r: string)
    ensures |r| == |name|
    ensures forall i :: 0 <= i < |name| ==> r[i] == (if name[i] == '_' then '.' else name[i])
  {
    seq(|name|, i requires 0 <= i < |name| => if name[i] == '_' then '.' else name[i])
  }

  /** The FhirMap entries whose names are not protected, in declaration order. */
  function Unprotected(m: FhirMap, protected: seq<string>): (r: FhirMap)
    ensures forall e :: e in r <==> e in m && e.0 !in protected
  {
    if m == [] then []
    else
      assert forall e :: e in m <==> e == m[0] || e in m[1..];
      (if m[0].0 !in protected then [m[0]] else []) + Unprotected(m[1..], protected)
  }

  /** The value the loop reads for an attribute: absent and None both skip it. */
  function IncomingValue(res: Resource, name: string): Option<Value>
  {
    var v := Lookup(res.elements, ResourcePath(name));
    if v.Some? && !v.value.Null? then v else None
  }

  /** The columns after a run of writes, and whether it finished. */
  datatype Written = Written(result: Result<()>, fields: Fields)

  /** The create/update loop: each attribute with a value on the resource
      is written in turn; the first failing write ends the loop, and the
      writes before it stay. */
  function WriteAll(attrs: FhirMap, res: Resource, fields: Fields, env: Env): Written
    decreases |attrs|
  {
    if attrs == [] then Written(Ok(()), fields)
    else
      match IncomingValue(res, attrs[0].0)
      case None => WriteAll(attrs[1..], res, fields, env)
      case Some(v) =>
        match WriteSpec(attrs[0].1, fields, v, env)
        case Err(e) => Written(Err(e), fields)
        case Ok(next) => WriteAll(attrs[1..], res, next, env)
  }

  /** One turn of the loop, from position `i` on. */
  lemma WriteAllStep(attrs: FhirMap, i: nat, res: Resource, fields: Fields, env: Env)
    requires i < |attrs|
    ensures WriteAll(attrs[i..], res, fields, env) ==
            match IncomingValue(res, attrs[i].0)
            case None => WriteAll(attrs[i + 1..], res, fields, env)
            case Some(v) =>
              match WriteSpec(attrs[i].1, fields, v, env)
              case Err(e) => Written(Err(e), fields)
              case Ok(next) => WriteAll(attrs[i + 1..], res, next, env)
  {
    assert attrs[i..][0] == attrs[i] && attrs[i..][1..] == attrs[i + 1..];
  }

  /** The loop over two runs of attributes is the loop over the first
      followed, when it finished, by the loop over the second. */
  lemma {:induction false} WriteAllAppend(a: FhirMap, b: FhirMap, res: Resource, fields: Fields, env: Env)
    ensures var first := WriteAll(a, res, fields, env);
            WriteAll(a + b, res, fields, env) == if first.result.Ok? then WriteAll(b, res, first.fields, env) else first
    decreases |a|
  {
    if a != [] {
      assert (a + b)[0] == a[0] && (a + b)[1..] == a[1..] + b;
      match IncomingValue(res, a[0].0)
      case None => WriteAllAppend(a[1..], b, res, fields, env);
      case Some(v) =>
        match WriteSpec(a[0].1, fields, v, env)
        case Err(e) =>
        case Ok(next) => WriteAllAppend(a[1..], b, res, next, env);
    } else {
      assert a + b == b;
    }
  }

  /** When the resource has no dotted element names, an attribute whose
      name holds "_" is never written: the loop gives the same outcome with
      those attributes dropped. */
  lemma {:induction false} UnderscoreNamesSkipped(attrs: FhirMap, res: Resource, fields: Fields, env: Env)
    requires forall i :: 0 <= i < |res.elements| ==> '.' !in res.elements[i].0
    ensures WriteAll(attrs, res, fields, env) == WriteAll(NoUnderscore(attrs), res, fields, env)
    decreases |attrs|
  {
    if attrs != [] {
      var name := attrs[0].0;
      if '_' in name {
        UnderscoreUnread(res, name);
        assert NoUnderscore(attrs) == NoUnderscore(attrs[1..]);
        UnderscoreNamesSkipped(attrs[1..], res, fields, env);
      } else {
        var kept := NoUnderscore(attrs);
        assert kept == [attrs[0]] + NoUnderscore(attrs[1..]);
        assert kept[0] == attrs[0] && kept[1..] == NoUnderscore(attrs[1..]);
        match IncomingValue(res, name)
        case None =>
          UnderscoreNamesSkipped(attrs[1..], res, fields, env);
        case Some(v) =>
          match WriteSpec(attrs[0].1, fields, v, env)
          case Err(_) =>
          case Ok(next) => UnderscoreNamesSkipped(attrs[1..], res, next, env);
      }
    }
  }

  /** A name holding "_" maps to a dotted path, which a resource without
      dotted element names does not have. */
  lemma UnderscoreUnread(res: Resource, name: string)
    requires forall i :: 0 <= i < |res.elements| ==> '.' !in res.elements[i].0
    requires '_' in name
    ensures IncomingValue(res, name) == None
  {
    var k :| 0 <= k < |name| && name[k] == '_';
    var path := ResourcePath(name);
    assert path[k] == '.';
    assert Lookup(res.elements, path).None?;
  }

  /** The entries whose names hold no "_". */
  function NoUnderscore(attrs: FhirMap): (r: FhirMap)
    ensures forall e :: e in r <==> e in attrs && '_' !in e.0
  {
    if attrs == [] then []
    else
      assert forall e :: e in attrs <==> e == attrs[0] || e in attrs[1..];
      (if '_' !in attrs[0].0 then [attrs[0]] else []) + NoUnderscore(attrs[1..])
  }

  /** The outcome of `create_from_resource` or `update_from_resource` on a
      row: the row's columns and protected list afterwards. */
  datatype Saved = Saved(result: Result<()>, fields: Fields, protected: Option<seq<string>>)

  function OrNone(p: Option<seq<string>>): seq<string>
  {
    if p.Some? then p.value else []
  }

  /** The audit hook runs first and may protect attributes; an outcome
      other than success raises AuthorizationError before any write;
      otherwise the unprotected attributes are written in order. */
  function SaveSpec(hook: Option<(Fields, Option<FhirRequestQuery>) -> Audit>, fields: Fields, protected: Option<seq<string>>,
                    m: FhirMap, res: Resource, query: Option<FhirRequestQuery>, env: Env): Saved
  {
    var audit := if hook.Some? then Some(hook.value(fields, query)) else None;
    var prot := if audit.Some? && audit.value.protect.Some? then audit.value.protect else protected;
    if audit.Some? && audit.value.event.outcome != AuditSuccess then
      Saved(Err(Authorization(audit.value.event)), fields, prot)
    else
      var w := WriteAll(Unprotected(m, OrNone(prot)), res, fields, env);
      Saved(w.result, w.fields, prot)
  }

  /** A failed audit raises AuthorizationError with the hook's event and
      leaves every column as it was. */
  lemma AuditBlocksWrites(hook: Option<(Fields, Option<FhirRequestQuery>) -> Audit>, fields: Fields, protected: Option<seq<string>>,
                          m: FhirMap, res: Resource, query: Option<FhirRequestQuery>, env: Env)
    requires hook.Some? && hook.value(fields, query).event.outcome != AuditSuccess
    ensures var s := SaveSpec(hook, fields, protected, m, res, query, env);
            s.result == Err(Authorization(hook.value(fields, query).event)) && s.fields == fields
  {
  }

  /** When the audit passes, the writes are exactly the loop over the
      attributes left unprotected once the hook has run, so a protected
      attribute is never written. */
  lemma AuditPassWritesUnprotected(hook: Option<(Fields, Option<FhirRequestQuery>) -> Audit>, fields: Fields, protected: Option<seq<string>>,
                                   m: FhirMap, res: Resource, query: Option<FhirRequestQuery>, env: Env)
    requires hook.None? || hook.value(fields, query).event.outcome == AuditSuccess
    ensures var s := SaveSpec(hook, fields, protected, m, res, query, env);
            exists attrs :: (forall e :: e in attrs ==> e in m && e.0 !in OrNone(s.protected)) &&
                            (s.result, s.fields) == (WriteAll(attrs, res, fields, env).result, WriteAll(attrs, res, fields, env).fields)
  {
    var s := SaveSpec(hook, fields, protected, m, res, query, env);
    var attrs := Unprotected(m, OrNone(s.protected));
    assert (s.result, s.fields) == (WriteAll(attrs, res, fields, env).result, WriteAll(attrs, res, fields, env).fields);
  }

  /** The shared body of create and update on a row. */
  method Save(rec: Record, hook: Option<(Fields, Option<FhirRequestQuery>) -> Audit>, m: FhirMap, res: Resource,
              query: Option<FhirRequestQuery>, env: Env) returns (r: Result<()>)
    modifies rec
    ensures var s := SaveSpec(hook, old(rec.fields), old(rec.protectedAttributes), m, res, query, env);
            r == s.result && rec.fields == s.fields && rec.protectedAttributes == s.protected
    ensures rec.containedNames == old(rec.containedNames) && rec.elements == old(rec.elements)
    ensures rec.containedItems == old(rec.containedItems) && rec.refcount == old(rec.refcount)
    ensures rec.hiddenAttributes == old(rec.hiddenAttributes)
  {
    if hook.Some? {
      var audit := hook.value(rec.fields, query);
      if audit.protect.Some? {
        rec.ProtectAttributes(audit.protect.value);
      }
      if audit.event.outcome != AuditSuccess {
        return Err(Authorization(audit.event));
      }
    }
    r := WriteResource(rec, Unprotected(m, OrNone(rec.protectedAttributes)), res, env);
  }

  /** The write loop of create and update: each attribute with a value on
      the resource is written in turn, stopping at the first failure. */
  method WriteResource(rec: Record, own: FhirMap, res: Resource, env: Env) returns (r: Result<()>)
    modifies rec
    ensures var w := WriteAll(own, res, old(rec.fields), env);
            r == w.result && rec.fields == w.fields
    ensures rec.containedNames == old(rec.containedNames) && rec.elements == old(rec.elements)
    ensures rec.containedItems == old(rec.containedItems) && rec.refcount == old(rec.refcount)
    ensures rec.hiddenAttributes == old(rec.hiddenAttributes) && rec.protectedAttributes == old(rec.protectedAttributes)
  {
    var i := 0;
    while i < |own|
      invariant 0 <= i <= |own|
      invariant rec.containedNames == old(rec.containedNames) && rec.elements == old(rec.elements)
      invariant rec.containedItems == old(rec.containedItems) && rec.refcount == old(rec.refcount)
      invariant rec.hiddenAttributes == old(rec.hiddenAttributes) && rec.protectedAttributes == old(rec.protectedAttributes)
      invariant WriteAll(own, res, old(rec.fields), env) == WriteAll(own[i..], res, rec.fields, env)
    {
      WriteAllStep(own, i, res, rec.fields, env);
      var value := IncomingValue(res, own[i].0);
      if value.Some? {
        var written := WriteAttribute(rec, own[i].1, value.value, env);
        if written.Err? {
          return written;
        }
      }
      i := i + 1;
    }
    r := Ok(());
  }

  /** `create_from_resource(resource, query)`: a new row, audited and then
      written from the resource. */
  method CreateFromResource(cls: ModelClass, res: Resource, query: Option<FhirRequestQuery>, env: Env) returns (r: Result<Record>)
    ensures var s := SaveSpec(cls.auditCreate, cls.blank, None, cls.fhirMap, res, query, env);
            (r.Ok? <==> s.result.Ok?) && (r.Err? ==> r.error == s.result.error) &&
            (r.Ok? ==> fresh(r.value) && r.value.fields == s.fields && r.value.protectedAttributes == s.protected)
  {
    var obj := new Record(cls.blank);
    var saved := Save(obj, cls.auditCreate, cls.fhirMap, res, query, env);
    if saved.Err? {
      return Err(saved.error);
    }
    r := Ok(obj);
  }

  /** `update_from_resource(resource, query)` on an existing row. */
  method UpdateFromResource(rec: Record, cls: ModelClass, res: Resource, query: Option<FhirRequestQuery>, env: Env) returns (r: Result<()>)
    modifies rec
    ensures var s := SaveSpec(cls.auditUpdate, old(rec.fields), old(rec.protectedAttributes), cls.fhirMap, res, query, env);
            r == s.result && rec.fields == s.fields && rec.protectedAttributes == s.protected
    ensures rec.containedNames == old(rec.containedNames) && rec.elements == old(rec.elements)
    ensures rec.containedItems == old(rec.containedItems) && rec.refcount == old(rec.refcount)
    ensures rec.hiddenAttributes == old(rec.hiddenAttributes)
  {
    r := Save(rec, cls.auditUpdate, cls.fhirMap, res, query, env);
  }

  /** `delete_item(item, query)`: an `audit_delete` hook whose outcome is
      not success raises AuthorizationError; otherwise the backend's
      `_delete_item` is what runs, stood for by `Ok`. */
  function DeleteItem(cls: ModelClass, fields: Fields, query: Option<FhirRequestQuery>): (r: Result<()>)
    ensures r.Err? <==> cls.auditDelete.Some? && cls.auditDelete.value(fields, query).outcome != AuditSuccess
    ensures r.Err? ==> r.error == Authorization(cls.auditDelete.value(fields, query))
  {
    if cls.auditDelete.Some? && cls.auditDelete.value(fields, query).outcome != AuditSuccess then
      Err(Authorization(cls.auditDelete.value(fields, query)))
    else Ok(())
  }

  /** The `Fhir` property of a row of this class. */
  method FhirOf(rec: Record, cls: ModelClass) returns (inst: MapInstance)
    modifies rec
    ensures old(rec.fhir).Some? ==> inst == old(rec.fhir).value && rec.fhir == old(rec.fhir)
    ensures old(rec.fhir).None? ==> fresh(inst) && inst.model == rec && inst.properties == Keys(cls.fhirMap) && rec.fhir == Some(inst)
    ensures rec.fields == old(rec.fields)
  {
    inst := rec.Fhir(Keys(cls.fhirMap));
  }
}
