/** Attribute descriptors: the binding between one element of a FHIR
    resource and the columns of a record. A getter reads the record, a
    setter writes it, and reference attributes also update the record's
    containment context. */
module Attributes {
  import opened Values
  import opened Resources
  import opened Exceptions
  import opened RequestQuery
  import opened Plans
  import opened Models

  type Fields = map<string, Value>

  /** What `Attribute(getter=...)` accepts: a column name, a `const`, a
      callable on the mapping instance, or a (column, callable) pair. */
  datatype Getter =
    | NoGetter
    | Column(name: string)
    | Const(value: Value)
    | Call(f: Fields -> Result<Value>)
    | Transform(column: string, fn: Value -> Result<Value>)

  /** What `Attribute(setter=...)` accepts: a column name, a callable
      `setter(instance, value)`, or a column paired with a `const` or with a
      callable `func(old, value)`. */
  datatype Setter =
    | NoSetter
    | SetColumn(name: string)
    | SetCall(g: (Fields, Value) -> Result<Fields>)
    | SetConst(column: string, value: Value)
    | SetTransform(column: string, h: (Value, Value) -> Result<Value>)

  /** Python truthiness of the getter argument (`getter or default`). */
  predicate GetterTruthy(g: Getter)
  {
    match g
    case NoGetter => false
    case Column(n) => n != ""
    case _ => true
  }

  predicate SetterTruthy(s: Setter)
  {
    match s
    case NoSetter => false
    case SetColumn(n) => n != ""
    case _ => true
  }

  /** The AttributeError of `getattr(record, name)` on a missing column. */
  function NoColumn(name: string): Error
  {
    Raised(AttributeError, "object has no attribute '" + name + "'")
  }

  /** `Attribute.__get__`: a column name reads that column, a `const` gives
      its value, a callable is called, a pair applies its callable to the
      column; no getter gives None. */
  function Get(g: Getter, fields: Fields): (r: Result<Value>)
    ensures g.NoGetter? ==> r == Ok(Null)
    ensures g.Column? ==> if g.name in fields then r == Ok(fields[g.name]) else r == Err(NoColumn(g.name))
    ensures g.Const? ==> r == Ok(g.value)
    ensures g.Call? ==> r == g.f(fields)
    ensures g.Transform? ==> if g.column in fields then r == g.fn(fields[g.column]) else r == Err(NoColumn(g.column))
  {
    match g
    case NoGetter => Ok(Null)
    case Column(n) => if n in fields then Ok(fields[n]) else Err(NoColumn(n))
    case Const(v) => Ok(v)
    case Call(f) => f(fields)
    case Transform(c, f) => if c in fields then f(fields[c]) else Err(NoColumn(c))
  }

  /** The column a setter writes, for the setters that name one. */
  function TargetColumn(s: Setter): Option<string>
  {
    match s
    case SetColumn(n) => Some(n)
    case SetConst(c, _) => Some(c)
    case SetTransform(c, _) => Some(c)
    case _ => None
  }

  /** `Attribute.__set__` as the new column values: a column name stores the
      value, a callable computes the new record, a (column, const) pair
      stores the constant, a (column, func) pair stores `func(old, value)`;
      no setter changes nothing. (The strict-mode branch of `__set__` needs
      a descriptor without a `setter` attribute, which `__init__` never
      leaves, so it is not part of the model.) */
  function Assign(s: Setter, fields: Fields, value: Value): (r: Result<Fields>)
    ensures s.NoSetter? ==> r == Ok(fields)
    ensures s.SetCall? ==> r == s.g(fields, value)
    ensures TargetColumn(s).Some? && r.Ok? ==>
              TargetColumn(s).value in r.value && forall k :: k != TargetColumn(s).value ==> (k in r.value <==> k in fields) && (k in fields ==> r.value[k] == fields[k])
    ensures s.SetColumn? ==> r == Ok(fields[s.name := value])
    ensures s.SetConst? ==> r == Ok(fields[s.column := s.value])
    ensures s.SetTransform? ==> (r.Err? <==> s.column !in fields || s.h(fields[s.column], value).Err?)
    ensures s.SetTransform? && r.Ok? ==>
              s.column in fields && s.h(fields[s.column], value).Ok? &&
              r.value == fields[s.column := s.h(fields[s.column], value).value]
    ensures s.SetTransform? && r.Err? ==>
              r.error == if s.column !in fields then NoColumn(s.column) else s.h(fields[s.column], value).error
  {
    match s
    case NoSetter => Ok(fields)
    case SetColumn(n) => Ok(fields[n := value])
    case SetCall(g) => g(fields, value)
    case SetConst(c, k) => Ok(fields[c := k])
    case SetTransform(c, h) =>
      if c !in fields then Err(NoColumn(c))
      else
        var res :- h(fields[c], value);
        Ok(fields[c := res])
  }

  /** Writing a column through its name and reading it back through the same
      name gives the value written, and leaves the other columns as they were. */
  lemma SetThenGet(col: string, fields: Fields, value: Value, other: string)
    requires other != col
    ensures Assign(SetColumn(col), fields, value).Ok?
    ensures Get(Column(col), Assign(SetColumn(col), fields, value).value) == Ok(value)
    ensures Get(Column(other), Assign(SetColumn(col), fields, value).value) == Get(Column(other), fields)
  {
  }

  /** The class's own example: a (column, add) setter on a column holding 12,
      given 3, stores 15. */
  lemma AddSetterExample(fields: Fields)
    requires fields == map["column_name" := Int(12)]
    ensures var add := (prev: Value, v: Value) => if prev.Int? && v.Int? then Ok(Int(prev.i + v.i)) else Err(Raised(TypeError, "unsupported operand"));
            Assign(SetTransform("column_name", add), fields, Int(3)) == Ok(map["column_name" := Int(15)])
  {
    assert fields["column_name" := Int(15)] == map["column_name" := Int(15)];
  }

  /** A record write through a setter: the record's columns become those
      `Assign` computes, and stay as they were when it fails. */
  method Write(rec: Record, s: Setter, value: Value) returns (r: Result<()>)
    modifies rec
    ensures var a := Assign(s, old(rec.fields), value);
            (a.Ok? ==> r.Ok? && rec.fields == a.value) && (a.Err? ==> r == Err(a.error) && rec.fields == old(rec.fields))
    ensures rec.containedNames == old(rec.containedNames) && rec.elements == old(rec.elements)
    ensures rec.containedItems == old(rec.containedItems) && rec.refcount == old(rec.refcount)
    ensures rec.hiddenAttributes == old(rec.hiddenAttributes) && rec.protectedAttributes == old(rec.protectedAttributes)
  {
    match s
    case NoSetter =>
      r := Ok(());
    case SetColumn(n) =>
      rec.fields := rec.fields[n := value];
      r := Ok(());
    case SetConst(c, k) =>
      rec.fields := rec.fields[c := k];
      r := Ok(());
    case SetCall(g) =>
      var res := g(rec.fields, value);
      if res.Ok? {
        rec.fields := res.value;
        r := Ok(());
      } else {
        r := Err(res.error);
      }
    case SetTransform(c, h) =>
      if c !in rec.fields {
        r := Err(NoColumn(c));
      } else {
        var res := h(rec.fields[c], value);
        if res.Ok? {
          rec.fields := rec.fields[c := res.value];
          r := Ok(());
        } else {
          r := Err(res.error);
        }
      }
  }

  // ---------------------------------------------------------------- attribute kinds

  /** The descriptor classes that override `__get__` or `__set__`; plain
      attributes, `const`, DateAttribute and NameAttribute use the base ones. */
  datatype Kind =
    | Plain
    | Boolean(saveTrueAs: Value, saveFalseAs: Value, truthyValues: seq<Value>, falsyValues: seq<Value>)
    | Reference(clsName: string, idColumn: string, refName: string, forceDisplay: bool)
    | PolyReference(possibleTypes: seq<string>, pkGetter: Getter, refName: string, forceDisplay: bool)
    | Embedded(typeName: string)

  datatype Attribute = Attribute(kind: Kind, getter: Getter, setter: Setter, searcher: Option<Searcher>, searchRegex: Option<string>)

  /** `Attribute(getter, setter, searcher, search_regex)`: the regex is kept
      only when it is a non-empty string. */
  function MakeAttribute(getter: Getter, setter: Setter, searcher: Option<Searcher>, searchRegex: Option<string>): (a: Attribute)
    ensures a.kind == Plain && a.searcher == searcher
    ensures a.searchRegex.Some? <==> searchRegex.Some? && searchRegex.value != ""
    ensures a.searchRegex.Some? ==> a.searchRegex == searchRegex
    ensures forall f :: Get(a.getter, f) == Get(getter, f)
    ensures forall f, v :: Assign(a.setter, f, v) == Assign(setter, f, v)
  {
    Attribute(Plain, getter, setter, searcher, if searchRegex.Some? && searchRegex.value != "" then searchRegex else None)
  }

  /** The collaborators of reading and writing: which model class names
      exist, the record a class finds for a primary key (its resource and
      its `_as_display`, or none), `to_fhir` of embedded objects, embedded
      resource construction, and `ObjectId`. */
  datatype Target = Target(resource: Resource, display: Option<Value>)

  datatype Env = Env(
    known: string -> bool,
    find: (string, Value) -> Option<Target>,
    embed: Value -> Result<Value>,
    construct: (string, Value) -> Value,
    objectId: Option<Value> -> Result<Value>)

  // ---------------------------------------------------------------- BooleanAttribute

  const DefaultTruthy: seq<Value> := [Str("true"), Str("True"), Int(1), Str("1")]
  const DefaultFalsy: seq<Value> := [Str("false"), Str("False"), Str("0"), Int(0)]

  /** `BooleanAttribute(...)` with the keyword defaults of the source; the
      getter, setter, searcher and search regex go on to `Attribute`. */
  function BooleanAttribute(getter: Getter, setter: Setter, searcher: Option<Searcher>, searchRegex: Option<string> := None,
                            saveTrueAs: Value := Int(1), saveFalseAs: Value := Int(0),
                            truthyValues: seq<Value> := DefaultTruthy, falsyValues: seq<Value> := DefaultFalsy): (a: Attribute)
    ensures a.kind == Boolean(saveTrueAs, saveFalseAs, truthyValues, falsyValues) && a.searcher == searcher
    ensures a.searchRegex.Some? <==> searchRegex.Some? && searchRegex.value != ""
    ensures a.searchRegex.Some? ==> a.searchRegex == searchRegex
    ensures forall f :: Get(a.getter, f) == Get(getter, f)
    ensures forall f, v :: Assign(a.setter, f, v) == Assign(setter, f, v)
  {
    MakeAttribute(getter, setter, searcher, searchRegex).(kind := Boolean(saveTrueAs, saveFalseAs, truthyValues, falsyValues))
  }

  /** `BooleanAttribute.__get__` on the base value: a value equal to a truthy
      value reads True, else one equal to a falsy value reads False, else it
      is returned unchanged. */
  function BoolRead(v: Value, truthy: seq<Value>, falsy: seq<Value>): (r: Value)
    ensures PyIn(v, truthy) ==> r == Bool(true)
    ensures !PyIn(v, truthy) && PyIn(v, falsy) ==> r == Bool(false)
    ensures !PyIn(v, truthy) && !PyIn(v, falsy) ==> r == v
  {
    if PyIn(v, truthy) then Bool(true) else if PyIn(v, falsy) then Bool(false) else v
  }

  /** `BooleanAttribute.__set__`: what is stored for a value. */
  function BoolStored(value: Value, saveTrueAs: Value, saveFalseAs: Value): (r: Value)
    ensures r == if PyTruthy(value) then saveTrueAs else saveFalseAs
  {
    if PyTruthy(value) then saveTrueAs else saveFalseAs
  }

  /** With the default configuration and one column for reading and
      writing, reading back any written value gives its truthiness as a
      boolean. */
  lemma BooleanRoundTrip(col: string, fields: Fields, value: Value)
    ensures var stored := Assign(SetColumn(col), fields, BoolStored(value, Int(1), Int(0)));
            stored.Ok? && Get(Column(col), stored.value).Ok? &&
            BoolRead(Get(Column(col), stored.value).value, DefaultTruthy, DefaultFalsy) == Bool(PyTruthy(value))
  {
    if PyTruthy(value) {
      assert PyEq(Int(1), DefaultTruthy[2]);
    } else {
      assert !PyIn(Int(0), DefaultTruthy) by {
        forall i | 0 <= i < |DefaultTruthy| ensures !PyEq(Int(0), DefaultTruthy[i]) {
        }
      }
      assert PyEq(Int(0), DefaultFalsy[3]);
    }
  }

  // ---------------------------------------------------------------- references

  /** `{"reference": "#ref{n}"}`, with the target's display when it has one. */
  function ContainedReference(n: int, display: Option<Value>): Value
  {
    Dict([("reference", Str("#ref" + IntToString(n)))] + if display.Some? then [("display", display.value)] else [])
  }

  /** `{"reference": "Cls/id", "identifier": {"system": "Cls", "value": str(id)}}`,
      with a display when one is given. */
  function ExternalReference(clsName: string, id: Value, display: Option<Value>): Value
  {
    Dict([("reference", Str(clsName + "/" + PyStr(id))),
          ("identifier", Dict([("system", Str(clsName)), ("value", Str(PyStr(id)))]))] +
         if display.Some? then [("display", display.value)] else [])
  }

  /** The containment context of the record a getter reads. */
  datatype Context = Context(containedNames: seq<string>, refcount: int, items: seq<Resource>)

  /** What a getter returns and the containment counters after it. */
  datatype Outcome = Outcome(result: Result<Value>, refcount: int, items: seq<Resource>)

  /** Embedding a found record: the counter goes up by one, the record's
      resource gets the id "ref{n}" and is appended, and the reference
      points at "#ref{n}". */
  function Contain(ctx: Context, t: Target): (o: Outcome)
    ensures o.refcount == ctx.refcount + 1
    ensures o.items == ctx.items + [WithId(t.resource, "ref" + IntToString(o.refcount))]
    ensures o.result == Ok(ContainedReference(o.refcount, t.display))
  {
    var n := ctx.refcount + 1;
    Outcome(Ok(ContainedReference(n, t.display)), n, ctx.items + [WithId(t.resource, "ref" + IntToString(n))])
  }

  function DisplayOf(t: Option<Target>): Option<Value>
  {
    if t.Some? then t.value.display else None
  }

  /** `ReferenceAttribute.__get__`: the id column is read; a contained name
      fetches the record and contains it (a missing record fails on
      `None.to_fhir()`); otherwise the reference is a URL, and the display
      is fetched only under `force_display`. Only the contained branch
      changes the counters. */
  function ReferenceRead(fields: Fields, ctx: Context, clsName: string, idColumn: string, refName: string,
                         forceDisplay: bool, find: (string, Value) -> Option<Target>): (o: Outcome)
    ensures idColumn !in fields ==> o == Outcome(Err(NoColumn(idColumn)), ctx.refcount, ctx.items)
    ensures idColumn in fields && refName in ctx.containedNames ==>
              if find(clsName, fields[idColumn]).None?
              then o == Outcome(Err(Raised(AttributeError, "'NoneType' object has no attribute 'to_fhir'")), ctx.refcount, ctx.items)
              else o == Contain(ctx, find(clsName, fields[idColumn]).value)
    ensures idColumn in fields && refName !in ctx.containedNames ==>
              o.refcount == ctx.refcount && o.items == ctx.items &&
              o.result == Ok(ExternalReference(clsName, fields[idColumn], if forceDisplay then DisplayOf(find(clsName, fields[idColumn])) else None))
  {
    if idColumn !in fields then Outcome(Err(NoColumn(idColumn)), ctx.refcount, ctx.items)
    else
      var id := fields[idColumn];
      if refName in ctx.containedNames then
        match find(clsName, id)
        case None => Outcome(Err(Raised(AttributeError, "'NoneType' object has no attribute 'to_fhir'")), ctx.refcount, ctx.items)
        case Some(t) => Contain(ctx, t)
      else
        Outcome(Ok(ExternalReference(clsName, id, if forceDisplay then DisplayOf(find(clsName, id)) else None)), ctx.refcount, ctx.items)
  }

  /** The first of the candidate classes that finds a record for the key,
      with that record. */
  function FirstResolving(types: seq<string>, pk: Value, find: (string, Value) -> Option<Target>): (r: Option<(string, Target)>)
    ensures r.None? <==> forall i :: 0 <= i < |types| ==> find(types[i], pk).None?
    ensures r.Some? ==> exists i :: 0 <= i < |types| && find(types[i], pk).Some? &&
                                    r.value == (types[i], find(types[i], pk).value) && forall j :: 0 <= j < i ==> find(types[j], pk).None?
  {
    if types == [] then None
    else
      var init := types[..|types| - 1];
      var last := types[|types| - 1];
      var first := FirstResolving(init, pk, find);
      if first.Some? then
        (var i :| 0 <= i < |init| && find(init[i], pk).Some? &&
                  first.value == (init[i], find(init[i], pk).value) && forall j :: 0 <= j < i ==> find(init[j], pk).None?;
         assert types[i] == init[i] && forall j :: 0 <= j < i ==> types[j] == init[j];
         first)
      else
        match find(last, pk)
        case None =>
          (assert forall i :: 0 <= i < |types| ==> find(types[i], pk).None? by {
             forall i | 0 <= i < |types| ensures find(types[i], pk).None? {
               if i < |init| { assert types[i] == init[i]; }
             }
           }
           None)
        case Some(t) =>
          (assert forall j :: 0 <= j < |init| ==> types[j] == init[j];
           Some((last, t)))
  }

  /** The first candidate class name that does not exist. */
  function FirstUnknown(types: seq<string>, known: string -> bool): (r: Option<string>)
    ensures r.None? <==> forall i :: 0 <= i < |types| ==> known(types[i])
    ensures r.Some? ==> r.value in types && !known(r.value)
  {
    if types == [] then None
    else if !known(types[0]) then Some(types[0])
    else
      var rest := FirstUnknown(types[1..], known);
      assert forall i :: 1 <= i < |types| ==> types[i] == types[1..][i - 1];
      rest
  }

  /** pymodm `ReferenceAttribute.__get__`: every candidate class must exist;
      the key is read with the key getter; the candidates are probed in
      order and the first that finds a record wins (failures are swallowed);
      none gives None and leaves the counters alone; otherwise the record is
      contained or referenced by URL with the winning class's name, and the
      display comes from the record already found. */
  function PolyReferenceRead(fields: Fields, ctx: Context, types: seq<string>, pkGetter: Getter, refName: string,
                             forceDisplay: bool, known: string -> bool, find: (string, Value) -> Option<Target>): (o: Outcome)
    ensures o.result.Err? || o.result == Ok(Null) || refName !in ctx.containedNames ==> o.refcount == ctx.refcount && o.items == ctx.items
    ensures FirstUnknown(types, known).Some? ==> o.result.Err? && o.result.error.Raised? && o.result.error.kind == AttributeError
    ensures FirstUnknown(types, known).None? && Get(pkGetter, fields).Err? ==> o.result == Get(pkGetter, fields)
    ensures FirstUnknown(types, known).None? && Get(pkGetter, fields).Ok? ==>
              var pk := Get(pkGetter, fields).value;
              match FirstResolving(types, pk, find)
              case None => o.result == Ok(Null)
              case Some((name, t)) =>
                if refName in ctx.containedNames then o == Contain(ctx, t)
                else o.result == Ok(ExternalReference(name, pk, if forceDisplay then t.display else None))
  {
    match FirstUnknown(types, known)
    case Some(n) => Outcome(Err(Raised(AttributeError, "module has no attribute '" + n + "'")), ctx.refcount, ctx.items)
    case None =>
      match Get(pkGetter, fields)
      case Err(e) => Outcome(Err(e), ctx.refcount, ctx.items)
      case Ok(pk) =>
        match FirstResolving(types, pk, find)
        case None => Outcome(Ok(Null), ctx.refcount, ctx.items)
        case Some((name, t)) =>
          if refName in ctx.containedNames then Contain(ctx, t)
          else Outcome(Ok(ExternalReference(name, pk, if forceDisplay then t.display else None)), ctx.refcount, ctx.items)
  }

  /** The probe loop of the pymodm reference: `resource` stays the first
      record found among the classes seen so far. */
  method Probe(types: seq<string>, pk: Value, find: (string, Value) -> Option<Target>) returns (resource: Option<(string, Target)>)
    ensures resource == FirstResolving(types, pk, find)
  {
    resource := None;
    var i := 0;
    while i < |types|
      invariant 0 <= i <= |types|
      invariant resource == FirstResolving(types[..i], pk, find)
    {
      if resource.None? {
        var found := find(types[i], pk);
        if found.Some? {
          resource := Some((types[i], found.value));
        }
      }
      assert types[..i + 1][..i] == types[..i];
      i := i + 1;
    }
    assert types[..|types|] == types;
  }

  // ---------------------------------------------------------------- embedded resources

  /** `to_fhir()` of each embedded object, stopping at the first failure. */
  function EmbedAll(xs: seq<Value>, embed: Value -> Result<Value>): (r: Result<seq<Value>>)
    ensures r.Ok? ==> |r.value| == |xs| && forall i :: 0 <= i < |xs| ==> embed(xs[i]) == Ok(r.value[i])
    ensures r.Err? ==> exists i :: 0 <= i < |xs| && embed(xs[i]).Err?
  {
    if xs == [] then Ok([])
    else
      match embed(xs[0])
      case Err(e) => Err(e)
      case Ok(v) =>
        match EmbedAll(xs[1..], embed)
        case Err(e) =>
          (assert forall i :: 1 <= i < |xs| ==> xs[i] == xs[1..][i - 1];
           Err(e))
        case Ok(vs) =>
          (assert forall i :: 1 <= i < |xs| ==> xs[i] == xs[1..][i - 1];
           Ok([v] + vs))
  }

  /** `EmbeddedAttribute.__get__` on the base value: None stays None, a list
      is embedded element by element, anything else is embedded. */
  function EmbeddedRead(base: Value, embed: Value -> Result<Value>): (r: Result<Value>)
    ensures base.Null? ==> r == Ok(Null)
    ensures base.List? ==> (r.Ok? <==> EmbedAll(base.items, embed).Ok?) && (r.Ok? ==> r.value == List(EmbedAll(base.items, embed).value))
    ensures !base.Null? && !base.List? ==> r == embed(base)
  {
    match base
    case Null => Ok(Null)
    case List(xs) =>
      var vs :- EmbedAll(xs, embed);
      Ok(List(vs))
    case _ => embed(base)
  }

  /** `EmbeddedAttribute.__set__`: a dictionary becomes a resource of the
      attribute's type, a list one resource per element, anything else is
      stored as given. */
  function EmbeddedValue(typeName: string, value: Value, construct: (string, Value) -> Value): (r: Value)
    ensures value.Dict? ==> r == construct(typeName, value)
    ensures value.List? ==> r.List? && |r.items| == |value.items| &&
                            forall i :: 0 <= i < |value.items| ==> r.items[i] == construct(typeName, value.items[i])
    ensures !value.Dict? && !value.List? ==> r == value
  {
    match value
    case Dict(_) => construct(typeName, value)
    case List(xs) => List(seq(|xs|, i requires 0 <= i < |xs| => construct(typeName, xs[i])))
    case _ => value
  }

  /** `EmbeddedAttribute(..., type=...)`: a missing type is rejected; the
      getter, setter, searcher and search regex go on to `Attribute`. */
  function EmbeddedAttribute(getter: Getter, setter: Setter, searcher: Option<Searcher>, searchRegex: Option<string>, typeName: Option<string>): (r: Result<Attribute>)
    ensures r.Err? <==> typeName.None?
    ensures r.Err? ==> r.error == MappingValidation("You hane defined an EmbeddedAttribute without specifying the type.")
    ensures r.Ok? ==> r.value.kind == Embedded(typeName.value) && r.value.searcher == searcher
    ensures r.Ok? ==> (r.value.searchRegex.Some? <==> searchRegex.Some? && searchRegex.value != "")
    ensures r.Ok? && r.value.searchRegex.Some? ==> r.value.searchRegex == searchRegex
    ensures r.Ok? ==> forall f :: Get(r.value.getter, f) == Get(getter, f)
    ensures r.Ok? ==> forall f, v :: Assign(r.value.setter, f, v) == Assign(setter, f, v)
  {
    match typeName
    case None => Err(MappingValidation("You hane defined an EmbeddedAttribute without specifying the type."))
    case Some(t) => Ok(MakeAttribute(getter, setter, searcher, searchRegex).(kind := Embedded(t)))
  }

  // ---------------------------------------------------------------- reading and writing any attribute

  /** `getattr(mapping, name)` for an attribute: its value and the
      containment counters afterwards. */
  function ReadSpec(a: Attribute, fields: Fields, ctx: Context, env: Env): (o: Outcome)
    ensures !a.kind.Reference? && !a.kind.PolyReference? ==> o.refcount == ctx.refcount && o.items == ctx.items
  {
    match a.kind
    case Plain => Outcome(Get(a.getter, fields), ctx.refcount, ctx.items)
    case Boolean(_, _, truthy, falsy) =>
      Outcome(match Get(a.getter, fields) case Ok(v) => Ok(BoolRead(v, truthy, falsy)) case Err(e) => Err(e), ctx.refcount, ctx.items)
    case Embedded(_) =>
      Outcome(match Get(a.getter, fields) case Ok(v) => EmbeddedRead(v, env.embed) case Err(e) => Err(e), ctx.refcount, ctx.items)
    case Reference(cls, idCol, refName, force) => ReferenceRead(fields, ctx, cls, idCol, refName, force, env.find)
    case PolyReference(types, pkGetter, refName, force) =>
      PolyReferenceRead(fields, ctx, types, pkGetter, refName, force, env.known, env.find)
  }

  /** Containing a found record on the record being read: the counter and
      the contained items move on as `Contain` says. */
  method ContainOn(rec: Record, t: Target) returns (r: Result<Value>)
    modifies rec
    ensures var o := Contain(Context(old(rec.containedNames), old(rec.refcount), old(rec.containedItems)), t);
            r == o.result && rec.refcount == o.refcount && rec.containedItems == o.items
    ensures rec.fields == old(rec.fields) && rec.containedNames == old(rec.containedNames) && rec.elements == old(rec.elements)
    ensures rec.hiddenAttributes == old(rec.hiddenAttributes) && rec.protectedAttributes == old(rec.protectedAttributes)
  {
    var o := Contain(Context(rec.containedNames, rec.refcount, rec.containedItems), t);
    rec.refcount := o.refcount;
    rec.containedItems := o.items;
    r := o.result;
  }

  /** `ReferenceAttribute.__get__` on a record. */
  method ReadReference(rec: Record, cls: string, idCol: string, refName: string, force: bool,
                       find: (string, Value) -> Option<Target>) returns (r: Result<Value>)
    modifies rec
    ensures var o := ReferenceRead(old(rec.fields), Context(old(rec.containedNames), old(rec.refcount), old(rec.containedItems)),
                                   cls, idCol, refName, force, find);
            r == o.result && rec.refcount == o.refcount && rec.containedItems == o.items
    ensures rec.fields == old(rec.fields) && rec.containedNames == old(rec.containedNames) && rec.elements == old(rec.elements)
    ensures rec.hiddenAttributes == old(rec.hiddenAttributes) && rec.protectedAttributes == old(rec.protectedAttributes)
  {
    if idCol !in rec.fields {
      return Err(NoColumn(idCol));
    }
    var id := rec.fields[idCol];
    if refName in rec.containedNames {
      var item := find(cls, id);
      if item.None? {
        return Err(Raised(AttributeError, "'NoneType' object has no attribute 'to_fhir'"));
      }
      r := ContainOn(rec, item.value);
    } else {
      var display := if force then DisplayOf(find(cls, id)) else None;
      r := Ok(ExternalReference(cls, id, display));
    }
  }

  /** pymodm `ReferenceAttribute.__get__` on a record. */
  method ReadPolyReference(rec: Record, types: seq<string>, pkGetter: Getter, refName: string, force: bool,
                           known: string -> bool, find: (string, Value) -> Option<Target>) returns (r: Result<Value>)
    modifies rec
    ensures var o := PolyReferenceRead(old(rec.fields), Context(old(rec.containedNames), old(rec.refcount), old(rec.containedItems)),
                                       types, pkGetter, refName, force, known, find);
            r == o.result && rec.refcount == o.refcount && rec.containedItems == o.items
    ensures rec.fields == old(rec.fields) && rec.containedNames == old(rec.containedNames) && rec.elements == old(rec.elements)
    ensures rec.hiddenAttributes == old(rec.hiddenAttributes) && rec.protectedAttributes == old(rec.protectedAttributes)
  {
    var unknown := FirstUnknown(types, known);
    if unknown.Some? {
      return Err(Raised(AttributeError, "module has no attribute '" + unknown.value + "'"));
    }
    var pk := Get(pkGetter, rec.fields);
    if pk.Err? {
      return Err(pk.error);
    }
    var resource := Probe(types, pk.value, find);
    if resource.None? {
      return Ok(Null);
    }
    var (name, t) := resource.value;
    if refName in rec.containedNames {
      r := ContainOn(rec, t);
    } else {
      r := Ok(ExternalReference(name, pk.value, if force then t.display else None));
    }
  }

  /** Reading an attribute: the getter's value, and for references the
      containment counters moved on the record. */
  method Read(rec: Record, a: Attribute, env: Env) returns (r: Result<Value>)
    modifies rec
    ensures var o := ReadSpec(a, old(rec.fields), Context(old(rec.containedNames), old(rec.refcount), old(rec.containedItems)), env);
            r == o.result && rec.refcount == o.refcount && rec.containedItems == o.items
    ensures rec.fields == old(rec.fields) && rec.containedNames == old(rec.containedNames) && rec.elements == old(rec.elements)
    ensures rec.hiddenAttributes == old(rec.hiddenAttributes) && rec.protectedAttributes == old(rec.protectedAttributes)
  {
    match a.kind
    case PolyReference(types, pkGetter, refName, force) =>
      r := ReadPolyReference(rec, types, pkGetter, refName, force, env.known, env.find);
    case Reference(cls, idCol, refName, force) =>
      r := ReadReference(rec, cls, idCol, refName, force, env.find);
    case _ =>
      r := ReadSpec(a, rec.fields, Context(rec.containedNames, rec.refcount, rec.containedItems), env).result;
  }

  /** `reference.identifier.value` as the base reference setter reads it:
      absent when the identifier, its system or its value is missing. */
  function IdentifierValue(reference: Value): Option<Value>
  {
    if !reference.Dict? then None
    else
      var ident: Option<Value> := Lookup(reference.entries, "identifier");
      match ident
      case Some(Dict(id)) =>
        if HasKey(id, "system") && Lookup(id, "value").Some? && !Lookup(id, "value").value.Null?
        then Lookup(id, "value") else None
      case _ => None
  }

  /** The value pymodm's reference setter hands to `ObjectId`: the
      identifier's value when the reference has an identifier with a system
      and a value. */
  function PolyIdentifierValue(reference: Value): Option<Value>
  {
    IdentifierValue(reference)
  }

  /** A reference whose `reference` element is there but is not a string
      (None in the FHIR classes), on which `startswith` fails. */
  predicate BadReferenceElement(reference: Value)
  {
    reference.Dict? && HasKey(reference.entries, "reference") && !Lookup(reference.entries, "reference").value.Str?
  }

  const NoStartswith := "'NoneType' object has no attribute 'startswith'"

  /** `ReferenceAttribute.__set__` (base): a `reference` element that is not
      a string fails on `startswith`; a missing identifier value is an
      invalid reference; otherwise the value is written when a setter is
      configured. */
  function ReferenceAssign(setter: Setter, fields: Fields, reference: Value): (r: Result<Fields>)
    ensures BadReferenceElement(reference) ==> r == Err(Raised(AttributeError, NoStartswith))
    ensures !BadReferenceElement(reference) && IdentifierValue(reference).None? ==>
              r == Err(MappingValidation("Invalid reference"))
    ensures !BadReferenceElement(reference) && IdentifierValue(reference).Some? ==>
              r == (if SetterTruthy(setter) then Assign(setter, fields, IdentifierValue(reference).value) else Ok(fields))
    ensures r.Ok? ==> IdentifierValue(reference).Some?
  {
    if BadReferenceElement(reference) then
      Err(Raised(AttributeError, NoStartswith))
    else match IdentifierValue(reference)
      case None => Err(MappingValidation("Invalid reference"))
      case Some(v) => if SetterTruthy(setter) then Assign(setter, fields, v) else Ok(fields)
  }

  /** A reference that the attribute reads as a URL, written back through
      a setter on its id column, stores the id's text; reading the row
      again gives the same reference. */
  lemma ReferenceRoundTrip(fields: Fields, ctx: Context, clsName: string, idColumn: string, refName: string,
                           find: (string, Value) -> Option<Target>)
    requires idColumn in fields && idColumn != "" && refName !in ctx.containedNames
    ensures var o := ReferenceRead(fields, ctx, clsName, idColumn, refName, false, find);
            o.result.Ok? &&
            ReferenceAssign(SetColumn(idColumn), fields, o.result.value) == Ok(fields[idColumn := Str(PyStr(fields[idColumn]))]) &&
            ReferenceRead(fields[idColumn := Str(PyStr(fields[idColumn]))], ctx, clsName, idColumn, refName, false, find).result == o.result
  {
    var id := fields[idColumn];
    var text := Str(PyStr(id));
    ExternalReferenceIdentifier(clsName, id);
    assert PyStr(text) == PyStr(id);
  }

  /** The reference a URL read builds has a string `reference` element and
      carries the id's text as its identifier value. */
  lemma ExternalReferenceIdentifier(clsName: string, id: Value)
    ensures !BadReferenceElement(ExternalReference(clsName, id, None))
    ensures IdentifierValue(ExternalReference(clsName, id, None)) == Some(Str(PyStr(id)))
  {
    var ident := [("system", Str(clsName)), ("value", Str(PyStr(id)))];
    var entries := [("reference", Str(clsName + "/" + PyStr(id))), ("identifier", Dict(ident))];
    assert ExternalReference(clsName, id, None).entries == entries;
    assert Lookup(entries[1..], "identifier") == Some(Dict(ident));
    assert Lookup(entries, "identifier") == Some(Dict(ident));
    assert Lookup(entries, "reference") == Some(Str(clsName + "/" + PyStr(id)));
    assert Lookup(ident[1..], "value") == Some(Str(PyStr(id)));
    assert Lookup(ident, "value") == Some(Str(PyStr(id)));
    assert Lookup(ident, "system") == Some(Str(clsName));
  }

  /** pymodm `ReferenceAttribute.__set__`: nothing without a setter;
      otherwise the identifier's value (or None) goes through `ObjectId` and
      is written with the setter. */
  function PolyReferenceAssign(setter: Setter, fields: Fields, reference: Value, objectId: Option<Value> -> Result<Value>): (r: Result<Fields>)
    ensures !SetterTruthy(setter) ==> r == Ok(fields)
    ensures SetterTruthy(setter) ==>
              r == (match objectId(PolyIdentifierValue(reference))
                    case Err(e) => Err(e)
                    case Ok(oid) => Assign(setter, fields, oid))
  {
    if !SetterTruthy(setter) then Ok(fields)
    else
      var oid :- objectId(PolyIdentifierValue(reference));
      Assign(setter, fields, oid)
  }

  /** `setattr(mapping, name, value)` for an attribute, as the new columns. */
  function WriteSpec(a: Attribute, fields: Fields, value: Value, env: Env): Result<Fields>
  {
    match a.kind
    case Plain => Assign(a.setter, fields, value)
    case Boolean(t, f, _, _) => Assign(a.setter, fields, BoolStored(value, t, f))
    case Embedded(typeName) => Assign(a.setter, fields, EmbeddedValue(typeName, value, env.construct))
    case Reference(_, _, _, _) => ReferenceAssign(a.setter, fields, value)
    case PolyReference(_, _, _, _) => PolyReferenceAssign(a.setter, fields, value, env.objectId)
  }

  /** Without a setter, writing any value through a plain, boolean, embedded
      or pymodm reference attribute leaves the record as it was. */
  lemma NoSetterNoChange(a: Attribute, fields: Fields, value: Value, env: Env)
    requires a.setter.NoSetter? && !a.kind.Reference?
    ensures WriteSpec(a, fields, value, env) == Ok(fields)
  {
  }

  /** Writing an attribute: the record's columns become those `WriteSpec`
      computes, and stay as they were on failure. */
  method WriteAttribute(rec: Record, a: Attribute, value: Value, env: Env) returns (r: Result<()>)
    modifies rec
    ensures var w := WriteSpec(a, old(rec.fields), value, env);
            (w.Ok? ==> r.Ok? && rec.fields == w.value) && (w.Err? ==> r == Err(w.error) && rec.fields == old(rec.fields))
    ensures rec.containedNames == old(rec.containedNames) && rec.elements == old(rec.elements)
    ensures rec.containedItems == old(rec.containedItems) && rec.refcount == old(rec.refcount)
    ensures rec.hiddenAttributes == old(rec.hiddenAttributes) && rec.protectedAttributes == old(rec.protectedAttributes)
  {
    match a.kind
    case Plain =>
      r := Write(rec, a.setter, value);
    case Boolean(t, f, _, _) =>
      r := Write(rec, a.setter, BoolStored(value, t, f));
    case Embedded(typeName) =>
      r := Write(rec, a.setter, EmbeddedValue(typeName, value, env.construct));
    case Reference(_, _, _, _) =>
      r := WriteReference(rec, a.setter, value);
    case PolyReference(_, _, _, _) =>
      r := WritePolyReference(rec, a.setter, value, env.objectId);
  }

  /** `ReferenceAttribute.__set__` on a record. */
  method WriteReference(rec: Record, setter: Setter, value: Value) returns (r: Result<()>)
    modifies rec
    ensures var w := ReferenceAssign(setter, old(rec.fields), value);
            (w.Ok? ==> r.Ok? && rec.fields == w.value) && (w.Err? ==> r == Err(w.error) && rec.fields == old(rec.fields))
    ensures rec.containedNames == old(rec.containedNames) && rec.elements == old(rec.elements)
    ensures rec.containedItems == old(rec.containedItems) && rec.refcount == old(rec.refcount)
    ensures rec.hiddenAttributes == old(rec.hiddenAttributes) && rec.protectedAttributes == old(rec.protectedAttributes)
  {
    if BadReferenceElement(value) {
      return Err(Raised(AttributeError, NoStartswith));
    }
    var v := IdentifierValue(value);
    if v.None? {
      return Err(MappingValidation("Invalid reference"));
    }
    if SetterTruthy(setter) {
      r := Write(rec, setter, v.value);
    } else {
      r := Ok(());
    }
  }

  /** pymodm `ReferenceAttribute.__set__` on a record. */
  method WritePolyReference(rec: Record, setter: Setter, value: Value, objectId: Option<Value> -> Result<Value>)
    returns (r: Result<()>)
    modifies rec
    ensures var w := PolyReferenceAssign(setter, old(rec.fields), value, objectId);
            (w.Ok? ==> r.Ok? && rec.fields == w.value) && (w.Err? ==> r == Err(w.error) && rec.fields == old(rec.fields))
    ensures rec.containedNames == old(rec.containedNames) && rec.elements == old(rec.elements)
    ensures rec.containedItems == old(rec.containedItems) && rec.refcount == old(rec.refcount)
    ensures rec.hiddenAttributes == old(rec.hiddenAttributes) && rec.protectedAttributes == old(rec.protectedAttributes)
  {
    if !SetterTruthy(setter) {
      return Ok(());
    }
    var oid := objectId(PolyIdentifierValue(value));
    if oid.Err? {
      return Err(oid.error);
    }
    r := Write(rec, setter, oid.value);
  }

  // ---------------------------------------------------------------- the other descriptor factories

  /** `const(value)` as a getter. */
  function ConstGetter(value: Value): (g: Getter)
    ensures forall f :: Get(g, f) == Ok(value)
  {
    Const(value)
  }

  /** `ReferenceAttribute(cls, id, name, setter, force_display, searcher)`. */
  function ReferenceAttribute(clsName: string, idColumn: string, name: string, setter: Setter,
                              forceDisplay: bool, searcher: Option<Searcher>): (a: Attribute)
    ensures a.kind == Reference(clsName, idColumn, name, forceDisplay) && a.searcher == searcher && a.searchRegex.None?
  {
    Attribute(Reference(clsName, idColumn, name, forceDisplay), NoGetter, setter, searcher, None)
  }

  /** pymodm `ReferenceAttribute(possible_types, pk_getter, name, pk_setter, force_display, searcher)`. */
  function PolyReferenceAttribute(possibleTypes: seq<string>, pkGetter: Getter, name: string, pkSetter: Setter,
                                  forceDisplay: bool, searcher: Option<Searcher>): (a: Attribute)
    ensures a.kind == PolyReference(possibleTypes, pkGetter, name, forceDisplay) && a.searcher == searcher && a.searchRegex.None?
  {
    Attribute(PolyReference(possibleTypes, pkGetter, name, forceDisplay), NoGetter, pkSetter, searcher, None)
  }

  /** `DateAttribute(field)`: reads the column through `FHIRDate`, stores
      the date of a new value whatever the old one (a string `FHIRDate`
      cannot parse fails the write), and searches with the backend's date
      search. The conversions are collaborators. */
  function DateAttribute(field: string, fhirDate: Value -> Result<Value>, toDate: Value -> Result<Value>, dateSearch: Searcher): (a: Attribute)
    ensures a.kind == Plain && a.searcher.Some? && a.searchRegex.None?
    ensures forall f :: Get(a.getter, f) == (if field in f then fhirDate(f[field]) else Err(NoColumn(field)))
    ensures forall f, v :: field in f && toDate(v).Ok? ==> Assign(a.setter, f, v) == Ok(f[field := toDate(v).value])
    ensures forall f, v :: field in f && toDate(v).Err? ==> Assign(a.setter, f, v) == Err(toDate(v).error)
  {
    Attribute(Plain, Transform(field, fhirDate), SetTransform(field, (prev: Value, v: Value) => toDate(v)), Some(dateSearch), None)
  }

  // ---------------------------------------------------------------- NameAttribute

  /** The HumanName a name attribute reads, as its two elements. */
  function HumanName(family: Value, given: Value): Value
  {
    Dict([("family", family), ("given", given)])
  }

  /** `obj.name` on a resource element: a missing attribute raises. */
  function Attr(v: Value, name: string): (r: Result<Value>)
    ensures r.Ok? <==> v.Dict? && HasKey(v.entries, name)
    ensures r.Ok? ==> Lookup(v.entries, name) == Some(r.value)
  {
    if v.Dict? && HasKey(v.entries, name) then
      var found: Option<Value> := Lookup(v.entries, name);
      Ok(found.value)
    else Err(Raised(AttributeError, "object has no attribute '" + name + "'"))
  }

  /** `v[0]`: the first element of a list or the first character of a
      string; an empty one raises IndexError, a dictionary KeyError, anything
      else TypeError. */
  function First(v: Value): (r: Result<Value>)
    ensures v.List? && |v.items| > 0 ==> r == Ok(v.items[0])
    ensures v.Str? && |v.s| > 0 ==> r == Ok(Str([v.s[0]]))
    ensures r.Ok? <==> (v.List? && |v.items| > 0) || (v.Str? && |v.s| > 0)
  {
    match v
    case List(xs) => if xs == [] then Err(Raised(IndexError, "list index out of range")) else Ok(xs[0])
    case Str(s) => if s == [] then Err(Raised(IndexError, "string index out of range")) else Ok(Str([s[0]]))
    case Dict(_) => Err(Raised(KeyError, "0"))
    case _ => Err(Raised(TypeError, "object is not subscriptable"))
  }

  /** `separator.join(v)`: the strings of a list, or the characters of a
      string, with the separator between them. */
  function JoinGiven(v: Value, sep: string): (r: Result<Value>)
    ensures r.Ok? <==> v.Str? || (v.List? && forall i :: 0 <= i < |v.items| ==> v.items[i].Str?)
    ensures v.List? && r.Ok? ==> r == Ok(Str(Join(seq(|v.items|, i requires 0 <= i < |v.items| => PyStr(v.items[i])), sep)))
  {
    match v
    case List(xs) =>
      if forall i :: 0 <= i < |xs| ==> xs[i].Str? then Ok(Str(Join(seq(|xs|, i requires 0 <= i < |xs| => PyStr(xs[i])), sep)))
      else Err(Raised(TypeError, "sequence item: expected str instance"))
    case Str(s) => Ok(Str(Join(seq(|s|, i requires 0 <= i < |s| => [s[i]]), sep)))
    case _ => Err(Raised(TypeError, "can only join an iterable"))
  }

  /** How the given names of the first HumanName are stored. */
  datatype GivenMode = FirstGiven | JoinGivenNames(separator: string) | PassGivenNames

  function ModeOf(joinGivenNames: bool, passGivenNames: bool, separator: string): GivenMode
  {
    if joinGivenNames then JoinGivenNames(separator) else if passGivenNames then PassGivenNames else FirstGiven
  }

  /** The default getter of a name attribute: a HumanName of the family and
      given getters' values. */
  function NameRead(familyGetter: Getter, givenGetter: Getter, fields: Fields): (r: Result<Value>)
    ensures r.Ok? <==> Get(familyGetter, fields).Ok? && Get(givenGetter, fields).Ok?
  {
    var family :- Get(familyGetter, fields);
    var given :- Get(givenGetter, fields);
    Ok(HumanName(family, given))
  }

  /** The default setter of a name attribute: the first HumanName's family
      name, and its given names joined, passed on or reduced to the first,
      are written with the family and then the given setter. Nothing is
      written when the names cannot be read. */
  function NameWrite(familySetter: Setter, givenSetter: Setter, mode: GivenMode, fields: Fields, humanNames: Value): (r: Result<Fields>)
    ensures First(humanNames).Err? ==> r == Err(First(humanNames).error)
  {
    var name :- First(humanNames);
    var family :- Attr(name, "family");
    var givenNames :- Attr(name, "given");
    var given :- match mode
                 case JoinGivenNames(sep) => JoinGiven(givenNames, sep)
                 case PassGivenNames => Ok(givenNames)
                 case FirstGiven => First(givenNames);
    var afterFamily :- Assign(familySetter, fields, family);
    Assign(givenSetter, afterFamily, given)
  }

  /** The column a getter names, as a name search formats it. */
  function ColumnText(g: Getter): string
  {
    match g
    case Column(n) => n
    case NoGetter => "None"
    case _ => ""
  }

  /** The columns a name search looks in: the family column for a "family"
      parameter, the given column for a "given" one, both otherwise. */
  function NameColumns(familyGetter: Getter, givenGetter: Getter, field: string): (cols: seq<string>)
    ensures |cols| > 0
    ensures ContainsSub(field, "family") ==> cols == [ColumnText(familyGetter)]
    ensures !ContainsSub(field, "family") && ContainsSub(field, "given") ==> cols == [ColumnText(givenGetter)]
    ensures !ContainsSub(field, "family") && !ContainsSub(field, "given") ==> cols == [ColumnText(familyGetter), ColumnText(givenGetter)]
  {
    if ContainsSub(field, "family") then [ColumnText(familyGetter)]
    else if ContainsSub(field, "given") then [ColumnText(givenGetter)]
    else [ColumnText(familyGetter), ColumnText(givenGetter)]
  }

  /** The default searcher of a name attribute: a string search over the
      columns the parameter names. */
  function NameSearcher(familyGetter: Getter, givenGetter: Getter): Searcher
  {
    (f: string, v: string, p: Plan, q: FhirRequestQuery) => Ok(p + [Filter(StringTerm(NameColumns(familyGetter, givenGetter, f), f, v))])
  }

  /** The default name searcher is the backend's string search over the
      columns the parameter names. */
  lemma NameSearcherIsStringSearch(familyGetter: Getter, givenGetter: Getter, f: string, v: string, p: Plan, q: FhirRequestQuery)
    ensures StringSearch(NameColumns(familyGetter, givenGetter, f)).Ok?
    ensures NameSearcher(familyGetter, givenGetter)(f, v, p, q) == StringSearch(NameColumns(familyGetter, givenGetter, f)).value(f, v, p, q)
  {
  }

  const BothGivenModes := "You can not pass both pass_given_names and join_given_names. Only one of these arguments is allowed to be True"

  const NameSearchRegex := "(family|given|name)(:\\w*)?"

  /** `getter or _getter` of a name attribute. */
  function NameGetter(getter: Getter, familyGetter: Getter, givenGetter: Getter): (g: Getter)
    ensures forall f :: Get(g, f) == if GetterTruthy(getter) then Get(getter, f) else NameRead(familyGetter, givenGetter, f)
  {
    if GetterTruthy(getter) then getter else Call((f: Fields) => NameRead(familyGetter, givenGetter, f))
  }

  /** `setter or _setter` of a name attribute. */
  function NameSetter(setter: Setter, familySetter: Setter, givenSetter: Setter, mode: GivenMode): (s: Setter)
    ensures forall f, v :: Assign(s, f, v) == if SetterTruthy(setter) then Assign(setter, f, v) else NameWrite(familySetter, givenSetter, mode, f, v)
  {
    if SetterTruthy(setter) then setter else SetCall((f: Fields, v: Value) => NameWrite(familySetter, givenSetter, mode, f, v))
  }

  /** `NameAttribute(...)`: asking both to join and to pass the given names
      is rejected; otherwise an explicit getter, setter or searcher wins over
      the HumanName defaults, and the parameters "family", "given" and
      "name" (with any modifier) are searchable. */
  function NameAttribute(familyGetter: Getter := NoGetter, givenGetter: Getter := NoGetter,
                         familySetter: Setter := NoSetter, givenSetter: Setter := NoSetter,
                         joinGivenNames: bool := false, passGivenNames: bool := false,
                         getter: Getter := NoGetter, setter: Setter := NoSetter,
                         searcher: Option<Searcher> := None, givenJoinSeparator: string := " "): (r: Result<Attribute>)
    ensures r.Err? <==> joinGivenNames && passGivenNames
    ensures r.Err? ==> r.error == MappingException(BothGivenModes)
    ensures r.Ok? ==> r.value.kind == Plain && r.value.searchRegex == Some(NameSearchRegex)
    ensures r.Ok? ==> r.value.getter == NameGetter(getter, familyGetter, givenGetter)
    ensures r.Ok? ==> r.value.setter == NameSetter(setter, familySetter, givenSetter, ModeOf(joinGivenNames, passGivenNames, givenJoinSeparator))
    ensures r.Ok? ==> r.value.searcher == Some(if searcher.Some? then searcher.value else NameSearcher(familyGetter, givenGetter))
  {
    if joinGivenNames && passGivenNames then
      Err(MappingException(BothGivenModes))
    else
      Ok(Attribute(Plain, NameGetter(getter, familyGetter, givenGetter),
                   NameSetter(setter, familySetter, givenSetter, ModeOf(joinGivenNames, passGivenNames, givenJoinSeparator)),
                   Some(if searcher.Some? then searcher.value else NameSearcher(familyGetter, givenGetter)), Some(NameSearchRegex)))
  }

  /** Given names as the list value a HumanName holds. */
  function GivenValues(given: seq<string>): Value
  {
    List(seq(|given|, i requires 0 <= i < |given| => Str(given[i])))
  }

  /** The given value the default name setter stores for a list of given
      names: the first one, or all of them joined. */
  lemma {:induction false} GivenStored(given: seq<string>, join: bool)
    requires |given| > 0
    ensures var givenList := GivenValues(given);
            var stored := Str(if join then Join(given, " ") else given[0]);
            (match ModeOf(join, false, " ")
             case JoinGivenNames(sep) => JoinGiven(givenList, sep)
             case PassGivenNames => Ok(givenList)
             case FirstGiven => First(givenList)) == Ok(stored)
  {
    var givenList := GivenValues(given).items;
    if join {
      assert seq(|givenList|, i requires 0 <= i < |givenList| => PyStr(givenList[i])) == given;
    }
  }

  /** The elements of a HumanName read back as they were given. */
  lemma HumanNameElements(family: Value, given: Value)
    ensures Attr(HumanName(family, given), "family") == Ok(family)
    ensures Attr(HumanName(family, given), "given") == Ok(given)
  {
    var entries := HumanName(family, given).entries;
    assert entries[0] == ("family", family);
    assert entries[1] == ("given", given);
    assert entries[1..] == [("given", given)];
  }

  /** Once the first HumanName, its family and its given value are read,
      the default setter writes the family column and then the given one. */
  lemma NameWriteColumns(fc: string, gc: string, mode: GivenMode, fields: Fields, names: Value,
                         name: Value, family: Value, givenNames: Value, stored: Value)
    requires First(names) == Ok(name) && Attr(name, "family") == Ok(family) && Attr(name, "given") == Ok(givenNames)
    requires (match mode
              case JoinGivenNames(sep) => JoinGiven(givenNames, sep)
              case PassGivenNames => Ok(givenNames)
              case FirstGiven => First(givenNames)) == Ok(stored)
    ensures NameWrite(SetColumn(fc), SetColumn(gc), mode, fields, names) == Ok(fields[fc := family][gc := stored])
  {
  }

  /** Writing a HumanName list with the default setter into two columns and
      reading it with the default getter gives the first name's family and
      its stored given value. */
  lemma NameWriteThenRead(fc: string, gc: string, fields: Fields, family: string, given: seq<string>, rest: seq<Value>, join: bool)
    requires fc != gc && |given| > 0
    ensures var names := List([HumanName(Str(family), GivenValues(given))] + rest);
            var w := NameWrite(SetColumn(fc), SetColumn(gc), ModeOf(join, false, " "), fields, names);
            w.Ok? && NameRead(Column(fc), Column(gc), w.value) == Ok(HumanName(Str(family), Str(if join then Join(given, " ") else given[0])))
  {
    var givenList := GivenValues(given);
    var name := HumanName(Str(family), givenList);
    var names := List([name] + rest);
    var stored := Str(if join then Join(given, " ") else given[0]);
    HumanNameElements(Str(family), givenList);
    GivenStored(given, join);
    NameWriteColumns(fc, gc, ModeOf(join, false, " "), fields, names, name, Str(family), givenList, stored);
    NameReadColumns(fc, gc, fields, Str(family), stored);
  }

  /** Reading back two freshly written columns with the default getter. */
  lemma NameReadColumns(fc: string, gc: string, fields: Fields, family: Value, stored: Value)
    requires fc != gc
    ensures NameRead(Column(fc), Column(gc), fields[fc := family][gc := stored]) == Ok(HumanName(family, stored))
  {
    var written := fields[fc := family][gc := stored];
    assert Get(Column(fc), written) == Ok(family);
    assert Get(Column(gc), written) == Ok(stored);
  }

  /** The same round trip through the descriptor `NameAttribute` builds. */
  lemma NameRoundTrip(fc: string, gc: string, fields: Fields, family: string, given: seq<string>, rest: seq<Value>, join: bool)
    requires fc != gc && |given| > 0
    ensures var a := NameAttribute(Column(fc), Column(gc), SetColumn(fc), SetColumn(gc), joinGivenNames := join);
            var names := List([HumanName(Str(family), GivenValues(given))] + rest);
            a.Ok? && Assign(a.value.setter, fields, names).Ok? &&
            Get(a.value.getter, Assign(a.value.setter, fields, names).value) ==
              Ok(HumanName(Str(family), Str(if join then Join(given, " ") else given[0])))
  {
    var names := List([HumanName(Str(family), GivenValues(given))] + rest);
    NameWriteThenRead(fc, gc, fields, family, given, rest, join);
    DefaultNameAccessors(fc, gc, join, fields, names);
  }

  /** Without an explicit getter or setter, `NameAttribute` reads with
      `NameRead` and writes with `NameWrite` on the given columns. */
  lemma DefaultNameAccessors(fc: string, gc: string, join: bool, fields: Fields, names: Value)
    ensures var a := NameAttribute(Column(fc), Column(gc), SetColumn(fc), SetColumn(gc), joinGivenNames := join);
            var w := NameWrite(SetColumn(fc), SetColumn(gc), ModeOf(join, false, " "), fields, names);
            a.Ok? && Assign(a.value.setter, fields, names) == w &&
            (w.Ok? ==> Get(a.value.getter, w.value) == NameRead(Column(fc), Column(gc), w.value))
  {
  }
}
