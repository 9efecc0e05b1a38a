/** `FhirBaseModelMixin.get`: a read by id, or a search folded through the
    searcher registry, paginated and wrapped in a searchset Bundle. The ORM
    query is a `Plan`; the rows it selects are the table's rows that match
    every step of it. */
module BaseModelMixin {
  import opened Values
  import opened Resources
  import opened Exceptions
  import opened RequestQuery
  import opened Plans
  import opened Models
  import opened Attributes
  import opened Searchables
  import opened MixinWorld
  import opened AbstractBaseMixin
  import opened Pagination
  import opened PymodmPagination
  import opened Bundles

  /** `DEFAULT_BUNDLE_SIZE` and `MAX_BUNDLE_SIZE` of the settings in use. */
  datatype BundleSizes = BundleSizes(defaultSize: int, maxSize: int)

  /** The values the default settings give them. */
  const DefaultSizes: BundleSizes := BundleSizes(20, 100)

  function Snapshot(table: seq<Record>): (r: seq<Snap>)
    reads set x | x in table
    ensures |r| == |table| && forall i :: 0 <= i < |table| ==> r[i] == (table[i].fields, table[i].hiddenAttributes)
  {
    seq(|table|, i reads set x | x in table requires 0 <= i < |table| => (table[i].fields, table[i].hiddenAttributes))
  }

  // ---------------------------------------------------------------- folding the search tokens

  /** The values of a token: the search parameter's, else the modifier's. */
  function ValuesFor(q: FhirRequestQuery, token: string): seq<string>
  {
    if HasKey(q.searchParams, token) then GetOr(q.searchParams, token, []) else GetOr(q.modifiers, token, [])
  }

  /** The tokens `get` tries: every search parameter, then every modifier. */
  function SearchTokens(q: FhirRequestQuery): seq<string>
  {
    Keys(q.searchParams) + Keys(q.modifiers)
  }

  /** Each value is given in turn to the searcher, each on the plan the
      previous one returned. */
  function ApplyValues(s: Searcher, token: string, values: seq<string>, plan: Plan, q: FhirRequestQuery): Result<Plan>
    decreases |values|
  {
    if values == [] then Ok(plan)
    else
      match s(token, values[0], plan, q)
      case Err(e) => Err(e)
      case Ok(next) => ApplyValues(s, token, values[1..], next, q)
  }

  /** The fold of `get`: a token with a searcher applies its values; any
      other token is passed over. */
  function FoldTokens(reg: seq<(string, Searcher)>, tokens: seq<string>, q: FhirRequestQuery,
                      rematch: (string, string) -> bool, plan: Plan): Result<Plan>
    decreases |tokens|
  {
    if tokens == [] then Ok(plan)
    else if !HasSearcher(reg, tokens[0], rematch) then FoldTokens(reg, tokens[1..], q, rematch, plan)
    else
      match ApplyValues(GetSearcher(reg, tokens[0], rematch).value, tokens[0], ValuesFor(q, tokens[0]), plan, q)
      case Err(e) => Err(e)
      case Ok(next) => FoldTokens(reg, tokens[1..], q, rematch, next)
  }

  /** For a searcher that appends the steps of each value to the plan, the
      values are ANDed: a row matches the result exactly when it matches the
      starting plan and the steps of every value. */
  lemma {:induction false} ValuesAnded(s: Searcher, token: string, values: seq<string>, plan: Plan, q: FhirRequestQuery,
                                       steps: string -> Plan, row: Row)
    requires forall v, p :: s(token, v, p, q) == Ok(p + steps(v))
    ensures ApplyValues(s, token, values, plan, q).Ok?
    ensures Matches(ApplyValues(s, token, values, plan, q).value, row) <==>
            Matches(plan, row) && forall i :: 0 <= i < |values| ==> Matches(steps(values[i]), row)
    decreases |values|
  {
    if values != [] {
      var next := plan + steps(values[0]);
      assert s(token, values[0], plan, q) == Ok(next);
      ValuesAnded(s, token, values[1..], next, q, steps, row);
      MatchesAppend(plan, steps(values[0]), row);
      assert forall i :: 1 <= i < |values| ==> values[i] == values[1..][i - 1];
    }
  }

  /** `sql_query` after the loops of `get`. */
  method SearchPlan(reg: seq<(string, Searcher)>, q: FhirRequestQuery, rematch: (string, string) -> bool) returns (r: Result<Plan>)
    ensures r == FoldTokens(reg, SearchTokens(q), q, rematch, [])
  {
    var tokens := SearchTokens(q);
    var plan: Plan := [];
    var i := 0;
    while i < |tokens|
      invariant 0 <= i <= |tokens|
      invariant FoldTokens(reg, tokens, q, rematch, []) == FoldTokens(reg, tokens[i..], q, rematch, plan)
    {
      assert tokens[i..][1..] == tokens[i + 1..];
      var token := tokens[i];
      if HasSearcher(reg, token, rematch) {
        var values := ValuesFor(q, token);
        var searcher := GetSearcher(reg, token, rematch).value;
        ghost var before := plan;
        var j := 0;
        while j < |values|
          invariant 0 <= j <= |values|
          invariant ApplyValues(searcher, token, values, before, q) == ApplyValues(searcher, token, values[j..], plan, q)
        {
          assert values[j..][1..] == values[j + 1..];
          var next := searcher(token, values[j], plan, q);
          if next.Err? {
            return Err(next.error);
          }
          plan := next.value;
          j := j + 1;
        }
      }
      i := i + 1;
    }
    r := Ok(plan);
  }

  // ---------------------------------------------------------------- page arithmetic

  function Min(a: int, b: int): int { if a < b then a else b }
  function Max(a: int, b: int): int { if a > b then a else b }

  function InvalidLiteral(s: string): Error
  {
    Raised(ValueError, "invalid literal for int() with base 10: '" + s + "'")
  }

  /** `int(...)` of the first value of a parameter. */
  function FirstInt(values: seq<string>): (r: Result<int>)
    ensures values == [] ==> r == Err(Raised(IndexError, "list index out of range"))
    ensures values != [] ==> (r.Ok? <==> ParseInt(values[0]).Some?)
    ensures r.Ok? ==> r.value == ParseInt(values[0]).value
  {
    if values == [] then Err(Raised(IndexError, "list index out of range"))
    else match ParseInt(values[0])
      case None => Err(InvalidLiteral(values[0]))
      case Some(n) => Ok(n)
  }

  /** The page size: `_count`, else the default, capped at the maximum. */
  function CountOf(q: FhirRequestQuery, sizes: BundleSizes): (r: Result<int>)
    ensures r.Ok? ==> r.value <= sizes.maxSize
    ensures !HasKey(q.modifiers, "_count") ==> r == Ok(Min(sizes.defaultSize, sizes.maxSize))
    ensures HasKey(q.modifiers, "_count") ==> (r.Ok? <==> FirstInt(GetOr(q.modifiers, "_count", [])).Ok?)
    ensures HasKey(q.modifiers, "_count") && r.Ok? ==>
              r.value == Min(FirstInt(GetOr(q.modifiers, "_count", [])).value, sizes.maxSize)
  {
    if !HasKey(q.modifiers, "_count") then Ok(Min(sizes.defaultSize, sizes.maxSize))
    else
      match FirstInt(GetOr(q.modifiers, "_count", []))
      case Err(e) => Err(e)
      case Ok(n) => Ok(Min(n, sizes.maxSize))
  }

  /** The 1-based offset of the first row: `search-offset`, else 1. */
  function OffsetOf(q: FhirRequestQuery): (r: Result<int>)
    ensures !HasKey(q.searchParams, "search-offset") ==> r == Ok(1)
  {
    IntRoundTrip(1);
    assert IntToString(1) == "1";
    FirstInt(GetOr(q.searchParams, "search-offset", ["1"]))
  }

  /** `offset // count + 1`. */
  function PageOf(offset: int, count: int): (r: Result<int>)
    ensures r.Err? <==> count == 0
    ensures r.Err? ==> r.error == Raised(ZeroDivisionError, "integer division or modulo by zero")
  {
    if count == 0 then Err(Raised(ZeroDivisionError, "integer division or modulo by zero"))
    else Ok(FloorDiv(offset, count) + 1)
  }

  /** With a positive page size, a non-negative offset falls on the page
      whose rows it counts; stepping the offset by one page size forward
      or back moves exactly one page, which is what the next and previous
      links rely on. */
  lemma PageSteps(offset: int, count: int)
    requires count > 0 && offset >= 0
    ensures var page := PageOf(offset, count).value;
            page >= 1 && (page - 1) * count <= offset < page * count
    ensures PageOf(offset + count, count).value == PageOf(offset, count).value + 1
    ensures offset - count >= 0 ==> PageOf(offset - count, count).value == PageOf(offset, count).value - 1
  {
    var k := FloorDiv(offset, count);
    assert (k + 1) * count == k * count + count;
    MulLess(0 - 1, k + 1, count);
    FloorUnique(offset + count, count, k + 1);
    if offset - count >= 0 {
      assert (k - 1) * count == k * count - count;
      FloorUnique(offset - count, count, k - 1);
    }
  }

  /** The `param=value` pairs of every search parameter but
      `search-offset`, in order. */
  function QueryPairs(p: Params): (r: seq<string>)
    ensures forall j, v :: 0 <= j < |p| && p[j].0 != "search-offset" && v in p[j].1 ==> p[j].0 + "=" + v in r
    ensures forall x :: x in r ==> exists j, v :: 0 <= j < |p| && p[j].0 != "search-offset" && v in p[j].1 && x == p[j].0 + "=" + v
  {
    if p == [] then []
    else
      var (k, vs) := p[0];
      var own := if k == "search-offset" then [] else seq(|vs|, i requires 0 <= i < |vs| => k + "=" + vs[i]);
      var rest := QueryPairs(p[1..]);
      assert forall j :: 1 <= j < |p| ==> p[j] == p[1..][j - 1];
      assert forall v :: v in vs && k != "search-offset" ==> k + "=" + v in own by {
        forall v | v in vs && k != "search-offset" ensures k + "=" + v in own {
          var i :| 0 <= i < |vs| && vs[i] == v;
          assert own[i] == k + "=" + v;
        }
      }
      assert forall x :: x in rest ==> exists j, v :: 0 <= j < |p| && p[j].0 != "search-offset" && v in p[j].1 && x == p[j].0 + "=" + v by {
        forall x | x in rest
          ensures exists j, v :: 0 <= j < |p| && p[j].0 != "search-offset" && v in p[j].1 && x == p[j].0 + "=" + v
        {
          var j, v :| 0 <= j < |p[1..]| && p[1..][j].0 != "search-offset" && v in p[1..][j].1 && x == p[1..][j].0 + "=" + v;
          assert p[j + 1] == p[1..][j];
        }
      }
      own + rest
  }

  /** `url_queries`: the pairs joined with "&", led by "&" when there are any. */
  function UrlQueries(q: FhirRequestQuery): string
  {
    var joined := Join(QueryPairs(q.searchParams), "&");
    if joined == "" then "" else "&" + joined
  }

  function NextPageUrl(name: string, count: int, offset: int, urlQueries: string): string
  {
    name + "/?_count=" + IntToString(count) + "&search-offset=" + IntToString(offset + count) + urlQueries
  }

  function PreviousPageUrl(name: string, count: int, offset: int, urlQueries: string): string
  {
    name + "/?_count=" + IntToString(count) + "&search-offset=" + IntToString(Max(offset - count, 1)) + urlQueries
  }

  // ---------------------------------------------------------------- materializing the page

  predicate AuditPasses(cls: ModelClass, fields: Fields, q: FhirRequestQuery)
  {
    cls.auditRead.None? || cls.auditRead.value(fields, q).outcome == AuditSuccess
  }

  /** The rows whose read audit passes, in order. */
  function Audited(rows: seq<Snap>, cls: ModelClass, q: FhirRequestQuery): (r: seq<Snap>)
    ensures forall x :: x in r <==> x in rows && AuditPasses(cls, x.0, q)
  {
    if rows == [] then []
    else
      assert forall x :: x in rows <==> x == rows[0] || x in rows[1..];
      (if AuditPasses(cls, rows[0].0, q) then [rows[0]] else []) + Audited(rows[1..], cls, q)
  }

  /** The `items` comprehension: each row whose read audit passes is
      converted in turn (by `convert`, which is `ConvertRow` of the search),
      after those already converted in `acc`; the first failing conversion
      ends it. */
  function Materialize(rows: seq<Snap>, cls: ModelClass, q: FhirRequestQuery, convert: Snap -> Result<Resource>, acc: seq<Resource>): Result<seq<Resource>>
    decreases |rows|
  {
    if rows == [] then Ok(acc)
    else if !AuditPasses(cls, rows[0].0, q) then Materialize(rows[1..], cls, q, convert, acc)
    else
      match convert(rows[0])
      case Err(e) => Err(e)
      case Ok(res) => Materialize(rows[1..], cls, q, convert, acc + [res])
  }

  /** The items are exactly the audited rows, converted, in order. */
  lemma {:induction false} MaterializeAudited(rows: seq<Snap>, cls: ModelClass, q: FhirRequestQuery, convert: Snap -> Result<Resource>, acc: seq<Resource>)
    requires Materialize(rows, cls, q, convert, acc).Ok?
    ensures var items := Materialize(rows, cls, q, convert, acc).value;
            var kept := Audited(rows, cls, q);
            |items| == |acc| + |kept| && items[..|acc|] == acc &&
            forall i :: 0 <= i < |kept| ==> convert(kept[i]) == Ok(items[|acc| + i])
    decreases |rows|
  {
    if rows != [] {
      var kept := Audited(rows, cls, q);
      var kept' := Audited(rows[1..], cls, q);
      if !AuditPasses(cls, rows[0].0, q) {
        assert kept == kept';
        assert Materialize(rows, cls, q, convert, acc) == Materialize(rows[1..], cls, q, convert, acc);
        MaterializeAudited(rows[1..], cls, q, convert, acc);
      } else {
        assert kept == [rows[0]] + kept';
        var res := convert(rows[0]).value;
        var acc' := acc + [res];
        assert Materialize(rows, cls, q, convert, acc) == Materialize(rows[1..], cls, q, convert, acc');
        MaterializeAudited(rows[1..], cls, q, convert, acc');
        var items := Materialize(rows[1..], cls, q, convert, acc').value;
        PrefixSnoc(items, acc, res);
        forall i | 0 <= i < |kept|
          ensures convert(kept[i]) == Ok(items[|acc| + i])
        {
          if i > 0 {
            assert kept[i] == kept'[i - 1];
            assert |acc| + i == |acc'| + (i - 1);
          }
        }
      }
    }
  }


  /** A sequence that starts with `acc + [x]` starts with `acc`, followed by `x`. */
  lemma PrefixSnoc<T>(s: seq<T>, acc: seq<T>, x: T)
    requires |acc| < |s| && s[..|acc| + 1] == acc + [x]
    ensures s[..|acc|] == acc && s[|acc|] == x
  {
    assert s[..|acc|] == s[..|acc| + 1][..|acc|];
    assert s[|acc|] == s[..|acc| + 1][|acc|];
  }

  /** Converting the rows of a page, where `convert` is `to_fhir` on a
      row: the rows' columns and hidden lists are left as they were. */
  method MaterializeItems(items: seq<Record>, cls: ModelClass, q: FhirRequestQuery, strict: bool, w: World,
                          ghost convert: Snap -> Result<Resource>) returns (r: Result<seq<Resource>>)
    requires ConvertsRows(convert, cls, q, strict, w)
    modifies set x | x in items
    ensures r == Materialize(old(Snapshot(items)), cls, q, convert, [])
    ensures forall x | x in items :: x.fields == old(x.fields) && x.hiddenAttributes == old(x.hiddenAttributes)
  {
    ghost var rows := Snapshot(items);
    ghost var target := Materialize(rows, cls, q, convert, []);
    var resources: seq<Resource> := [];
    var i := 0;
    while i < |items|
      invariant 0 <= i <= |items|
      invariant forall x | x in items :: x.fields == old(x.fields) && x.hiddenAttributes == old(x.hiddenAttributes)
      invariant target == Materialize(rows[i..], cls, q, convert, resources)
    {
      var item := items[i];
      assert rows[i] == (item.fields, item.hiddenAttributes);
      if AuditPasses(cls, item.fields, q) {
        var res := ConvertItem(item, rows[i], cls, q, strict, w, convert);
        if res.Err? {
          MaterializeFails(rows, i, cls, q, convert, resources);
          return Err(res.error);
        }
        MaterializeKeeps(rows, i, cls, q, convert, resources);
        resources := resources + [res.value];
      } else {
        MaterializeSkips(rows, i, cls, q, convert, resources);
      }
      i := i + 1;
    }
    r := Ok(resources);
  }

  /** `item.to_fhir(query=query)` on one row of the page. */
  method ConvertItem(item: Record, ghost row: Snap, cls: ModelClass, q: FhirRequestQuery, strict: bool, w: World,
                     ghost convert: Snap -> Result<Resource>) returns (res: Result<Resource>)
    requires row == (item.fields, item.hiddenAttributes) && ConvertsRows(convert, cls, q, strict, w)
    modifies item
    ensures res == convert(row)
    ensures item.fields == old(item.fields) && item.hiddenAttributes == old(item.hiddenAttributes)
  {
    res := AbstractBaseMixin.ToFhir(item, cls, Some(q), strict, w);
    assert res == ConvertRow(row, cls, q, strict, w);
  }

  /** A row the read audit refuses is skipped. */
  lemma MaterializeSkips(rows: seq<Snap>, i: nat, cls: ModelClass, q: FhirRequestQuery, convert: Snap -> Result<Resource>, acc: seq<Resource>)
    requires i < |rows| && !AuditPasses(cls, rows[i].0, q)
    ensures Materialize(rows[i..], cls, q, convert, acc) == Materialize(rows[i + 1..], cls, q, convert, acc)
  {
    assert rows[i..][1..] == rows[i + 1..];
  }

  /** An audited row that converts is appended. */
  lemma MaterializeKeeps(rows: seq<Snap>, i: nat, cls: ModelClass, q: FhirRequestQuery, convert: Snap -> Result<Resource>, acc: seq<Resource>)
    requires i < |rows| && AuditPasses(cls, rows[i].0, q) && convert(rows[i]).Ok?
    ensures Materialize(rows[i..], cls, q, convert, acc) == Materialize(rows[i + 1..], cls, q, convert, acc + [convert(rows[i]).value])
  {
    assert rows[i..][1..] == rows[i + 1..];
  }

  /** An audited row whose conversion fails ends the materializing. */
  lemma MaterializeFails(rows: seq<Snap>, i: nat, cls: ModelClass, q: FhirRequestQuery, convert: Snap -> Result<Resource>, acc: seq<Resource>)
    requires i < |rows| && AuditPasses(cls, rows[i].0, q) && convert(rows[i]).Err?
    ensures Materialize(rows[i..], cls, q, convert, acc) == Err(convert(rows[i]).error)
  {
  }

  // ---------------------------------------------------------------- the search branch

  /** The rows a plan selects, in table order. */
  function Selected(rows: seq<Snap>, plan: Plan): (r: seq<Snap>)
    ensures forall x :: x in r <==> x in rows && Matches(plan, x.0)
  {
    if rows == [] then []
    else
      assert forall x :: x in rows <==> x == rows[0] || x in rows[1..];
      (if Matches(plan, rows[0].0) then [rows[0]] else []) + Selected(rows[1..], plan)
  }

  /** The records a plan selects, in table order. */
  function SelectedRecords(table: seq<Record>, plan: Plan): (r: seq<Record>)
    reads set x | x in table
    ensures forall x :: x in r ==> x in table
    ensures Snapshot(r) == Selected(Snapshot(table), plan)
  {
    if table == [] then []
    else
      var rest := SelectedRecords(table[1..], plan);
      var own := if Matches(plan, table[0].fields) then [table[0]] else [];
      SnapshotSplit(table, own, rest);
      var snap := Snapshot(table);
      assert Snapshot(own) == if Matches(plan, snap[0].0) then [snap[0]] else [];
      assert Selected(snap, plan) == Snapshot(own) + Selected(snap[1..], plan);
      assert forall x :: x in rest ==> x in table[1..];
      own + rest
  }

  /** The snapshot of a concatenation, and of a table without its first row. */
  lemma SnapshotSplit(table: seq<Record>, own: seq<Record>, rest: seq<Record>)
    requires table != []
    ensures Snapshot(table)[1..] == Snapshot(table[1..])
    ensures Snapshot(own + rest) == Snapshot(own) + Snapshot(rest)
  {
  }

  /** The plan and page window of a search. */
  datatype Window = Window(plan: Plan, count: int, offset: int, page: int)

  /** The search plan, then the page size, the offset and the page, each
      failure raised in that order. */
  function WindowSpec(reg: seq<(string, Searcher)>, q: FhirRequestQuery, rematch: (string, string) -> bool, sizes: BundleSizes): Result<Window>
  {
    var plan :- FoldTokens(reg, SearchTokens(q), q, rematch, []);
    var count :- CountOf(q, sizes);
    var offset :- OffsetOf(q);
    var page :- PageOf(offset, count);
    Ok(Window(plan, count, offset, page))
  }

  /** The pagination dictionary of a window: the selected rows' page, its
      audited rows converted by `convert`, and the links. */
  function PageSpec(rows: seq<Snap>, win: Window, cls: ModelClass, q: FhirRequestQuery, convert: Snap -> Result<Resource>): Result<PageParams<Resource>>
  {
    var pg :- Paginate(Selected(rows, win.plan), win.page, win.count);
    var items :- Materialize(pg.items, cls, q, convert, []);
    var url := UrlQueries(q);
    Ok(PageParams(items, pg.total, pg.pages, pg.hasNext, pg.hasPrevious,
                  NextPageUrl(cls.name, win.count, win.offset, url), PreviousPageUrl(cls.name, win.count, win.offset, url)))
  }

  /** The pagination dictionary `get` builds for a search. */
  function SearchSpec(rows: seq<Snap>, cls: ModelClass, q: FhirRequestQuery, convert: Snap -> Result<Resource>,
                      rematch: (string, string) -> bool, sizes: BundleSizes): Result<PageParams<Resource>>
  {
    var win :- WindowSpec(Registry(cls.fhirMap), q, rematch, sizes);
    PageSpec(rows, win, cls, q, convert)
  }

  /** A Bundle is the searchset `PaginatedBundle` makes of a pagination
      dictionary. */
  predicate IsBundleOf(b: BundleJson<Resource>, pg: PageParams<Resource>)
  {
    b.kind == "searchset" && b.total == pg.total &&
    |b.entries| == |pg.items| && (forall i :: 0 <= i < |b.entries| ==> b.entries[i] == Entry(pg.items[i])) &&
    b.links == (if pg.hasNext then [Link("next", pg.nextPage)] else []) +
               (if pg.hasPrevious then [Link("previous", pg.previousPage)] else [])
  }

  lemma MulNonNeg(a: int, b: int)
    requires a >= 0 && b >= 0
    ensures a * b >= 0
  {
  }

  /** Paginating the records and then taking the snapshot of the page is
      paginating the snapshot. */
  lemma PaginateSnapshot(recs: seq<Record>, page: int, count: int)
    requires Paginate(recs, page, count).Ok?
    ensures var p := Paginate(recs, page, count).value;
            var s := Paginate(Snapshot(recs), page, count);
            s.Ok? && s.value.items == Snapshot(p.items) && s.value.total == p.total && s.value.pages == p.pages &&
            s.value.hasNext == p.hasNext && s.value.hasPrevious == p.hasPrevious
  {
    assert page >= 1 && count >= 1;
    MulNonNeg(page - 1, count);
    var skip: nat := (page - 1) * count;
    var mine := Slice(recs, skip, count);
    assert Snapshot(mine) == Slice(Snapshot(recs), skip, count);
  }

  /** The plan and window of a search. */
  method SearchWindow(cls: ModelClass, q: FhirRequestQuery, rematch: (string, string) -> bool, sizes: BundleSizes) returns (r: Result<Window>)
    ensures r == WindowSpec(Registry(cls.fhirMap), q, rematch, sizes)
  {
    var reg := SearchablesOf(cls.fhirMap);
    var plan := SearchPlan(reg, q, rematch);
    if plan.Err? {
      return Err(plan.error);
    }
    var count := CountOf(q, sizes);
    if count.Err? {
      return Err(count.error);
    }
    var offset := OffsetOf(q);
    if offset.Err? {
      return Err(offset.error);
    }
    var page := PageOf(offset.value, count.value);
    if page.Err? {
      return Err(page.error);
    }
    r := Ok(Window(plan.value, count.value, offset.value, page.value));
  }

  /** One page of a search, as a Bundle. */
  method SearchPage(table: seq<Record>, win: Window, cls: ModelClass, q: FhirRequestQuery, strict: bool, w: World,
                    ghost convert: Snap -> Result<Resource>) returns (r: Result<BundleJson<Resource>>)
    requires ConvertsRows(convert, cls, q, strict, w)
    modifies set x | x in table
    ensures var spec := PageSpec(old(Snapshot(table)), win, cls, q, convert);
            (r.Ok? <==> spec.Ok?) && (r.Err? ==> r.error == spec.error) && (r.Ok? ==> IsBundleOf(r.value, spec.value))
  {
    ghost var rows := Snapshot(table);
    var selected := SelectedRecords(table, win.plan);
    var pagination := Paginate(selected, win.page, win.count);
    ghost var specPage := Paginate(Selected(rows, win.plan), win.page, win.count);
    if pagination.Err? {
      assert specPage == Err(pagination.error);
      return Err(pagination.error);
    }
    PaginateSnapshot(selected, win.page, win.count);
    ghost var pg := specPage.value;
    var items := MaterializeItems(pagination.value.items, cls, q, strict, w, convert);
    assert items == Materialize(pg.items, cls, q, convert, []);
    if items.Err? {
      return Err(items.error);
    }
    var url := UrlQueries(q);
    var params := PageParams(items.value, pagination.value.total, pagination.value.pages,
                             pagination.value.hasNext, pagination.value.hasPrevious,
                             NextPageUrl(cls.name, win.count, win.offset, url),
                             PreviousPageUrl(cls.name, win.count, win.offset, url));
    var bundle := JsonDict([], Some(params));
    r := Ok(bundle.value);
  }

  /** The search branch of `get`. */
  method Search(table: seq<Record>, cls: ModelClass, q: FhirRequestQuery, strict: bool, w: World, sizes: BundleSizes,
                ghost convert: Snap -> Result<Resource>) returns (r: Result<BundleJson<Resource>>)
    requires ConvertsRows(convert, cls, q, strict, w)
    modifies set x | x in table
    ensures var spec := SearchSpec(old(Snapshot(table)), cls, q, convert, w.rematch, sizes);
            (r.Ok? <==> spec.Ok?) && (r.Err? ==> r.error == spec.error) && (r.Ok? ==> IsBundleOf(r.value, spec.value))
  {
    var win := SearchWindow(cls, q, w.rematch, sizes);
    if win.Err? {
      return Err(win.error);
    }
    r := SearchPage(table, win.value, cls, q, strict, w, convert);
  }

  // ---------------------------------------------------------------- the read branch

  /** `_get_item_from_pk(pk)`: the first row whose primary key prints as `pk`. */
  function FindByPk(rows: seq<Snap>, pkColumn: string, pk: string): (r: Option<nat>)
    ensures r.None? <==> forall i :: 0 <= i < |rows| ==> !(pkColumn in rows[i].0 && PyStr(rows[i].0[pkColumn]) == pk)
    ensures r.Some? ==> r.value < |rows| && pkColumn in rows[r.value].0 && PyStr(rows[r.value].0[pkColumn]) == pk &&
                        forall i :: 0 <= i < r.value ==> !(pkColumn in rows[i].0 && PyStr(rows[i].0[pkColumn]) == pk)
  {
    if rows == [] then None
    else if pkColumn in rows[0].0 && PyStr(rows[0].0[pkColumn]) == pk then Some(0)
    else
      match FindByPk(rows[1..], pkColumn, pk)
      case None =>
        assert forall i :: 1 <= i < |rows| ==> rows[i] == rows[1..][i - 1];
        None
      case Some(k) =>
        assert forall i :: 1 <= i < |rows| ==> rows[i] == rows[1..][i - 1];
        Some(k + 1)
  }

  function OptText(s: Option<string>): string
  {
    if s.Some? then s.value else "None"
  }

  function Missing(q: FhirRequestQuery, id: string): Error
  {
    MappingValidation("Resource \"" + OptText(q.resource) + "/" + id + "\" does not exist.")
  }

  /** The read branch of `get`: a missing row raises MappingValidationError,
      a failed read audit raises AuthorizationError, and otherwise the row
      is converted. */
  function ReadByIdSpec(rows: seq<Snap>, cls: ModelClass, q: FhirRequestQuery, id: string, convert: Snap -> Result<Resource>): Result<Resource>
  {
    match FindByPk(rows, cls.pkColumn, id)
    case None => Err(Missing(q, id))
    case Some(k) =>
      if !AuditPasses(cls, rows[k].0, q) then Err(Authorization(cls.auditRead.value(rows[k].0, q)))
      else convert(rows[k])
  }

  method ReadOne(table: seq<Record>, cls: ModelClass, q: FhirRequestQuery, id: string, strict: bool, w: World,
                 ghost convert: Snap -> Result<Resource>) returns (r: Result<Resource>)
    requires ConvertsRows(convert, cls, q, strict, w)
    modifies set x | x in table
    ensures r == ReadByIdSpec(old(Snapshot(table)), cls, q, id, convert)
  {
    var rows := Snapshot(table);
    var k := FindByPk(rows, cls.pkColumn, id);
    if k.None? {
      return Err(Missing(q, id));
    }
    var item := table[k.value];
    if !AuditPasses(cls, item.fields, q) {
      return Err(Authorization(cls.auditRead.value(item.fields, q)));
    }
    assert rows[k.value] == (item.fields, item.hiddenAttributes);
    r := ConvertItem(item, rows[k.value], cls, q, strict, w, convert);
  }

  // ---------------------------------------------------------------- get

  /** What `get` returns: one resource, or a searchset Bundle. */
  datatype Response = Single(resource: Resource) | Searchset(bundle: BundleJson<Resource>)

  /** `get(query)`: a non-empty resource id reads that row, anything else
      searches; `convert` is `to_fhir` on a row. */
  method Get(table: seq<Record>, cls: ModelClass, q: FhirRequestQuery, strict: bool, w: World, sizes: BundleSizes,
             ghost convert: Snap -> Result<Resource>) returns (r: Result<Response>)
    requires ConvertsRows(convert, cls, q, strict, w)
    modifies set x | x in table
    ensures q.resourceId.Some? && q.resourceId.value != "" ==>
              var spec := ReadByIdSpec(old(Snapshot(table)), cls, q, q.resourceId.value, convert);
              (r.Ok? <==> spec.Ok?) && (r.Err? ==> r.error == spec.error) && (r.Ok? ==> r.value == Single(spec.value))
    ensures !(q.resourceId.Some? && q.resourceId.value != "") ==>
              var spec := SearchSpec(old(Snapshot(table)), cls, q, convert, w.rematch, sizes);
              (r.Ok? <==> spec.Ok?) && (r.Err? ==> r.error == spec.error) &&
              (r.Ok? ==> r.value.Searchset? && IsBundleOf(r.value.bundle, spec.value))
  {
    if q.resourceId.Some? && q.resourceId.value != "" {
      var res := ReadOne(table, cls, q, q.resourceId.value, strict, w, convert);
      if res.Err? {
        return Err(res.error);
      }
      r := Ok(Single(res.value));
    } else {
      var bundle := Search(table, cls, q, strict, w, sizes, convert);
      if bundle.Err? {
        return Err(bundle.error);
      }
      r := Ok(Searchset(bundle.value));
    }
  }
}
