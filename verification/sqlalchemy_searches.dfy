/** The search compilers of the SQLAlchemy backend: every search refines the
    query with `filter` on the mapped column. */
module SqlAlchemySearches {
  import opened Values
  import opened Dates
  import opened Exceptions
  import opened RequestQuery
  import opened Plans

  /** `NumericSearch(column)`: lt, gt, le, ge, eq and ne compare the column
      with the text after the prefix, unconverted; ap converts it with
      `float()` (whose failure escapes as ValueError) and adds the two 10%
      bounds; a value without prefix is compared whole. */
  function NumericPlan(col: string, float: string -> Option<real>, value: string, plan: Plan): (r: Result<Plan>)
    ensures r.Err? <==> PrefixOf(value) == PAp && float(DropPrefix(value)).None?
    ensures r.Err? ==> r.error == Raised(ValueError, "could not convert string to float: '" + DropPrefix(value) + "'")
    ensures r.Ok? ==> |r.value| > |plan| && r.value[..|plan|] == plan
    ensures r.Ok? && PrefixOf(value) == PAp ==> r.value == plan + ApproxSteps(col, float(DropPrefix(value)).value, false)
    ensures r.Ok? && PrefixOf(value) != PAp ==>
              r.value == plan + [Filter(Compare(col, if PrefixOf(value) == Unprefixed then Eq else RelOf(PrefixOf(value)),
                                                Text(NumberOperand(value))))]
  {
    match PrefixOf(value)
    case PAp =>
      (match float(DropPrefix(value))
       case None => Err(Raised(ValueError, "could not convert string to float: '" + DropPrefix(value) + "'"))
       case Some(x) => Ok(plan + ApproxSteps(col, x, false)))
    case Unprefixed => Ok(plan + [Filter(Compare(col, Eq, Text(value)))])
    case p => Ok(plan + [Filter(Compare(col, RelOf(p), Text(DropPrefix(value))))])
  }

  /** `NumericSearch(column)` as a registered searcher. */
  function NumericSearch(col: string, float: string -> Option<real>): (s: Searcher)
    ensures forall f, v, p, q :: s(f, v, p, q) == NumericPlan(col, float, v, p)
  {
    (f: string, v: string, p: Plan, q: FhirRequestQuery) => NumericPlan(col, float, v, p)
  }

  /** `ap` is the only numeric search that reads the number, so the same
      band as the other backends: for a non-negative number, the rows
      within 10% of it. */
  lemma NumericApproxMeaning(col: string, float: string -> Option<real>, value: string, plan: Plan, row: Row, n: int)
    requires PrefixOf(value) == PAp && NumericPlan(col, float, value, plan).Ok?
    requires col in row && row[col] == Int(n)
    ensures var x := float(DropPrefix(value)).value;
            Matches(NumericPlan(col, float, value, plan).value, row) <==>
              (Matches(plan, row) && x >= 0.0 && 0.9 * x <= n as real <= 1.1 * x)
  {
    var x := float(DropPrefix(value)).value;
    MatchesAppend(plan, ApproxSteps(col, x, false), row);
    ApproxMeaning(col, x, false, row, n);
  }

  /** `DateSearch(column)`: lt, gt, le, ge, eq and ne compare with the value
      after the prefix, ap spans 30 days on either side, a value without
      prefix is compared whole for equality; an unreadable date is a
      QueryValidationError. */
  function DatePlan(iso: IsoParser, col: string, value: string, plan: Plan): (r: Result<Plan>)
    ensures var trim := PrefixOf(value) != Unprefixed;
            r.Err? <==> TransformDate(iso, value, trim, false).Err?
    ensures r.Err? ==> r.error.QueryValidation?
    ensures r.Ok? ==> var v := TransformDate(iso, value, PrefixOf(value) != Unprefixed, false).value;
                      match PrefixOf(value)
                      case PAp => r.value == plan + ApproxDateSteps(col, v)
                      case Unprefixed => r.value == plan + [Filter(Compare(col, Eq, Stamp(v)))]
                      case p => r.value == plan + [Filter(Compare(col, RelOf(p), Stamp(v)))]
  {
    var p := PrefixOf(value);
    var v :- TransformDate(iso, value, p != Unprefixed, false);
    match p
    case PAp => Ok(plan + ApproxDateSteps(col, v))
    case Unprefixed => Ok(plan + [Filter(Compare(col, Eq, Stamp(v)))])
    case _ => Ok(plan + [Filter(Compare(col, RelOf(p), Stamp(v)))])
  }

  /** `DateSearch(column)` as a registered searcher. */
  function DateSearch(iso: IsoParser, col: string): (s: Searcher)
    ensures forall f, v, p, q :: s(f, v, p, q) == DatePlan(iso, col, v, p)
  {
    (f: string, v: string, p: Plan, q: FhirRequestQuery) => DatePlan(iso, col, v, p)
  }

  /** `NameSearch(column)`: a `contains` filter with the whole value. */
  function NameSearch(col: string): (s: Searcher)
    ensures forall f, v, p, q :: s(f, v, p, q) == Ok(p + [Filter(Contains(col, v))])
  {
    (f: string, v: string, p: Plan, q: FhirRequestQuery) => Ok(p + [Filter(Contains(col, v))])
  }

  /** `SimpleSearch(column)`: an equality filter with the whole value. */
  function SimpleSearch(col: string): (s: Searcher)
    ensures forall f, v, p, q :: s(f, v, p, q) == Ok(p + [Filter(Compare(col, Eq, Text(v)))])
  {
    (f: string, v: string, p: Plan, q: FhirRequestQuery) => Ok(p + [Filter(Compare(col, Eq, Text(v)))])
  }
}
