/** The search compilers of the Django ORM backend: every search refines
    the queryset with `filter`. Dates are read without widening a date to
    midnight. */
module DjangoSearches {
  import opened Values
  import opened Dates
  import opened Exceptions
  import opened RequestQuery
  import opened Plans

  /** `NumericSearch(column)`: the shared numeric compiler issuing filters. */
  function NumericSearch(col: string, float: string -> Option<real>): (s: Searcher)
    ensures forall f, v, p, q :: s(f, v, p, q) == NumericPlan(col, float, v, p, false)
  {
    (f: string, v: string, p: Plan, q: FhirRequestQuery) => NumericPlan(col, float, v, p, false)
  }

  /** The date `ap` filters as the source builds them: both bounds use
      `__gte`. */
  function ApproxDateStepsAsWritten(col: string, v: Temporal): Plan
    requires ValidTemporal(v)
  {
    [Filter(Compare(col, Ge, Stamp(ShiftDays(v, -30)))), Filter(Compare(col, Ge, Stamp(ShiftDays(v, 30))))]
  }

  /** As written, `ap` selects exactly the rows not before 30 days after the
      value: it has no upper bound and misses the value itself. */
  lemma ApproxDateAsWrittenMeaning(col: string, v: Temporal, row: Row, x: Temporal)
    requires ValidTemporal(v) && col in row && row[col] == Time(x)
    ensures Matches(ApproxDateStepsAsWritten(col, v), row) <==> !Before(AsDateTime(x), AsDateTime(ShiftDays(v, 30)))
    ensures AsDateTime(x) == AsDateTime(v) ==> !Matches(ApproxDateStepsAsWritten(col, v), row)
  {
    var p := ApproxDateStepsAsWritten(col, v);
    var lo := AsDateTime(ShiftDays(v, -30));
    var hi := AsDateTime(ShiftDays(v, 30));
    MatchesPair(p[0], p[1], row);
    CompareMeaning(col, Ge, ShiftDays(v, -30), row, x);
    CompareMeaning(col, Ge, ShiftDays(v, 30), row, x);
    if !Before(AsDateTime(x), hi) {
      BeforeTransitive(lo, AsDateTime(v), hi);
      BeforeAsymmetric(lo, hi);
      if Before(AsDateTime(x), lo) {
        BeforeTransitive(AsDateTime(x), lo, hi);
      }
    }
  }

  /** `DateSearch(column)`: lt, gt, le, ge and eq compare with the value
      after the prefix, ne negates the equality, ap is the as-written pair
      of lower bounds, and a value without prefix is compared whole for equality; an
      unreadable date is a QueryValidationError. */
  function DatePlan(iso: IsoParser, col: string, value: string, plan: Plan): (r: Result<Plan>)
    ensures var trim := PrefixOf(value) != Unprefixed;
            r.Err? <==> TransformDate(iso, value, trim, false).Err?
    ensures r.Err? ==> r.error.QueryValidation?
    ensures r.Ok? ==> |r.value| == |plan| + (if PrefixOf(value) == PAp then 2 else 1) && r.value[..|plan|] == plan
    ensures r.Ok? ==> var v := TransformDate(iso, value, PrefixOf(value) != Unprefixed, false).value;
                      match PrefixOf(value)
                      case PAp => r.value[|plan|..] == ApproxDateStepsAsWritten(col, v)
                      case PNe => r.value[|plan|..] == [Filter(Not(Compare(col, Eq, Stamp(v))))]
                      case Unprefixed => r.value[|plan|..] == [Filter(Compare(col, Eq, Stamp(v)))]
                      case p => r.value[|plan|..] == [Filter(Compare(col, RelOf(p), Stamp(v)))]
  {
    var p := PrefixOf(value);
    var v :- TransformDate(iso, value, p != Unprefixed, false);
    var added := match p
      case PAp => ApproxDateStepsAsWritten(col, v)
      case PNe => [Filter(Not(Compare(col, Eq, Stamp(v))))]
      case Unprefixed => [Filter(Compare(col, Eq, Stamp(v)))]
      case _ => [Filter(Compare(col, RelOf(p), Stamp(v)))];
    assert (plan + added)[|plan|..] == added;
    Ok(plan + added)
  }

  /** `DateSearch(column)` as a registered searcher. */
  function DateSearch(iso: IsoParser, col: string): (s: Searcher)
    ensures forall f, v, p, q :: s(f, v, p, q) == DatePlan(iso, col, v, p)
  {
    (f: string, v: string, p: Plan, q: FhirRequestQuery) => DatePlan(iso, col, v, p)
  }

  /** `NameSearch(column)`: a `__contains` filter with the whole value. */
  function NameSearch(col: string): (s: Searcher)
    ensures forall f, v, p, q :: s(f, v, p, q) == Ok(p + [Filter(Contains(col, v))])
  {
    (f: string, v: string, p: Plan, q: FhirRequestQuery) => Ok(p + [Filter(Contains(col, v))])
  }

  /** `SimpleSearch(column)`: an equality filter with the whole value. */
  function SimpleSearch(col: string): (s: Searcher)
    ensures forall f, v, p, q :: s(f, v, p, q) == Ok(p + [Filter(Compare(col, Eq, Text(v)))])
  {
    (f: string, v: string, p: Plan, q: FhirRequestQuery) => Ok(p + [Filter(Compare(col, Eq, Text(v)))])
  }
}
