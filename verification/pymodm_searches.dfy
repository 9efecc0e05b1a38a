/** The search compilers of the pymodm (MongoDB) backend. Each refines the
    query with `raw` documents, except the string, name and simple searches,
    which use `filter`. */
module PymodmSearches {
  import opened Values
  import opened Dates
  import opened Exceptions
  import opened RequestQuery
  import opened Plans

  /** `NumericSearch(column)`: the shared numeric compiler issuing raw documents. */
  function NumericSearch(col: string, float: string -> Option<real>): (s: Searcher)
    ensures forall f, v, p, q :: s(f, v, p, q) == NumericPlan(col, float, v, p, true)
  {
    (f: string, v: string, p: Plan, q: FhirRequestQuery) => NumericPlan(col, float, v, p, true)
  }

  /** The number and the query a quantity search hands on: with a
      `number|unit` value, `convert_value` may rewrite the number and
      `alter_query` may replace the query. */
  function QuantityInput(value: string, plan: Plan, query: FhirRequestQuery,
                         convert: Option<(string, string) -> string>,
                         alter: Option<(FhirRequestQuery, string, string) -> Plan>): (r: (string, Plan))
    ensures '|' !in value ==> r == (value, plan)
    ensures '|' in value ==>
              var parts := SplitOnce(value, '|');
              r.0 == (if convert.Some? then convert.value(parts[0], parts[1]) else parts[0]) &&
              r.1 == (if alter.Some? then alter.value(query, r.0, parts[1]) else plan)
  {
    var parts := SplitOnce(value, '|');
    if |parts| == 2 then
      var number := if convert.Some? then convert.value(parts[0], parts[1]) else parts[0];
      (number, if alter.Some? then alter.value(query, number, parts[1]) else plan)
    else (value, plan)
  }

  /** `NumericSearchWithQuantity(column, convert_value, alter_query)` as
      intended: the numeric search on the number before the first `|`. */
  function NumericSearchWithQuantity(col: string, float: string -> Option<real>,
                                     convert: Option<(string, string) -> string>,
                                     alter: Option<(FhirRequestQuery, string, string) -> Plan>): (s: Searcher)
    ensures forall f, v, p, q :: s(f, v, p, q) ==
              NumericPlan(col, float, QuantityInput(v, p, q, convert, alter).0, QuantityInput(v, p, q, convert, alter).1, true)
  {
    (f: string, v: string, p: Plan, q: FhirRequestQuery) =>
      var input := QuantityInput(v, p, q, convert, alter);
      NumericPlan(col, float, input.0, input.1, true)
  }

  /** `NumericSearchWithQuantity` as written: once the number and the query
      are prepared (neither step can fail here), the numeric search is
      called as `NumericSearch(column).search(...)`, but `NumericSearch`
      returns a plain function, which has no attribute `search`. */
  function NumericSearchWithQuantityAsWritten(col: string, float: string -> Option<real>,
                                              convert: Option<(string, string) -> string>,
                                              alter: Option<(FhirRequestQuery, string, string) -> Plan>): (s: Searcher)
    ensures forall f, v, p, q :: s(f, v, p, q) == Err(Raised(AttributeError, NoSearchAttribute))
  {
    (f: string, v: string, p: Plan, q: FhirRequestQuery) => Err(Raised(AttributeError, NoSearchAttribute))
  }

  const NoSearchAttribute := "'function' object has no attribute 'search'"

  /** As written, a quantity search fails even on a plain number that the
      intended search (`NumericSearchWithQuantity`) compiles. */
  lemma QuantitySearchAlwaysFails(col: string, float: string -> Option<real>,
                                  convert: Option<(string, string) -> string>,
                                  alter: Option<(FhirRequestQuery, string, string) -> Plan>,
                                  f: string, v: string, p: Plan, q: FhirRequestQuery)
    requires '|' !in v && float(NumberOperand(v)).Some?
    ensures NumericSearchWithQuantityAsWritten(col, float, convert, alter)(f, v, p, q).Err?
    ensures NumericSearchWithQuantity(col, float, convert, alter)(f, v, p, q).Ok?
  {
    QuantityWithoutUnit(col, float, convert, alter, f, v, p, q);
  }

  /** A quantity without a unit is searched like a plain number. */
  lemma QuantityWithoutUnit(col: string, float: string -> Option<real>,
                            convert: Option<(string, string) -> string>,
                            alter: Option<(FhirRequestQuery, string, string) -> Plan>,
                            f: string, v: string, p: Plan, q: FhirRequestQuery)
    requires '|' !in v
    ensures NumericSearchWithQuantity(col, float, convert, alter)(f, v, p, q) == NumericSearch(col, float)(f, v, p, q)
  {
  }

  /** With a unit and no converter, the number is the text before the first
      `|`, and the unit never reaches the number. */
  lemma QuantityNumberBeforeBar(v: string, p: Plan, q: FhirRequestQuery,
                                alter: Option<(FhirRequestQuery, string, string) -> Plan>, i: nat)
    requires i < |v| && v[i] == '|' && forall j :: 0 <= j < i ==> v[j] != '|'
    ensures QuantityInput(v, p, q, None, alter).0 == v[..i]
  {
    var parts := SplitOnce(v, '|');
    var k := |parts[0]|;
    assert v == parts[0] + ['|'] + parts[1];
    assert v[k] == '|';
    assert k == i;
    assert v[..i] == parts[0];
  }

  /** `get_equality_date_range(value, trim)` with the day case's end offset
      as a parameter: years, months and days become ranges, other lengths an
      exact comparison; the value is read as in `transform_date`. */
  function EqualityRangeWith(iso: IsoParser, col: string, value: string, trim: bool, dayEnd: int): (r: Result<Term>)
    ensures r.Err? <==> TransformDate(iso, value, trim, true).Err?
    ensures r.Err? ==> r.error == TransformDate(iso, value, trim, true).error
    ensures r.Ok? ==> var v := TransformDate(iso, value, trim, true).value;
                      PrecisionLength(value, trim) in {4, 7, 10} ==> r.value.AllOf? && |r.value.terms| == 2 && r.value.terms[0] == Compare(col, Ge, Stamp(v))
    ensures r.Ok? ==> var v := TransformDate(iso, value, trim, true).value;
                      PrecisionLength(value, trim) !in {4, 7, 10} ==> r.value == Compare(col, Eq, Stamp(v))
  {
    var len := PrecisionLength(value, trim);
    var v :- TransformDate(iso, value, trim, true);
    var dt := v.dt;
    if len == 4 then Ok(Between(col, v, At(DateTime(Date(dt.date.year, 12, 31), 23, 59, 59, 59))))
    else if len == 7 then Ok(Between(col, v, At(AddTime(dt, DaysInMonth(dt.date.year, dt.date.month) - 1, 86399))))
    else if len == 10 then Ok(Between(col, v, At(AddTime(dt, dayEnd, 86399))))
    else Ok(Compare(col, Eq, Stamp(v)))
  }

  /** The range as the source builds it: a day ends at 23:59:59 of the
      following day. */
  function EqualityRange(iso: IsoParser, col: string, value: string, trim: bool): Result<Term>
  {
    EqualityRangeWith(iso, col, value, trim, 1)
  }

  /** The range with a day ending at 23:59:59 of that same day, as for
      months (`last - 1` days) and as the year case's docstring intends;
      the searchers keep the range as written. */
  function IntendedEqualityRange(iso: IsoParser, col: string, value: string, trim: bool): Result<Term>
  {
    EqualityRangeWith(iso, col, value, trim, 0)
  }

  /** A year selects the datetimes of that year, up to 23:59:59.000059 on
      December 31 (the microsecond field of the bound is 59). */
  lemma YearRange(iso: IsoParser, col: string, value: string, trim: bool, y: int, row: Row, x: Temporal)
    requires PrecisionLength(value, trim) == 4
    requires TransformDate(iso, value, trim, true) == Ok(At(Midnight(Date(y, 1, 1))))
    requires col in row && row[col] == Time(x) && ValidTemporal(x)
    ensures EqualityRange(iso, col, value, trim).Ok?
    ensures var t := AsDateTime(x);
            Holds(EqualityRange(iso, col, value, trim).value, row) <==>
            t.date.year == y && !(t.date == Date(y, 12, 31) && SecondOfDay(t) == 86399 && t.microsecond > 59)
  {
    var t := AsDateTime(x);
    var hi := DateTime(Date(y, 12, 31), 23, 59, 59, 59);
    assert EqualityRange(iso, col, value, trim).value == Between(col, At(Midnight(Date(y, 1, 1))), At(hi));
    BetweenMeaning(col, At(Midnight(Date(y, 1, 1))), At(hi), row, x);
    NotBeforeMidnight(t, Date(y, 1, 1));
    NotAfterLastSecond(t, hi);
    WithinYear(t.date, y);
  }

  /** A month selects the datetimes of that month, up to 23:59:59.000000 on
      its last day. */
  lemma MonthRange(iso: IsoParser, col: string, value: string, trim: bool, y: int, m: int, row: Row, x: Temporal)
    requires PrecisionLength(value, trim) == 7 && 1 <= m <= 12
    requires TransformDate(iso, value, trim, true) == Ok(At(Midnight(Date(y, m, 1))))
    requires col in row && row[col] == Time(x) && ValidTemporal(x)
    ensures EqualityRange(iso, col, value, trim).Ok?
    ensures var t := AsDateTime(x);
            Holds(EqualityRange(iso, col, value, trim).value, row) <==>
            t.date.year == y && t.date.month == m &&
            !(t.date.day == DaysInMonth(y, m) && SecondOfDay(t) == 86399 && t.microsecond > 0)
  {
    var t := AsDateTime(x);
    var v := Midnight(Date(y, m, 1));
    var hi := AddTime(v, DaysInMonth(y, m) - 1, 86399);
    MonthEnd(y, m);
    assert hi.date == Date(y, m, DaysInMonth(y, m));
    assert EqualityRange(iso, col, value, trim).value == Between(col, At(v), At(hi));
    BetweenMeaning(col, At(v), At(hi), row, x);
    NotBeforeMidnight(t, Date(y, m, 1));
    NotAfterLastSecond(t, hi);
    WithinMonth(t.date, y, m);
  }

  /** A day selects the datetimes of that day, up to 23:59:59.000000. */
  lemma IntendedDayRange(iso: IsoParser, col: string, value: string, trim: bool, d: Date, row: Row, x: Temporal)
    requires PrecisionLength(value, trim) == 10 && ValidDate(d)
    requires TransformDate(iso, value, trim, true) == Ok(At(Midnight(d)))
    requires col in row && row[col] == Time(x) && ValidTemporal(x)
    ensures IntendedEqualityRange(iso, col, value, trim).Ok?
    ensures var t := AsDateTime(x);
            Holds(IntendedEqualityRange(iso, col, value, trim).value, row) <==>
            t.date == d && !(SecondOfDay(t) == 86399 && t.microsecond > 0)
  {
    var t := AsDateTime(x);
    var hi := AddTime(Midnight(d), 0, 86399);
    assert hi.date == d;
    assert IntendedEqualityRange(iso, col, value, trim).value == Between(col, At(Midnight(d)), At(hi));
    BetweenMeaning(col, At(Midnight(d)), At(hi), row, x);
    NotBeforeMidnight(t, d);
    NotAfterLastSecond(t, hi);
    DateTotal(t.date, d);
  }

  /** As written, a day selects the datetimes of that day and of the
      following day, up to 23:59:59.000000 of the latter. */
  lemma DayRangeSpansTwoDays(iso: IsoParser, col: string, value: string, trim: bool, d: Date, row: Row, x: Temporal)
    requires PrecisionLength(value, trim) == 10 && ValidDate(d)
    requires TransformDate(iso, value, trim, true) == Ok(At(Midnight(d)))
    requires col in row && row[col] == Time(x) && ValidTemporal(x)
    ensures EqualityRange(iso, col, value, trim).Ok?
    ensures var t := AsDateTime(x);
            Holds(EqualityRange(iso, col, value, trim).value, row) <==>
            (t.date == d || t.date == NextDay(d)) &&
            !(t.date == NextDay(d) && SecondOfDay(t) == 86399 && t.microsecond > 0)
  {
    var t := AsDateTime(x);
    var hi := AddTime(Midnight(d), 1, 86399);
    assert hi.date == NextDay(d);
    assert EqualityRange(iso, col, value, trim).value == Between(col, At(Midnight(d)), At(hi));
    BetweenMeaning(col, At(Midnight(d)), At(hi), row, x);
    NotBeforeMidnight(t, d);
    NotAfterLastSecond(t, hi);
    WithinTwoDays(d, t.date);
  }

  /** As written, a day also selects the whole of the following day: noon
      on the next day is inside the range of `eq` with that day. */
  lemma DayRangeTakesNextDay(iso: IsoParser, col: string, value: string, trim: bool, d: Date, row: Row)
    requires PrecisionLength(value, trim) == 10 && ValidDate(d)
    requires TransformDate(iso, value, trim, true) == Ok(At(Midnight(d)))
    requires col in row && row[col] == Time(At(DateTime(NextDay(d), 12, 0, 0, 0)))
    ensures EqualityRange(iso, col, value, trim).Ok?
    ensures Holds(EqualityRange(iso, col, value, trim).value, row)
  {
    var x := DateTime(NextDay(d), 12, 0, 0, 0);
    var hi := AddTime(Midnight(d), 1, 86399);
    assert hi.date == NextDay(d);
    assert EqualityRange(iso, col, value, trim).value == Between(col, At(Midnight(d)), At(hi));
    BetweenMeaning(col, At(Midnight(d)), At(hi), row, At(x));
  }

  /** `DateSearch(column)`: lt, gt, le and ge compare with the value after
      the prefix (a date widened to midnight); eq and a value without prefix
      are equality ranges as the source builds them (the latter read
      untrimmed), ne is the negated range, ap is a range of 30 days on
      either side. */
  function DatePlan(iso: IsoParser, col: string, value: string, plan: Plan): (r: Result<Plan>)
    ensures r.Err? <==> TransformDate(iso, value, PrefixOf(value) != Unprefixed, true).Err?
    ensures r.Err? ==> r.error.QueryValidation?
    ensures r.Ok? ==> |r.value| == |plan| + 1 && r.value[..|plan|] == plan && r.value[|plan|].Raw?
    ensures r.Ok? && PrefixOf(value) in {PEq, Unprefixed} ==>
              r.value[|plan|].term == EqualityRange(iso, col, value, PrefixOf(value) == PEq).value
    ensures r.Ok? && PrefixOf(value) == PNe ==>
              r.value[|plan|].term == Not(EqualityRange(iso, col, value, true).value)
    ensures r.Ok? && PrefixOf(value) in {PLt, PGt, PLe, PGe} ==>
              r.value[|plan|].term == Compare(col, RelOf(PrefixOf(value)), Stamp(TransformDate(iso, value, true, true).value))
    ensures r.Ok? && PrefixOf(value) == PAp ==>
              var v := TransformDate(iso, value, true, true).value;
              r.value[|plan|].term == Between(col, ShiftDays(v, -30), ShiftDays(v, 30))
  {
    match PrefixOf(value)
    case PEq =>
      var t :- EqualityRange(iso, col, value, true);
      Ok(plan + [Raw(t)])
    case PNe =>
      var t :- EqualityRange(iso, col, value, true);
      Ok(plan + [Raw(Not(t))])
    case PAp =>
      var v :- TransformDate(iso, value, true, true);
      Ok(plan + [Raw(Between(col, ShiftDays(v, -30), ShiftDays(v, 30)))])
    case Unprefixed =>
      var t :- EqualityRange(iso, col, value, false);
      Ok(plan + [Raw(t)])
    case p =>
      var v :- TransformDate(iso, value, true, true);
      Ok(plan + [Raw(Compare(col, RelOf(p), Stamp(v)))])
  }

  /** `ap` on a date selects the rows within 30 days of it, both bounds
      included. */
  lemma ApproxDateMeaning(iso: IsoParser, col: string, value: string, plan: Plan, row: Row, x: Temporal)
    requires PrefixOf(value) == PAp && DatePlan(iso, col, value, plan).Ok?
    requires col in row && row[col] == Time(x)
    ensures var v := TransformDate(iso, value, true, true).value;
            var t := AsDateTime(x);
            Matches(DatePlan(iso, col, value, plan).value, row) <==>
              Matches(plan, row) &&
              !Before(t, AsDateTime(ShiftDays(v, -30))) && !Before(AsDateTime(ShiftDays(v, 30)), t)
  {
    var v := TransformDate(iso, value, true, true).value;
    var t := Between(col, ShiftDays(v, -30), ShiftDays(v, 30));
    assert DatePlan(iso, col, value, plan).value == plan + [Raw(t)];
    MatchesAppend(plan, [Raw(t)], row);
    BetweenMeaning(col, ShiftDays(v, -30), ShiftDays(v, 30), row, x);
  }

  /** `lt`, `gt`, `le` and `ge` on a date select the rows whose instant is
      before, after, not after and not before the value (a date read as its
      midnight). */
  lemma CompareDateMeaning(iso: IsoParser, col: string, value: string, plan: Plan, row: Row, x: Temporal)
    requires PrefixOf(value) in {PLt, PGt, PLe, PGe} && DatePlan(iso, col, value, plan).Ok?
    requires col in row && row[col] == Time(x)
    ensures var v := AsDateTime(TransformDate(iso, value, true, true).value);
            var t := AsDateTime(x);
            Matches(DatePlan(iso, col, value, plan).value, row) <==>
              Matches(plan, row) &&
              match PrefixOf(value)
              case PLt => Before(t, v)
              case PGt => Before(v, t)
              case PLe => !Before(v, t)
              case _ => !Before(t, v)
  {
    var v := TransformDate(iso, value, true, true).value;
    var rel := RelOf(PrefixOf(value));
    assert DatePlan(iso, col, value, plan).value == plan + [Raw(Compare(col, rel, Stamp(v)))];
    MatchesAppend(plan, [Raw(Compare(col, rel, Stamp(v)))], row);
    CompareMeaning(col, rel, v, row, x);
    BeforeAsymmetric(AsDateTime(x), AsDateTime(v));
  }

  /** `DateSearch(column)` as a registered searcher. */
  function DateSearch(iso: IsoParser, col: string): (s: Searcher)
    ensures forall f, v, p, q :: s(f, v, p, q) == DatePlan(iso, col, v, p)
  {
    (f: string, v: string, p: Plan, q: FhirRequestQuery) => DatePlan(iso, col, v, p)
  }

  /** `StringSearch(*column_names)` of this backend as written: the factory
      rejects an empty column list as the shared string search does, but
      the searcher builds its filter with `Q`, which this module never
      imports, so every search raises NameError. */
  function StringSearchAsWritten(cols: seq<string>): (r: Result<Searcher>)
    ensures r.Err? <==> cols == []
    ensures r.Err? ==> r == StringSearch(cols)
    ensures r.Ok? ==> forall f, v, p, q :: r.value(f, v, p, q) == Err(Raised(NameError, NoQ))
  {
    if cols == [] then StringSearch(cols)
    else Ok((f: string, v: string, p: Plan, q: FhirRequestQuery) => Err(Raised(NameError, NoQ)))
  }

  const NoQ := "name 'Q' is not defined"

  /** As written, a string search of this backend fails on every value the
      intended search (`Plans.StringSearch`) turns into one or-filter over
      the columns. */
  lemma StringSearchAsWrittenFails(cols: seq<string>, f: string, v: string, p: Plan, q: FhirRequestQuery)
    requires cols != []
    ensures StringSearchAsWritten(cols).Ok? && StringSearchAsWritten(cols).value(f, v, p, q).Err?
    ensures StringSearch(cols).Ok? && StringSearch(cols).value(f, v, p, q) == Ok(p + [Filter(StringTerm(cols, f, v))])
  {
  }

  /** `NameSearch(column)`: a `$text` filter with the whole value. */
  function NameSearch(col: string): (s: Searcher)
    ensures forall f, v, p, q :: s(f, v, p, q) == Ok(p + [Filter(TextIndex(col, v))])
  {
    (f: string, v: string, p: Plan, q: FhirRequestQuery) => Ok(p + [Filter(TextIndex(col, v))])
  }

  /** `SimpleSearch(column)`: an equality filter with the whole value. */
  function SimpleSearch(col: string): (s: Searcher)
    ensures forall f, v, p, q :: s(f, v, p, q) == Ok(p + [Filter(Compare(col, Eq, Text(v)))])
  {
    (f: string, v: string, p: Plan, q: FhirRequestQuery) => Ok(p + [Filter(Compare(col, Eq, Text(v)))])
  }
}
