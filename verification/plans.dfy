/** ORM queries as values. A search compiler never runs a query: it appends
    steps to a plan (`query.filter(...)` or pymodm's `query.raw(...)`), so
    successive values are ANDed. `Holds`/`Matches` give the meaning of a
    plan on one row, so that what a compiled search selects can be stated. */
module Plans {
  import opened Values
  import opened Dates
  import opened Exceptions
  import opened RequestQuery

  /** The right-hand side of a comparison. */
  datatype Operand = Num(x: real) | Text(s: string) | Stamp(t: Temporal)

  datatype Rel = Lt | Gt | Le | Ge | Eq | Ne

  datatype Term =
    | Compare(col: string, rel: Rel, rhs: Operand)
    | Contains(col: string, text: string)         // `__contains`, `col.contains(...)`
    | Prefixed(col: string, text: string)         // `__startswith`
    | TextIndex(col: string, text: string)        // pymodm `{"$text": ...}`
    | AllOf(terms: seq<Term>)                     // one pymodm range document
    | AnyOf(terms: seq<Term>)                     // `q1 | q2`
    | Not(term: Term)                             // `~q`, `{"$not": ...}`

  /** One call on the query object. */
  datatype Step = Filter(term: Term) | Raw(term: Term)

  type Plan = seq<Step>

  /** A search function as the mapping registers it:
      `searcher(field_name, value, sql_query, query)` gives the refined
      query or raises. */
  type Searcher = (string, string, Plan, FhirRequestQuery) -> Result<Plan>

  /** A row of a table: column name to value. */
  type Row = map<string, Value>

  // ---------------------------------------------------------------- meaning of a plan

  function Sign(a: real, b: real): int
  {
    if a < b then -1 else if a == b then 0 else 1
  }

  function StrSign(a: string, b: string): int
    decreases |a|
  {
    if a == b then 0
    else if a == [] then -1
    else if b == [] then 1
    else if a[0] < b[0] then -1
    else if a[0] > b[0] then 1
    else StrSign(a[1..], b[1..])
  }

  function TimeSign(a: DateTime, b: DateTime): int
  {
    if Before(a, b) then -1 else if Before(b, a) then 1 else 0
  }

  /** How a stored value orders against an operand, when they are comparable. */
  function Order(v: Value, o: Operand): Option<int>
  {
    match (v, o)
    case (Int(i), Num(x)) => Some(Sign(i as real, x))
    case (Bool(b), Num(x)) => Some(Sign(if b then 1.0 else 0.0, x))
    case (Str(s), Text(t)) => Some(StrSign(s, t))
    case (Time(t), Stamp(u)) => Some(TimeSign(AsDateTime(t), AsDateTime(u)))
    case _ => None
  }

  predicate RelHolds(rel: Rel, sign: int)
  {
    match rel
    case Lt => sign < 0
    case Gt => sign > 0
    case Le => sign <= 0
    case Ge => sign >= 0
    case Eq => sign == 0
    case Ne => sign != 0
  }

  /** Whether a row satisfies a term. A comparison with a missing column or
      an incomparable value is false; the `$text` index is read as a
      substring test. */
  predicate Holds(t: Term, row: Row)
    decreases t
  {
    match t
    case Compare(c, rel, o) => c in row && Order(row[c], o).Some? && RelHolds(rel, Order(row[c], o).value)
    case Contains(c, s) => c in row && row[c].Str? && ContainsSub(row[c].s, s)
    case Prefixed(c, s) => c in row && row[c].Str? && Values.StartsWith(row[c].s, s)
    case TextIndex(c, s) => c in row && row[c].Str? && ContainsSub(row[c].s, s)
    case AllOf(ts) => forall i :: 0 <= i < |ts| ==> Holds(ts[i], row)
    case AnyOf(ts) => exists i :: 0 <= i < |ts| && Holds(ts[i], row)
    case Not(u) => !Holds(u, row)
  }

  /** A row is selected by a plan when it satisfies every step. */
  predicate Matches(p: Plan, row: Row)
  {
    forall i :: 0 <= i < |p| ==> Holds(p[i].term, row)
  }

  /** A plan of two steps selects the rows both terms hold on. */
  lemma MatchesPair(a: Step, b: Step, row: Row)
    ensures Matches([a, b], row) <==> Holds(a.term, row) && Holds(b.term, row)
  {
    assert [a, b][0] == a && [a, b][1] == b;
  }

  /** Appending steps ANDs them with what the plan already selected. */
  lemma MatchesAppend(p: Plan, q: Plan, row: Row)
    ensures Matches(p + q, row) <==> Matches(p, row) && Matches(q, row)
  {
    if Matches(p, row) && Matches(q, row) {
      forall i | 0 <= i < |p + q| ensures Holds((p + q)[i].term, row) {
        if i >= |p| { assert (p + q)[i] == q[i - |p|]; }
      }
    }
    if Matches(p + q, row) {
      forall i | 0 <= i < |p| ensures Holds(p[i].term, row) {
        assert (p + q)[i] == p[i];
      }
      forall i | 0 <= i < |q| ensures Holds(q[i].term, row) {
        assert (p + q)[|p| + i] == q[i];
      }
    }
  }

  // ---------------------------------------------------------------- value prefixes

  /** The search prefixes of FHIR R4 (section "prefix" of the Search page),
      as the compilers test them. */
  datatype Prefix = PLt | PGt | PLe | PGe | PEq | PNe | PAp | Unprefixed

  function PrefixText(p: Prefix): string
  {
    match p
    case PLt => "lt" case PGt => "gt" case PLe => "le" case PGe => "ge"
    case PEq => "eq" case PNe => "ne" case PAp => "ap" case Unprefixed => ""
  }

  /** The first of lt, gt, le, ge, eq, ne, ap that the value starts with. */
  function PrefixOf(value: string): (p: Prefix)
    ensures p != Unprefixed <==> |value| >= 2 && value[..2] in ["lt", "gt", "le", "ge", "eq", "ne", "ap"]
    ensures p != Unprefixed ==> value[..2] == PrefixText(p)
  {
    if Values.StartsWith(value, "lt") then PLt
    else if Values.StartsWith(value, "gt") then PGt
    else if Values.StartsWith(value, "le") then PLe
    else if Values.StartsWith(value, "ge") then PGe
    else if Values.StartsWith(value, "eq") then PEq
    else if Values.StartsWith(value, "ne") then PNe
    else if Values.StartsWith(value, "ap") then PAp
    else Unprefixed
  }

  /** The comparison each of lt, gt, le, ge, eq, ne stands for. */
  function RelOf(p: Prefix): Rel
    requires p != PAp && p != Unprefixed
  {
    match p
    case PLt => Lt case PGt => Gt case PLe => Le case PGe => Ge case PEq => Eq case PNe => Ne
  }

  // ---------------------------------------------------------------- numbers

  /** `to_float(s)`: Python's `float()`, whose failure becomes a
      QueryValidationError naming the parameter. */
  function ToFloat(float: string -> Option<real>, s: string): (r: Result<real>)
    ensures r.Ok? <==> float(s).Some?
    ensures r.Ok? ==> r.value == float(s).value
    ensures r.Err? ==> r.error == QueryValidation(s + " is an invalid numerical parameter")
  {
    match float(s)
    case Some(x) => Ok(x)
    case None => Err(QueryValidation(s + " is an invalid numerical parameter"))
  }

  /** The two steps of an `ap` (approximately, plus or minus 10%) number. */
  function ApproxSteps(col: string, v: real, raw: bool): Plan
  {
    var lo := Compare(col, Ge, Num(v - v * 0.1));
    var hi := Compare(col, Le, Num(v + v * 0.1));
    if raw then [Raw(lo), Raw(hi)] else [Filter(lo), Filter(hi)]
  }

  /** For a non-negative number, `ap` selects exactly the rows whose number
      lies within 10% of it; for a negative one the bounds cross and it
      selects nothing. */
  lemma ApproxMeaning(col: string, v: real, raw: bool, row: Row, x: int)
    requires col in row && row[col] == Int(x)
    ensures v >= 0.0 ==> (Matches(ApproxSteps(col, v, raw), row) <==> 0.9 * v <= x as real <= 1.1 * v)
    ensures v < 0.0 ==> !Matches(ApproxSteps(col, v, raw), row)
  {
    var p := ApproxSteps(col, v, raw);
    assert p[0].term == Compare(col, Ge, Num(v - v * 0.1));
    assert p[1].term == Compare(col, Le, Num(v + v * 0.1));
    if Matches(p, row) {
      assert Holds(p[0].term, row) && Holds(p[1].term, row);
    }
  }

  /** A step of the backend's kind: pymodm refines with `raw`, the SQL
      backends with `filter`. */
  function Wrap(raw: bool, t: Term): (s: Step)
    ensures s.term == t && s.Raw? == raw
  {
    if raw then Raw(t) else Filter(t)
  }

  /** The text a number search converts: the value after its prefix, or the
      whole value when it has none. */
  function NumberOperand(value: string): string
  {
    if PrefixOf(value) == Unprefixed then value else DropPrefix(value)
  }

  /** The numeric search of the pymodm (`raw`) and Django (`filter`)
      compilers: lt, gt, le, ge, eq and ne compare with the number after the
      prefix, ap adds the two 10% bounds, a value without prefix is compared
      for equality as a whole; an unreadable number is a
      QueryValidationError. */
  function NumericPlan(col: string, float: string -> Option<real>, value: string, plan: Plan, raw: bool): (r: Result<Plan>)
    ensures r.Ok? <==> float(NumberOperand(value)).Some?
    ensures r.Err? ==> r.error == QueryValidation(NumberOperand(value) + " is an invalid numerical parameter")
    ensures r.Ok? ==> |r.value| == |plan| + (if PrefixOf(value) == PAp then 2 else 1) && r.value[..|plan|] == plan
    ensures r.Ok? ==> forall i :: |plan| <= i < |r.value| ==> r.value[i].Raw? == raw
  {
    var x :- ToFloat(float, NumberOperand(value));
    match PrefixOf(value)
    case PAp => Ok(plan + ApproxSteps(col, x, raw))
    case Unprefixed => Ok(plan + [Wrap(raw, Compare(col, Eq, Num(x)))])
    case p => Ok(plan + [Wrap(raw, Compare(col, RelOf(p), Num(x)))])
  }

  /** What a numeric search selects among the rows the plan already
      selected, for a row holding integer `n`: the relation named by the
      prefix, equality when there is none, and for ap (with a non-negative
      number) the 10% band. */
  lemma NumericMeaning(col: string, float: string -> Option<real>, value: string, plan: Plan, raw: bool, row: Row, n: int)
    requires NumericPlan(col, float, value, plan, raw).Ok?
    requires col in row && row[col] == Int(n)
    ensures var x := float(NumberOperand(value)).value;
            var p := PrefixOf(value);
            var selected := NumericPlan(col, float, value, plan, raw).value;
            Matches(selected, row) <==>
              (Matches(plan, row) &&
               if p == PAp then (x >= 0.0 && 0.9 * x <= n as real <= 1.1 * x)
               else if p == Unprefixed then n as real == x
               else RelHolds(RelOf(p), Sign(n as real, x)))
  {
    var x := float(NumberOperand(value)).value;
    var selected := NumericPlan(col, float, value, plan, raw).value;
    var added := selected[|plan|..];
    assert selected == plan + added;
    MatchesAppend(plan, added, row);
    if PrefixOf(value) == PAp {
      assert added == ApproxSteps(col, x, raw);
      ApproxMeaning(col, x, raw, row, n);
    } else {
      assert Matches(added, row) <==> Holds(added[0].term, row);
    }
  }

  // ---------------------------------------------------------------- date ranges

  /** `t + timedelta(days=n)` on a date or a datetime. */
  function ShiftDays(t: Temporal, n: int): (r: Temporal)
    requires ValidTemporal(t)
    ensures ValidTemporal(r) && r.At? == t.At?
    ensures AsDateTime(r).date == AddDays(DateOf(t), n)
    ensures SecondOfDay(AsDateTime(r)) == SecondOfDay(AsDateTime(t)) && AsDateTime(r).microsecond == AsDateTime(t).microsecond
    ensures n > 0 ==> Before(AsDateTime(t), AsDateTime(r))
    ensures n < 0 ==> Before(AsDateTime(r), AsDateTime(t))
  {
    AddDaysMoves(DateOf(t), n);
    match t
    case OnDate(d) => OnDate(AddDays(d, n))
    case At(dt) => At(dt.(date := AddDays(dt.date, n)))
  }

  /** A range document `{"$gte": lo, "$lte": hi}`. */
  function Between(col: string, lo: Temporal, hi: Temporal): Term
  {
    AllOf([Compare(col, Ge, Stamp(lo)), Compare(col, Le, Stamp(hi))])
  }

  /** Chronological order is asymmetric. */
  lemma BeforeAsymmetric(a: DateTime, b: DateTime)
    ensures !(Before(a, b) && Before(b, a))
  {
  }

  /** Chronological order is transitive. */
  lemma BeforeTransitive(a: DateTime, b: DateTime, c: DateTime)
    requires Before(a, b) && Before(b, c)
    ensures Before(a, c)
  {
    if DateBefore(a.date, b.date) && DateBefore(b.date, c.date) {
      DateBeforeTransitive(a.date, b.date, c.date);
    }
  }

  /** A row holding a date or datetime `x` is in a range exactly when `x` is
      neither before its start nor after its end. */
  lemma BetweenMeaning(col: string, lo: Temporal, hi: Temporal, row: Row, x: Temporal)
    requires col in row && row[col] == Time(x)
    ensures Holds(Between(col, lo, hi), row) <==>
            !Before(AsDateTime(x), AsDateTime(lo)) && !Before(AsDateTime(hi), AsDateTime(x))
  {
    var t := Between(col, lo, hi);
    BeforeAsymmetric(AsDateTime(x), AsDateTime(hi));
    assert Holds(t, row) <==> Holds(t.terms[0], row) && Holds(t.terms[1], row);
  }

  /** The two filters of a date `ap`: from 30 days before the value to 30
      days after it. */
  function ApproxDateSteps(col: string, v: Temporal): Plan
    requires ValidTemporal(v)
  {
    [Filter(Compare(col, Ge, Stamp(ShiftDays(v, -30)))), Filter(Compare(col, Le, Stamp(ShiftDays(v, 30))))]
  }

  /** A date `ap` selects the rows within 30 days of the value, bounds
      included; in particular the value itself. */
  lemma ApproxDateMeaning(col: string, v: Temporal, row: Row, x: Temporal)
    requires ValidTemporal(v) && col in row && row[col] == Time(x)
    ensures Matches(ApproxDateSteps(col, v), row) <==>
            !Before(AsDateTime(x), AsDateTime(ShiftDays(v, -30))) && !Before(AsDateTime(ShiftDays(v, 30)), AsDateTime(x))
    ensures AsDateTime(x) == AsDateTime(v) ==> Matches(ApproxDateSteps(col, v), row)
  {
    var lo := ShiftDays(v, -30);
    var hi := ShiftDays(v, 30);
    var p := ApproxDateSteps(col, v);
    MatchesPair(p[0], p[1], row);
    CompareMeaning(col, Ge, lo, row, x);
    CompareMeaning(col, Le, hi, row, x);
    BeforeAsymmetric(AsDateTime(x), AsDateTime(hi));
    if AsDateTime(x) == AsDateTime(v) {
      BeforeAsymmetric(AsDateTime(v), AsDateTime(lo));
      BeforeAsymmetric(AsDateTime(v), AsDateTime(hi));
    }
  }

  /** A single comparison of a stored date or datetime with a date operand. */
  lemma CompareMeaning(col: string, rel: Rel, v: Temporal, row: Row, x: Temporal)
    requires col in row && row[col] == Time(x)
    ensures Holds(Compare(col, rel, Stamp(v)), row) <==> RelHolds(rel, TimeSign(AsDateTime(x), AsDateTime(v)))
  {
  }

  // ---------------------------------------------------------------- OR over columns

  /** `q0 | q1 | ... | qn`, nested to the left as the loop builds it. */
  function OrChain(ts: seq<Term>): Term
    requires |ts| > 0
  {
    if |ts| == 1 then ts[0] else AnyOf([OrChain(ts[..|ts| - 1]), ts[|ts| - 1]])
  }

  /** An OR chain holds exactly when one of its terms does. */
  lemma {:induction false} OrChainMeaning(ts: seq<Term>, row: Row)
    requires |ts| > 0
    ensures Holds(OrChain(ts), row) <==> exists i :: 0 <= i < |ts| && Holds(ts[i], row)
  {
    if |ts| > 1 {
      var init := ts[..|ts| - 1];
      OrChainMeaning(init, row);
      var chain := AnyOf([OrChain(init), ts[|ts| - 1]]);
      assert chain.terms[0] == OrChain(init) && chain.terms[1] == ts[|ts| - 1];
      if Holds(OrChain(ts), row) {
        if !Holds(OrChain(init), row) {
          assert Holds(ts[|ts| - 1], row);
        } else {
          var i :| 0 <= i < |init| && Holds(init[i], row);
          assert ts[i] == init[i];
        }
      } else {
        forall i | 0 <= i < |ts| ensures !Holds(ts[i], row) {
          if i < |ts| - 1 { assert ts[i] == init[i]; }
        }
      }
    }
  }

  /** How a string search compares each column. */
  datatype Match = ContainsText | ExactText | StartsText

  function ColumnTerm(m: Match, col: string, value: string): Term
  {
    match m
    case ContainsText => Contains(col, value)
    case ExactText => Compare(col, Eq, Text(value))
    case StartsText => Prefixed(col, value)
  }

  function ColumnTerms(m: Match, cols: seq<string>, value: string): (ts: seq<Term>)
    ensures |ts| == |cols| && forall i :: 0 <= i < |cols| ==> ts[i] == ColumnTerm(m, cols[i], value)
  {
    seq(|cols|, i requires 0 <= i < |cols| => ColumnTerm(m, cols[i], value))
  }

  /** The `filter = Q(col0); for col in cols[1:]: filter |= Q(col)` loop. */
  method OrOverColumns(m: Match, cols: seq<string>, value: string) returns (filter: Term)
    requires |cols| > 0
    ensures filter == OrChain(ColumnTerms(m, cols, value))
  {
    ghost var ts := ColumnTerms(m, cols, value);
    filter := ColumnTerm(m, cols[0], value);
    var i := 1;
    assert ts[..1] == [ts[0]];
    while i < |cols|
      invariant 1 <= i <= |cols|
      invariant filter == OrChain(ts[..i])
    {
      filter := AnyOf([filter, ColumnTerm(m, cols[i], value)]);
      assert ts[..i + 1][..i] == ts[..i];
      i := i + 1;
    }
    assert ts[..|cols|] == ts;
  }

  /** The string search shared by the pymodm and Django compilers: a field
      name containing ":contains" (checked first) compares by substring, one
      containing ":exact" by equality, any other by prefix, each after
      removing that marker from the value; the columns are ORed. */
  function StringTerm(cols: seq<string>, field: string, value: string): (t: Term)
    requires |cols| > 0
  {
    if ContainsSub(field, ":contains") then OrChain(ColumnTerms(ContainsText, cols, RemoveAll(value, ":contains")))
    else if ContainsSub(field, ":exact") then OrChain(ColumnTerms(ExactText, cols, RemoveAll(value, ":exact")))
    else OrChain(ColumnTerms(StartsText, cols, value))
  }

  /** A string search selects a row exactly when some column matches. */
  lemma StringTermMeaning(cols: seq<string>, field: string, value: string, row: Row)
    requires |cols| > 0
    ensures var m := if ContainsSub(field, ":contains") then ContainsText
                     else if ContainsSub(field, ":exact") then ExactText else StartsText;
            var v := if m == ContainsText then RemoveAll(value, ":contains")
                     else if m == ExactText then RemoveAll(value, ":exact") else value;
            Holds(StringTerm(cols, field, value), row) <==>
            exists i :: 0 <= i < |cols| && Holds(ColumnTerm(m, cols[i], v), row)
  {
    var m := if ContainsSub(field, ":contains") then ContainsText
             else if ContainsSub(field, ":exact") then ExactText else StartsText;
    var v := if m == ContainsText then RemoveAll(value, ":contains")
             else if m == ExactText then RemoveAll(value, ":exact") else value;
    var ts := ColumnTerms(m, cols, v);
    OrChainMeaning(ts, row);
    assert StringTerm(cols, field, value) == OrChain(ts);
    if exists i :: 0 <= i < |ts| && Holds(ts[i], row) {
      var i :| 0 <= i < |ts| && Holds(ts[i], row);
      assert Holds(ColumnTerm(m, cols[i], v), row);
    }
    if exists i :: 0 <= i < |cols| && Holds(ColumnTerm(m, cols[i], v), row) {
      var i :| 0 <= i < |cols| && Holds(ColumnTerm(m, cols[i], v), row);
      assert Holds(ts[i], row);
    }
  }

  /** `StringSearch(*column_names)`: with no column names the factory itself
      raises TypeError; otherwise the searcher appends one filter. */
  function StringSearch(cols: seq<string>): (r: Result<Searcher>)
    ensures r.Err? <==> cols == []
    ensures r.Err? ==> r.error.Raised? && r.error.kind == TypeError
    ensures r.Ok? ==> forall f, v, p, q :: r.value(f, v, p, q) == Ok(p + [Filter(StringTerm(cols, f, v))])
  {
    if cols == [] then Err(Raised(TypeError, "StringSearch takes at least one positional argument (0 given)"))
    else Ok((f: string, v: string, p: Plan, q: FhirRequestQuery) => Ok(p + [Filter(StringTerm(cols, f, v))]))
  }
}
