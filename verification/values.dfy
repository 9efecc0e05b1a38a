/** Python-level values that records, resources, requests and settings hold,
    and the pieces of Python's built-in behaviour the mapping layer relies on:
    truthiness, `==`, `str()`, `int()` on a string, `str.split`,
    `str.replace(pat, "")`, `str.lower`, `str.isupper`, floor division and
    insertion-ordered dictionaries. */
module Values {

  datatype Option<+T> = None | Some(value: T)

  /** A calendar date and a date with a time of day, as Python's `date` and
      `datetime` (without time zones). */
  datatype Date = Date(year: int, month: int, day: int)
  datatype DateTime = DateTime(date: Date, hour: int, minute: int, second: int, microsecond: int)
  datatype Temporal = OnDate(d: Date) | At(dt: DateTime)

  /** A value stored in a record field, passed to a descriptor or kept in
      the settings. Dictionaries keep insertion order, as Python's do. */
  datatype Value =
    | Null
    | Bool(b: bool)
    | Int(i: int)
    | Str(s: string)
    | Oid(hex: string)          // a bson ObjectId
    | Time(t: Temporal)
    | List(items: seq<Value>)
    | Dict(entries: seq<(string, Value)>)

  // ---------------------------------------------------------------- truthiness and equality

  /** Python's `bool(v)`. */
  predicate PyTruthy(v: Value)
  {
    match v
    case Null => false
    case Bool(b) => b
    case Int(i) => i != 0
    case Str(s) => s != ""
    case Oid(_) => true
    case Time(_) => true
    case List(xs) => xs != []
    case Dict(es) => es != []
  }

  /** The integer a `bool` or `int` stands for (`True == 1` in Python). */
  function AsNumber(v: Value): Option<int>
  {
    match v
    case Bool(b) => Some(if b then 1 else 0)
    case Int(i) => Some(i)
    case _ => None
  }

  /** Python's `a == b`: booleans and integers compare as numbers, a date never
      equals a datetime, lists and dictionaries compare entry by entry. */
  predicate PyEq(a: Value, b: Value)
    decreases a
  {
    if AsNumber(a).Some? || AsNumber(b).Some? then AsNumber(a) == AsNumber(b)
    else match a
      case Null => b.Null?
      case Str(x) => b.Str? && b.s == x
      case Oid(x) => b.Oid? && b.hex == x
      case Time(t) => b.Time? && b.t == t
      case List(xs) =>
        b.List? && |xs| == |b.items| &&
        forall i :: 0 <= i < |xs| ==> PyEq(xs[i], b.items[i])
      case Dict(es) =>
        b.Dict? && |es| == |b.entries| &&
        forall i :: 0 <= i < |es| ==> es[i].0 == b.entries[i].0 && PyEq(es[i].1, b.entries[i].1)
      case _ => false
  }

  /** Python's `v in xs` on a list. */
  predicate PyIn(v: Value, xs: seq<Value>)
  {
    exists i :: 0 <= i < |xs| && PyEq(v, xs[i])
  }

  // ---------------------------------------------------------------- integers as text

  function DigitChar(d: nat): char
    requires d < 10
  {
    "0123456789"[d]
  }

  predicate IsDigit(c: char) { '0' <= c <= '9' }

  function NatToString(n: nat): (s: string)
    ensures |s| > 0 && forall i :: 0 <= i < |s| ==> IsDigit(s[i])
    decreases n
  {
    if n < 10 then [DigitChar(n)] else NatToString(n / 10) + [DigitChar(n % 10)]
  }

  /** Python's `str(i)` for an `int`. */
  function IntToString(i: int): string
  {
    if i < 0 then "-" + NatToString(-i) else NatToString(i)
  }

  /** The number a string of decimal digits denotes. */
  function DigitsValue(s: string): nat
    requires forall i :: 0 <= i < |s| ==> IsDigit(s[i])
  {
    if s == [] then 0
    else
      assert IsDigit(s[|s| - 1]);
      DigitsValue(s[..|s| - 1]) * 10 + (s[|s| - 1] as int - '0' as int)
  }

  lemma {:induction false} DigitsOfNat(n: nat)
    ensures DigitsValue(NatToString(n)) == n
    decreases n
  {
    var s := NatToString(n);
    if n >= 10 {
      DigitsOfNat(n / 10);
      assert s[..|s| - 1] == NatToString(n / 10);
    }
  }

  predicate IsSpace(c: char) { c == ' ' || c == '\t' || c == '\n' || c == '\r' || c == 11 as char || c == 12 as char }

  /** Python's `s.strip()` for ASCII whitespace. */
  function Strip(s: string): (r: string)
    ensures |r| <= |s|
    ensures r != [] ==> !IsSpace(r[0]) && !IsSpace(r[|r| - 1])
    decreases |s|
  {
    if s == [] then s
    else if IsSpace(s[0]) then Strip(s[1..])
    else if IsSpace(s[|s| - 1]) then Strip(s[..|s| - 1])
    else s
  }

  /** Digits with single underscores between them, as `int()` accepts. */
  predicate ValidDigitGroups(s: string)
  {
    |s| > 0 && IsDigit(s[0]) && IsDigit(s[|s| - 1]) &&
    (forall i :: 0 <= i < |s| ==> IsDigit(s[i]) || s[i] == '_') &&
    (forall i :: 0 <= i < |s| - 1 ==> !(s[i] == '_' && s[i + 1] == '_'))
  }

  function DropUnderscores(s: string): (r: string)
    requires forall i :: 0 <= i < |s| ==> IsDigit(s[i]) || s[i] == '_'
    ensures forall i :: 0 <= i < |r| ==> IsDigit(r[i])
  {
    if s == [] then []
    else if s[0] == '_' then DropUnderscores(s[1..])
    else [s[0]] + DropUnderscores(s[1..])
  }

  lemma {:induction false} DropUnderscoresOfDigits(s: string)
    requires forall i :: 0 <= i < |s| ==> IsDigit(s[i])
    ensures DropUnderscores(s) == s
  {
    if s != [] { DropUnderscoresOfDigits(s[1..]); }
  }

  /** Python's `int(s)` on a string in base 10 (ASCII digits only):
      surrounding whitespace, an optional sign, digit groups. `None` is the
      `ValueError`. */
  function ParseInt(s: string): (r: Option<int>)
    ensures r.Some? ==> Strip(s) != ""
  {
    var t := Strip(s);
    if t == [] then None
    else
      var neg := t[0] == '-';
      var body := if t[0] == '-' || t[0] == '+' then t[1..] else t;
      if !ValidDigitGroups(body) then None
      else
        var n: int := DigitsValue(DropUnderscores(body));
        Some(if neg then -n else n)
  }

  /** `int(str(i)) == i`. */
  lemma IntRoundTrip(i: int)
    ensures ParseInt(IntToString(i)) == Some(i)
  {
    var digits: nat := if i < 0 then -i else i;
    DigitsOfNat(digits);
    ParseDigits(IntToString(i), NatToString(digits), i < 0);
  }

  /** A digit string, with a minus sign in front when `neg`, parses to its
      value, negated when `neg`. */
  lemma ParseDigits(s: string, body: string, neg: bool)
    requires body != [] && forall i :: 0 <= i < |body| ==> IsDigit(body[i])
    requires s == (if neg then "-" else "") + body
    ensures var n: int := DigitsValue(body); ParseInt(s) == Some(if neg then -n else n)
  {
    SignedDigits(s, body, neg);
    DigitsAreGroups(body);
    DropUnderscoresOfDigits(body);
    ParseClean(s, body, neg);
  }

  /** A digit string with an optional minus sign: already stripped, and
      its body is what follows the sign. */
  lemma SignedDigits(s: string, body: string, neg: bool)
    requires body != [] && forall i :: 0 <= i < |body| ==> IsDigit(body[i])
    requires s == (if neg then "-" else "") + body
    ensures s != [] && Strip(s) == s && (s[0] == '-') == neg
    ensures body == if s[0] == '-' || s[0] == '+' then s[1..] else s
  {
    assert IsDigit(body[0]) && IsDigit(body[|body| - 1]) && s[|s| - 1] == body[|body| - 1];
    if neg {
      assert s[0] == '-' && s[1..] == body;
    } else {
      assert s == body;
    }
    StripKeeps(s);
  }

  /** `int()` on a stripped string: an optional sign and digit groups
      without underscores. */
  lemma ParseClean(t: string, body: string, neg: bool)
    requires t != [] && Strip(t) == t && (t[0] == '-') == neg
    requires body == if t[0] == '-' || t[0] == '+' then t[1..] else t
    requires ValidDigitGroups(body) && DropUnderscores(body) == body
    ensures var n: int := DigitsValue(body); ParseInt(t) == Some(if neg then -n else n)
  {
  }

  lemma DigitsAreGroups(s: string)
    requires s != [] && forall i :: 0 <= i < |s| ==> IsDigit(s[i])
    ensures ValidDigitGroups(s)
  {
    assert IsDigit(s[|s| - 1]);
  }

  /** A string without surrounding whitespace is its own strip. */
  lemma StripKeeps(s: string)
    requires s != [] && !IsSpace(s[0]) && !IsSpace(s[|s| - 1])
    ensures Strip(s) == s
  {
  }

  /** Python's `a // b`, which rounds toward minus infinity. */
  function FloorDiv(a: int, b: int): (q: int)
    requires b != 0
    ensures q * b <= a < q * b + b || q * b + b < a <= q * b
  {
    if b > 0 then a / b else (-a) / (-b)
  }

  lemma MulLess(x: int, y: int, c: int)
    requires c > 0 && x * c < y * c
    ensures x < y
  {
  }

  /** `a // c` is the one `k` with `k * c <= a < k * c + c`. */
  lemma FloorUnique(a: int, c: int, k: int)
    requires c > 0 && k * c <= a < k * c + c
    ensures FloorDiv(a, c) == k
  {
    var q := FloorDiv(a, c);
    assert (q + 1) * c == q * c + c && (k + 1) * c == k * c + c;
    MulLess(q, k + 1, c);
    MulLess(k, q + 1, c);
  }

  /** Python's `math.ceil(a / b)`, computed on the exact quotient as
      `-((-a) // b)`. */
  function CeilDiv(a: int, b: int): (q: int)
    requires b != 0
    ensures b > 0 ==> (q - 1) * b < a <= q * b
    ensures b < 0 ==> q * b <= a < (q - 1) * b
  {
    -FloorDiv(-a, b)
  }

  // ---------------------------------------------------------------- strings

  predicate StartsWith(s: string, prefix: string)
  {
    |prefix| <= |s| && s[..|prefix|] == prefix
  }

  /** Python's `sub in s` on strings. */
  predicate ContainsSub(s: string, sub: string)
    decreases |s|
  {
    StartsWith(s, sub) || (s != [] && ContainsSub(s[1..], sub))
  }

  /** Python's `s.replace(pat, "")`: every non-overlapping occurrence of
      `pat`, scanned from the left, is removed. */
  function RemoveAll(s: string, pat: string): (r: string)
    requires pat != ""
    ensures |r| <= |s|
    ensures !ContainsSub(s, pat) ==> r == s
    decreases |s|
  {
    if |s| < |pat| then s
    else if s[..|pat|] == pat then RemoveAll(s[|pat|..], pat)
    else [s[0]] + RemoveAll(s[1..], pat)
  }

  /** Python's `s.split(sep)` for a one-character separator. */
  function Split(s: string, sep: char): (parts: seq<string>)
    ensures |parts| >= 1
    ensures forall i :: 0 <= i < |parts| ==> sep !in parts[i]
  {
    if s == [] then [""]
    else
      var rest := Split(s[1..], sep);
      if s[0] == sep then [""] + rest else [[s[0]] + rest[0]] + rest[1..]
  }

  /** Python's `sep.join(parts)`. */
  function Join(parts: seq<string>, sep: string): string
  {
    if parts == [] then ""
    else if |parts| == 1 then parts[0]
    else parts[0] + sep + Join(parts[1..], sep)
  }

  /** `sep.join(s.split(sep)) == s`. */
  lemma {:induction false} SplitJoin(s: string, sep: char)
    ensures Join(Split(s, sep), [sep]) == s
  {
    if s != [] {
      SplitJoin(s[1..], sep);
      var rest := Split(s[1..], sep);
      if s[0] != sep {
        if |rest| > 1 {
          assert Join(rest, [sep]) == rest[0] + [sep] + Join(rest[1..], [sep]);
          assert [[s[0]] + rest[0]] + rest[1..] == [[s[0]] + rest[0]] + rest[1..];
        }
      }
    }
  }

  /** The position of the first `c` in `s`. */
  function IndexOf(s: string, c: char): (i: nat)
    requires c in s
    ensures i < |s| && s[i] == c && c !in s[..i]
  {
    if s[0] == c then 0 else 1 + IndexOf(s[1..], c)
  }

  /** Python's `s.split(sep, 1)`: at most two parts, cut at the first `sep`. */
  function SplitOnce(s: string, sep: char): (parts: seq<string>)
    ensures 1 <= |parts| <= 2
    ensures |parts| == 1 <==> sep !in s
    ensures |parts| == 1 ==> parts[0] == s
    ensures |parts| == 2 ==> sep !in parts[0] && parts[0] + [sep] + parts[1] == s
  {
    if sep !in s then [s]
    else
      var i := IndexOf(s, sep);
      assert s == s[..i] + [sep] + s[i + 1..];
      [s[..i], s[i + 1..]]
  }

  function LowerChar(c: char): char
  {
    if 'A' <= c <= 'Z' then (c as int + 32) as char else c
  }

  /** Python's `s.lower()` on ASCII letters. */
  function ToLower(s: string): (r: string)
    ensures |r| == |s| && forall i :: 0 <= i < |s| ==> r[i] == LowerChar(s[i])
  {
    seq(|s|, i requires 0 <= i < |s| => LowerChar(s[i]))
  }

  /** Python's `s.isupper()` on ASCII letters: at least one letter, and no
      lower-case one. */
  predicate IsUpper(s: string)
  {
    (exists i :: 0 <= i < |s| && 'A' <= s[i] <= 'Z') &&
    (forall i :: 0 <= i < |s| ==> !('a' <= s[i] <= 'z'))
  }

  // ---------------------------------------------------------------- str() and repr()

  function Pad(n: nat, width: nat): string
  {
    var s := NatToString(n);
    if |s| >= width then s else seq(width - |s|, _ => '0') + s
  }

  function DateText(d: Date): string
  {
    (if d.year < 0 then "-" else "") + Pad(if d.year < 0 then -d.year else d.year, 4) + "-" +
    Pad(if d.month < 0 then 0 else d.month, 2) + "-" + Pad(if d.day < 0 then 0 else d.day, 2)
  }

  function NonNeg(i: int): nat { if i < 0 then 0 else i }

  /** Python's `str()` of a date or datetime (`isoformat(" ")`). */
  function TemporalText(t: Temporal): string
  {
    match t
    case OnDate(d) => DateText(d)
    case At(dt) =>
      DateText(dt.date) + " " + Pad(NonNeg(dt.hour), 2) + ":" + Pad(NonNeg(dt.minute), 2) + ":" +
      Pad(NonNeg(dt.second), 2) + (if dt.microsecond != 0 then "." + Pad(NonNeg(dt.microsecond), 6) else "")
  }

  /** Python's `repr()` of a date or datetime. */
  function TemporalRepr(t: Temporal): string
  {
    match t
    case OnDate(d) =>
      "datetime.date(" + IntToString(d.year) + ", " + IntToString(d.month) + ", " + IntToString(d.day) + ")"
    case At(dt) =>
      "datetime.datetime(" + IntToString(dt.date.year) + ", " + IntToString(dt.date.month) + ", " +
      IntToString(dt.date.day) + ", " + IntToString(dt.hour) + ", " + IntToString(dt.minute) +
      (if dt.second != 0 || dt.microsecond != 0 then ", " + IntToString(dt.second) else "") +
      (if dt.microsecond != 0 then ", " + IntToString(dt.microsecond) else "") + ")"
  }

  /** Python's `repr(v)` (strings are quoted without escaping). */
  function Repr(v: Value): string
    decreases v
  {
    match v
    case Null => "None"
    case Bool(b) => if b then "True" else "False"
    case Int(i) => IntToString(i)
    case Str(s) => "'" + s + "'"
    case Oid(h) => "ObjectId('" + h + "')"
    case Time(t) => TemporalRepr(t)
    case List(xs) =>
      "[" + Join(seq(|xs|, i requires 0 <= i < |xs| => Repr(xs[i])), ", ") + "]"
    case Dict(es) =>
      "{" + Join(seq(|es|, i requires 0 <= i < |es| => "'" + es[i].0 + "': " + Repr(es[i].1)), ", ") + "}"
  }

  /** Python's `str(v)`. */
  function PyStr(v: Value): (s: string)
    ensures v.Str? ==> s == v.s
    ensures v.Int? ==> s == IntToString(v.i)
  {
    match v
    case Str(s) => s
    case Oid(h) => h
    case Time(t) => TemporalText(t)
    case _ => Repr(v)
  }

  // ---------------------------------------------------------------- insertion-ordered dictionaries

  /** `d.get(k)`: the value of the first entry with key `k`. */
  function Lookup<T>(d: seq<(string, T)>, k: string): (r: Option<T>)
    ensures r.None? <==> forall i :: 0 <= i < |d| ==> d[i].0 != k
    ensures r.Some? ==> exists i :: 0 <= i < |d| && d[i] == (k, r.value)
  {
    if d == [] then None
    else if d[0].0 == k then Some(d[0].1)
    else Lookup(d[1..], k)
  }

  predicate HasKey<T>(d: seq<(string, T)>, k: string)
  {
    exists i :: 0 <= i < |d| && d[i].0 == k
  }

  function Keys<T>(d: seq<(string, T)>): (ks: seq<string>)
    ensures |ks| == |d| && forall i :: 0 <= i < |d| ==> ks[i] == d[i].0
  {
    seq(|d|, i requires 0 <= i < |d| => d[i].0)
  }

  /** `d[k] = v`: an existing key keeps its position, a new key goes last. */
  function Put<T>(d: seq<(string, T)>, k: string, v: T): (r: seq<(string, T)>)
    ensures HasKey(d, k) ==> |r| == |d|
    ensures !HasKey(d, k) ==> r == d + [(k, v)]
  {
    if d == [] then [(k, v)]
    else if d[0].0 == k then [(k, v)] + d[1..]
    else [d[0]] + Put(d[1..], k, v)
  }

  lemma {:induction false} LookupPut<T>(d: seq<(string, T)>, k: string, v: T, k': string)
    ensures Lookup(Put(d, k, v), k') == if k' == k then Some(v) else Lookup(d, k')
  {
    if d != [] && d[0].0 != k {
      LookupPut(d[1..], k, v, k');
    }
  }

  /** `d.pop(k, None)`: every entry with key `k` goes, the rest keep their order. */
  function RemoveKey<T>(d: seq<(string, T)>, k: string): (r: seq<(string, T)>)
    ensures forall i :: 0 <= i < |r| ==> r[i].0 != k
    ensures forall i :: 0 <= i < |r| ==> r[i] in d
  {
    if d == [] then []
    else if d[0].0 == k then RemoveKey(d[1..], k)
    else [d[0]] + RemoveKey(d[1..], k)
  }

  lemma {:induction false} LookupRemoveKey<T>(d: seq<(string, T)>, k: string, k': string)
    ensures Lookup(RemoveKey(d, k), k') == if k' == k then None else Lookup(d, k')
  {
    if d != [] {
      LookupRemoveKey(d[1..], k, k');
    }
  }
}
