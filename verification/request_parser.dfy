/** Parsing a request string `Type[/id][/operation[/operationId]]?query`
    into a `FhirRequestQuery`, and checking that a resource id is an
    integer. */
module RequestParser {
  import opened Values
  import opened RequestQuery
  import opened Exceptions

  /** The standard library's `urlparse` (only its path and query parts) and
      `parse_qs`. */
  datatype UrlCodec = UrlCodec(urlparse: string -> (string, string), parseQs: string -> Params)

  /** Operations that may follow a resource type directly. */
  const BaseOperations: seq<string> := ["_search", "_history"]

  /** The path segments that name something: the path split at '/', without
      a trailing empty segment and then without one leading empty segment. */
  function Segments(path: string): seq<string>
  {
    var parts := Split(path, '/');
    var hi := if parts[|parts| - 1] == "" then |parts| - 1 else |parts|;
    var lo := if hi > 0 && parts[0] == "" then 1 else 0;
    parts[lo..hi]
  }

  function At(segs: seq<string>, i: nat): (r: Option<string>)
    ensures r.Some? <==> i < |segs|
    ensures r.Some? ==> r.value == segs[i]
  {
    if i < |segs| then Some(segs[i]) else None
  }

  /** What a request path names. */
  datatype Route = Route(resource: Option<string>, resourceId: Option<string>, operation: Option<string>, operationId: Option<string>)

  /** The route the segments name: the first is the resource type; a second
      that is a base operation is the operation, and there is no id;
      otherwise the next segments are the id and the operation. An operation
      id is read only when the operation is a non-empty string and a segment
      is left over. */
  function RouteOf(segs: seq<string>): (r: Route)
    ensures r.resource == At(segs, 0)
    ensures |segs| >= 2 && segs[1] in BaseOperations ==>
      r.resourceId.None? && r.operation == Some(segs[1]) && r.operationId == (if |segs| > 2 then Some(segs[2]) else None)
    ensures !(|segs| >= 2 && segs[1] in BaseOperations) ==>
      r.resourceId == At(segs, 1) && r.operation == At(segs, 2) &&
      r.operationId == (if |segs| > 3 && segs[2] != "" then Some(segs[3]) else None)
    ensures r.operationId.Some? ==> r.operation.Some? && r.operation.value != ""
  {
    var baseOp := |segs| >= 2 && segs[1] in BaseOperations;
    var operation := if baseOp then Some(segs[1]) else At(segs, 2);
    var rest := if baseOp then 2 else 3;
    Route(At(segs, 0), if baseOp then None else At(segs, 1), operation,
          if operation.Some? && operation.value != "" then At(segs, rest) else None)
  }

  predicate IsModifierName(k: string) { StartsWith(k, "_") }

  /** The modifiers (names starting with '_', except `_id`) and the search
      parameters (the other names, with the values of a non-empty `_id`
      stored under "id"). */
  function SplitParams(qs: Params): (Params, Params)
  {
    var modifiers := FilterKeys(qs, IsModifierName);
    var search := FilterKeys(qs, k => !IsModifierName(k));
    var idParam := Lookup(modifiers, "_id");
    (RemoveKey(modifiers, "_id"),
     if idParam.Some? && idParam.value != [] then Put(search, "id", idParam.value) else search)
  }

  /** `validate_params`: a resource id must be accepted by `int()`. */
  function Validated(q: FhirRequestQuery): (r: Result<FhirRequestQuery>)
    ensures r.Ok? <==> q.resourceId.None? || ParseInt(q.resourceId.value).Some?
    ensures r.Ok? ==> r.value == q
    ensures r.Err? ==> r.error.QueryValidation?
  {
    if q.resourceId.Some? && ParseInt(q.resourceId.value).None? then
      Err(QueryValidation("Invalid request string: '" + q.resourceId.value + "' is not a valid resource id"))
    else Ok(q)
  }

  /** What `parse_url(url)` returns or raises. */
  function Parse(url: string, codec: UrlCodec): Result<FhirRequestQuery>
  {
    var (path, query) := codec.urlparse(url);
    var route := RouteOf(Segments(path));
    var (modifiers, search) := SplitParams(codec.parseQs(query));
    Validated(FhirRequestQuery(route.resource, route.resourceId, route.operation, route.operationId, modifiers, search))
  }

  /** `parse_url`: the path's segments are popped off one by one, then the
      query dictionary is partitioned and `_id` is moved across. */
  method ParseUrl(url: string, codec: UrlCodec) returns (r: Result<FhirRequestQuery>)
    ensures r == Parse(url, codec)
  {
    var (pathText, queryText) := codec.urlparse(url);
    var path := Split(pathText, '/');
    ghost var parts := path;
    if path[|path| - 1] == "" {
      path := path[..|path| - 1];
    }
    if |path| > 0 && path[0] == "" {
      path := path[1..];
    }
    assert path == Segments(pathText);
    ghost var segs := path;
    var resource: Option<string> := None;
    if |path| > 0 {
      resource := Some(path[0]);
      path := path[1..];
    }
    var resourceId: Option<string> := None;
    var operation: Option<string> := None;
    if |path| > 0 && path[0] in BaseOperations {
      operation := Some(path[0]);
      path := path[1..];
    } else {
      if |path| > 0 {
        resourceId := Some(path[0]);
        path := path[1..];
      }
      if |path| > 0 {
        operation := Some(path[0]);
        path := path[1..];
      }
    }
    var operationId: Option<string> := None;
    if operation.Some? && operation.value != "" && |path| > 0 {
      operationId := Some(path[0]);
      path := path[1..];
    }
    assert Route(resource, resourceId, operation, operationId) == RouteOf(segs);

    var qs := codec.parseQs(queryText);
    var modifiers := FilterKeys(qs, IsModifierName);
    var searchParams := FilterKeys(qs, k => !IsModifierName(k));
    var idParam := Lookup(modifiers, "_id");
    modifiers := RemoveKey(modifiers, "_id");
    if idParam.Some? && idParam.value != [] {
      searchParams := Put(searchParams, "id", idParam.value);
    }
    r := Validated(FhirRequestQuery(resource, resourceId, operation, operationId, modifiers, searchParams));
  }

  /** Every query parameter lands in exactly one of the two dictionaries:
      names starting with '_' other than `_id` among the modifiers, the
      others among the search parameters, and a non-empty `_id` as "id". */
  lemma ParamsPartition(qs: Params, k: string)
    ensures var (modifiers, search) := SplitParams(qs);
      Lookup(modifiers, k) == (if IsModifierName(k) && k != "_id" then Lookup(qs, k) else None) &&
      Lookup(search, k) ==
        (if k == "id" && Lookup(qs, "_id").Some? && Lookup(qs, "_id").value != [] then Lookup(qs, "_id")
         else if !IsModifierName(k) then Lookup(qs, k) else None)
  {
    ModifiersAt(qs, k);
    SearchAt(qs, k);
  }

  lemma ModifiersAt(qs: Params, k: string)
    ensures Lookup(SplitParams(qs).0, k) == if IsModifierName(k) && k != "_id" then Lookup(qs, k) else None
  {
    var modifiers := FilterKeys(qs, IsModifierName);
    LookupRemoveKey(modifiers, "_id", k);
  }

  lemma SearchAt(qs: Params, k: string)
    ensures Lookup(SplitParams(qs).1, k) ==
      (if k == "id" && Lookup(qs, "_id").Some? && Lookup(qs, "_id").value != [] then Lookup(qs, "_id")
       else if !IsModifierName(k) then Lookup(qs, k) else None)
  {
    var modifiers := FilterKeys(qs, IsModifierName);
    var search := FilterKeys(qs, k => !IsModifierName(k));
    var idParam := Lookup(modifiers, "_id");
    assert IsModifierName("_id");
    assert idParam == Lookup(qs, "_id");
    if idParam.Some? && idParam.value != [] {
      assert SplitParams(qs).1 == Put(search, "id", idParam.value);
      LookupPut(search, "id", idParam.value, k);
    } else {
      assert SplitParams(qs).1 == search;
    }
  }

  /** An empty path and "/" name no resource; a trailing slash is ignored. */
  lemma EmptyAndSlashPaths()
    ensures RouteOf(Segments("")).resource.None?
    ensures RouteOf(Segments("/")).resource.None?
    ensures RouteOf(Segments("Patient/")) == Route(Some("Patient"), None, None, None)
    ensures RouteOf(Segments("Patient")) == Route(Some("Patient"), None, None, None)
  {
    assert Split("", '/') == [""];
    SplitConcat("", "", '/');
    assert "" + "/" + "" == "/";
    SplitPlain("Patient", '/');
    SplitConcat("Patient", "", '/');
    assert "Patient" + "/" + "" == "Patient/";
  }

  /** "Patient/_history" and "Patient/_search" name base operations without
      an id; "Patient/123/_history/1" names all four parts. */
  lemma OperationRoutes()
    ensures RouteOf(["Patient", "_history"]) == Route(Some("Patient"), None, Some("_history"), None)
    ensures RouteOf(["Patient", "_search"]) == Route(Some("Patient"), None, Some("_search"), None)
    ensures RouteOf(["Patient", "123", "_history", "1"]) == Route(Some("Patient"), Some("123"), Some("_history"), Some("1"))
    ensures RouteOf(["Patient", "123", "", "1"]) == Route(Some("Patient"), Some("123"), Some(""), None)
  {
  }

  /** Every id written by `str()` of an integer passes validation. */
  lemma IntegerIdsAccepted(q: FhirRequestQuery, n: int)
    requires q.resourceId == Some(IntToString(n))
    ensures Validated(q) == Ok(q)
  {
    IntRoundTrip(n);
  }

  /** An id with no digits at all is rejected. */
  lemma NonNumericIdRejected(q: FhirRequestQuery)
    requires q.resourceId == Some("abc")
    ensures Validated(q).Err? && Validated(q).error.QueryValidation?
  {
    assert !ValidDigitGroups("abc") by { assert !IsDigit("abc"[0]); }
    assert Strip("abc") == "abc";
  }

  /** The documented example 'Patient/123/$validate?_format=json'. */
  lemma ValidateExample(codec: UrlCodec, url: string)
    requires codec.urlparse(url) == (Join(["Patient", "123", "$validate"], "/"), "_format=json")
    requires codec.parseQs("_format=json") == [("_format", ["json"])]
    ensures Parse(url, codec) ==
      Ok(FhirRequestQuery(Some("Patient"), Some("123"), Some("$validate"), None, [("_format", ["json"])], []))
  {
    var (path, query) := codec.urlparse(url);
    ExampleRoute(path);
    ExampleParams(codec.parseQs(query));
    ExampleValidated(codec.parseQs(query));
  }

  lemma ExampleRoute(path: string)
    requires path == Join(["Patient", "123", "$validate"], "/")
    ensures RouteOf(Segments(path)) == Route(Some("Patient"), Some("123"), Some("$validate"), None)
  {
    SegmentsRoundTrip(["Patient", "123", "$validate"], false, false);
    assert "" + path + "" == path;
  }

  lemma ExampleValidated(modifiers: Params)
    ensures var q := FhirRequestQuery(Some("Patient"), Some("123"), Some("$validate"), None, modifiers, []);
            Validated(q) == Ok(q)
  {
    ExampleId("123");
  }

  /** Non-empty segments without '/' joined by '/' are read back as they
      were, with or without one leading and one trailing slash. */
  lemma SegmentsRoundTrip(segs: seq<string>, leading: bool, trailing: bool)
    requires segs != []
    requires forall i :: 0 <= i < |segs| ==> segs[i] != "" && '/' !in segs[i]
    ensures Segments((if leading then "/" else "") + Join(segs, "/") + (if trailing then "/" else "")) == segs
  {
    var front: seq<string> := if leading then [""] else [];
    var back: seq<string> := if trailing then [""] else [];
    var parts := front + segs + back;
    var path := (if leading then "/" else "") + Join(segs, "/") + (if trailing then "/" else "");
    JoinFramed(segs, leading, trailing);
    FramedWithoutSlash(segs, leading, trailing);
    JoinSplit(parts, '/');
    assert Split(path, '/') == parts;
    SegmentsOfFramed(path, segs, leading, trailing);
  }

  /** Empty segments around segments without '/' hold no '/' either. */
  lemma FramedWithoutSlash(segs: seq<string>, leading: bool, trailing: bool)
    requires forall i :: 0 <= i < |segs| ==> '/' !in segs[i]
    ensures var parts := (if leading then [""] else []) + segs + (if trailing then [""] else []);
            forall i :: 0 <= i < |parts| ==> '/' !in parts[i]
  {
  }

  /** A path that splits into the segments with optional empty segments
      around them has exactly those segments. */
  lemma SegmentsOfFramed(path: string, segs: seq<string>, leading: bool, trailing: bool)
    requires segs != [] && segs[0] != "" && segs[|segs| - 1] != ""
    requires Split(path, '/') == (if leading then [""] else []) + segs + (if trailing then [""] else [])
    ensures Segments(path) == segs
  {
    var parts := Split(path, '/');
    assert parts[|parts| - 1] == "" <==> trailing by {
      if !trailing { assert parts[|parts| - 1] == segs[|segs| - 1]; }
    }
    assert parts[0] == "" <==> leading by {
      if !leading { assert parts[0] == segs[0]; }
    }
    var hi := if trailing then |parts| - 1 else |parts|;
    var lo := if leading then 1 else 0;
    assert parts[lo..hi] == segs;
  }

  /** The path with optional slashes around the joined segments is the
      join of the segments with empty segments around them. */
  lemma JoinFramed(segs: seq<string>, leading: bool, trailing: bool)
    requires segs != []
    ensures var front: seq<string> := if leading then [""] else [];
            var back: seq<string> := if trailing then [""] else [];
            Join(front + segs + back, "/") == (if leading then "/" else "") + Join(segs, "/") + (if trailing then "/" else "")
  {
    var front: seq<string> := if leading then [""] else [];
    var back: seq<string> := if trailing then [""] else [];
    assert Join(front + segs, "/") == (if leading then "/" else "") + Join(segs, "/") by {
      if leading {
        assert (front + segs)[1..] == segs;
      } else {
        assert front + segs == segs;
      }
    }
    if trailing {
      JoinSnoc(front + segs, "", "/");
    } else {
      assert front + segs + back == front + segs;
    }
  }

  /** `sep.join(parts + [last])`. */
  lemma {:induction false} JoinSnoc(parts: seq<string>, last: string, sep: string)
    requires parts != []
    ensures Join(parts + [last], sep) == Join(parts, sep) + sep + last
  {
    if |parts| > 1 {
      assert (parts + [last])[1..] == parts[1..] + [last];
      JoinSnoc(parts[1..], last, sep);
    }
  }

  /** Splitting undoes joining when no part holds the separator. */
  lemma {:induction false} JoinSplit(parts: seq<string>, sep: char)
    requires parts != []
    requires forall i :: 0 <= i < |parts| ==> sep !in parts[i]
    ensures Split(Join(parts, [sep]), sep) == parts
  {
    if |parts| == 1 {
      SplitPlain(parts[0], sep);
    } else {
      var rest := Join(parts[1..], [sep]);
      assert Join(parts, [sep]) == parts[0] + [sep] + rest;
      assert forall i :: 0 <= i < |parts[1..]| ==> parts[1..][i] == parts[i + 1];
      JoinSplit(parts[1..], sep);
      assert sep !in parts[0];
      SplitConcat(parts[0], rest, sep);
      assert [parts[0]] + parts[1..] == parts;
    }
  }

  lemma ExampleParams(qs: Params)
    requires qs == [("_format", ["json"])]
    ensures SplitParams(qs) == (qs, [])
  {
    assert qs[1..] == [];
    assert IsModifierName(qs[0].0);
    assert qs[0].0 != "_id";
    assert FilterKeys(qs, IsModifierName) == qs;
    assert FilterKeys(qs, k => !IsModifierName(k)) == [];
    assert Lookup(qs, "_id") == None;
    assert RemoveKey(qs, "_id") == qs;
  }

  lemma ExampleId(id: string)
    requires id == "123"
    ensures ParseInt(id) == Some(123)
  {
    assert NatToString(1) == "1";
    assert NatToString(12) == "12";
    assert NatToString(123) == "123";
    IntRoundTrip(123);
  }

  /** A string without the separator splits into itself. */
  lemma {:induction false} SplitPlain(s: string, sep: char)
    requires sep !in s
    ensures Split(s, sep) == [s]
  {
    if s != [] {
      SplitPlain(s[1..], sep);
      assert [s[0]] + s[1..] == s;
    }
  }

  /** Splitting at the first separator. */
  lemma SplitAt(s: string, i: nat, sep: char)
    requires i < |s| && s[i] == sep && forall j :: 0 <= j < i ==> s[j] != sep
    ensures Split(s, sep) == [s[..i]] + Split(s[i + 1..], sep)
  {
    assert s == s[..i] + [sep] + s[i + 1..];
    SplitConcat(s[..i], s[i + 1..], sep);
  }

  /** Splitting `a + [sep] + b` where `a` holds no separator. */
  lemma {:induction false} SplitConcat(a: string, b: string, sep: char)
    requires sep !in a
    ensures Split(a + [sep] + b, sep) == [a] + Split(b, sep)
  {
    if a != [] {
      assert (a + [sep] + b)[1..] == a[1..] + [sep] + b;
      assert (a + [sep] + b)[0] == a[0];
      SplitConcat(a[1..], b, sep);
      assert [a[0]] + a[1..] == a;
    } else {
      assert (a + [sep] + b)[1..] == b;
    }
  }
}
