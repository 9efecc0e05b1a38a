/** `Page`: one page of results with its navigation metadata. */
module Pagination {
  import opened Values
  import opened Exceptions

  datatype Page<T> = Page(
    items: seq<T>,
    previousPage: Option<int>,
    nextPage: Option<int>,
    hasPrevious: bool,
    hasNext: bool,
    total: int,
    pages: int)

  /** `Page(items, page, page_size, total)`: there is a previous page after
      the first, a next one while the items seen so far fall short of the
      total, and `ceil(total / page_size)` pages; a page size of 0 fails in
      the float division. */
  function MakePage<T>(items: seq<T>, page: int, pageSize: int, total: int): (r: Result<Page<T>>)
    ensures r.Err? <==> pageSize == 0
    ensures r.Err? ==> r.error == Raised(ZeroDivisionError, "float division by zero")
    ensures r.Ok? ==> r.value.items == items && r.value.total == total
    ensures r.Ok? ==> (r.value.hasPrevious <==> page > 1) &&
                      r.value.previousPage == (if page > 1 then Some(page - 1) else None)
    ensures r.Ok? ==> (r.value.hasNext <==> (page - 1) * pageSize + |items| < total) &&
                      r.value.nextPage == (if r.value.hasNext then Some(page + 1) else None)
    ensures r.Ok? && pageSize > 0 ==> (r.value.pages - 1) * pageSize < total <= r.value.pages * pageSize
  {
    if pageSize == 0 then Err(Raised(ZeroDivisionError, "float division by zero"))
    else
      var hasPrevious := page > 1;
      var hasNext := (page - 1) * pageSize + |items| < total;
      Ok(Page(items,
              if hasPrevious then Some(page - 1) else None,
              if hasNext then Some(page + 1) else None,
              hasPrevious, hasNext, total, CeilDiv(total, pageSize)))
  }

  /** The three pages of the class's own examples: 20 items per page out
      of 100, pages 2, 1 and 5. */
  lemma PageExamples(items: seq<int>)
    requires |items| == 20
    ensures var p := MakePage(items, 2, 20, 100);
            p.Ok? && p.value.hasNext && p.value.hasPrevious &&
            p.value.nextPage == Some(3) && p.value.previousPage == Some(1) && p.value.pages == 5
    ensures var p := MakePage(items, 1, 20, 100);
            p.Ok? && !p.value.hasPrevious && p.value.previousPage == None && p.value.pages == 5
    ensures var p := MakePage(items, 5, 20, 100);
            p.Ok? && !p.value.hasNext && p.value.hasPrevious &&
            p.value.nextPage == None && p.value.previousPage == Some(4) && p.value.pages == 5
  {
    assert MakePage(items, 2, 20, 100).Ok?;
    assert MakePage(items, 1, 20, 100).Ok?;
    assert MakePage(items, 5, 20, 100).Ok?;
  }
}

/** `paginate` of the pymodm backend: the query's results are a sequence,
    `limit`/`skip` a slice of it and `count` its length. */
module PymodmPagination {
  import opened Values
  import opened Exceptions
  import opened Pagination

  function Min(a: int, b: int): int { if a < b then a else b }

  /** `query.limit(size).skip(skip)`: at most `size` results after the first
      `skip`. */
  function Slice<T>(all: seq<T>, skip: nat, size: nat): (s: seq<T>)
    ensures |s| == if skip >= |all| then 0 else Min(size, |all| - skip)
    ensures forall i :: 0 <= i < |s| ==> s[i] == all[skip + i]
  {
    if skip >= |all| then [] else all[skip..Min(skip + size, |all|)]
  }

  /** `paginate(query, page, page_size)`: a page below 1 is rejected first,
      then a page size below 1; the items are the page's slice and the total
      is the count of the whole query. */
  function Paginate<T>(all: seq<T>, page: int, pageSize: int): (r: Result<Page<T>>)
    ensures page <= 0 ==> r == Err(Raised(AttributeError, "page needs to be >= 1"))
    ensures page > 0 && pageSize <= 0 ==> r == Err(Raised(AttributeError, "page_size needs to be >= 1"))
    ensures page > 0 && pageSize > 0 ==> r.Ok?
    ensures r.Ok? ==> r.value.total == |all| && r.value.items == Slice(all, (page - 1) * pageSize, pageSize)
  {
    if page <= 0 then Err(Raised(AttributeError, "page needs to be >= 1"))
    else if pageSize <= 0 then Err(Raised(AttributeError, "page_size needs to be >= 1"))
    else MakePage(Slice(all, (page - 1) * pageSize, pageSize), page, pageSize, |all|)
  }

  lemma MulMonotone(a: int, b: int, c: int)
    requires a <= b && c >= 0
    ensures a * c <= b * c
  {
  }

  /** With `pages = ceil(n / size)`, page `page` is before the last exactly
      when the pages up to it hold fewer than `n` results. */
  lemma BeforeLastPage(page: int, size: int, pages: int, n: int)
    requires page >= 1 && size >= 1 && (pages - 1) * size < n <= pages * size
    ensures page < pages <==> page * size < n
  {
    if page < pages {
      MulMonotone(page, pages - 1, size);
    } else {
      MulMonotone(pages, page, size);
    }
  }

  /** On a page that paginate returns, there is a next page exactly when
      this is not the last of the `pages` pages, and every page but the last
      is full. */
  lemma NextExactlyBeforeLastPage<T>(all: seq<T>, page: int, pageSize: int)
    requires Paginate(all, page, pageSize).Ok?
    ensures var p := Paginate(all, page, pageSize).value;
            (p.hasNext <==> page < p.pages) &&
            (page < p.pages ==> |p.items| == pageSize)
  {
    var p := Paginate(all, page, pageSize).value;
    var skip := (page - 1) * pageSize;
    assert page >= 1 && pageSize >= 1;
    assert page * pageSize == skip + pageSize;
    BeforeLastPage(page, pageSize, p.pages, |all|);
  }
}

/** `PaginatedBundle`: a FHIR `searchset` Bundle built from a pagination
    dictionary. */
module Bundles {
  import opened Values

  /** The pagination dictionary that the search handler passes. */
  datatype PageParams<T> = PageParams(
    items: seq<T>,
    total: int,
    pages: int,
    hasNext: bool,
    hasPrevious: bool,
    nextPage: string,
    previousPage: string)

  datatype Link = Link(relation: string, url: string)
  datatype Entry<T> = Entry(resource: T)
  datatype BundleJson<T> = BundleJson(kind: string, total: int, entries: seq<Entry<T>>, links: seq<Link>)

  /** The jsondict of `PaginatedBundle.__init__`: none unless a pagination
      dictionary is given and "jsondict" is not among the positional
      arguments; otherwise a searchset with the total, one entry per item in
      order, and a next link and then a previous link when there are such
      pages. */
  method JsonDict<T>(args: seq<Value>, pagination: Option<PageParams<T>>) returns (r: Option<BundleJson<T>>)
    ensures r.Some? <==> !PyIn(Str("jsondict"), args) && pagination.Some?
    ensures r.Some? ==> r.value.kind == "searchset" && r.value.total == pagination.value.total
    ensures r.Some? ==> |r.value.entries| == |pagination.value.items| &&
                        forall i :: 0 <= i < |r.value.entries| ==> r.value.entries[i] == Entry(pagination.value.items[i])
    ensures r.Some? ==> var pg := pagination.value;
                        r.value.links == (if pg.hasNext then [Link("next", pg.nextPage)] else []) +
                                         (if pg.hasPrevious then [Link("previous", pg.previousPage)] else [])
  {
    r := None;
    if !PyIn(Str("jsondict"), args) && pagination.Some? {
      var pg := pagination.value;
      var entries := seq(|pg.items|, i requires 0 <= i < |pg.items| => Entry(pg.items[i]));
      var links: seq<Link> := [];
      if pg.hasNext {
        links := links + [Link("next", pg.nextPage)];
      }
      if pg.hasPrevious {
        links := links + [Link("previous", pg.previousPage)];
      }
      r := Some(BundleJson("searchset", pg.total, entries, links));
    }
  }
}
