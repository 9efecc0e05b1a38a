# fhirbug mapping core in Dafny

fhirbug maps rows of an ORM database onto FHIR resources and serves them
through GET, POST, PUT and DELETE handlers. This project models the core of
that mapping layer and proves properties about the model:

- **Attribute descriptors** (`Attributes`):
  - `Attribute`, `const`, `BooleanAttribute`, `ReferenceAttribute` (plain and the pymodm polymorphic one), `DateAttribute`, `NameAttribute`, `EmbeddedAttribute`.
  - A descriptor reads a column, or a value computed from columns, into a FHIR element and writes it back.
  - Reading a reference may *contain* the referenced resource and number it `ref1`, `ref2`, ….
- **The mapping mixins** (`AbstractBaseMixin`, `BaseModelMixin`, `Searchables`, `Models`, and `MixinWorld` for the classes, resources and rows the mixins work with and the reverse-include step over them):
  - `to_fhir`, `get_params_dict`, `get_rev_includes`;
  - `create_from_resource`, `update_from_resource`, `delete_item`;
  - `protect_attributes`, `hide_attributes`, the `Fhir` property;
  - the searcher registry (`searchables`, `has_searcher`, `get_searcher`);
  - the `get` class method: a read by id, or a search folded over the query's parameters and paginated into a `searchset` Bundle.
- **Search compilers** of the pymodm, Django ORM and SQLAlchemy backends:
  - `NumericSearch`, `NumericSearchWithQuantity`, `DateSearch`, `StringSearch`, `NameSearch`, `SimpleSearch`.
  - A search compiler never runs a query. It appends filter steps to a query plan (`Plans.Plan`).
  - `Plans.Matches` gives a plan's meaning: the rows it selects.
- **Dates** (`Dates`): `transform_date`, `date_ceil`, and the calendar arithmetic that date ranges need.
- **Pagination** (`Pagination`, `PymodmPagination`, `Bundles`): `Page`, the pymodm `paginate`, and `PaginatedBundle`.
- **Requests**: the URL parser (`RequestParser`), the exceptions with `OperationError.to_fhir` (`Exceptions`), and the four request handlers (`RequestHandlers`).
  - Each handler is a class whose `query`, `auditEvent`, `auditEventDesc` and `body` fields its methods update.
  - Each handler method is proved against a flow function that states, step by step, which error each stage answers with.
- **Settings** (`Settings`): the lazily configured `LazySettings` object and the package defaults.

Code that updates objects in place is modelled as classes and methods:
- the ORM row `Models.Record`;
- `LazySettings`;
- the request handlers;
- the loops of `searchables`, `get` and `get_params_dict`.

Each such method is proved against a specification function on values. The properties are then proved about those functions.

Python's own behaviour appears explicitly in `Values`: truthiness, `==` across int and bool, `str()`, `int()` on a string, floor division and insertion-ordered dictionaries.

Three behaviours of the code that the model keeps as they are:
- `LazySettings.__setattr__` on an unconfigured object calls `configure()` with no argument (fhirball/config/utils.py:52-53). `configure(None)` installs the defaults and then falls through to the ConfigurationError at the end (fhirball/config/utils.py:31-40), so the write never reaches the settings.
- The GET handler answers with a nested pair `((resource, 200), 200)`: `fetch_items` already returns a pair (fhirbug/server/requesthandlers.py:155-156), and `handle` pairs it with 200 again (fhirbug/server/requesthandlers.py:145).
- The DELETE handler calls `_delete_item` directly (fhirbug/server/requesthandlers.py:382), so the `audit_delete` hook that `delete_item` consults (fhirbug/models/mixins.py:186-193) is never called.

## Model

| member | source | states |
|---|---|---|
| Attributes.Get | fhirbug/models/attributes.py:134-148 | reading through a getter: no getter gives None; a column name reads that column and a missing column raises AttributeError; a const gives its value; a callable or a (column, function) pair applies it |
| Attributes.Assign | fhirbug/models/attributes.py:151-176 | writing through a setter: no setter changes nothing; a column name sets that column; a (column, const) pair stores the constant; a (column, function) pair stores the function of the old and new value, and fails exactly when the column is missing or the function fails, with that error; a callable does its own write; only the target column changes |
| Attributes.SetThenGet | fhirbug/models/attributes.py:134-176 | a value written through a column setter reads back unchanged through the column getter, and every other column keeps its value |
| Attributes.AddSetterExample | fhirbug/models/attributes.py:114-124 | the documented (column, add) setter stores the old value plus the new one |
| Attributes.Write | fhirbug/models/attributes.py:151-176 | the in-place write changes only the record's fields, and changes them exactly as `Assign` does |
| Attributes.MakeAttribute | fhirbug/models/attributes.py:127-132 | the descriptor keeps its getter, setter and searcher; an empty search regex counts as none |
| Attributes.ConstGetter | fhirbug/models/attributes.py:179-193 | a `const` getter returns its value whatever the row holds |
| Attributes.BooleanAttribute | fhirbug/models/attributes.py:196-210 | keeps the stored and recognised truthy and falsy values alongside the getter, setter and searcher; the search regex passed on to `Attribute` is kept only when non-empty |
| Attributes.BoolRead | fhirbug/models/attributes.py:212-218 | a truthy-listed value reads True, else a falsy-listed one reads False, else the raw value comes back |
| Attributes.BoolStored | fhirbug/models/attributes.py:220-225 | a truthy value is stored as `save_true_as`, any other as `save_false_as` |
| Attributes.BooleanRoundTrip | fhirbug/models/attributes.py:212-225 | storing a value with the default 1/0 encoding and reading it back gives the value's Python truthiness |
| Attributes.ReferenceAttribute | fhirbug/models/attributes.py:233-239 | the descriptor records the target class, id column, reference name and force_display flag |
| Attributes.ReferenceRead | fhirbug/models/attributes.py:241-284 | a missing id column raises; a reference in `_contained_names` is contained under the next `#refN`; otherwise an external `Class/id` reference is produced and the context is left alone |
| Attributes.Contain | fhirbug/models/attributes.py:254-266 | containing increments the reference counter by one and appends the resource with id `ref<n>`, answering `#ref<n>` |
| Attributes.ContainOn | fhirbug/models/attributes.py:254-266 | the in-place containment on a record matches `Contain` and touches nothing but the counter and the contained list |
| Attributes.ReadReference | fhirbug/models/attributes.py:241-284 | the in-place reference read on a record matches `ReferenceRead` |
| Attributes.ReferenceAssign | fhirbug/models/attributes.py:286-306 | a `reference` element that is not a string raises AttributeError on `startswith`; otherwise a reference with no identifier value is a MappingValidationError "Invalid reference", and one with an identifier value has that value written through the setter when there is one and changes nothing when there is none |
| Attributes.ReferenceRoundTrip | fhirbug/models/attributes.py:241-306 | a reference read as a `Class/id` URL, written back through a setter on the id column, stores the id's text, and the row then reads back the same reference |
| Attributes.DateAttribute | fhirbug/models/attributes.py:309-323 | reads convert the column to a FHIR date; a write stores the converted date in that column, whatever the old value, and fails with the conversion's error when `FHIRDate` rejects the value |
| Attributes.NameAttribute | fhirbug/models/attributes.py:338-392 | joining and passing given names together is a MappingException; otherwise the descriptor gets the name getter, setter and searcher and the search regex `(family\|given\|name)(:\w*)?` |
| Attributes.NameRead | fhirbug/models/attributes.py:357-360 | a name reads successfully exactly when both the family and the given getter do |
| Attributes.HumanNameElements | fhirbug/models/attributes.py:357-360 | the HumanName built on read holds the family and given values it was given |
| Attributes.NameWrite | fhirbug/models/attributes.py:362-373 | writing takes the first HumanName of the list; an empty list fails before anything is written |
| Attributes.Attr | fhirbug/models/attributes.py:362-373 | attribute access on a resource value succeeds exactly when the element exists, and gives it |
| Attributes.First | fhirbug/models/attributes.py:362-373 | `x[0]` on a list gives its first item, on a string its first character, and raises otherwise |
| Attributes.JoinGiven | fhirbug/models/attributes.py:362-373 | joining given names succeeds exactly on a string or a list of strings, and joins the list with the separator |
| Attributes.NameWriteColumns | fhirbug/models/attributes.py:362-373 | with column setters, a name write sets the family column and the given column and nothing else |
| Attributes.GivenStored | fhirbug/models/attributes.py:365-370 | in join mode the given names are stored joined by a space; otherwise only the first given name is stored |
| Attributes.NameWriteThenRead | fhirbug/models/attributes.py:357-373 | a HumanName written through column setters reads back with the same family and given names |
| Attributes.NameRoundTrip | fhirbug/models/attributes.py:338-392 | the same round trip through the complete `NameAttribute` descriptor |
| Attributes.NameColumns | fhirbug/models/attributes.py:375-387 | a `family` search looks at the family column, a `given` search at the given column, and a `name` search at both |
| Attributes.NameSearcherIsStringSearch | fhirbug/models/attributes.py:375-387 | the default name searcher is the string search over those columns |
| Attributes.NameGetter | fhirbug/models/attributes.py:389-391 | an explicit getter wins over the family/given reading |
| Attributes.NameSetter | fhirbug/models/attributes.py:389-391 | an explicit setter wins over the family/given writing |
| Attributes.EmbeddedAttribute | fhirbug/models/attributes.py:396-403 | a missing `type` is a MappingValidationError with the source's message; otherwise the attribute embeds that type and keeps the getter, setter and searcher, and the search regex passed on to `Attribute` only when non-empty |
| Attributes.EmbedAll | fhirbug/models/attributes.py:405-411 | every item of a list is embedded in order; one failure fails the read |
| Attributes.EmbeddedRead | fhirbug/models/attributes.py:405-411 | None stays None, a list is embedded item by item, and anything else is embedded itself |
| Attributes.EmbeddedValue | fhirbug/models/attributes.py:413-431 | a dict is turned into the resource type, a list item by item, and other values pass unchanged |
| Attributes.ReadSpec | fhirbug/models/attributes.py:134-148 | reading a non-reference attribute never changes the containment numbering |
| Attributes.Read | fhirbug/models/attributes.py:134-148 | the in-place read of any descriptor on a record matches `ReadSpec` and only advances the containment state |
| Attributes.NoSetterNoChange | fhirbug/models/attributes.py:151-176 | writing an attribute without a setter leaves the row unchanged |
| Attributes.WriteAttribute | fhirbug/models/attributes.py:151-176 | the in-place write of any descriptor matches `WriteSpec` and touches only the fields |
| Attributes.WriteReference | fhirbug/models/attributes.py:286-306 | the in-place reference write changes the fields exactly as `ReferenceAssign` does, fails with the same error, and touches nothing else |
| Attributes.WritePolyReference | fhirbug/db/backends/pymodm/attributes.py:80-106 | the in-place polymorphic write changes the fields exactly as `PolyReferenceAssign` does, fails with the same error, and touches nothing else |
| Attributes.PolyReferenceAttribute | fhirbug/db/backends/pymodm/attributes.py:14-28 | the descriptor records the possible types, the pk getter and the reference name |
| Attributes.FirstUnknown | fhirbug/db/backends/pymodm/attributes.py:31-32 | reports a possible type that is not a known model, or none when all are known |
| Attributes.FirstResolving | fhirbug/db/backends/pymodm/attributes.py:33-43 | the first possible type, in order, whose table has a row with the pk; none when no table has one |
| Attributes.Probe | fhirbug/db/backends/pymodm/attributes.py:33-43 | the loop over the possible types finds exactly `FirstResolving` |
| Attributes.PolyReferenceRead | fhirbug/db/backends/pymodm/attributes.py:30-78 | an unknown type raises AttributeError; a pk getter error propagates; otherwise the resolving type is referenced or contained, and failures leave the context unchanged |
| Attributes.ReadPolyReference | fhirbug/db/backends/pymodm/attributes.py:30-78 | the in-place polymorphic read on a record matches `PolyReferenceRead` |
| Attributes.PolyReferenceAssign | fhirbug/db/backends/pymodm/attributes.py:80-106 | without a setter nothing changes; otherwise the ObjectId of the reference's id is written through the setter |
| Dates.DaysInMonth | fhirbug/utils.py:43 | a month has 28 to 31 days, and February has 29 exactly in leap years |
| Dates.DropPrefix | fhirbug/utils.py:7-27 | trimming removes exactly the two-letter search prefix |
| Dates.TransformDate | fhirbug/utils.py:7-27 | the value parses as a datetime first, else as a date, else it is a QueryValidationError; with `to_datetime` the result is always a datetime |
| Dates.DatetimeFirst | fhirbug/utils.py:7-27 | a value that parses as a datetime is never read as a date |
| Dates.DateCeil | fhirbug/utils.py:30-64 | the ceiling of a date search value is a valid date or datetime; it fails exactly when the value does not parse, or when it names an hour, minute or second (length 13, 16 or 19) but parses to a date only |
| Dates.DateCeilNotBefore | fhirbug/utils.py:30-64 | the ceiling is never before the parsed value |
| Dates.DateCeilPeriod | fhirbug/utils.py:40-44 | a year's ceiling is the last instant of that year and a year-month's the last instant of that month (nothing in the period at microsecond 59 or below comes after it); any length outside 4, 7, 10, 13, 16 and 19 gives the parsed value unchanged |
| Dates.DateCeilKeepsGivenFields | fhirbug/utils.py:30-64 | for a date or a partial time, the ceiling keeps the date and every time field the value gives, and sets the missing hour, minute and second to 23, 59 and 59 |
| Plans.ToFloat | fhirbug/db/backends/pymodm/searches.py:7-11 | a number that does not parse is a QueryValidationError naming the value |
| Plans.PrefixOf | fhirbug/db/backends/pymodm/searches.py:14-37 | a value carries a prefix exactly when its first two letters are one of lt, gt, le, ge, eq, ne, ap |
| Plans.MatchesAppend | fhirbug/db/backends/pymodm/searches.py:14-37 | appending steps to a query intersects the selected rows |
| Plans.NumericPlan | fhirbug/db/backends/pymodm/searches.py:14-37 | a numeric search fails exactly on a non-number, and otherwise appends one step (two for `ap`) that keeps the earlier plan |
| Plans.NumericMeaning | fhirbug/db/backends/pymodm/searches.py:14-37 | each prefix selects exactly the rows whose value compares accordingly; no prefix means equality |
| Plans.ApproxMeaning | fhirbug/db/backends/pymodm/searches.py:29-33 | `ap` selects the values within 10% of the number |
| PymodmSearches.NumericSearch | fhirbug/db/backends/pymodm/searches.py:14-37 | the pymodm numeric searcher is the numeric plan over raw queries |
| PymodmSearches.QuantityInput | fhirbug/db/backends/pymodm/searches.py:40-51 | a value without `\|` is used whole; with one, the number before the bar is searched and the unit is converted or passed to `alter_query` |
| PymodmSearches.NumericSearchWithQuantity | fhirbug/db/backends/pymodm/searches.py:40-51 | the quantity search as intended (see Findings): the numeric search applied to the quantity's number and plan |
| PymodmSearches.NumericSearchWithQuantityAsWritten | fhirbug/db/backends/pymodm/searches.py:40-51 | as written, every quantity search raises AttributeError, because line 49 calls `.search` on the function `NumericSearch` returns |
| PymodmSearches.QuantitySearchAlwaysFails | fhirbug/db/backends/pymodm/searches.py:49 | a plain number the intended quantity search compiles still fails as written |
| PymodmSearches.QuantityWithoutUnit | fhirbug/db/backends/pymodm/searches.py:40-51 | on a value without a unit, the quantity search behaves exactly as the numeric search |
| PymodmSearches.QuantityNumberBeforeBar | fhirbug/db/backends/pymodm/searches.py:40-51 | the number searched is the text before the first bar |
| PymodmSearches.EqualityRangeWith | fhirbug/db/backends/pymodm/searches.py:68-84 | the range fails exactly when the value does not parse; otherwise it spans from the value to the end of its precision |
| PymodmSearches.YearRange | fhirbug/db/backends/pymodm/searches.py:77-78 | a year selects exactly the instants in that year |
| PymodmSearches.MonthRange | fhirbug/db/backends/pymodm/searches.py:79-81 | a year-month selects exactly the instants in that month |
| Dates.MonthEnd | fhirbug/db/backends/pymodm/searches.py:79-81 | adding the month's length less one to its first day lands on its last day |
| PymodmSearches.DayRangeSpansTwoDays | fhirbug/db/backends/pymodm/searches.py:82-83 | as written, a full date selects the instants of that day and of the following day |
| PymodmSearches.DayRangeTakesNextDay | fhirbug/db/backends/pymodm/searches.py:82-83 | as written, a row at noon of the day after the searched date is selected |
| PymodmSearches.IntendedDayRange | fhirbug/db/backends/pymodm/searches.py:82-83 | with the range ending on the same day, a full date selects exactly that day |
| PymodmSearches.DatePlan | fhirbug/db/backends/pymodm/searches.py:86-108 | a date search fails exactly when the value does not parse; `lt`, `gt`, `le` and `ge` append a `$lt`/`$gt`/`$lte`/`$gte` comparison against the parsed value, `ap` the range 30 days either side, `eq` and no prefix the equality range, `ne` its complement |
| PymodmSearches.CompareDateMeaning | fhirbug/db/backends/pymodm/searches.py:90-97 | `lt` selects exactly the rows stamped strictly before the value, `gt` strictly after, `le` not after, `ge` not before |
| PymodmSearches.ApproxDateMeaning | fhirbug/db/backends/pymodm/searches.py:102-105 | `ap` on pymodm selects exactly the instants within 30 days either side of the value |
| PymodmSearches.DateSearch | fhirbug/db/backends/pymodm/searches.py:86-108 | the pymodm date searcher is its date plan |
| PymodmSearches.NameSearch | fhirbug/db/backends/pymodm/searches.py:143-166 | the pymodm name searcher appends a text-index filter on the column |
| PymodmSearches.SimpleSearch | fhirbug/db/backends/pymodm/searches.py:169-173 | the pymodm simple searcher appends an equality filter on the column |
| PymodmSearches.StringSearchAsWritten | fhirbug/db/backends/pymodm/searches.py:111-140 | with no columns the factory raises TypeError; with columns, every search raises NameError, because `Q` is never imported in this module |
| PymodmSearches.StringSearchAsWrittenFails | fhirbug/db/backends/pymodm/searches.py:121-138 | a search that the intended string search turns into one or-filter over the columns fails as written |
| Plans.ShiftDays | fhirbug/db/backends/pymodm/searches.py:102-105 | shifting by days keeps the time of day and moves the date by exactly that many days |
| Plans.BetweenMeaning | fhirbug/db/backends/pymodm/searches.py:68-84 | a between filter holds exactly on the instants from its low bound to its high bound inclusive |
| DjangoSearches.NumericSearch | fhirball/db/backends/DjangoORM/searches.py:14-34 | the Django numeric searcher is the numeric plan over ORM filters |
| DjangoSearches.DatePlan | fhirball/db/backends/DjangoORM/searches.py:38-72 | a Django date search fails exactly on an unparsable value and otherwise appends the prefix's comparison |
| DjangoSearches.DateSearch | fhirball/db/backends/DjangoORM/searches.py:38-72 | the Django date searcher is its date plan |
| DjangoSearches.ApproxDateAsWrittenMeaning | fhirball/db/backends/DjangoORM/searches.py:67-70 | as written, Django `ap` selects only instants at least 30 days after the value, so the value itself is never selected |
| Plans.StringSearch | fhirball/db/backends/DjangoORM/searches.py:75-102 | no columns is a TypeError; otherwise the searcher appends one filter built from the columns |
| Plans.StringTermMeaning | fhirball/db/backends/DjangoORM/searches.py:75-102 | `:contains` selects rows where some column contains the value, `:exact` where some column equals it, and no modifier where some column starts with it |
| Plans.OrOverColumns | fhirball/db/backends/DjangoORM/searches.py:75-102 | the loop over the columns builds the or-chain of the per-column filters |
| Plans.OrChainMeaning | fhirball/db/backends/DjangoORM/searches.py:75-102 | an or-chain holds exactly when one of its filters holds |
| DjangoSearches.NameSearch | fhirball/db/backends/DjangoORM/searches.py:105-127 | the Django name searcher appends a contains filter on the column |
| DjangoSearches.SimpleSearch | fhirball/db/backends/DjangoORM/searches.py:129-132 | the Django simple searcher appends an equality filter on the column |
| SqlAlchemySearches.NumericPlan | fhirball/db/backends/SQLAlchemy/searches.py:6-28 | only `ap` converts the number, and an unparsable one is a ValueError; other prefixes compare the text; the earlier plan is kept |
| SqlAlchemySearches.NumericSearch | fhirball/db/backends/SQLAlchemy/searches.py:6-28 | the SQLAlchemy numeric searcher is its numeric plan |
| SqlAlchemySearches.NumericApproxMeaning | fhirball/db/backends/SQLAlchemy/searches.py:23-25 | `ap` selects the values within 10% of the number |
| SqlAlchemySearches.DatePlan | fhirball/db/backends/SQLAlchemy/searches.py:30-67 | a date search fails exactly on an unparsable value; `ap` takes a 30-day window either side and other prefixes compare |
| SqlAlchemySearches.DateSearch | fhirball/db/backends/SQLAlchemy/searches.py:30-67 | the SQLAlchemy date searcher is its date plan |
| Plans.ApproxDateMeaning | fhirball/db/backends/SQLAlchemy/searches.py:61-64 | a date `ap` selects exactly the instants within 30 days of the value, the value included |
| Plans.CompareMeaning | fhirball/db/backends/SQLAlchemy/searches.py:44-67 | a date comparison holds exactly when the row's instant relates to the value as the prefix says |
| SqlAlchemySearches.NameSearch | fhirball/db/backends/SQLAlchemy/searches.py:70-92 | the SQLAlchemy name searcher appends a contains filter on the column |
| SqlAlchemySearches.SimpleSearch | fhirball/db/backends/SQLAlchemy/searches.py:94-98 | the SQLAlchemy simple searcher appends an equality filter on the column |
| Pagination.MakePage | fhirball/models/pagination.py:40-52 | a zero page size raises ZeroDivisionError; otherwise the page keeps its items and total, has a previous page exactly after page 1, a next page exactly when items remain beyond it, and `pages` is the ceiling of total over size |
| Pagination.PageExamples | fhirball/models/pagination.py:8-37 | the documented pages 1, 2 and 5 of 100 items by 20 |
| PymodmPagination.Slice | fhirball/db/backends/pymodm/pagination.py:4-14 | skip-and-limit gives the items from the offset, at most `size` of them |
| PymodmPagination.Paginate | fhirball/db/backends/pymodm/pagination.py:4-14 | page and page size must be at least 1 (AttributeError otherwise); the page holds the slice for its offset and the total count |
| PymodmPagination.NextExactlyBeforeLastPage | fhirball/db/backends/pymodm/pagination.py:4-14 | a page has a next page exactly when it is before the last page |
| Bundles.JsonDict | fhirbug/Fhir/Resources/extensions/__init__.py:9-27 | a bundle is built exactly when not asked for raw JSON and pagination is present; it is a `searchset` with the pagination's total, one entry per item, and next/previous links exactly as the page says |
| RequestParser.At | fhirball/server/requestparser.py:44-62 | path segment lookup gives the segment when it exists and nothing otherwise |
| RequestParser.RouteOf | fhirball/server/requestparser.py:44-62 | the first segment is the resource; a base operation (`_history`, `_search`) in second place is the operation; otherwise the second segment is the id and the third and fourth are the operation and its id |
| RequestParser.Validated | fhirball/server/requestparser.py:89-101 | a query is accepted exactly when it has no id or an integer id, and is then unchanged |
| RequestParser.ParseUrl | fhirball/server/requestparser.py:20-86 | parsing computes exactly the route, the split query string and the validation |
| RequestParser.ParamsPartition | fhirball/server/requestparser.py:68-76 | a parameter named with a leading underscore goes to the modifiers, every other one to the search parameters, with its values intact |
| RequestParser.EmptyAndSlashPaths | fhirball/server/requestparser.py:46-54 | an empty path or `/` names no resource, and a trailing slash is ignored |
| RequestParser.OperationRoutes | fhirball/server/requestparser.py:56-62 | `_history` and `_search` route as operations; an empty operation segment leaves no operation id |
| RequestParser.IntegerIdsAccepted | fhirball/server/requestparser.py:89-101 | an id that is an integer's text passes validation |
| RequestParser.NonNumericIdRejected | fhirball/server/requestparser.py:89-101 | a non-numeric id is a QueryValidationError |
| RequestParser.ValidateExample | fhirball/server/requestparser.py:24-35 | the documented example URL parses into the documented query |
| RequestParser.SegmentsRoundTrip | fhirball/server/requestparser.py:44-54 | splitting a slash-joined path gives back its segments, whether or not it has a leading or trailing slash |
| Exceptions.ToFhir | fhirball/exceptions.py:77-94 | an OperationError becomes one issue with its severity, code and diagnostics |
| Exceptions.ToFhirForgetsOnlyStatus | fhirball/exceptions.py:77-94 | two OperationErrors give the same outcome exactly when they differ at most in status code |
| Exceptions.OperationErrorDefaults | fhirball/exceptions.py:65-75 | the defaults are severity `error`, code `exception`, empty diagnostics and status 500 |
| AbstractBaseMixin.SortNames | fhirbug/models/mixins.py:69 | `dir()` lists names sorted, each exactly as often as given |
| AbstractBaseMixin.KeepNames | fhirbug/models/mixins.py:69 | filtering keeps exactly the names that pass |
| AbstractBaseMixin.LowerAll | fhirbug/models/mixins.py:84-85 | hidden names are compared lower-cased, position by position |
| AbstractBaseMixin.SelectedNames | fhirbug/models/mixins.py:59-94 | the names read are exactly the mapped attributes the resource has, restricted by `_elements` and not hidden |
| AbstractBaseMixin.ReadKeepsNumbering | fhirbug/models/attributes.py:241-266 | a read never lowers the containment counter and only appends contained resources |
| AbstractBaseMixin.ReadAllKeys | fhirbug/models/mixins.py:88-93 | reading the selected names yields a value under each of them; the first failure stops the read |
| AbstractBaseMixin.ParamsDict | fhirbug/models/mixins.py:59-94 | `get_params_dict` reads exactly the selected names, in order, and changes nothing but the containment state |
| MixinWorld.RevAllAppends | fhirbug/models/mixins.py:96-117 | each reverse include appends the matching resources as contained, keeping the numbering |
| AbstractBaseMixin.RevIncludes | fhirbug/models/mixins.py:96-117 | without `_revinclude` nothing happens; with it, each named `Type:attribute` is resolved and its rows contained |
| AbstractBaseMixin.RevIncludeAll | fhirbug/models/mixins.py:108-117 | the loop over the `_revinclude` values ends in the state and the result of folding the reverse-include step over them, stopping at the first error |
| AbstractBaseMixin.RevIncludeOne | fhirbug/models/mixins.py:109-117 | one `Type:attribute` value: too few parts, an unknown model, an unknown searcher and a found searcher each give the step's result and containment state |
| AbstractBaseMixin.Attach | fhirbug/models/mixins.py:51-57 | contained resources are attached only when there are any; the resource is otherwise unchanged |
| AbstractBaseMixin.CompleteNumbering | fhirbug/models/mixins.py:51-57 | finishing a resource never lowers the containment counter |
| AbstractBaseMixin.ToFhirNumbering | fhirbug/models/mixins.py:26-57 | after a conversion the contained resources are numbered `ref1`, `ref2`, … in order, and the names to contain are the query's includes |
| AbstractBaseMixin.Complete | fhirbug/models/mixins.py:51-57 | the in-place finishing step matches its specification and keeps the record's fields and settings |
| AbstractBaseMixin.ToFhir | fhirbug/models/mixins.py:26-57 | `to_fhir` resets the containment state from the query, builds the resource from the selected attributes, adds reverse includes and contained resources, and leaves the row's columns unchanged |
| AbstractBaseMixin.Build | fhirbug/models/mixins.py:45-57 | once the resource class is found, the record ends with the resource, counter and contained items of the build specification, and its columns and query state unchanged |
| AbstractBaseMixin.ResourcePath | fhirbug/models/mixins.py:138-148 | attribute names map to resource paths with every `_` turned into `.` |
| AbstractBaseMixin.Unprotected | fhirbug/models/mixins.py:138-143 | the writable attributes are exactly the mapped ones that are not protected |
| AbstractBaseMixin.WriteAllAppend | fhirbug/models/mixins.py:145-148 | writing two attribute lists one after the other is writing their concatenation |
| AbstractBaseMixin.UnderscoreNamesSkipped | fhirbug/models/mixins.py:145-148 | attributes whose name contains `_` are never written from a resource |
| AbstractBaseMixin.NoUnderscore | fhirbug/models/mixins.py:145-148 | keeps exactly the attributes without an underscore |
| AbstractBaseMixin.AuditBlocksWrites | fhirbug/models/mixins.py:128-132 | a failing create or update audit raises AuthorizationError and writes nothing |
| AbstractBaseMixin.AuditPassWritesUnprotected | fhirbug/models/mixins.py:128-148 | a passing audit writes exactly the unprotected attributes |
| AbstractBaseMixin.Save | fhirbug/models/mixins.py:128-148 | the in-place save matches its specification and touches only the fields |
| AbstractBaseMixin.WriteResource | fhirbug/models/mixins.py:145-148 | the write loop ends with the fields and result of writing each attribute in order, stopping at the first failure, and changes nothing but the fields |
| AbstractBaseMixin.CreateFromResource | fhirbug/models/mixins.py:119-151 | `create_from_resource` audits, then writes the unprotected attributes into a fresh row |
| AbstractBaseMixin.UpdateFromResource | fhirbug/models/mixins.py:153-184 | `update_from_resource` audits, then writes the unprotected attributes into the existing row |
| AbstractBaseMixin.DeleteItem | fhirbug/models/mixins.py:186-193 | a delete is refused exactly when a delete audit exists and does not succeed, with that audit event |
| AbstractBaseMixin.FhirOf | fhirbug/models/mixins.py:339-357 | the `Fhir` property builds the mapping instance once and returns the same one afterwards |
| Models.Record.ProtectAttributes | fhirbug/models/mixins.py:196-204 | sets the protected names and nothing else |
| Models.Record.HideAttributes | fhirbug/models/mixins.py:206-214 | sets the hidden names and nothing else |
| Models.Record.Fhir | fhirbug/models/mixins.py:339-357 | the mapping instance is created on first access and cached on the row |
| Searchables.SearchablesOf | fhirbug/models/mixins.py:326-337 | the loop over the FhirMap builds exactly the registry |
| Searchables.RegistryHoldsLast | fhirbug/models/mixins.py:326-337 | each key holds the searcher of the last attribute registered under it |
| Searchables.HasSearcher | fhirbug/models/mixins.py:290-304 | a searcher exists exactly when some registry key matches the parameter |
| Searchables.FirstMatch | fhirbug/models/mixins.py:306-324 | finds the first key in registration order that matches |
| Searchables.GetSearcher | fhirbug/models/mixins.py:306-324 | gives the first matching key's searcher, and raises AttributeError `Searcher does not exist` exactly when none matches |
| BaseModelMixin.ValuesAnded | fhirbug/models/mixins.py:249-252 | several values of one parameter all have to hold |
| BaseModelMixin.SearchPlan | fhirbug/models/mixins.py:240-252 | the loop over parameters and modifiers folds every value of every parameter that has a searcher into the query |
| BaseModelMixin.FirstInt | fhirbug/models/mixins.py:257-262 | the first value must be there (IndexError) and be an integer (ValueError) |
| BaseModelMixin.CountOf | fhirbug/models/mixins.py:257-260 | the page size is `_count` or the default, never above the maximum |
| BaseModelMixin.OffsetOf | fhirbug/models/mixins.py:261-262 | the offset is `search-offset`, 1 when absent |
| BaseModelMixin.PageOf | fhirbug/models/mixins.py:263 | a zero count is a ZeroDivisionError; otherwise the page is offset // count + 1 |
| BaseModelMixin.PageSteps | fhirbug/models/mixins.py:263-286 | the next-page link's offset lands on the next page and the previous-page link's on the previous one |
| BaseModelMixin.QueryPairs | fhirbug/models/mixins.py:265-272 | the link query has one `param=value` for each value of each parameter except `search-offset`, and nothing else |
| BaseModelMixin.Audited | fhirbug/models/mixins.py:275-280 | rows whose read audit fails are dropped and the others kept |
| BaseModelMixin.MaterializeAudited | fhirbug/models/mixins.py:275-280 | the items are the conversions of the audited rows, in order |
| BaseModelMixin.MaterializeItems | fhirbug/models/mixins.py:275-280 | the conversion loop matches its specification and leaves every row's columns unchanged |
| BaseModelMixin.SearchWindow | fhirbug/models/mixins.py:240-263 | the plan, count, offset and page come out exactly as specified |
| BaseModelMixin.SearchPage | fhirbug/models/mixins.py:264-288 | the page holds the selected rows for the page, audited and converted, with its links |
| BaseModelMixin.Search | fhirbug/models/mixins.py:238-288 | a search answers the bundle parameters that its specification computes |
| BaseModelMixin.FindByPk | fhirbug/models/mixins.py:224-230 | a row is found exactly when some row's pk text matches, and it is the first such row |
| BaseModelMixin.ReadOne | fhirbug/models/mixins.py:223-236 | a missing row is a MappingValidationError `Resource "T/id" does not exist.`; a failing read audit is an AuthorizationError; otherwise the row is converted |
| BaseModelMixin.Get | fhirbug/models/mixins.py:218-288 | a query with an id reads one resource; any other query is a search |
| RequestHandlers.Caught | fhirbug/server/requesthandlers.py:147-150 | an OperationError is answered, and any other exception propagates |
| RequestHandlers.ParseStep | fhirbug/server/requesthandlers.py:27-37 | a URL that does not parse is a 400 `invalid` outcome carrying the parser's message |
| RequestHandlers.AuditCheck | fhirbug/server/requesthandlers.py:93-111 | a request audit that does not succeed is a 403 `security` outcome with the audit's description; nothing else fails |
| RequestHandlers.AuditRecord | fhirbug/server/requesthandlers.py:93-111 | with a request audit, its outcome and description are appended to the handler's audit event details, whose own outcome is kept; without one the event is unchanged |
| RequestHandlers.ImportStep | fhirbug/server/requesthandlers.py:39-49 | models that cannot be imported give a 500 `exception` outcome "The server is improprly configured" |
| RequestHandlers.LookupStep | fhirbug/server/requesthandlers.py:51-64 | no resource name raises TypeError; an unknown name is a 404 `not-found` outcome `Resource "X" does not exist.` |
| RequestHandlers.FetchStep | fhirbug/server/requesthandlers.py:152-183 | mapping and validation errors give 404, authorization errors give 500 `security`, other errors give 500 `exception` with the diagnostics (the traceback under DEBUG); success gives the model's answer |
| RequestHandlers.BodyStep | fhirbug/server/requesthandlers.py:231-242 | a body that is not a valid resource of the type gives 404 `value` |
| RequestHandlers.SaveStep | fhirbug/server/requesthandlers.py:244-260 | a failing create or update gives 422 `invalid` with the error's description |
| RequestHandlers.PkStep | fhirbug/server/requesthandlers.py:293-303 | a missing row gives 404 `not-found` "T/id was not found on the server."; any other error of the lookup propagates unchanged |
| RequestHandlers.Respond | fhirbug/server/requesthandlers.py:147-150 | success answers with its status, an OperationError with its outcome and status code, and other exceptions propagate |
| RequestHandlers.Closed | fhirbug/server/requesthandlers.py:147-150 | a caught OperationError marks the handler's audit event as failed |
| RequestHandlers.RequestHandler.ParseRequest | fhirbug/server/requesthandlers.py:27-37 | parsing stores the query on success and changes nothing else |
| RequestHandlers.RequestHandler.AuditRequest | fhirbug/server/requesthandlers.py:93-111 | auditing a request records the audit and fails exactly as `AuditCheck` does |
| RequestHandlers.RequestHandler.Answer | fhirbug/server/requesthandlers.py:147-150 | answering records the failure status on the audit event |
| RequestHandlers.RequestHandler.Steps | fhirbug/server/requesthandlers.py:129-145 | the GET steps follow the GET flow and leave the audited event |
| RequestHandlers.RequestHandler.HandleGet | fhirbug/server/requesthandlers.py:129-150 | GET answers the GET flow with status 200 and closes the audit event accordingly |
| RequestHandlers.RequestHandler.HandlePost | fhirbug/server/requesthandlers.py:206-229 | POST answers the POST flow with status 201, stores the body, and stores the query exactly when the URL parses |
| RequestHandlers.RequestHandler.HandlePut | fhirbug/server/requesthandlers.py:283-318 | PUT answers the PUT flow with status 202, stores the body, and stores the query exactly when the URL parses |
| RequestHandlers.RequestHandler.HandleDelete | fhirbug/server/requesthandlers.py:357-398 | DELETE answers the DELETE flow with status 200, stores the query exactly when the URL parses, and leaves the body as it was |
| RequestHandlers.ParseFailureIs400 | fhirbug/server/requesthandlers.py:27-37 | every handler answers 400 with the same outcome on an unparsable URL |
| RequestHandlers.SetupFailures | fhirbug/server/requesthandlers.py:39-64 | an unimportable models module and an unknown resource fail before any row is touched |
| RequestHandlers.GetAuditsBeforeImport | fhirbug/server/requesthandlers.py:129-140 | a GET whose request audit fails is answered 403 even when the models cannot be imported |
| RequestHandlers.GetAnswersNestedPair | fhirbug/server/requesthandlers.py:145-156 | a successful GET answers `((resource, 200), 200)` |
| RequestHandlers.PostSkipsRequestAudit | fhirbug/server/requesthandlers.py:206-224 | POST never consults the request audit |
| RequestHandlers.PutChecksRowBeforeBody | fhirbug/server/requesthandlers.py:283-310 | PUT to a missing row answers 404 whatever the body |
| RequestHandlers.DeleteIgnoresAuditDelete | fhirbug/server/requesthandlers.py:357-398 | DELETE answers the same whatever the model's `audit_delete` says |
| RequestHandlers.CaughtErrorsAnswered | fhirbug/server/requesthandlers.py:147-150 | every caught OperationError is answered with its outcome and status and fails the audit event |
| Settings.OverlayLookup | fhirball/config/utils.py:94-108 | after configuring from a dict, an upper-case key holds its last value in the dict, and every other name keeps the default |
| Settings.PackageDefaultsInstalled | fhirbug/config/default_settings.py:1-16 | the defaults install exactly DB_BACKEND, DEBUG, DEFAULT_BUNDLE_SIZE, MAX_BUNDLE_SIZE and MODELS_PATH, with sizes 20 and 100 and DEBUG false |
| Settings.DictKeysFiltered | tests/test_config.py:23-35 | upper-case keys of a configuring dict are installed and lower-case ones are ignored |
| Settings.LazySettings.IsConfigured | fhirball/config/utils.py:110-116 | configured exactly when a namespace is wrapped |
| Settings.LazySettings.Reset | fhirball/config/utils.py:118-123 | resetting forgets the namespace |
| Settings.LazySettings.ConfigureFromDefaults | fhirball/config/utils.py:61-74 | installs exactly the upper-case defaults |
| Settings.LazySettings.CopyUpper | fhirball/config/utils.py:94-108 | the copy loop overlays the upper-case keys on the defaults |
| Settings.LazySettings.ConfigureFromDict | fhirball/config/utils.py:94-108 | configuring twice is a ConfigurationError that changes nothing; otherwise the defaults overlaid with the dict's upper-case keys are installed |
| Settings.LazySettings.ConfigureFromPath | fhirball/config/utils.py:76-92 | configuring twice is refused; a module that does not load leaves the defaults installed and propagates the error; otherwise its upper-case names overlay the defaults |
| Settings.LazySettings.Configure | fhirball/config/utils.py:27-40 | no configuration installs the defaults and then raises; an unsupported type raises and changes nothing; dicts and paths dispatch, and a path whose import fails leaves the defaults installed and returns the import's error |
| Settings.LazySettings.GetSetting | fhirball/config/utils.py:42-45 | an unconfigured read installs the defaults and raises; a missing name is an AttributeError naming it; otherwise the value comes back |
| Settings.LazySettings.SetWrapped | fhirball/config/utils.py:48-51 | assigning `_wrapped` replaces the namespace |
| Settings.LazySettings.SetSetting | fhirball/config/utils.py:47-54 | on a configured object, the write updates exactly that name; on an unconfigured one it installs the defaults, raises and is lost |
| Settings.LazySettings.DeleteSetting | fhirball/config/utils.py:56-59 | deleting removes exactly that name; a missing name is an AttributeError |
| Settings.ConfigureTwice | fhirball/config/utils.py:94-101 | once configured, a second dict or path configuration is refused and the first settings remain |

## Left out

- Floating point: `float()` is a parameter from strings to reals. NaN, infinities and rounding are not modelled.
- Library parsers are parameters: `isodate`, `urlparse`, `parse_qs`, `re.match`, `ObjectId`, and the FHIR model library's constructors (`construct`).
- `calendar.monthrange` is replaced by an explicit Gregorian calendar.
- `datetime`'s year bounds (1 to 9999) are not modelled.
- `as_json` is left out. Resources are values, and their JSON form is not modelled. So for a list, Attributes.EmbeddedValue stores a `List` value, where the source stores a one-shot `map` iterator over `as_json()` of each item.
- RequestHandlers.InitialAudit: `create_audit_event` is reduced to its result (a successful event with the URL as its one detail). The user-agent and address lookup is not modelled.
- `log_request` and logging are left out. So is `split_join`, which only normalises whitespace in names.
- Attributes.EmbeddedAttribute: the source finds the resource class from `type` itself or by `getattr` on the models module of the instance (`import_module(instance.__module__)`). It builds a dict value at once, and a list lazily, as a one-shot `map` over `as_json()` of each item. Here the class lookup and construction are one `construct` parameter, and a list is stored as the list of converted items (Attributes.EmbeddedValue), so laziness and the iterator being exhausted after one pass are not modelled.
- Plans.Holds: pymodm's `$text` filter (the `TextIndex` term) is given a substring meaning. This approximates MongoDB's `$text`, which is a tokenized search over a text index (word stemming, stop words, case folding), so the model selects rows by substring where MongoDB matches words.
- Backend query shapes: Mongo's `$not` and Django's `__ne` are modelled by their meaning (the complement), not their syntax.
- The Django searches import `Q`, and their or-filters are modelled by meaning (Plans.OrChainMeaning).
- PymodmSearches.NumericSearchWithQuantity: as written (line 49), every pymodm quantity search raises AttributeError (PymodmSearches.NumericSearchWithQuantityAsWritten). The registered searcher models the intended numeric search on the quantity's number (see Findings).
- PymodmSearches.StringSearchAsWritten: the pymodm `StringSearch` uses `Q` without importing it, so every pymodm string search raises NameError, and so does a name attribute's default search on that backend. The name searcher and `Plans.StringSearch` model the intended or-filter (see Findings).
- Attributes.NameWrite: when the family setter succeeds and the given setter then fails, the source has already written the family column; here a failed write leaves the row as it was. This holds for every write in the model: a failed `Assign` returns only the error, so partial writes by a failing setter are not modelled.
- Attributes.ReferenceRead: the fetched record is a collaborator value (`Target`) already holding its resource, so a failure of the contained record's own `to_fhir()` cannot arise; only a missing record fails.
- SQLAlchemy numeric comparisons other than `ap` compare the column against the text of the value. They are kept as text comparisons.
- User-supplied getters, setters, searchers and audit hooks are total functions. Exceptions they raise are modelled only as the `Result` they return.
- Settings: `_configure_from_path`'s `importlib.import_module` is the `load` parameter.
- Settings: `str.isupper` is modelled for ASCII letters only.
- RequestParser.Validated: the id check models Python's `int()` on ASCII digits and ASCII whitespace only (Values.ParseInt, Values.Strip). `int()` also accepts other Unicode decimal digits and strips Unicode whitespace, so an id such as "１２３" (full-width digits), which the source accepts, is rejected here.
- BaseModelMixin.FirstInt: `int()` on `_count` and `search-offset` is modelled on ASCII digits and ASCII whitespace only, so a value in other Unicode decimal digits that the source reads as a number is a ValueError here.
- AbstractBaseMixin.LowerAll: `str.lower()` is modelled for ASCII letters only (Values.ToLower). Python lowers every cased Unicode letter, so a hidden attribute name, or an attribute name compared against the hidden ones, that has a non-ASCII capital is not folded here and may be kept where the source hides it.
- Settings: `not settings` truthiness is not modelled.
- Settings.LazySettings.SetSetting: requires `name != "_wrapped"`, because that branch is `SetWrapped`.
- The Django ORM `paginate` backend is not part of this model. Only the pymodm one is.
- `dir()` is modelled as listing the mapped (FhirMap) attributes only.
- Reverse includes reach other tables through a collaborator. The include's id comparison uses `str()` of the value.
- `_after_create` and `_after_update` hooks are left out.
- `HumanName` is modelled as a dict value with `family` and `given` elements.
- The query `context` is passed through but not interpreted.
- Traceback text is a parameter of the server. It is not computed.
- `_delete_item` and the ORM's save and delete are collaborators of the request handlers.
- The table is a sequence of records, and the pk lookup compares `str()` of the pk column.
- RequestHandlers.BodyStep: the diagnostics are the fixed "Invalid resource" rather than the FHIR library's validation message.
- `import_models` and `import_searches` by module path are left out. The models module is an `Option` (None means a ConfigurationError while importing), and resource classes are a lookup table.

## Findings

| source | as written | input that shows it | evidently intended | confidence | as-written member | corrected member |
|---|---|---|---|---|---|---|
| fhirbug/db/backends/pymodm/searches.py:82-83 | a full date `YYYY-MM-DD` gets the range from that midnight to 23:59:59 of the following day | `date=2020-01-01` selects a row stamped 2020-01-02T12:00:00 | the range ends at 23:59:59 of the same day | high, not executed | PymodmSearches.DayRangeTakesNextDay | PymodmSearches.IntendedDayRange |
| fhirball/db/backends/DjangoORM/searches.py:67-70 | `ap` filters `__gte` on both the floor and the ceiling | `date=ap2020-01-01` does not select a row stamped 2020-01-01 but selects one stamped 2021-01-01 | the ceiling bound is `__lte`, giving a window of 30 days either side | high, not executed | DjangoSearches.ApproxDateAsWrittenMeaning | Plans.ApproxDateMeaning |
| fhirbug/db/backends/pymodm/searches.py:49 | the numeric search is called as `NumericSearch(column).search(...)`, but `NumericSearch` returns a plain function | `value-quantity=5`, like every quantity search, raises AttributeError | call the returned searcher, `NumericSearch(column)(cls, field_name, value, sql_query, query)` | high, not executed | PymodmSearches.QuantitySearchAlwaysFails | PymodmSearches.NumericSearchWithQuantity |
| fhirbug/db/backends/pymodm/searches.py:124-138 | the string filters are built with `Q`, which the module never imports | `name=Smith` on a pymodm string or name attribute raises NameError | one or-filter over the columns, as the Django backend builds with its imported `Q` | high, not executed | PymodmSearches.StringSearchAsWrittenFails | Plans.StringSearch |

The date search compilers keep both date ranges as written. The corrected ranges are stated and proved alongside: `PymodmSearches.IntendedEqualityRange`, and `Plans.ApproxDateSteps`, which the SQLAlchemy backend uses. The pymodm quantity and string searches are the other way round: the searchers the model registers are the intended ones, and the as-written ones are stated and proved alongside.
