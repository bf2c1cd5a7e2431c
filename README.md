# Search request building and city reindexing, modelled in Dafny

The web application answers city and document searches through Elasticsearch
and copies the relational `cities` table into a `cities` search index. Between
its HTTP handlers and the two remote services sits a thin deterministic layer,
and this project models that layer:

- **Reindex, client-library variant** (`CitySync`, POST `/api/cities/sync`).
  It recreates the index, reads the rows and builds one bulk body of action
  and document pairs. Each document gets the derived `location` and `suggest`
  fields. Per-item bulk failures become error lines. The summary counts every
  failure, caps the listed lines at 10 and answers 200, 207, 404 or 500.
- **Reindex, raw-HTTPS variant** (`CitySyncDirect`, POST and GET
  `/api/cities/sync-direct`). It builds the same bulk entries and serialises
  them line by line. The lines are framed as newline-delimited JSON, the
  format of the Elasticsearch `_bulk` API. Every remote answer is classified
  by its status code, and the GET handler reports whether the index exists
  and how many documents it holds.
- **City search** (`CitiesEs`, GET and POST `/api/cities-es`). A blank query
  gives `match_all` and otherwise eight boosted clauses are sent. Results are
  sorted by score, then by descending population. Hits are projected back to
  cities. The POST handler builds a filter list and then, as written, sends
  the unfiltered GET body.
- **Document search** (`DocumentSearch`, POST `/api/search`). A blank query is
  rejected with 400. Otherwise defaults are applied and one `multi_match`
  clause, a highlight request and optional tag and date filters are built.
  Failures are classified as 503 (connection refused) or 500.

Support modules: `Wrappers` (Option, Result), `Js` (thrown values,
truthiness, status codes) and `Text` (trim, lower-casing, decimal rendering,
join, split, includes).

Remote calls are parameters. A call whose request matters is a function from
the request to `Result<reply, Thrown>`, so the model states which request was
sent. A call whose request is fixed is a plain `Result`. JSON serialisation
is the parameter `stringify`.

## Model

| member | source | states |
|---|---|---|
| `Js.Describe` | elasticsearch-app/src/app/api/cities/sync/route.ts:174 | a thrown `Error` is described by its message, any other thrown value by "Unknown error" |
| `Text.IsBlank` | elasticsearch-app/src/app/api/cities-es/route.ts:30 | `!s.trim()` holds exactly when every character is JavaScript white space |
| `Text.TrimStart` | elasticsearch-app/src/app/api/search/route.ts:10 | trimming the start leaves a suffix that starts with a non-space, and drops only white space |
| `Text.TrimEnd` | elasticsearch-app/src/app/api/search/route.ts:10 | trimming the end leaves a prefix that ends with a non-space, and drops only white space |
| `Text.Lower` | elasticsearch-app/src/app/api/cities-es/route.ts:34 | lower-casing keeps the length, maps each character independently and leaves no upper-case ASCII letter |
| `Text.NatToString` | elasticsearch-app/src/app/api/cities/sync/route.ts:115 | a natural number renders as decimal digits with no leading zero, and 0 as "0" |
| `Text.IntToString` | elasticsearch-app/src/app/api/cities/sync/route.ts:115 | `toString()` of an integer is in decimal form (digits with no leading zero, "-" in front exactly for a negative number) |
| `Text.DecimalCanonical` | elasticsearch-app/src/app/api/cities/sync/route.ts:115 | every string in decimal form is the rendering of the number it reads as, so with the round trip the rendering of an id is the one decimal string for it |
| `Text.IntToStringRoundTrip` | elasticsearch-app/src/app/api/cities/sync/route.ts:115 | reading back the decimal rendering of an id gives the id |
| `Text.IntToStringInjective` | elasticsearch-app/src/app/api/cities/sync/route.ts:115 | distinct ids have distinct decimal renderings |
| `Text.Split` | elasticsearch-app/src/app/api/cities/sync-direct/route.ts:183 | splitting on a character gives one more piece than there are separators, and no piece contains the separator |
| `Text.SplitJoin` | elasticsearch-app/src/app/api/cities/sync-direct/route.ts:183 | splitting a join of separator-free pieces recovers the pieces |
| `Text.Join` | elasticsearch-app/src/app/api/cities/sync-direct/route.ts:183 | `join` of a single piece is that piece; its separator count and its inverse are `JoinCount` and `SplitJoin` |
| `Text.JoinCount` | elasticsearch-app/src/app/api/cities/sync-direct/route.ts:183 | a join of separator-free pieces holds one separator fewer than there are pieces |
| `Text.ContainsIffOccurs` | elasticsearch-app/src/app/api/search/route.ts:85 | `includes` holds exactly when the text occurs at some position |
| `CitySync.Location` | elasticsearch-app/src/app/api/cities/sync/route.ts:126 | the location is the name, then ", ", then the state |
| `CitySync.Weight` | elasticsearch-app/src/app/api/cities/sync/route.ts:129 | the weight is the floor of population/1000 (`w*1000 <= p < (w+1)*1000`; 125000 gives 125) |
| `CitySync.ToDocument` | elasticsearch-app/src/app/api/cities/sync/route.ts:120-131 | the document copies id, name, state, population and description unchanged; its location is "name, state"; its suggest input is [name, location, state] and its weight is the floor of population/1000 |
| `CitySync.BulkBody` | elasticsearch-app/src/app/api/cities/sync/route.ts:108-132 | n rows give a bulk body of exactly 2n entries |
| `CitySync.Action` | elasticsearch-app/src/app/api/cities/sync/route.ts:112-117 | a row's index action targets the `cities` index, and its `_id` is in decimal form and reads back as the row id, which by `Text.DecimalCanonical` makes it the id's `toString()` |
| `CitySync.BulkBodyAt` | elasticsearch-app/src/app/api/cities/sync/route.ts:110-131 | entry 2i is row i's index action on `cities` with `_id` the id in decimal, and entry 2i+1 is row i's document, in row order |
| `CitySync.DistinctIdsDistinctActions` | elasticsearch-app/src/app/api/cities/sync/route.ts:112-117 | rows with different ids get index actions with different `_id`s |
| `CitySync.BuildBulkOperations` | elasticsearch-app/src/app/api/cities/sync/route.ts:108-132 | the push loop builds exactly the bulk body of the rows |
| `CitySync.ErrorLine` | elasticsearch-app/src/app/api/cities/sync/route.ts:145 | a failed item's line is "ID ", its `_id`, ": ", then its error reason |
| `CitySync.ItemErrors` | elasticsearch-app/src/app/api/cities/sync/route.ts:143-147 | there are no more error lines than items, and none exactly when no item carries `index.error` |
| `CitySync.ItemErrorsExact` | elasticsearch-app/src/app/api/cities/sync/route.ts:143-147 | every failed item contributes its "ID id: reason" line, and every line comes from a failed item |
| `CitySync.ItemErrorsPrefix` | elasticsearch-app/src/app/api/cities/sync/route.ts:143-147 | the lines for a prefix of the items are a prefix of all lines, so lines follow item order |
| `CitySync.ItemErrorsCount` | elasticsearch-app/src/app/api/cities/sync/route.ts:143-147 | there is exactly one error line per failed item |
| `CitySync.ErrorMessages` | elasticsearch-app/src/app/api/cities/sync/route.ts:141-148 | no error lines are collected unless the response's `errors` flag is set |
| `CitySync.CollectErrors` | elasticsearch-app/src/app/api/cities/sync/route.ts:141-148 | the collecting loop yields exactly the response's error lines |
| `CitySync.Report` | elasticsearch-app/src/app/api/cities/sync/route.ts:150-167 | indexedCities = totalCities − the full error count; success iff no errors; `errors` present iff there are errors, and then the first min(count, 10) lines; status 200 iff no errors, else 207 |
| `CitySync.NothingToIndex` | elasticsearch-app/src/app/api/cities/sync/route.ts:97-105 | an empty table gives success=false, both counts 0, no error list, status 404 |
| `CitySync.Crashed` | elasticsearch-app/src/app/api/cities/sync/route.ts:169-180 | a thrown error gives success=false, both counts 0, no error list, status 500 |
| `CitySync.Settle` | elasticsearch-app/src/app/api/cities/sync/route.ts:134-180 | a thrown bulk request answers 500; a completed one is reported from its error lines; the status is 200, 207 or 500, and success holds iff it is 200 |
| `CitySync.ReportedFailures` | elasticsearch-app/src/app/api/cities/sync/route.ts:141-167 | with K failed items out of N rows (K counted only when the `errors` flag is set), indexedCities is N − K, the status is 200 iff K is 0, and otherwise min(K, 10) lines are listed |
| `CitySync.Sync` | elasticsearch-app/src/app/api/cities/sync/route.ts:20-181 | a failed index creation or row read answers 500 and sends nothing; an empty table answers 404 and sends no bulk body; otherwise the bulk body of the rows is sent and its answer settled |
| `CitySyncDirect.EsRequest` | elasticsearch-app/src/app/api/cities/sync-direct/route.ts:44-61 | `esRequest` resolves iff the exchange completed with a status in [200, 300); transport errors reject as they are |
| `CitySyncDirect.Serialize` | elasticsearch-app/src/app/api/cities/sync-direct/route.ts:160-179 | one line per bulk entry, line i being `JSON.stringify` of entry i |
| `CitySyncDirect.BuildBulkLines` | elasticsearch-app/src/app/api/cities/sync-direct/route.ts:156-180 | the push loop yields the library variant's bulk body, serialised entry by entry |
| `CitySyncDirect.Payload` | elasticsearch-app/src/app/api/cities/sync-direct/route.ts:183 | the payload ends with a newline |
| `CitySyncDirect.PayloadFraming` | elasticsearch-app/src/app/api/cities/sync-direct/route.ts:183 | for newline-free lines the payload holds exactly one newline per line, and splitting it gives the lines followed by "" |
| `CitySyncDirect.BulkPayloadFraming` | elasticsearch-app/src/app/api/cities/sync-direct/route.ts:156-183 | for n > 0 rows and a newline-free serialiser the payload holds exactly 2n newlines and splits back into the 2n serialised entries |
| `CitySyncDirect.BulkOutcome` | elasticsearch-app/src/app/api/cities/sync-direct/route.ts:202-222 | the bulk request resolves iff the status is in [200, 300) and the text parses, and then with the parsed response |
| `CitySyncDirect.Sync` | elasticsearch-app/src/app/api/cities/sync-direct/route.ts:72-266 | same 404/500 rules as the library variant before any payload is built; otherwise the NDJSON payload of the rows is sent and its answer settled by the same error, count, success and 200/207/500 rules |
| `CitySyncDirect.Status` | elasticsearch-app/src/app/api/cities/sync-direct/route.ts:269-355 | HEAD 404 gives indexed=false, count 0, status 200; indexed=true iff HEAD is not 404 and the count request succeeds and parses, with the count defaulting to 0; every other case answers 500 with count 0 |
| `CitiesEs.ShouldClauses` | elasticsearch-app/src/app/api/cities-es/route.ts:31-49 | exactly eight clauses over name, name, name, name.keyword, state, state, description, location with boosts 3, 2.5, 2, 4, 1.5, 1.3, 1, 2; prefixes use lower(query), the wildcard `*lower(query)*`, matches the raw query; only the third is fuzzy; the name.keyword boost exceeds every other |
| `CitiesEs.EsSearchBody` | elasticsearch-app/src/app/api/cities-es/route.ts:28-58 | size = limit and sort = [_score, population desc] always; the query is `match_all` iff the query is blank, and otherwise the eight clauses |
| `CitiesEs.ProjectHits` | elasticsearch-app/src/app/api/cities-es/route.ts:123-129 | one city per hit, in hit order, each taking the five city fields of `_source` |
| `CitiesEs.ProjectIndexedRows` | elasticsearch-app/src/app/api/cities-es/route.ts:123-129 | hits on documents built from rows project back to exactly those rows |
| `CitiesEs.Get` | elasticsearch-app/src/app/api/cities-es/route.ts:100-152 | a blank query answers no cities, total 0, status 200 and sends no search; otherwise it sends the `esSearch` body with the limit defaulting to 10, and answers the projected hits and `hits.total.value`, or 500 with no cities |
| `CitiesEs.LimitOf` | elasticsearch-app/src/app/api/cities-es/route.ts:159 | the limit is `filters.limit` when truthy and 10 otherwise |
| `CitiesEs.BuildFilteredBody` | elasticsearch-app/src/app/api/cities-es/route.ts:157-196 | size `filters.limit || 10`, relevance order, `multi_match` for a non-blank query and `match_all` otherwise; a population range is in the filter list iff minPopulation is truthy, a state.keyword term iff state is truthy, nothing else, at most 2, range first |
| `CitiesEs.PostSearchBody` | elasticsearch-app/src/app/api/cities-es/route.ts:198 | the body POST sends has size `filters.limit || 10` and relevance order, is `match_all` iff the query is blank, and otherwise carries the eight GET clauses; it has no filter at all |
| `CitiesEs.Post` | elasticsearch-app/src/app/api/cities-es/route.ts:155-229 | the filtered body is built with the range and term its filters call for, but the search sent is `esSearch(query, limit)`; the answer is the projected hits or 500 |
| `CitiesEs.PostDropsFilters` | elasticsearch-app/src/app/api/cities-es/route.ts:198 | every request sends the same body as the same request with its minPopulation and state removed |
| `CitiesEs.PostSendsGetBody` | elasticsearch-app/src/app/api/cities-es/route.ts:198 | for a non-blank query POST sends the same body as GET with the same limit |
| `CitiesEs.PostFiltered` | elasticsearch-app/src/app/api/cities-es/route.ts:184-198 | corrected POST: the body sent is the filtered body, with the population range iff minPopulation is truthy and the state term iff state is truthy; the answer is its projected hits or 500 |
| `DocumentSearch.BuildSearch` | elasticsearch-app/src/app/api/search/route.ts:8-72 | index, size and from default to 'documents', 10 and 0 and are otherwise passed through; one multi_match over title^2, content and tags (best_fields, AUTO); title and content highlighted (150, 3); a terms filter iff tags are non-empty; a created_at range iff a date range is given, with gte iff `from` is non-empty and lte iff `to` is non-empty; terms before range; no filters gives an empty list; never more than 2 |
| `DocumentSearch.ErrorStatus` | elasticsearch-app/src/app/api/search/route.ts:84-101 | 503 iff the caught value is an Error whose message contains ECONNREFUSED, 500 otherwise |
| `DocumentSearch.ConnectionRefusedAnywhere` | elasticsearch-app/src/app/api/search/route.ts:85 | a message with ECONNREFUSED anywhere in it maps to 503 |
| `DocumentSearch.ErrorReply` | elasticsearch-app/src/app/api/search/route.ts:85-100 | a caught error answers 503 "engine unavailable" when `ErrorStatus` says so, and otherwise 500 with the error's description as details |
| `DocumentSearch.Search` | elasticsearch-app/src/app/api/search/route.ts:5-103 | a missing or blank query answers 400 without searching; otherwise the search sent is one `BuildSearch` could build (defaults, multi_match, highlight, the tags and created_at filters) and its response is returned with 200, or its failure classified 503/500; an unreadable body is classified the same way |

## Left out

- HTTP transport, request streaming, authentication headers and TLS options. The Elasticsearch client library and the PostgreSQL driver are out too. Every remote call is a parameter of the handler.
- Deleting the old index before a reindex. Both handlers swallow a failure of the delete. A delete that fails because the index is absent is harmless. One that fails while the index exists leaves it in place, and the following index creation then fails. In both cases the outcome of index creation is the unconstrained `createIndex` parameter, so leaving the delete out loses nothing.
- The GET handler of `elasticsearch-app/src/app/api/cities/sync/route.ts`, which only forwards index-exists, stats and count calls to the client library.
- `JSON.stringify` and `JSON.parse`. Serialisation is the `stringify` parameter. The framing lemmas assume its output has no newline, which `JSON.stringify` guarantees by escaping. Parsing is the `parsed` field of a reply, `None` when the text does not parse.
- `CitySyncDirect.EsRequest`: does not distinguish a resolved parsed body from a resolved raw text. Both resolve, and no caller uses the value.
- Timings: the engine's `took` time is carried as an input value. `Date.now()` and the elapsed time in the success message are left out.
- `Text.Lower`: lower-cases ASCII letters only, because the Unicode case tables of `toLowerCase` are out of scope.
- `parseInt` on the `limit` query parameter. The model takes the limit already read as a number, and a `NaN` limit is not modelled. A `NaN` minPopulation or limit in the POST body is not modelled either.
- Inputs of the wrong JSON type (a non-string query, a `null` filters object), which make the source throw a `TypeError` that ends in a 500.
- Boosts are exact tenths (2.5 is 25), not floating-point numbers.
- The `refresh: true` option and the `?refresh=true` query of the two bulk requests (elasticsearch-app/src/app/api/cities/sync/route.ts:136, elasticsearch-app/src/app/api/cities/sync-direct/route.ts:191). The model records the body sent but not this flag, whose only effect is on when the engine makes the documents searchable.
- Search-engine semantics: scoring, fuzziness, analyzers and the effect of the mapping. For example, which city outranks which is not modelled. The index mapping is the constant `CitySync.CityIndexConfig`.
- Concurrent reindex runs.

## Findings

| source | as written | input that shows it | evidently intended | confidence | as-written member | corrected member |
|---|---|---|---|---|---|---|
| elasticsearch-app/src/app/api/cities-es/route.ts:198 | POST builds a body with `minPopulation` and `state` filters, then sends `esSearch(query, limit)`, which carries no filter | `{query: "sea", filters: {minPopulation: 1000000, state: "WA"}}` sends the same request as `{query: "sea"}` | the filtered body is the one sent, so the filters restrict the results (the reply says "with filters") | high (not executed) | `CitiesEs.PostDropsFilters` | `CitiesEs.PostFiltered` |
