/** City search against the `cities` index (GET and POST /api/cities-es):
    the boosted query body, the empty-query short cut, the projection of hits
    back to cities, and the filter list the POST handler builds. */
module CitiesEs {
  import opened Wrappers
  import opened Js
  import Text
  import CitySync

  /** A boost in tenths: 25 stands for 2.5. */
  type Boost = nat

  /** A clause of the `should` list. A `Match` with `fuzzy` set asks for
      `fuzziness: "AUTO"`. */
  datatype Clause =
    | Prefix(field: string, value: string, boost: Boost)
    | Wildcard(field: string, pattern: string, boost: Boost)
    | Match(field: string, text: string, fuzzy: bool, boost: Boost)

  datatype CityQuery = MatchAll | Should(clauses: seq<Clause>)

  datatype SortKey = ByScore | Descending(field: string)

  /** The search body `esSearch` sends. */
  datatype SearchBody = SearchBody(size: int, query: CityQuery, sort: seq<SortKey>)

  /** Relevance first, then the larger population. */
  const RelevanceOrder := [ByScore, Descending("population")]

  const DefaultLimit := 10

  function FieldOf(c: Clause): string {
    match c
    case Prefix(f, _, _) => f
    case Wildcard(f, _, _) => f
    case Match(f, _, _, _) => f
  }

  function Fields(cs: seq<Clause>): (fs: seq<string>)
    ensures |fs| == |cs| && forall i :: 0 <= i < |cs| ==> fs[i] == FieldOf(cs[i])
  {
    seq(|cs|, i requires 0 <= i < |cs| => FieldOf(cs[i]))
  }

  function Boosts(cs: seq<Clause>): (bs: seq<Boost>)
    ensures |bs| == |cs| && forall i :: 0 <= i < |cs| ==> bs[i] == cs[i].boost
  {
    seq(|cs|, i requires 0 <= i < |cs| => cs[i].boost)
  }

  /** The eight clauses for a non-blank query: the prefix and wildcard
      clauses use the lower-cased query, the match clauses the query as
      given; one match on the name is fuzzy; the exact match on the
      untokenised name outweighs every other clause. */
  function ShouldClauses(query: string): (cs: seq<Clause>)
    ensures |cs| == 8
    ensures Fields(cs) == ["name", "name", "name", "name.keyword", "state", "state", "description", "location"]
    ensures Boosts(cs) == [30, 25, 20, 40, 15, 13, 10, 20]
    ensures forall i :: 0 <= i < 8 && cs[i].Prefix? ==> cs[i].value == Text.Lower(query)
    ensures forall i :: 0 <= i < 8 && cs[i].Wildcard? ==> cs[i].pattern == "*" + Text.Lower(query) + "*"
    ensures forall i :: 0 <= i < 8 && cs[i].Match? ==> cs[i].text == query
    ensures forall i :: 0 <= i < 8 ==> (cs[i].Prefix? <==> i in {0, 5})
    ensures forall i :: 0 <= i < 8 ==> (cs[i].Wildcard? <==> i == 1)
    ensures forall i :: 0 <= i < 8 ==> (cs[i].Match? && cs[i].fuzzy <==> i == 2)
    ensures forall i :: 0 <= i < 8 && i != 3 ==> cs[i].boost < cs[3].boost
  {
    var lower := Text.Lower(query);
    [ Prefix("name", lower, 30),
      Wildcard("name", "*" + lower + "*", 25),
      Match("name", query, true, 20),
      Match("name.keyword", query, false, 40),
      Match("state", query, false, 15),
      Prefix("state", lower, 13),
      Match("description", query, false, 10),
      Match("location", query, false, 20) ]
  }

  /** The body `esSearch(query, limit)` sends: `limit` results ordered by
      relevance then population, matching everything for a blank query and
      the eight boosted clauses otherwise. */
  function EsSearchBody(query: string, limit: int): (b: SearchBody)
    ensures b.size == limit && b.sort == RelevanceOrder
    ensures b.query.MatchAll? <==> Text.IsBlank(query)
    ensures b.query.Should? ==> b.query.clauses == ShouldClauses(query)
  {
    SearchBody(limit, if Text.IsBlank(query) then MatchAll else Should(ShouldClauses(query)), RelevanceOrder)
  }

  // ---------------------------------------------------------------------------
  // Hits and results

  type City = CitySync.CityRow

  /** A hit; its `_source` is a document the reindex stored. */
  datatype Hit = Hit(source: CitySync.CityDoc)

  /** The parts of a search response the handlers read. */
  datatype SearchResponse = SearchResponse(hits: seq<Hit>, totalValue: int, took: int)

  /** The five city fields of a stored document. */
  function ToCity(doc: CitySync.CityDoc): City {
    CitySync.CityRow(doc.id, doc.name, doc.state, doc.population, doc.description)
  }

  /** The hits as cities, one per hit, in hit order. */
  function ProjectHits(hits: seq<Hit>): (cities: seq<City>)
    ensures |cities| == |hits|
    ensures forall i :: 0 <= i < |hits| ==> cities[i] == ToCity(hits[i].source)
  {
    if hits == [] then [] else [ToCity(hits[0].source)] + ProjectHits(hits[1..])
  }

  /** Hits on documents the reindex stored project back to the rows they
      were built from. */
  lemma ProjectIndexedRows(rows: seq<City>, hits: seq<Hit>)
    requires |hits| == |rows|
    requires forall i :: 0 <= i < |rows| ==> hits[i].source == CitySync.ToDocument(rows[i])
    ensures ProjectHits(hits) == rows
  {
  }

  datatype SearchMessage =
    | NoQuery
    | Found(count: nat, query: string, took: int)
    | FoundWithFilters(count: nat, took: int)
    | SearchFailed(reason: string)

  datatype CitySearchResult = CitySearchResult(cities: seq<City>, total: int, statusCode: int, msg: SearchMessage)

  /** What a search answered, its HTTP status, and the body sent to the engine if any. */
  datatype SearchRun = SearchRun(result: CitySearchResult, status: int, sent: Option<SearchBody>)

  function SearchFailure(e: Thrown): CitySearchResult {
    CitySearchResult([], 0, InternalServerError, SearchFailed(Describe(e)))
  }

  /** GET: `q` and `limit` are the query parameters (`limit` already read as a
      number; absent or empty means 10). A blank query answers an empty list
      without searching; otherwise the boosted body is sent and the hits are
      projected, or a failed search answers 500 with no cities. */
  function Get(q: Option<string>, limit: Option<int>, search: SearchBody -> Result<SearchResponse, Thrown>): (run: SearchRun)
    ensures Text.IsBlank(q.GetOr("")) ==>
      run == SearchRun(CitySearchResult([], 0, Ok, NoQuery), Ok, None)
    ensures !Text.IsBlank(q.GetOr("")) ==>
      run.sent == Some(EsSearchBody(q.GetOr(""), limit.GetOr(DefaultLimit)))
    ensures !Text.IsBlank(q.GetOr("")) && search(run.sent.value).Success? ==>
      var response := search(run.sent.value);
      run.status == Ok && run.result.statusCode == Ok &&
      run.result.cities == ProjectHits(response.value.hits) &&
      run.result.total == response.value.totalValue
    ensures !Text.IsBlank(q.GetOr("")) && search(run.sent.value).Failure? ==>
      run.status == InternalServerError && run.result.statusCode == InternalServerError &&
      run.result.cities == [] && run.result.total == 0
  {
    var query := q.GetOr("");
    if Text.IsBlank(query) then
      SearchRun(CitySearchResult([], 0, Ok, NoQuery), Ok, None)
    else
      var body := EsSearchBody(query, limit.GetOr(DefaultLimit));
      match search(body)
      case Failure(e) => SearchRun(SearchFailure(e), InternalServerError, Some(body))
      case Success(response) =>
        var cities := ProjectHits(response.hits);
        SearchRun(CitySearchResult(cities, response.totalValue, Ok, Found(|cities|, query, response.took)), Ok, Some(body))
  }

  // ---------------------------------------------------------------------------
  // POST: the filtered body

  datatype Filters = Filters(limit: Option<int>, minPopulation: Option<int>, state: Option<string>)

  /** The POST request body; absent fields are `None`. */
  datatype PostRequest = PostRequest(query: Option<string>, filters: Option<Filters>)

  datatype MustClause = MultiMatch(text: string, fields: seq<string>, fuzzy: bool) | MatchEverything

  datatype Filter = PopulationAtLeast(gte: int) | StateIs(state: string)

  /** The body the POST handler builds with its filter list. */
  datatype FilteredBody = FilteredBody(size: int, must: seq<MustClause>, filter: seq<Filter>, sort: seq<SortKey>)

  const MultiMatchFields := ["name^3", "state^2", "location^2", "description"]

  function QueryOf(request: PostRequest): string {
    request.query.GetOr("")
  }

  function FiltersOf(request: PostRequest): Filters {
    request.filters.GetOr(Filters(None, None, None))
  }

  /** `filters.limit || 10` */
  function LimitOf(request: PostRequest): (limit: int)
    ensures TruthyNumber(FiltersOf(request).limit) ==> limit == FiltersOf(request).limit.value
    ensures !TruthyNumber(FiltersOf(request).limit) ==> limit == DefaultLimit
  {
    OrNumber(FiltersOf(request).limit, DefaultLimit)
  }

  /** The filtered body for a request: size `filters.limit || 10`, a
      `multi_match` clause for a non-blank query and `match_all` otherwise, a
      population range exactly when `minPopulation` is truthy and a state term
      exactly when `state` is truthy, nothing else, range first. */
  predicate BuiltFiltered(request: PostRequest, body: FilteredBody) {
    && body.size == LimitOf(request) && body.sort == RelevanceOrder
    && body.must == (if Text.IsBlank(QueryOf(request)) then [MatchEverything]
                     else [MultiMatch(QueryOf(request), MultiMatchFields, true)])
    && |body.filter| <= 2
    && (PopulationAtLeast(FiltersOf(request).minPopulation.GetOr(0)) in body.filter
        <==> TruthyNumber(FiltersOf(request).minPopulation))
    && (StateIs(FiltersOf(request).state.GetOr("")) in body.filter
        <==> TruthyString(FiltersOf(request).state))
    && (forall f :: f in body.filter ==>
          f == PopulationAtLeast(FiltersOf(request).minPopulation.GetOr(0)) ||
          f == StateIs(FiltersOf(request).state.GetOr("")))
    && (|body.filter| == 2 ==> body.filter[0].PopulationAtLeast? && body.filter[1].StateIs?)
  }

  /** The filter list the two pushes leave satisfies the filter facts of `BuiltFiltered`. */
  lemma FilterList(filters: Filters, filter: seq<Filter>)
    requires filter == (if TruthyNumber(filters.minPopulation) then [PopulationAtLeast(filters.minPopulation.value)] else [])
                     + (if TruthyString(filters.state) then [StateIs(filters.state.value)] else [])
    ensures |filter| <= 2
    ensures PopulationAtLeast(filters.minPopulation.GetOr(0)) in filter <==> TruthyNumber(filters.minPopulation)
    ensures StateIs(filters.state.GetOr("")) in filter <==> TruthyString(filters.state)
    ensures forall f :: f in filter ==>
      f == PopulationAtLeast(filters.minPopulation.GetOr(0)) || f == StateIs(filters.state.GetOr(""))
    ensures |filter| == 2 ==> filter[0].PopulationAtLeast? && filter[1].StateIs?
  {
  }

  /** Builds the filtered body, pushing the population range and then the
      state term. */
  method BuildFilteredBody(request: PostRequest) returns (body: FilteredBody)
    ensures BuiltFiltered(request, body)
  {
    var query := QueryOf(request);
    var filters := FiltersOf(request);
    var must := if Text.IsBlank(query) then [MatchEverything] else [MultiMatch(query, MultiMatchFields, true)];
    body := FilteredBody(LimitOf(request), must, [], RelevanceOrder);
    if TruthyNumber(filters.minPopulation) {
      body := body.(filter := body.filter + [PopulationAtLeast(filters.minPopulation.value)]);
    }
    if TruthyString(filters.state) {
      body := body.(filter := body.filter + [StateIs(filters.state.value)]);
    }
    FilterList(filters, body.filter);
  }

  /** The body the POST handler actually sends: `esSearch(query, limit)`,
      the same as GET's, with no filter. */
  function PostSearchBody(request: PostRequest): (body: SearchBody)
    ensures body.size == LimitOf(request) && body.sort == RelevanceOrder
    ensures body.query.MatchAll? <==> Text.IsBlank(QueryOf(request))
    ensures body.query.Should? ==> body.query.clauses == ShouldClauses(QueryOf(request))
  {
    EsSearchBody(QueryOf(request), LimitOf(request))
  }

  /** What the POST handler answered, the filtered body it built, and the body it sent. */
  datatype PostRun = PostRun(result: CitySearchResult, status: int, built: Option<FilteredBody>, sent: Option<SearchBody>)

  /** POST as written: the filtered body is built and then not used; the
      search sent is `esSearch(query, limit)`, even for a blank query. */
  method Post(request: Result<PostRequest, Thrown>, search: SearchBody -> Result<SearchResponse, Thrown>)
    returns (run: PostRun)
    ensures request.Failure? ==>
      run == PostRun(SearchFailure(request.error), InternalServerError, None, None)
    ensures request.Success? ==>
      && run.sent == Some(PostSearchBody(request.value))
      && run.built.Some? && BuiltFiltered(request.value, run.built.value)
    ensures request.Success? && search(PostSearchBody(request.value)).Success? ==>
      var response := search(PostSearchBody(request.value)).value;
      run.status == Ok && run.result.cities == ProjectHits(response.hits) &&
      run.result.total == response.totalValue && run.result.statusCode == Ok
    ensures request.Success? && search(PostSearchBody(request.value)).Failure? ==>
      run.status == InternalServerError && run.result == SearchFailure(search(PostSearchBody(request.value)).error)
  {
    if request.Failure? {
      return PostRun(SearchFailure(request.error), InternalServerError, None, None);
    }
    var built := BuildFilteredBody(request.value);
    var sent := EsSearchBody(QueryOf(request.value), LimitOf(request.value));
    match search(sent)
    case Failure(e) =>
      run := PostRun(SearchFailure(e), InternalServerError, Some(built), Some(sent));
    case Success(response) =>
      var cities := ProjectHits(response.hits);
      run := PostRun(CitySearchResult(cities, response.totalValue, Ok, FoundWithFilters(|cities|, response.took)),
                     Ok, Some(built), Some(sent));
  }

  /** The filters do not reach the engine: whatever population and state a
      request asks for, it sends the same body as the request without them. */
  lemma PostDropsFilters(request: PostRequest)
    ensures PostSearchBody(request)
         == PostSearchBody(request.(filters := Some(Filters(FiltersOf(request).limit, None, None))))
  {
  }

  /** For a non-blank query, POST sends the same body as GET with the same limit. */
  lemma PostSendsGetBody(request: PostRequest, search: SearchBody -> Result<SearchResponse, Thrown>)
    requires !Text.IsBlank(QueryOf(request))
    ensures Get(request.query, Some(LimitOf(request)), search).sent == Some(PostSearchBody(request))
  {
  }

  /** POST as evidently intended: the filtered body is the one sent, so the
      engine receives the population range and the state term. */
  method PostFiltered(request: Result<PostRequest, Thrown>, search: FilteredBody -> Result<SearchResponse, Thrown>)
    returns (result: CitySearchResult, status: int, sent: Option<FilteredBody>)
    ensures request.Failure? ==> sent.None? && status == InternalServerError
    ensures request.Success? ==> sent.Some? && BuiltFiltered(request.value, sent.value)
    ensures request.Success? && search(sent.value).Success? ==>
      status == Ok && result.cities == ProjectHits(search(sent.value).value.hits)
    ensures request.Success? && search(sent.value).Failure? ==>
      status == InternalServerError && result.cities == []
  {
    if request.Failure? {
      return SearchFailure(request.error), InternalServerError, None;
    }
    var body := BuildFilteredBody(request.value);
    sent := Some(body);
    match search(body)
    case Failure(e) =>
      result, status := SearchFailure(e), InternalServerError;
    case Success(response) =>
      var cities := ProjectHits(response.hits);
      result := CitySearchResult(cities, response.totalValue, Ok, FoundWithFilters(|cities|, response.took));
      status := Ok;
  }
}
