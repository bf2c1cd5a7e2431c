/** Full-text search over the generic document index (POST /api/search):
    validation of the query, the defaults, the `multi_match` clause, the
    highlight request, the optional filters, and the classification of
    failures into 503 and 500. */
module DocumentSearch {
  import opened Wrappers
  import opened Js
  import Text

  const DefaultIndex := "documents"
  const DefaultSize := 10
  const DefaultFrom := 0

  /** The fields searched, the title boosted twice. */
  const SearchedFields := ["title^2", "content", "tags"]

  datatype DateRange = DateRange(from: Option<string>, to: Option<string>)

  datatype SearchFilters = SearchFilters(tags: Option<seq<string>>, dateRange: Option<DateRange>)

  /** The request body; absent fields are `None`. */
  datatype SearchRequest = SearchRequest(
    query: Option<string>, index: Option<string>, size: Option<int>, from: Option<int>,
    filters: Option<SearchFilters>)

  datatype MultiMatch = MultiMatch(query: string, fields: seq<string>, matchType: string, fuzziness: string)

  /** A `terms` filter on a field, or a `range` filter with optional inclusive bounds. */
  datatype Filter =
    | Terms(field: string, values: seq<string>)
    | Range(field: string, gte: Option<string>, lte: Option<string>)

  datatype HighlightField = HighlightField(field: string, fragmentSize: Option<nat>, numberOfFragments: Option<nat>)

  /** The search the handler sends: the target index and the body. */
  datatype SearchBody = SearchBody(
    index: string, must: seq<MultiMatch>, filter: seq<Filter>, highlight: seq<HighlightField>,
    size: int, from: int)

  /** The title highlighted whole, the content in up to 3 fragments of 150 characters. */
  const Highlight := [HighlightField("title", None, None), HighlightField("content", Some(150), Some(3))]

  /** Tags given and non-empty. */
  predicate HasTags(filters: SearchFilters) {
    filters.tags.Some? && |filters.tags.value| > 0
  }

  /** The query is missing, empty or white space only. */
  predicate MissingQuery(request: SearchRequest) {
    request.query.None? || Text.IsBlank(request.query.value)
  }

  /** The search built for a valid query: defaults applied where a field is
      absent, one `multi_match` clause, the highlight request, then a `terms`
      filter when tags are given and non-empty, then a `range` filter on
      `created_at` when a date range is given, with a lower bound when `from`
      is non-empty and an upper bound when `to` is non-empty. */
  predicate BuiltSearch(query: string, request: SearchRequest, body: SearchBody) {
    && body.index == request.index.GetOr(DefaultIndex)
    && body.size == request.size.GetOr(DefaultSize)
    && body.from == request.from.GetOr(DefaultFrom)
    && body.must == [MultiMatch(query, SearchedFields, "best_fields", "AUTO")]
    && body.highlight == Highlight
    && |body.filter| <= 2
    && (request.filters.None? ==> body.filter == [])
    && ((exists k :: 0 <= k < |body.filter| && body.filter[k].Terms?)
        <==> request.filters.Some? && HasTags(request.filters.value))
    && ((exists k :: 0 <= k < |body.filter| && body.filter[k].Range?)
        <==> request.filters.Some? && request.filters.value.dateRange.Some?)
    && (forall k :: 0 <= k < |body.filter| && body.filter[k].Terms? ==>
          body.filter[k] == Terms("tags", request.filters.value.tags.value))
    && (forall k :: 0 <= k < |body.filter| && body.filter[k].Range? ==>
          var range := request.filters.value.dateRange.value;
          && body.filter[k].field == "created_at"
          && (body.filter[k].gte.Some? <==> TruthyString(range.from))
          && (body.filter[k].gte.Some? ==> body.filter[k].gte == range.from)
          && (body.filter[k].lte.Some? <==> TruthyString(range.to))
          && (body.filter[k].lte.Some? ==> body.filter[k].lte == range.to))
    && (|body.filter| == 2 ==> body.filter[0].Terms? && body.filter[1].Range?)
  }

  /** Builds the search for a valid query, pushing the filters in order. */
  method BuildSearch(query: string, request: SearchRequest) returns (body: SearchBody)
    ensures BuiltSearch(query, request, body)
  {
    var filter: seq<Filter> := [];
    if request.filters.Some? {
      var filters := request.filters.value;
      if filters.tags.Some? && |filters.tags.value| > 0 {
        filter := filter + [Terms("tags", filters.tags.value)];
      }
      if filters.dateRange.Some? {
        var range := filters.dateRange.value;
        var dateFilter := Range("created_at", None, None);
        if TruthyString(range.from) {
          dateFilter := dateFilter.(gte := range.from);
        }
        if TruthyString(range.to) {
          dateFilter := dateFilter.(lte := range.to);
        }
        filter := filter + [dateFilter];
      }
    }
    body := SearchBody(
      request.index.GetOr(DefaultIndex),
      [MultiMatch(query, SearchedFields, "best_fields", "AUTO")],
      filter, Highlight,
      request.size.GetOr(DefaultSize), request.from.GetOr(DefaultFrom));
    if request.filters.Some? && HasTags(request.filters.value) {
      assert body.filter[0].Terms?;
    }
    if request.filters.Some? && request.filters.value.dateRange.Some? {
      assert body.filter[|body.filter| - 1].Range?;
    }
  }

  /** A caught error maps to 503 when it is an `Error` whose message
      mentions ECONNREFUSED, and to 500 otherwise. */
  function ErrorStatus(e: Thrown): (status: int)
    ensures status == ServiceUnavailable <==> e.ErrorObject? && Text.Contains(e.message, "ECONNREFUSED")
    ensures status == InternalServerError <==> !(e.ErrorObject? && Text.Contains(e.message, "ECONNREFUSED"))
  {
    if e.ErrorObject? && Text.Contains(e.message, "ECONNREFUSED") then ServiceUnavailable else InternalServerError
  }

  /** A connection-refused message maps to 503 wherever the code appears in it. */
  lemma ConnectionRefusedAnywhere(prefix: string, suffix: string)
    ensures ErrorStatus(ErrorObject(prefix + "ECONNREFUSED" + suffix)) == ServiceUnavailable
  {
    var m := prefix + "ECONNREFUSED" + suffix;
    assert Text.OccursAt(m, "ECONNREFUSED", |prefix|) by {
      assert m[|prefix|..|prefix| + 12] == "ECONNREFUSED";
    }
    Text.ContainsIffOccurs(m, "ECONNREFUSED");
  }

  /** The answer body: the engine's response passed through, or an error. */
  datatype ReplyBody<R> =
    | Hits(response: R)
    | QueryRequired
    | EngineUnavailable
    | InternalError(details: string)

  /** What the handler answered, and the search it sent if any. */
  datatype SearchReply<R> = SearchReply(status: int, body: ReplyBody<R>, sent: Option<SearchBody>)

  /** The answer to a caught error: 503 with "Search engine unavailable",
      or 500 with the error's message as details. */
  function ErrorReply<R>(e: Thrown, sent: Option<SearchBody>): (r: SearchReply<R>)
    ensures r.status == ErrorStatus(e) && r.sent == sent
    ensures r.status == ServiceUnavailable ==> r.body == EngineUnavailable
    ensures r.status == InternalServerError ==> r.body == InternalError(Describe(e))
  {
    if ErrorStatus(e) == ServiceUnavailable then SearchReply(ServiceUnavailable, EngineUnavailable, sent)
    else SearchReply(InternalServerError, InternalError(Describe(e)), sent)
  }

  /** POST: a request that cannot be read is classified like any other
      failure; a missing or blank query answers 400 without searching;
      otherwise the built search is sent and its response returned as is,
      or its failure classified. */
  method Search<R>(request: Result<SearchRequest, Thrown>, engine: SearchBody -> Result<R, Thrown>)
    returns (reply: SearchReply<R>)
    ensures request.Failure? ==> reply == ErrorReply(request.error, None)
    ensures request.Success? && MissingQuery(request.value) ==>
      reply == SearchReply(BadRequest, QueryRequired, None)
    ensures request.Success? && !MissingQuery(request.value) ==>
      reply.sent.Some? && BuiltSearch(request.value.query.value, request.value, reply.sent.value)
    ensures request.Success? && !MissingQuery(request.value) && engine(reply.sent.value).Success? ==>
      reply.status == Ok && reply.body == Hits(engine(reply.sent.value).value)
    ensures request.Success? && !MissingQuery(request.value) && engine(reply.sent.value).Failure? ==>
      reply == ErrorReply(engine(reply.sent.value).error, reply.sent)
    ensures reply.status in {Ok, BadRequest, InternalServerError, ServiceUnavailable}
  {
    if request.Failure? {
      return ErrorReply(request.error, None);
    }
    var req := request.value;
    if req.query.None? || Text.IsBlank(req.query.value) {
      return SearchReply(BadRequest, QueryRequired, None);
    }
    var body := BuildSearch(req.query.value, req);
    match engine(body)
    case Failure(e) =>
      reply := ErrorReply(e, Some(body));
    case Success(response) =>
      reply := SearchReply(Ok, Hits(response), Some(body));
  }
}
