/** The reindex of the `cities` table into the `cities` search index through
    the Elasticsearch client library (POST /api/cities/sync): recreate the
    index, read every row, send one bulk request of header/document pairs and
    turn the per-item failures of the bulk response into a summary. */
module CitySync {
  import opened Wrappers
  import opened Js
  import Text

  const IndexName := "cities"

  /** The summary reports at most this many error lines. */
  const MaxReportedErrors := 10

  /** A row of the relational `cities` table. */
  datatype CityRow = CityRow(id: int, name: string, state: string, population: int, description: string)

  /** The completion-suggester input of an indexed city, with its weight. */
  datatype Suggest = Suggest(input: seq<string>, weight: int)

  /** The document indexed for a row: the row's fields plus the derived
      `location` and `suggest` fields. */
  datatype CityDoc = CityDoc(
    id: int, name: string, state: string, population: int, description: string,
    location: string, suggest: Suggest)

  /** An entry of the bulk request body: an index action naming the target
      index and document id, or the document that follows it. */
  datatype BulkOp = IndexAction(index: string, id: string) | Source(doc: CityDoc)

  /** The index settings and mapping the reindex creates. The search engine
      interprets them; here they are a constant that is passed along. */
  datatype IndexConfig = IndexConfig(
    shards: nat, replicas: nat, analyzerTokenizer: string, analyzerFilters: seq<string>,
    integerFields: seq<string>, textFields: seq<string>,
    keywordSubfields: seq<string>, completionSubfields: seq<string>)

  const CityIndexConfig := IndexConfig(
    1, 0, "standard", ["lowercase", "asciifolding"],
    ["id", "population"], ["name", "state", "description", "location"],
    ["name", "state"], ["name"])

  // ---------------------------------------------------------------------------
  // Documents and the bulk body

  /** The combined "name, state" field. */
  function Location(name: string, state: string): (loc: string)
    ensures |loc| == |name| + 2 + |state|
    ensures loc[..|name|] == name && loc[|name|..|name| + 2] == ", " && loc[|name| + 2..] == state
  {
    name + ", " + state
  }

  /** `Math.floor(population / 1000)` */
  function Weight(population: int): (w: int)
    ensures w * 1000 <= population < (w + 1) * 1000
  {
    population / 1000
  }

  /** The document for a row: the five row fields unchanged, the location,
      and a suggestion over the name, the location and the state weighted by
      population in thousands. */
  function ToDocument(row: CityRow): (doc: CityDoc)
    ensures doc.id == row.id && doc.name == row.name && doc.state == row.state
    ensures doc.population == row.population && doc.description == row.description
    ensures doc.location == Location(row.name, row.state)
    ensures doc.suggest.input == [row.name, doc.location, row.state]
    ensures doc.suggest.weight * 1000 <= row.population < (doc.suggest.weight + 1) * 1000
  {
    var location := Location(row.name, row.state);
    CityDoc(row.id, row.name, row.state, row.population, row.description,
            location, Suggest([row.name, location, row.state], Weight(row.population)))
  }

  /** The index action for a row: it targets the cities index, under the row
      id in decimal, from which the id reads back. */
  function Action(row: CityRow): (op: BulkOp)
    ensures op.IndexAction? && op.index == IndexName
    ensures Text.Decimal(op.id) && Text.ReadInt(op.id) == row.id
  {
    Text.IntToStringRoundTrip(row.id);
    IndexAction(IndexName, Text.IntToString(row.id))
  }

  /** The bulk body for the rows: for each row its index action followed by its document. */
  function BulkBody(rows: seq<CityRow>): (ops: seq<BulkOp>)
    ensures |ops| == 2 * |rows|
  {
    if rows == [] then []
    else
      var last := rows[|rows| - 1];
      BulkBody(rows[..|rows| - 1]) + [Action(last), Source(ToDocument(last))]
  }

  /** Entry 2i of the bulk body is row i's index action and entry 2i+1 its
      document, so the pairs come in row order. */
  lemma {:induction false} BulkBodyAt(rows: seq<CityRow>, i: nat)
    requires i < |rows|
    ensures BulkBody(rows)[2 * i] == Action(rows[i])
    ensures BulkBody(rows)[2 * i + 1] == Source(ToDocument(rows[i]))
  {
    var init, last := rows[..|rows| - 1], rows[|rows| - 1];
    var head := BulkBody(init);
    assert BulkBody(rows) == head + [Action(last), Source(ToDocument(last))];
    if i < |init| {
      BulkBodyAt(init, i);
      assert init[i] == rows[i];
      assert BulkBody(rows)[2 * i] == head[2 * i];
      assert BulkBody(rows)[2 * i + 1] == head[2 * i + 1];
    } else {
      assert rows[i] == last && 2 * i == |head|;
    }
  }

  /** Rows with different ids are indexed under different document ids, so
      reindexing replaces documents instead of duplicating them. */
  lemma DistinctIdsDistinctActions(a: CityRow, b: CityRow)
    ensures a.id != b.id ==> Action(a) != Action(b)
  {
    Text.IntToStringInjective(a.id, b.id);
  }

  /** Builds the bulk body by pushing, for each row, its action and its document. */
  method BuildBulkOperations(rows: seq<CityRow>) returns (ops: seq<BulkOp>)
    ensures ops == BulkBody(rows)
  {
    ops := [];
    for i := 0 to |rows|
      invariant ops == BulkBody(rows[..i])
    {
      var city := rows[i];
      assert rows[..i + 1][..i] == rows[..i];
      ops := ops + [Action(city)];
      ops := ops + [Source(ToDocument(city))];
    }
    assert rows[..|rows|] == rows;
  }

  // ---------------------------------------------------------------------------
  // The bulk response and its error lines

  datatype ItemError = ItemError(reason: string)

  /** The `index` entry of a bulk response item: the document id and an error if it failed. */
  datatype ItemStatus = ItemStatus(id: string, error: Option<ItemError>)

  datatype BulkItem = BulkItem(index: Option<ItemStatus>)

  /** The parts of a bulk response the reindex reads: the `errors` flag and the items. */
  datatype BulkResponse = BulkResponse(errors: bool, items: seq<BulkItem>)

  /** `item.index?.error` is set. */
  predicate Failed(item: BulkItem) {
    item.index.Some? && item.index.value.error.Some?
  }

  /** "ID <_id>: <reason>" */
  function ErrorLine(item: BulkItem): (line: string)
    requires Failed(item)
    ensures |line| == 5 + |item.index.value.id| + |item.index.value.error.value.reason|
    ensures line[..3] == "ID " && line[3..3 + |item.index.value.id|] == item.index.value.id
    ensures line[3 + |item.index.value.id|..5 + |item.index.value.id|] == ": "
    ensures line[|line| - |item.index.value.error.value.reason|..] == item.index.value.error.value.reason
  {
    "ID " + item.index.value.id + ": " + item.index.value.error.value.reason
  }

  /** One error line per failed item, in item order. */
  function ItemErrors(items: seq<BulkItem>): (errors: seq<string>)
    ensures |errors| <= |items|
    ensures errors == [] <==> forall i :: 0 <= i < |items| ==> !Failed(items[i])
  {
    if items == [] then []
    else
      var init, last := items[..|items| - 1], items[|items| - 1];
      assert forall i :: 0 <= i < |init| ==> init[i] == items[i];
      ItemErrors(init) + (if Failed(last) then [ErrorLine(last)] else [])
  }

  /** Every failed item contributes its line, and every line comes from a failed item. */
  lemma {:induction false} ItemErrorsExact(items: seq<BulkItem>)
    ensures forall i :: 0 <= i < |items| && Failed(items[i]) ==> ErrorLine(items[i]) in ItemErrors(items)
    ensures forall e :: e in ItemErrors(items) ==>
      exists i :: 0 <= i < |items| && Failed(items[i]) && e == ErrorLine(items[i])
  {
    if items != [] {
      var init := items[..|items| - 1];
      ItemErrorsExact(init);
      assert forall i :: 0 <= i < |init| ==> init[i] == items[i];
    }
  }

  /** The error lines of the first j items are the first error lines of all
      items: later items only ever append, so lines keep the item order. */
  lemma {:induction false} ItemErrorsPrefix(items: seq<BulkItem>, j: nat)
    requires j <= |items|
    ensures ItemErrors(items[..j]) <= ItemErrors(items)
    decreases |items| - j
  {
    if j < |items| {
      ItemErrorsPrefix(items, j + 1);
      var init := items[..j + 1];
      assert init[..|init| - 1] == items[..j];
    } else {
      assert items[..j] == items;
    }
  }

  /** The number of failed items, counted from the front. */
  function CountFailed(items: seq<BulkItem>): nat {
    if items == [] then 0 else (if Failed(items[0]) then 1 else 0) + CountFailed(items[1..])
  }

  lemma {:induction false} CountFailedSnoc(items: seq<BulkItem>, item: BulkItem)
    ensures CountFailed(items + [item]) == CountFailed(items) + (if Failed(item) then 1 else 0)
  {
    if items != [] {
      assert (items + [item])[1..] == items[1..] + [item];
      CountFailedSnoc(items[1..], item);
    }
  }

  /** Exactly one error line per failed item. */
  lemma {:induction false} ItemErrorsCount(items: seq<BulkItem>)
    ensures |ItemErrors(items)| == CountFailed(items)
  {
    if items != [] {
      var init, last := items[..|items| - 1], items[|items| - 1];
      ItemErrorsCount(init);
      CountFailedSnoc(init, last);
      assert init + [last] == items;
    }
  }

  /** The error lines of a bulk response: none unless its `errors` flag is set. */
  function ErrorMessages(response: BulkResponse): (errors: seq<string>)
    ensures !response.errors ==> errors == []
    ensures response.errors ==> errors == ItemErrors(response.items)
  {
    if response.errors then ItemErrors(response.items) else []
  }

  /** Walks the bulk response, pushing an error line for every failed item. */
  method CollectErrors(response: BulkResponse) returns (errors: seq<string>)
    ensures errors == ErrorMessages(response)
  {
    errors := [];
    if response.errors {
      var items := response.items;
      for i := 0 to |items|
        invariant errors == ItemErrors(items[..i])
      {
        var item := items[i];
        assert items[..i + 1][..i] == items[..i];
        if item.index.Some? && item.index.value.error.Some? {
          errors := errors + [ErrorLine(item)];
        }
      }
      assert items[..|items|] == items;
    }
  }

  // ---------------------------------------------------------------------------
  // The summary

  /** The summary's message; the elapsed time it also mentions is not modelled. */
  datatype Message =
    | NoCities
    | AllIndexed(indexed: int)
    | PartlyIndexed(indexed: int, total: int, errorCount: int)
    | SyncFailed(reason: string)

  datatype SyncResult = SyncResult(
    success: bool, message: Message, totalCities: int, indexedCities: int,
    errors: Option<seq<string>>)

  /** A summary with the HTTP status it is sent with. */
  datatype Response = Response(result: SyncResult, status: int)

  function Min(a: int, b: int): int {
    if a <= b then a else b
  }

  /** The summary of a completed bulk request over `total` rows with the
      given error lines: every error counts against the indexed total, the
      reported list is capped, and a run with errors is a partial success. */
  function Report(total: nat, errors: seq<string>): (r: Response)
    ensures r.result.totalCities == total
    ensures r.result.indexedCities == total - |errors|
    ensures r.result.success <==> errors == []
    ensures r.result.errors.Some? <==> errors != []
    ensures r.result.errors.Some? ==>
      |r.result.errors.value| == Min(|errors|, MaxReportedErrors) && r.result.errors.value <= errors
    ensures r.status == Ok <==> errors == []
    ensures r.status == MultiStatus <==> errors != []
  {
    var indexed := total - |errors|;
    if errors == [] then
      Response(SyncResult(true, AllIndexed(indexed), total, indexed, None), Ok)
    else
      Response(
        SyncResult(false, PartlyIndexed(indexed, total, |errors|), total, indexed,
                   Some(errors[..Min(|errors|, MaxReportedErrors)])),
        MultiStatus)
  }

  /** The summary when the source table is empty. */
  function NothingToIndex(): (r: Response)
    ensures !r.result.success && r.result.totalCities == 0 && r.result.indexedCities == 0
    ensures r.result.errors.None? && r.status == NotFound
  {
    Response(SyncResult(false, NoCities, 0, 0, None), NotFound)
  }

  /** The summary when a step threw. */
  function Crashed(e: Thrown): (r: Response)
    ensures !r.result.success && r.result.totalCities == 0 && r.result.indexedCities == 0
    ensures r.result.errors.None? && r.status == InternalServerError
    ensures r.result.message == SyncFailed(Describe(e))
  {
    Response(SyncResult(false, SyncFailed(Describe(e)), 0, 0, None), InternalServerError)
  }

  /** The summary once the bulk request over `total` rows has resolved or thrown. */
  function Settle(total: nat, bulk: Result<BulkResponse, Thrown>): (r: Response)
    ensures bulk.Failure? ==> r == Crashed(bulk.error)
    ensures bulk.Success? ==> r == Report(total, ErrorMessages(bulk.value))
    ensures r.status in {Ok, MultiStatus, InternalServerError}
    ensures r.result.success <==> r.status == Ok
  {
    match bulk
    case Failure(e) => Crashed(e)
    case Success(response) => Report(total, ErrorMessages(response))
  }

  /** K failed items out of a completed bulk request over `total` rows:
      indexedCities is total - K, the run succeeds with 200 iff K is 0, and
      otherwise min(K, 10) lines are listed. */
  lemma ReportedFailures(total: nat, response: BulkResponse)
    ensures var r := Settle(total, Success(response));
      var k := if response.errors then CountFailed(response.items) else 0;
      && r.result.indexedCities == total - k
      && (r.status == Ok <==> k == 0)
      && (k > 0 ==> r.result.errors.Some? && |r.result.errors.value| == Min(k, MaxReportedErrors))
  {
    ItemErrorsCount(response.items);
  }

  // ---------------------------------------------------------------------------
  // The handler

  /** What a reindex answered, and the bulk body it sent if it got that far. */
  datatype SyncRun = SyncRun(response: Response, bulkSent: Option<seq<BulkOp>>)

  /** POST: recreate the index, read the rows, index them in bulk and report.
      The remote calls are parameters: `createIndex` receives the index
      configuration, `fetched` is the outcome of the table read, and `bulk`
      answers a bulk body. Deleting the old index is left out because any
      failure there is swallowed. */
  method Sync(
    createIndex: IndexConfig -> Result<(), Thrown>,
    fetched: Result<seq<CityRow>, Thrown>,
    bulk: seq<BulkOp> -> Result<BulkResponse, Thrown>)
    returns (run: SyncRun)
    ensures createIndex(CityIndexConfig).Failure? ==>
      run == SyncRun(Crashed(createIndex(CityIndexConfig).error), None)
    ensures createIndex(CityIndexConfig).Success? && fetched.Failure? ==>
      run == SyncRun(Crashed(fetched.error), None)
    ensures createIndex(CityIndexConfig).Success? && fetched == Success([]) ==>
      run == SyncRun(NothingToIndex(), None)
    ensures createIndex(CityIndexConfig).Success? && fetched.Success? && fetched.value != [] ==>
      run.bulkSent == Some(BulkBody(fetched.value)) &&
      run.response == Settle(|fetched.value|, bulk(BulkBody(fetched.value)))
  {
    var created := createIndex(CityIndexConfig);
    if created.Failure? {
      return SyncRun(Crashed(created.error), None);
    }
    if fetched.Failure? {
      return SyncRun(Crashed(fetched.error), None);
    }
    var cities := fetched.value;
    if |cities| == 0 {
      return SyncRun(NothingToIndex(), None);
    }
    var ops := BuildBulkOperations(cities);
    var answer := bulk(ops);
    if answer.Failure? {
      return SyncRun(Crashed(answer.error), Some(ops));
    }
    var errors := CollectErrors(answer.value);
    run := SyncRun(Report(|cities|, errors), Some(ops));
  }
}
