/** The same reindex over raw HTTPS requests (POST and GET
    /api/cities/sync-direct): the bulk body is serialised line by line and
    framed as newline-delimited JSON, and every remote answer is classified by
    its status code before it is used. */
module CitySyncDirect {
  import opened Wrappers
  import opened Js
  import Text
  import opened CitySync

  /** A completed HTTP exchange: the status code and the raw response text. */
  datatype Reply = Reply(statusCode: int, data: string)

  /** `esRequest`: a transport error rejects; otherwise the request resolves
      exactly when the status is in [200, 300), with the response text, and
      rejects with "ES request failed: <status> <data>" otherwise. */
  function EsRequest(exchange: Result<Reply, Thrown>): (r: Result<string, Thrown>)
    ensures r.Success? <==> exchange.Success? && IsSuccessStatus(exchange.value.statusCode)
    ensures r.Success? ==> r.value == exchange.value.data
    ensures exchange.Failure? ==> r == Failure(exchange.error)
  {
    match exchange
    case Failure(e) => Failure(e)
    case Success(reply) =>
      if IsSuccessStatus(reply.statusCode) then Success(reply.data)
      else Failure(ErrorObject("ES request failed: " + Text.IntToString(reply.statusCode) + " " + reply.data))
  }

  // ---------------------------------------------------------------------------
  // The NDJSON bulk payload

  /** Each bulk entry serialised by `stringify` (the model of `JSON.stringify`). */
  function Serialize(ops: seq<BulkOp>, stringify: BulkOp -> string): (lines: seq<string>)
    ensures |lines| == |ops|
    ensures forall i :: 0 <= i < |ops| ==> lines[i] == stringify(ops[i])
  {
    seq(|ops|, i requires 0 <= i < |ops| => stringify(ops[i]))
  }

  /** Builds the bulk lines by pushing, for each row, its serialised action
      and its serialised document: the library variant's bulk body, line by line. */
  method BuildBulkLines(rows: seq<CityRow>, stringify: BulkOp -> string) returns (lines: seq<string>)
    ensures lines == Serialize(BulkBody(rows), stringify)
  {
    lines := [];
    for i := 0 to |rows|
      invariant lines == Serialize(BulkBody(rows[..i]), stringify)
    {
      var city := rows[i];
      assert rows[..i + 1][..i] == rows[..i];
      lines := lines + [stringify(Action(city))];
      lines := lines + [stringify(Source(ToDocument(city)))];
    }
    assert rows[..|rows|] == rows;
  }

  /** `lines.join('\n') + '\n'` */
  function Payload(lines: seq<string>): (p: string)
    ensures |p| >= 1 && p[|p| - 1] == '\n'
  {
    Text.Join(lines, "\n") + "\n"
  }

  predicate NewlineFree(line: string) {
    '\n' !in line
  }

  /** Framing newline-free lines puts one newline after each line and nowhere
      else: the payload holds as many newlines as lines, and splitting it on
      newlines gives the lines back followed by the empty text after the last
      newline. */
  lemma PayloadFraming(lines: seq<string>)
    requires |lines| >= 1
    requires forall k :: 0 <= k < |lines| ==> NewlineFree(lines[k])
    ensures Text.Count(Payload(lines), '\n') == |lines|
    ensures Text.Split(Payload(lines), '\n') == lines + [""]
  {
    Text.JoinCount(lines, '\n');
    Text.CountAppend(Text.Join(lines, "\n"), "\n", '\n');
    Text.JoinSnoc(lines, "", "\n");
    assert Text.Join(lines, "\n") + "\n" + "" == Payload(lines);
    Text.SplitJoin(lines + [""], '\n');
  }

  /** For a non-empty table the payload frames 2n lines, the action and the
      document of each row. */
  lemma BulkPayloadFraming(rows: seq<CityRow>, stringify: BulkOp -> string)
    requires |rows| >= 1
    requires forall op :: NewlineFree(stringify(op))
    ensures Text.Count(Payload(Serialize(BulkBody(rows), stringify)), '\n') == 2 * |rows|
    ensures Text.Split(Payload(Serialize(BulkBody(rows), stringify)), '\n')
            == Serialize(BulkBody(rows), stringify) + [""]
  {
    PayloadFraming(Serialize(BulkBody(rows), stringify));
  }

  // ---------------------------------------------------------------------------
  // The bulk exchange

  /** The bulk request's answer: status, raw text, and the parsed response
      when the text parses. */
  datatype BulkReply = BulkReply(statusCode: int, data: string, parsed: Option<BulkResponse>)

  /** The bulk request resolves with the parsed response exactly when the
      exchange completed with a status in [200, 300) and the text parsed. */
  function BulkOutcome(exchange: Result<BulkReply, Thrown>): (r: Result<BulkResponse, Thrown>)
    ensures r.Success? <==>
      exchange.Success? && IsSuccessStatus(exchange.value.statusCode) && exchange.value.parsed.Some?
    ensures r.Success? ==> r.value == exchange.value.parsed.value
    ensures exchange.Failure? ==> r == Failure(exchange.error)
  {
    match exchange
    case Failure(e) => Failure(e)
    case Success(reply) =>
      if !IsSuccessStatus(reply.statusCode) then
        Failure(ErrorObject("Bulk request failed: " + Text.IntToString(reply.statusCode) + " " + reply.data))
      else if reply.parsed.None? then
        Failure(ErrorObject("Failed to parse bulk response: " + reply.data))
      else
        Success(reply.parsed.value)
  }

  /** What a direct reindex answered, and the payload it sent if it got that far. */
  datatype DirectRun = DirectRun(response: Response, payloadSent: Option<string>)

  /** POST: recreate the index through `esRequest`, read the rows, send the
      NDJSON payload and report with the same rules as the library variant. */
  method Sync(
    createIndex: IndexConfig -> Result<Reply, Thrown>,
    fetched: Result<seq<CityRow>, Thrown>,
    stringify: BulkOp -> string,
    bulk: string -> Result<BulkReply, Thrown>)
    returns (run: DirectRun)
    ensures EsRequest(createIndex(CityIndexConfig)).Failure? ==>
      run == DirectRun(Crashed(EsRequest(createIndex(CityIndexConfig)).error), None)
    ensures EsRequest(createIndex(CityIndexConfig)).Success? && fetched.Failure? ==>
      run == DirectRun(Crashed(fetched.error), None)
    ensures EsRequest(createIndex(CityIndexConfig)).Success? && fetched == Success([]) ==>
      run == DirectRun(NothingToIndex(), None)
    ensures EsRequest(createIndex(CityIndexConfig)).Success? && fetched.Success? && fetched.value != [] ==>
      var payload := Payload(Serialize(BulkBody(fetched.value), stringify));
      run.payloadSent == Some(payload) &&
      run.response == Settle(|fetched.value|, BulkOutcome(bulk(payload)))
  {
    var created := EsRequest(createIndex(CityIndexConfig));
    if created.Failure? {
      return DirectRun(Crashed(created.error), None);
    }
    if fetched.Failure? {
      return DirectRun(Crashed(fetched.error), None);
    }
    var cities := fetched.value;
    if |cities| == 0 {
      return DirectRun(NothingToIndex(), None);
    }
    var lines := BuildBulkLines(cities, stringify);
    var payload := Payload(lines);
    var answer := BulkOutcome(bulk(payload));
    if answer.Failure? {
      return DirectRun(Crashed(answer.error), Some(payload));
    }
    var errors := CollectErrors(answer.value);
    run := DirectRun(Report(|cities|, errors), Some(payload));
  }

  // ---------------------------------------------------------------------------
  // GET: the index status

  /** The parsed count response; `count` may be missing. */
  datatype CountBody = CountBody(count: Option<int>)

  datatype CountReply = CountReply(statusCode: int, data: string, parsed: Option<CountBody>)

  datatype StatusMessage = IndexMissing | IndexReady | StatusCheckFailed(reason: string)

  datatype IndexStatus = IndexStatus(indexed: bool, message: StatusMessage, count: int)

  datatype StatusReply = StatusReply(body: IndexStatus, status: int)

  /** GET: a HEAD status of 404 means the index is missing and no count is
      requested; any other HEAD status leads to a count request, whose answer
      must have a status in [200, 300) and parse, and whose count defaults to
      0. A transport error or a failed count request answers 500. */
  function Status(head: Result<int, Thrown>, count: Result<CountReply, Thrown>): (r: StatusReply)
    ensures head == Success(404) ==> r == StatusReply(IndexStatus(false, IndexMissing, 0), Ok)
    ensures r.body.indexed <==>
      head.Success? && head.value != 404 &&
      count.Success? && IsSuccessStatus(count.value.statusCode) && count.value.parsed.Some?
    ensures r.body.indexed ==>
      r.status == Ok && r.body.message == IndexReady &&
      r.body.count == count.value.parsed.value.count.GetOr(0)
    ensures !r.body.indexed ==> r.body.count == 0
    ensures r.status == InternalServerError <==> !r.body.indexed && head != Success(404)
  {
    match head
    case Failure(e) => StatusReply(IndexStatus(false, StatusCheckFailed(Describe(e)), 0), InternalServerError)
    case Success(code) =>
      if code == 404 then StatusReply(IndexStatus(false, IndexMissing, 0), Ok)
      else
        match count
        case Failure(e) => StatusReply(IndexStatus(false, StatusCheckFailed(Describe(e)), 0), InternalServerError)
        case Success(reply) =>
          if !IsSuccessStatus(reply.statusCode) then
            var reason := "Count request failed: " + Text.IntToString(reply.statusCode) + " " + reply.data;
            StatusReply(IndexStatus(false, StatusCheckFailed(reason), 0), InternalServerError)
          else if reply.parsed.None? then
            var reason := "Failed to parse count response: " + reply.data;
            StatusReply(IndexStatus(false, StatusCheckFailed(reason), 0), InternalServerError)
          else
            StatusReply(IndexStatus(true, IndexReady, reply.parsed.value.count.GetOr(0)), Ok)
  }
}
