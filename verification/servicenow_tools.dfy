/** The three record tools offered to the admin agent (query, create,
    update) and the lenient aggregate-count helpers behind the dashboard.

    Each tool is split into `Plan`, which parses the tool input and either
    rejects it with a fixed message or builds the one request to send, and
    `Render`, which turns the store's response into the observation text the
    agent reads. `Run` composes them around a store. */
module ServiceNowTools {
  import opened Wrappers
  import opened PyStr
  import opened PyJson
  import opened Remote

  /** The rejection texts for malformed tool input name the expected grammar. */
  const FormatErrorLead: string := "Error: Input must be in format "
  const QueryFormatError: string := FormatErrorLead + "'table_name|query_string'"
  const CreateFormatError: string := FormatErrorLead + "'table_name|json_data'"
  const UpdateFormatError: string := FormatErrorLead + "'table_name|sys_id|json_data'"
  /** The text of the `except json.JSONDecodeError` clauses. Those clauses
      follow `except ValueError`, which already catches that subclass. */
  const InvalidJsonError: string := "Error: Invalid JSON data provided."
  const NoRecordsFound: string := "No records found."
  const CreatedPrefix: string := "Success! Record created. SysID: "
  const UpdatedPrefix: string := "Success! Record updated. SysID: "

  datatype Tool = QueryTool | CreateTool | UpdateTool

  // ---------------------------------------------------------------------
  // Query: `table|filter`

  /** GET on the table with the filter, at most 5 rows, display values. */
  function QueryRequest(table: string, filter: string): Request {
    Request(GET, TableUrl(table),
      [("sysparm_query", filter), ("sysparm_limit", "5"), ("sysparm_display_value", "true")],
      None)
  }

  /** `table, query = input_str.split('|', 1)`; unpacking fails without a
      `|`. Both pieces are stripped; later pipes stay in the filter. */
  function PlanQuery(input: string): (r: Result<Request, string>)
    ensures r.Failure? <==> '|' !in input
    ensures r.Failure? ==> r.error == QueryFormatError
    ensures r.Success? ==>
      var i := Find(input, '|').value;
      r.value == QueryRequest(Strip(input[..i]), Strip(input[i + 1..]))
  {
    SplitOnceShape(input, '|');
    var parts := SplitN(input, '|', 1);
    if |parts| != 2 then Failure(QueryFormatError)
    else Success(QueryRequest(Strip(parts[0]), Strip(parts[1])))
  }

  /** The body of the query tool's `try` once the response has arrived. */
  function QueryOutcome(c: Codec, status: nat, text: string): Result<string, PyError> {
    if status == 200 then
      var body :- ResponseJson(c, text);
      var results :- Get(body, "result", JArr([]));
      if !Truthy(results) then Success(NoRecordsFound) else Success(c.dumps(results))
    else
      Success(StatusError(status, text))
  }

  function RenderQuery(c: Codec, resp: Response): (r: string)
    ensures resp.Transport? ==> r == ConnectionFailed + resp.msg
    ensures resp.Http? && resp.status != 200 ==> r == StatusError(resp.status, resp.text)
    ensures resp.Http? && resp.status == 200 && c.loads(resp.text).Failure? ==>
      r == ConnectionFailed + c.loads(resp.text).error
    ensures resp.Http? && resp.status == 200 && c.loads(resp.text).Success? ==>
      var body := c.loads(resp.text).value;
      && (!body.JObj? ==> r == ConnectionFailed + ErrorText(c, AttributeError(TypeName(body), "get")))
      && (body.JObj? && !Truthy(GetOr(body.fields, "result", JArr([]))) ==> r == NoRecordsFound)
      && (body.JObj? && Truthy(GetOr(body.fields, "result", JArr([]))) ==> r == c.dumps(GetOr(body.fields, "result", JArr([]))))
  {
    match resp
    case Transport(m) => Observe(c, Failure(ConnectionError(m)))
    case Http(status, text) => Observe(c, QueryOutcome(c, status, text))
  }

  // ---------------------------------------------------------------------
  // Create: `table|json`

  function CreateRequest(table: string, data: Json): Request {
    Request(POST, TableUrl(table), [], Some(data))
  }

  /** Split once, then `json.loads` the stripped second piece. A missing
      `|` and undecodable JSON both land in `except ValueError`. */
  function PlanCreate(c: Codec, input: string): (r: Result<Request, string>)
    ensures r.Failure? ==> r.error == CreateFormatError
    ensures '|' !in input ==> r.Failure?
    ensures '|' in input ==>
      var i := Find(input, '|').value;
      var data := c.loads(Strip(input[i + 1..]));
      && (data.Failure? ==> r.Failure?)
      && (data.Success? ==> r == Success(CreateRequest(Strip(input[..i]), data.value)))
  {
    SplitOnceShape(input, '|');
    var parts := SplitN(input, '|', 1);
    if |parts| != 2 then Failure(CreateFormatError)
    else match c.loads(Strip(parts[1]))
      case Failure(_) => Failure(CreateFormatError)
      case Success(data) => Success(CreateRequest(Strip(parts[0]), data))
  }

  /** `response.json().get('result', {})` followed by the `.get` on that
      result, as the create and update tools do: the record dict, or the
      exception raised on the way, whose text follows "Connection Failed: ". */
  function RecordOf(c: Codec, text: string): (r: Result<map<string, Json>, PyError>)
    ensures r.Success? <==> ReportedRecord(c, text).Some?
    ensures r.Success? ==> r.value == ReportedRecord(c, text).value
    ensures c.loads(text).Failure? ==> r == Failure(DecodeError(c.loads(text).error))
    ensures c.loads(text).Success? && !c.loads(text).value.JObj? ==>
      r == Failure(AttributeError(TypeName(c.loads(text).value), "get"))
    ensures c.loads(text).Success? && c.loads(text).value.JObj? ==>
      var result := GetOr(c.loads(text).value.fields, "result", JObj(map[]));
      !result.JObj? ==> r == Failure(AttributeError(TypeName(result), "get"))
  {
    var body :- ResponseJson(c, text);
    var result :- Get(body, "result", JObj(map[]));
    AsDict(result, "get")
  }

  function CreateOutcome(c: Codec, status: nat, text: string): Result<string, PyError> {
    if status == 201 then
      var rec :- RecordOf(c, text);
      Success(CreatedPrefix + StrOf(c, GetOr(rec, "sys_id", JNull)) + " \nNumber: " + StrOf(c, GetOr(rec, "number", JNull)))
    else
      Success(StatusError(status, text))
  }

  /** The record a create/update response reports: the `result` dict of a
      dict body, if the body has that shape. */
  function ReportedRecord(c: Codec, text: string): Option<map<string, Json>> {
    match c.loads(text)
    case Success(JObj(m)) =>
      (match GetOr(m, "result", JObj(map[]))
       case JObj(rec) => Some(rec)
       case _ => None)
    case _ => None
  }

  function RenderCreate(c: Codec, resp: Response): (r: string)
    ensures resp.Transport? ==> r == ConnectionFailed + resp.msg
    ensures resp.Http? && resp.status != 201 ==> r == StatusError(resp.status, resp.text)
    ensures resp.Http? && resp.status == 201 && ReportedRecord(c, resp.text).Some? ==>
      var rec := ReportedRecord(c, resp.text).value;
      r == CreatedPrefix + StrOf(c, GetOr(rec, "sys_id", JNull)) + " \nNumber: " + StrOf(c, GetOr(rec, "number", JNull))
    ensures resp.Http? && resp.status == 201 && ReportedRecord(c, resp.text).None? ==>
      r == ConnectionFailed + ErrorText(c, RecordOf(c, resp.text).error)
  {
    match resp
    case Transport(m) => Observe(c, Failure(ConnectionError(m)))
    case Http(status, text) => Observe(c, CreateOutcome(c, status, text))
  }

  // ---------------------------------------------------------------------
  // Update: `table|sys_id|json`

  function UpdateRequest(table: string, sysId: string, data: Json): Request {
    Request(PUT, TableUrl(table) + "/" + sysId, [], Some(data))
  }

  /** `input_str.split('|', 2)` must give three pieces; the third is decoded
      after stripping. More than two pipes is fine: the rest stays in the
      JSON piece. The record id is not checked for emptiness. */
  function PlanUpdate(c: Codec, input: string): (r: Result<Request, string>)
    ensures r.Failure? ==> r.error == UpdateFormatError
    ensures Count(input, '|') < 2 ==> r.Failure?
  {
    var parts := SplitN(input, '|', 2);
    if |parts| != 3 then Failure(UpdateFormatError)
    else match c.loads(Strip(parts[2]))
      case Failure(_) => Failure(UpdateFormatError)
      case Success(data) => Success(UpdateRequest(Strip(parts[0]), Strip(parts[1]), data))
  }

  function UpdateOutcome(c: Codec, status: nat, text: string): Result<string, PyError> {
    if status == 200 then
      var rec :- RecordOf(c, text);
      Success(UpdatedPrefix + StrOf(c, GetOr(rec, "sys_id", JNull)))
    else
      Success(StatusError(status, text))
  }

  function RenderUpdate(c: Codec, resp: Response): (r: string)
    ensures resp.Transport? ==> r == ConnectionFailed + resp.msg
    ensures resp.Http? && resp.status != 200 ==> r == StatusError(resp.status, resp.text)
    ensures resp.Http? && resp.status == 200 && ReportedRecord(c, resp.text).Some? ==>
      r == UpdatedPrefix + StrOf(c, GetOr(ReportedRecord(c, resp.text).value, "sys_id", JNull))
    ensures resp.Http? && resp.status == 200 && ReportedRecord(c, resp.text).None? ==>
      r == ConnectionFailed + ErrorText(c, RecordOf(c, resp.text).error)
  {
    match resp
    case Transport(m) => Observe(c, Failure(ConnectionError(m)))
    case Http(status, text) => Observe(c, UpdateOutcome(c, status, text))
  }

  // ---------------------------------------------------------------------
  // Dispatch

  function Plan(c: Codec, tool: Tool, input: string): Result<Request, string> {
    match tool
    case QueryTool => PlanQuery(input)
    case CreateTool => PlanCreate(c, input)
    case UpdateTool => PlanUpdate(c, input)
  }

  function Render(c: Codec, tool: Tool, resp: Response): string {
    match tool
    case QueryTool => RenderQuery(c, resp)
    case CreateTool => RenderCreate(c, resp)
    case UpdateTool => RenderUpdate(c, resp)
  }

  /** A tool's `_run`: the observation text, and the requests sent to the
      store on the way (in order). */
  function Run(c: Codec, tool: Tool, input: string, store: Store): (out: (string, seq<Request>))
    ensures |out.1| <= 1
    ensures out.1 == [] <==> Plan(c, tool, input).Failure?
    ensures out.1 == [] ==> out.0 == Plan(c, tool, input).error
    ensures out.1 != [] ==> out.1[0] == Plan(c, tool, input).value && out.0 == Render(c, tool, store(out.1[0]))
  {
    match Plan(c, tool, input)
    case Failure(msg) => (msg, [])
    case Success(req) => (Render(c, tool, store(req)), [req])
  }

  // ---------------------------------------------------------------------
  // Properties of the tools

  /** Query input grammar: the text before the first pipe is the table, all
      the rest (pipes included) is the filter, both stripped. */
  lemma QueryParseRoundTrip(table: string, filter: string)
    requires '|' !in table
    ensures PlanQuery(table + "|" + filter) == Success(QueryRequest(Strip(table), Strip(filter)))
  {
    var input := table + "|" + filter;
    FindAfter(table, filter, '|');
    assert input[..|table|] == table;
    assert input[|table| + 1..] == filter;
  }

  /** Without a pipe the query tool answers with its format error and asks
      the store nothing. */
  lemma QueryRejectsWithoutPipe(c: Codec, input: string, store: Store)
    requires '|' !in input
    ensures Run(c, QueryTool, input, store) == (QueryFormatError, [])
  {
    assert Plan(c, QueryTool, input) == Failure(QueryFormatError);
  }

  /** Create input grammar: the table before the first pipe and the JSON
      after it; JSON that does not decode is reported as a format error. */
  lemma CreateParseRoundTrip(c: Codec, table: string, json: string)
    requires '|' !in table
    ensures c.loads(Strip(json)).Failure? ==>
      PlanCreate(c, table + "|" + json) == Failure(CreateFormatError)
    ensures c.loads(Strip(json)).Success? ==>
      PlanCreate(c, table + "|" + json) == Success(CreateRequest(Strip(table), c.loads(Strip(json)).value))
  {
    var input := table + "|" + json;
    FindAfter(table, json, '|');
    assert input[..|table|] == table;
    assert input[|table| + 1..] == json;
  }

  /** Update input grammar: table and record id are the first two pieces;
      everything after the second pipe, pipes included, is the JSON. */
  lemma UpdateParseRoundTrip(c: Codec, table: string, sysId: string, json: string)
    requires '|' !in table && '|' !in sysId
    ensures c.loads(Strip(json)).Failure? ==>
      PlanUpdate(c, table + "|" + sysId + "|" + json) == Failure(UpdateFormatError)
    ensures c.loads(Strip(json)).Success? ==>
      PlanUpdate(c, table + "|" + sysId + "|" + json)
        == Success(UpdateRequest(Strip(table), Strip(sysId), c.loads(Strip(json)).value))
  {
    SplitTwiceJoin(table, sysId, json, '|');
  }

  /** An empty record id passes: the PUT goes to the collection URL with a
      trailing slash. */
  lemma UpdateAcceptsEmptySysId(c: Codec, table: string, json: string)
    requires '|' !in table && c.loads(Strip(json)).Success?
    ensures PlanUpdate(c, table + "||" + json).Success?
    ensures PlanUpdate(c, table + "||" + json).value.url == TableUrl(Strip(table)) + "/"
  {
    DoublePipe(table, json);
    UpdateParseRoundTrip(c, table, "", json);
    StripEmpty();
    AppendEmpty(TableUrl(Strip(table)) + "/");
  }

  lemma DoublePipe(table: string, json: string)
    ensures table + "||" + json == table + "|" + "" + "|" + json
  {
  }

  lemma AppendEmpty(s: string)
    ensures s + "" == s
  {
  }

  lemma StripEmpty()
    ensures Strip("") == ""
  {
  }

  /** Position 7 of a status error holds the first digit of the status. */
  lemma StatusErrorDigit(status: nat, text: string)
    ensures |StatusError(status, text)| > 7 && IsDigit(StatusError(status, text)[7])
  {
    var s := NatToString(status);
    assert StatusError(status, text) == "Error: " + (s + " - " + text);
    assert ("Error: " + (s + " - " + text))[7] == s[0];
  }

  /** The first character of every observation the create tool can give
      after a request: `C`onnection failure, `E`rror status, `S`uccess. */
  lemma RenderCreateLead(c: Codec, resp: Response)
    ensures var r := RenderCreate(c, resp);
      && |r| > 8
      && (resp.Transport? ==> r[0] == 'C')
      && (resp.Http? && resp.status != 201 ==> r[0] == 'E' && IsDigit(r[7]))
      && (resp.Http? && resp.status == 201 && ReportedRecord(c, resp.text).Some? ==> r[..8] == "Success!")
      && (resp.Http? && resp.status == 201 && ReportedRecord(c, resp.text).None? ==> r[0] == 'C')
  {
    if resp.Http? && resp.status != 201 {
      StatusErrorDigit(resp.status, resp.text);
    }
  }

  lemma RenderUpdateLead(c: Codec, resp: Response)
    ensures var r := RenderUpdate(c, resp);
      && |r| > 8
      && (resp.Transport? ==> r[0] == 'C')
      && (resp.Http? && resp.status != 200 ==> r[0] == 'E' && IsDigit(r[7]))
      && (resp.Http? && resp.status == 200 && ReportedRecord(c, resp.text).Some? ==> r[..8] == "Success!")
      && (resp.Http? && resp.status == 200 && ReportedRecord(c, resp.text).None? ==> r[0] == 'C')
  {
    if resp.Http? && resp.status != 200 {
      StatusErrorDigit(resp.status, resp.text);
    }
  }

  lemma NotStartsWith(s: string, prefix: string)
    requires |prefix| > 0 && |s| > 0 && s[0] != prefix[0]
    ensures !StartsWith(s, prefix)
  {
  }

  lemma FormatErrorLeads(tail: string)
    ensures |FormatErrorLead + tail| > 9
    ensures (FormatErrorLead + tail)[0] == 'E' && (FormatErrorLead + tail)[9] == 'p'
  {
  }

  /** Texts that start like a connection failure, a success, a status error
      or a format error differ from the "Invalid JSON" message. */
  lemma NotInvalidJson(o: string)
    requires |o| > 9
    requires o[0] == 'C' || o[0] == 'S' || (o[0] == 'E' && (IsDigit(o[7]) || o[9] == 'p'))
    ensures o != InvalidJsonError
  {
    assert InvalidJsonError[0] == 'E' && InvalidJsonError[7] == 'I' && InvalidJsonError[9] == 'v';
  }

  /** The create tool never answers "Invalid JSON": undecodable JSON yields
      the format error, and no other branch produces that text. */
  lemma CreateNeverReportsInvalidJson(c: Codec, input: string, store: Store)
    ensures Run(c, CreateTool, input, store).0 != InvalidJsonError
  {
    var o := Run(c, CreateTool, input, store).0;
    match PlanCreate(c, input)
    case Failure(msg) =>
      assert o == FormatErrorLead + "'table_name|json_data'";
      FormatErrorLeads("'table_name|json_data'");
      NotInvalidJson(o);
    case Success(req) =>
      assert o == RenderCreate(c, store(req));
      RenderCreateLead(c, store(req));
      NotInvalidJson(o);
  }

  /** The update tool never answers "Invalid JSON" either. */
  lemma UpdateNeverReportsInvalidJson(c: Codec, input: string, store: Store)
    ensures Run(c, UpdateTool, input, store).0 != InvalidJsonError
  {
    var o := Run(c, UpdateTool, input, store).0;
    match PlanUpdate(c, input)
    case Failure(msg) =>
      assert o == FormatErrorLead + "'table_name|sys_id|json_data'";
      FormatErrorLeads("'table_name|sys_id|json_data'");
      NotInvalidJson(o);
    case Success(req) =>
      assert o == RenderUpdate(c, store(req));
      RenderUpdateLead(c, store(req));
      NotInvalidJson(o);
  }

  /** The create tool reports success exactly when a request went out and
      the store answered 201 with a record: never on a parse error, a
      transport failure, another status (200 included), or a malformed body. */
  lemma CreateSuccessOnlyOn201(c: Codec, input: string, store: Store)
    ensures var out := Run(c, CreateTool, input, store);
      StartsWith(out.0, "Success!") <==>
        && out.1 != []
        && store(out.1[0]).Http?
        && store(out.1[0]).status == 201
        && ReportedRecord(c, store(out.1[0]).text).Some?
  {
    var s := "Success!";
    assert s[0] == 'S';
    match PlanCreate(c, input)
    case Failure(msg) =>
      FormatErrorLeads("'table_name|json_data'");
      NotStartsWith(msg, s);
    case Success(req) =>
      var r := RenderCreate(c, store(req));
      RenderCreateLead(c, store(req));
      if r[0] != 'S' {
        NotStartsWith(r, s);
      }
  }

  /** The update tool reports success exactly when the store answered 200
      with a record. */
  lemma UpdateSuccessOnlyOn200(c: Codec, input: string, store: Store)
    ensures var out := Run(c, UpdateTool, input, store);
      StartsWith(out.0, "Success!") <==>
        && out.1 != []
        && store(out.1[0]).Http?
        && store(out.1[0]).status == 200
        && ReportedRecord(c, store(out.1[0]).text).Some?
  {
    var s := "Success!";
    assert s[0] == 'S';
    match PlanUpdate(c, input)
    case Failure(msg) =>
      FormatErrorLeads("'table_name|sys_id|json_data'");
      NotStartsWith(msg, s);
    case Success(req) =>
      var r := RenderUpdate(c, store(req));
      RenderUpdateLead(c, store(req));
      if r[0] != 'S' {
        NotStartsWith(r, s);
      }
  }

  // ---------------------------------------------------------------------
  // Aggregate counts

  /** GET on the stats endpoint of `table`, counting rows that match. */
  function CountRequest(table: string, query: string): Request {
    Request(GET, StatsUrl(table), [("sysparm_count", "true"), ("sysparm_query", query)], None)
  }

  /** `res.json().get('result', {}).get('stats', {}).get('count', 0)`. */
  function StatsCount(c: Codec, text: string): Result<Json, PyError> {
    var body :- ResponseJson(c, text);
    var result :- Get(body, "result", JObj(map[]));
    var stats :- Get(result, "stats", JObj(map[]));
    Get(stats, "count", JNum(0))
  }

  /** The body shape the stats endpoint answers with. */
  function StatsBody(count: Json): Json {
    JObj(map["result" := JObj(map["stats" := JObj(map["count" := count])])])
  }

  /** `get_count`: the reported count on 200, and 0 for every other status
      and for every exception, which the bare `except` swallows. */
  function CountOf(c: Codec, resp: Response): (n: Json)
    ensures resp.Transport? ==> n == JNum(0)
    ensures resp.Http? && resp.status != 200 ==> n == JNum(0)
    ensures resp.Http? && resp.status == 200 && StatsCount(c, resp.text).Failure? ==> n == JNum(0)
  {
    match resp
    case Http(200, text) =>
      (match StatsCount(c, text)
       case Success(v) => v
       case Failure(_) => JNum(0))
    case _ => JNum(0)
  }

  /** A well-formed stats body yields exactly the count it carries. */
  lemma CountReadsStats(c: Codec, text: string, count: Json)
    requires c.loads(text) == Success(StatsBody(count))
    ensures CountOf(c, Http(200, text)) == count
  {
    var inner := JObj(map["count" := count]);
    var result := JObj(map["stats" := inner]);
    assert StatsBody(count).fields["result"] == result;
    assert result.fields["stats"] == inner;
    assert inner.fields["count"] == count;
  }

  /** `get_count` on a 200 follows the `.get` chain through any body: an
      undecodable body, or a level that is not a dict, gives 0; each missing
      key takes its default (`{}`, `{}`, then 0); otherwise the value found at
      `result.stats.count` is returned as is, whatever other keys sit beside
      it. */
  lemma CountFollowsGetChain(c: Codec, text: string)
    ensures c.loads(text).Failure? ==> CountOf(c, Http(200, text)) == JNum(0)
    ensures c.loads(text).Success? && !c.loads(text).value.JObj? ==> CountOf(c, Http(200, text)) == JNum(0)
    ensures c.loads(text).Success? && c.loads(text).value.JObj? ==>
      var result := GetOr(c.loads(text).value.fields, "result", JObj(map[]));
      && (!result.JObj? ==> CountOf(c, Http(200, text)) == JNum(0))
      && (result.JObj? ==>
            var stats := GetOr(result.fields, "stats", JObj(map[]));
            && (!stats.JObj? ==> CountOf(c, Http(200, text)) == JNum(0))
            && (stats.JObj? ==> CountOf(c, Http(200, text)) == GetOr(stats.fields, "count", JNum(0))))
  {
  }

  const FailedLoginsQuery: string :=
    "name=login.failed^sys_created_onONToday@javascript:gs.beginningOfToday()@javascript:gs.endOfToday()"
  const NewAdminsQuery: string :=
    "role.name=admin^sys_created_onONToday@javascript:gs.beginningOfToday()@javascript:gs.endOfToday()"

  function FailedLoginsRequest(): Request {
    CountRequest("sysevent", FailedLoginsQuery)
  }

  function NewAdminsRequest(): Request {
    CountRequest("sys_user_has_role", NewAdminsQuery)
  }

  datatype SecurityStats = SecurityStats(failedLogins: Json, newAdmins: Json)

  /** One `if r.status_code == 200: stats[key] = ...` step of the shared
      `try`: the field's new value, or the exception that ends the block. */
  function ReadCount(c: Codec, resp: Response, current: Json): Result<Json, PyError> {
    match resp
    case Transport(m) => Failure(ConnectionError(m))
    case Http(status, text) => if status == 200 then StatsCount(c, text) else Success(current)
  }

  /** `get_security_stats`: both counts start at 0 and are read in one `try`,
      so an exception while reading the first skips the second request, and
      one while reading the second keeps the first count. */
  function GetSecurityStats(c: Codec, store: Store): (out: (SecurityStats, seq<Request>))
    ensures 1 <= |out.1| <= 2 && out.1[0] == FailedLoginsRequest()
    ensures |out.1| == 2 ==> out.1[1] == NewAdminsRequest()
    ensures |out.1| == 1 <==> ReadCount(c, store(FailedLoginsRequest()), JNum(0)).Failure?
    ensures |out.1| == 1 ==> out.0 == SecurityStats(JNum(0), JNum(0))
    ensures |out.1| == 2 ==>
      out.0.failedLogins == ReadCount(c, store(FailedLoginsRequest()), JNum(0)).value
    ensures |out.1| == 2 && ReadCount(c, store(NewAdminsRequest()), JNum(0)).Failure? ==>
      out.0.newAdmins == JNum(0)
  {
    var first := FailedLoginsRequest();
    var second := NewAdminsRequest();
    match ReadCount(c, store(first), JNum(0))
    case Failure(_) => (SecurityStats(JNum(0), JNum(0)), [first])
    case Success(logins) =>
      match ReadCount(c, store(second), JNum(0))
      case Failure(_) => (SecurityStats(logins, JNum(0)), [first, second])
      case Success(admins) => (SecurityStats(logins, admins), [first, second])
  }

  /** When nothing raises, the security stats are the two `get_count`
      values; when the first read raises, the second count is lost even if
      the store would have answered it. */
  lemma SecurityStatsVersusCount(c: Codec, store: Store)
    ensures var out := GetSecurityStats(c, store);
      var r1 := store(FailedLoginsRequest());
      var r2 := store(NewAdminsRequest());
      && (ReadCount(c, r1, JNum(0)).Success? && ReadCount(c, r2, JNum(0)).Success? ==>
            out.0 == SecurityStats(CountOf(c, r1), CountOf(c, r2)))
      && (ReadCount(c, r1, JNum(0)).Failure? ==> out.0.newAdmins == JNum(0))
  {
  }
}
