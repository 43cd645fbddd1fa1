/** The knowledge-base search tool of the study assistant: it builds a
    `LIKE` filter from the query and renders the matching articles as text
    blocks with their content cut to 800 characters. */
module StudyBuddy {
  import opened Wrappers
  import opened PyStr
  import opened PyJson
  import opened Remote

  const FilterLead: string := "short_descriptionLIKE"
  const FilterTail: string := "^workflow_state=published"
  const NoArticlesFound: string := "No articles found."
  const FetchError: string := "Error fetching data: "
  const ArticleSeparator: string := "\n\n"
  /** How many characters of an article's text the block shows. */
  const ContentLimit: nat := 800

  /** `f'short_descriptionLIKE{query}^workflow_state=published'`: the query
      is inserted as is, without escaping. */
  function KnowledgeFilter(query: string): string {
    FilterLead + query + FilterTail
  }

  /** GET on `kb_knowledge`: at most 3 published articles, three fields. */
  function KnowledgeRequest(query: string): Request {
    Request(GET, TableUrl("kb_knowledge"),
      [("sysparm_query", KnowledgeFilter(query)),
       ("sysparm_limit", "3"),
       ("sysparm_fields", "short_description,text,number")],
      None)
  }

  /** The query sits verbatim between the fixed lead and tail, so it can be
      read back from the filter and distinct queries give distinct filters. */
  lemma FilterRecoversQuery(query: string)
    ensures var f := KnowledgeFilter(query);
      && |f| == |FilterLead| + |query| + |FilterTail|
      && f[..|FilterLead|] == FilterLead
      && f[|FilterLead|..|f| - |FilterTail|] == query
      && f[|f| - |FilterTail|..] == FilterTail
  {
    var f := KnowledgeFilter(query);
    assert f == FilterLead + (query + FilterTail);
    assert f[|FilterLead|..] == query + FilterTail;
  }

  lemma FilterInjective(a: string, b: string)
    requires KnowledgeFilter(a) == KnowledgeFilter(b)
    ensures a == b
  {
    FilterRecoversQuery(a);
    FilterRecoversQuery(b);
  }

  /** `f"Article {r['number']}: {r['short_description']}\nContent: {r['text'][:800]}..."`,
      its three lookups made in that order. */
  function ArticleBlock(c: Codec, r: Json): Result<string, PyError> {
    var number :- Index(r, "number");
    var title :- Index(r, "short_description");
    var text :- Index(r, "text");
    var snippet :- SlicePrefix(text, ContentLimit);
    Success("Article " + StrOf(c, number) + ": " + StrOf(c, title) + "\nContent: " + StrOf(c, snippet) + "...")
  }

  /** The list comprehension over a list of records: every block, in order,
      or the exception of the first record that raises. */
  function ArticleBlocks(c: Codec, xs: seq<Json>): (r: Result<seq<string>, PyError>)
    ensures r.Success? <==> forall i :: 0 <= i < |xs| ==> ArticleBlock(c, xs[i]).Success?
    ensures r.Success? ==> |r.value| == |xs|
    ensures r.Success? ==> forall i :: 0 <= i < |xs| ==> r.value[i] == ArticleBlock(c, xs[i]).value
  {
    if xs == [] then Success([])
    else
      assert forall i :: 1 <= i < |xs| ==> xs[i] == xs[1..][i - 1];
      match ArticleBlock(c, xs[0])
      case Failure(e) => Failure(e)
      case Success(b) =>
        match ArticleBlocks(c, xs[1..])
        case Failure(e) => Failure(e)
        case Success(bs) => Success([b] + bs)
  }

  /** The first record that raises decides the exception. */
  lemma {:induction false} FirstBadRecordRaises(c: Codec, xs: seq<Json>, i: nat)
    requires i < |xs| && ArticleBlock(c, xs[i]).Failure?
    requires forall j :: 0 <= j < i ==> ArticleBlock(c, xs[j]).Success?
    ensures ArticleBlocks(c, xs) == Failure(ArticleBlock(c, xs[i]).error)
    decreases i
  {
    if i > 0 {
      assert forall j :: 0 <= j < i - 1 ==> xs[1..][j] == xs[j + 1];
      FirstBadRecordRaises(c, xs[1..], i - 1);
    }
  }

  /** `for r in results` over whatever `result` held: a list yields its
      records; a string or dict yields strings, which cannot be indexed by
      `'number'`; a scalar is not iterable. */
  function ResultBlocks(c: Codec, results: Json): Result<seq<string>, PyError> {
    match results
    case JArr(xs) => ArticleBlocks(c, xs)
    case JStr(s) => if s == [] then Success([]) else Failure(BadSubscript("str", "['number']"))
    case JObj(m) => if m == map[] then Success([]) else Failure(BadSubscript("str", "['number']"))
    case _ => Failure(NotIterable(TypeName(results)))
  }

  function KnowledgeOutcome(c: Codec, status: nat, text: string): Result<string, PyError> {
    if status == 200 then
      var body :- ResponseJson(c, text);
      var results :- Get(body, "result", JArr([]));
      if !Truthy(results) then Success(NoArticlesFound)
      else
        var blocks :- ResultBlocks(c, results);
        Success(Join(blocks, ArticleSeparator))
    else
      Success(FetchError + NatToString(status))
  }

  /** `ServiceNowKnowledgeTool._run` once the response is known. */
  function RenderKnowledge(c: Codec, resp: Response): (r: string)
    ensures resp.Transport? ==> r == ConnectionFailed + resp.msg
    ensures resp.Http? && resp.status != 200 ==> r == FetchError + NatToString(resp.status)
  {
    match resp
    case Transport(m) => Observe(c, Failure(ConnectionError(m)))
    case Http(status, text) => Observe(c, KnowledgeOutcome(c, status, text))
  }

  /** The tool sends one request whatever the query: a GET on the
      knowledge table whose filter carries the query verbatim (it can be read
      back), with a limit of 3. The observation renders the answer to it. */
  function RunKnowledge(c: Codec, query: string, store: Store): (out: (string, seq<Request>))
    ensures |out.1| == 1
    ensures out.1[0].verb == GET && out.1[0].url == TableUrl("kb_knowledge") && out.1[0].body.None?
    ensures |out.1[0].params| == 3 && out.1[0].params[1] == ("sysparm_limit", "3")
    ensures out.1[0].params[2] == ("sysparm_fields", "short_description,text,number")
    ensures var (key, filter) := out.1[0].params[0];
      && key == "sysparm_query"
      && filter == FilterLead + query + FilterTail
      && |FilterLead| + |FilterTail| <= |filter|
      && filter[|FilterLead|..|filter| - |FilterTail|] == query
    ensures out.0 == RenderKnowledge(c, store(out.1[0]))
  {
    FilterRecoversQuery(query);
    var req := KnowledgeRequest(query);
    (RenderKnowledge(c, store(req)), [req])
  }

  /** A failed status is reported without the response body. */
  lemma ErrorIgnoresBody(c: Codec, status: nat, text1: string, text2: string)
    requires status != 200
    ensures RenderKnowledge(c, Http(status, text1)) == RenderKnowledge(c, Http(status, text2))
  {
  }

  /** A 200 whose `result` is missing or empty (any falsy value) renders as
      "No articles found.". */
  lemma NoArticles(c: Codec, text: string, body: map<string, Json>)
    requires c.loads(text) == Success(JObj(body))
    requires "result" !in body || !Truthy(body["result"])
    ensures RenderKnowledge(c, Http(200, text)) == NoArticlesFound
  {
  }

  /** A 200 whose body does not decode, or decodes to something other than
      a dict, is reported as a connection failure carrying the exception. */
  lemma KnowledgeBadBody(c: Codec, text: string)
    ensures c.loads(text).Failure? ==>
      RenderKnowledge(c, Http(200, text)) == ConnectionFailed + c.loads(text).error
    ensures c.loads(text).Success? && !c.loads(text).value.JObj? ==>
      RenderKnowledge(c, Http(200, text))
        == ConnectionFailed + "'" + TypeName(c.loads(text).value) + "' object has no attribute 'get'"
  {
    var out := KnowledgeOutcome(c, 200, text);
    assert RenderKnowledge(c, Http(200, text)) == Observe(c, out);
    if c.loads(text).Failure? {
      assert out == Failure(DecodeError(c.loads(text).error));
    } else if !c.loads(text).value.JObj? {
      var body := c.loads(text).value;
      assert out == Failure(AttributeError(TypeName(body), "get"));
    }
  }

  /** A truthy `result` that is not a list fails on its first element: a
      string or dict yields strings, which cannot be subscripted by
      `'number'`, and any other value is not iterable. */
  lemma ResultNotAList(c: Codec, text: string, body: map<string, Json>)
    requires c.loads(text) == Success(JObj(body))
    requires "result" in body && Truthy(body["result"]) && !body["result"].JArr?
    ensures body["result"].JStr? || body["result"].JObj? ==>
      RenderKnowledge(c, Http(200, text)) == ConnectionFailed + c.subscriptError("str", "['number']")
    ensures !body["result"].JStr? && !body["result"].JObj? ==>
      RenderKnowledge(c, Http(200, text))
        == ConnectionFailed + "'" + TypeName(body["result"]) + "' object is not iterable"
  {
  }

  /** A 200 with a non-empty list of well-formed records renders one block
      per record, in response order, separated by a blank line. */
  lemma ArticlesInOrder(c: Codec, text: string, body: map<string, Json>, xs: seq<Json>)
    requires c.loads(text) == Success(JObj(body))
    requires "result" in body && body["result"] == JArr(xs) && xs != []
    requires forall i :: 0 <= i < |xs| ==> ArticleBlock(c, xs[i]).Success?
    ensures exists blocks: seq<string> ::
      && |blocks| == |xs|
      && (forall i :: 0 <= i < |xs| ==> blocks[i] == ArticleBlock(c, xs[i]).value)
      && RenderKnowledge(c, Http(200, text)) == Join(blocks, ArticleSeparator)
  {
    var blocks := ArticleBlocks(c, xs).value;
    assert Truthy(JArr(xs));
    assert forall i :: 0 <= i < |xs| ==> blocks[i] == ArticleBlock(c, xs[i]).value;
  }

  /** A record that raises makes the whole observation a connection
      failure carrying that exception, e.g. `'number'` for a missing key. */
  lemma BadRecordFails(c: Codec, text: string, body: map<string, Json>, xs: seq<Json>, i: nat)
    requires c.loads(text) == Success(JObj(body))
    requires "result" in body && body["result"] == JArr(xs)
    requires i < |xs| && ArticleBlock(c, xs[i]).Failure?
    requires forall j :: 0 <= j < i ==> ArticleBlock(c, xs[j]).Success?
    ensures RenderKnowledge(c, Http(200, text)) == ConnectionFailed + ErrorText(c, ArticleBlock(c, xs[i]).error)
  {
    FirstBadRecordRaises(c, xs, i);
    assert Truthy(JArr(xs));
  }

  /** A record missing `number`, `short_description` or `text` raises a
      KeyError for the first missing key, in that order. */
  lemma MissingKeyRaises(c: Codec, m: map<string, Json>)
    ensures "number" !in m ==> ArticleBlock(c, JObj(m)) == Failure(KeyError("number"))
    ensures "number" in m && "short_description" !in m ==>
      ArticleBlock(c, JObj(m)) == Failure(KeyError("short_description"))
    ensures "number" in m && "short_description" in m && "text" !in m ==>
      ArticleBlock(c, JObj(m)) == Failure(KeyError("text"))
  {
  }

  /** For any record holding the three keys and a string `text`, whatever
      else it holds, a block is `str()` of the number, `str()` of the title,
      and the first 800 characters of the text (all of it when shorter),
      always followed by "...". */
  lemma BlockContent(c: Codec, m: map<string, Json>, text: string)
    requires "number" in m && "short_description" in m && "text" in m
    requires m["text"] == JStr(text)
    ensures exists shown: string ::
      && |shown| <= ContentLimit
      && |shown| <= |text| && shown == text[..|shown|]
      && (|text| <= ContentLimit ==> shown == text)
      && (|text| > ContentLimit ==> shown == text[..ContentLimit])
      && ArticleBlock(c, JObj(m)) == Success("Article " + StrOf(c, m["number"]) + ": "
           + StrOf(c, m["short_description"]) + "\nContent: " + shown + "...")
  {
    var shown := Take(text, ContentLimit);
    assert ArticleBlock(c, JObj(m)) == Success("Article " + StrOf(c, m["number"]) + ": "
      + StrOf(c, m["short_description"]) + "\nContent: " + shown + "...");
  }
}
