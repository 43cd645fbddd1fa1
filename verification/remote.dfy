/** The HTTP surface of the remote record store, reduced to values: the
    request a tool would send and the response it gets back. The transport
    itself is not modelled; a response is whatever the caller supplies. */
module Remote {
  import opened Wrappers
  import opened PyStr
  import opened PyJson

  /** The fixed instance every request in the tools is sent to. */
  const InstanceUrl: string := "https://dev309858.service-now.com"

  datatype Method = GET | POST | PUT

  /** One outgoing call: method, URL, query parameters in the order the
      source lists them, and the JSON body for POST and PUT. */
  datatype Request = Request(
    verb: Method,
    url: string,
    params: seq<(string, string)>,
    body: Option<Json>)

  /** What the HTTP client hands back: either it raised (no connection,
      timeout, ...), or a status code with the raw body text. */
  datatype Response =
    | Transport(msg: string)
    | Http(status: nat, text: string)

  /** The store answers every call through this function; asking twice with
      the same request gives the same answer. */
  type Store = Request -> Response

  /** `{INSTANCE_URL}/api/now/table/{table}`: the record collection. */
  function TableUrl(table: string): string {
    InstanceUrl + "/api/now/table/" + table
  }

  /** `{INSTANCE_URL}/api/now/stats/{table}`: the aggregate endpoint. */
  function StatsUrl(table: string): string {
    InstanceUrl + "/api/now/stats/" + table
  }

  /** `response.json()`: the body decoded, or the decoder's exception. */
  function ResponseJson(c: Codec, text: string): (r: Result<Json, PyError>)
    ensures r.Success? <==> c.loads(text).Success?
    ensures r.Success? ==> r.value == c.loads(text).value
    ensures r.Failure? ==> r.error == DecodeError(c.loads(text).error)
  {
    match c.loads(text)
    case Success(v) => Success(v)
    case Failure(m) => Failure(DecodeError(m))
  }

  /** The tools' `except Exception as e: return f"Connection Failed: {e}"`:
      the outcome of a `try` block, or the text that reports its exception. */
  function Observe(c: Codec, attempt: Result<string, PyError>): (r: string)
    ensures attempt.Success? ==> r == attempt.value
    ensures attempt.Failure? ==> r == ConnectionFailed + ErrorText(c, attempt.error)
  {
    match attempt
    case Success(s) => s
    case Failure(e) => ConnectionFailed + ErrorText(c, e)
  }

  const ConnectionFailed: string := "Connection Failed: "

  /** `f"Error: {response.status_code} - {response.text}"`. */
  function StatusError(status: nat, text: string): string {
    "Error: " + NatToString(status) + " - " + text
  }
}
