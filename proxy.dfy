/**
 * The serverless relay between the browser and the spreadsheet script. It
 * answers the CORS preflight itself, refuses to work without a configured
 * script address, finds the action in the query string or the JSON body,
 * forwards the rest of the body, and always answers with JSON: the
 * script's own reply when it is JSON, an error object otherwise.
 */
module Proxy {
  import opened Wrappers
  import opened Seqs
  import opened Text

  /** A JSON value; an object keeps its members in order. */
  datatype Json =
    | JNull
    | JBool(b: bool)
    | JNum(n: real)
    | JStr(s: string)
    | JArr(items: seq<Json>)
    | JObj(fields: seq<(string, Json)>)

  /** The incoming request: method, query parameters and raw body. */
  datatype Event = Event(httpMethod: string, query: map<string, string>, body: Option<string>)

  /** A response body: the empty text of the preflight, or a JSON value to be serialised. */
  datatype Body = NoBody | JsonBody(value: Json)

  datatype Response = Response(statusCode: int, headers: seq<(string, string)>, body: Body)

  /** The request made to the script: the address with the action in its query, and the JSON body. */
  datatype Call = Call(url: string, body: Json)

  /** What the script does with that request: answers with some status and text, or the fetch throws. */
  datatype Upstream = Answered(status: int, text: string) | Threw(message: string)

  /**
   * The runtime facilities the handler relies on: `JSON.parse` (None when it
   * throws), `encodeURIComponent`, and `String` on a non-string value.
   */
  datatype Runtime = Runtime(parse: string -> Option<Json>, encode: string -> string, show: Json -> string)

  /** How the action was found. */
  datatype ActionLookup = Found(action: Json) | Missing | NullRead

  /** The headers of every response. */
  const Cors: seq<(string, string)> := [
    ("Access-Control-Allow-Origin", "*"),
    ("Access-Control-Allow-Headers", "Content-Type"),
    ("Access-Control-Allow-Methods", "POST, OPTIONS"),
    ("Content-Type", "application/json")
  ]

  const MissingUrlMessage: string := "Missing GAS_URL environment variable"
  const MissingActionMessage: string := "Missing \"action\" parameter"
  const InvalidJsonMessage: string := "Invalid JSON from GAS"
  const FallbackMessage: string := "Unhandled server error"
  /** What the Node.js runtime throws on reading a member of `null`. */
  const NullReadMessage: string := "Cannot read properties of null (reading 'action')"
  /** How much of a non-JSON reply is echoed back. */
  const SnippetLength: nat := 200

  /** `{ ok: false, error: message }`. */
  function ErrorObject(message: string): Json
  {
    JObj([("ok", JBool(false)), ("error", JStr(message))])
  }

  function ErrorResponse(status: int, message: string): Response
  {
    Response(status, Cors, JsonBody(ErrorObject(message)))
  }

  /** The catch-all: the error's message, or a fixed text when it has none. */
  function ThrownText(message: string): (r: string)
    ensures r != ""
    ensures message != "" ==> r == message
    ensures message == "" ==> r == FallbackMessage
  {
    if message != "" then message else FallbackMessage
  }

  /** JavaScript truthiness of a parsed value. */
  predicate Truthy(j: Json)
  {
    match j
    case JNull => false
    case JBool(b) => b
    case JNum(n) => n != 0.0
    case JStr(s) => s != ""
    case _ => true
  }

  /** `event.queryStringParameters?.action`. */
  function QueryAction(ev: Event): Option<string>
  {
    if "action" in ev.query then Some(ev.query["action"]) else None
  }

  /** `event.body || '{}'`. */
  function RequestText(ev: Event): string
  {
    if ev.body.None? || ev.body.value == "" then "{}" else ev.body.value
  }

  /** The parsed body; a body that is not JSON counts as an empty object. */
  function Parsed(ev: Event, rt: Runtime): Json
  {
    rt.parse(RequestText(ev)).GetOr(JObj([]))
  }

  /** The first member of an object under `key`. */
  function Lookup(fields: seq<(string, Json)>, key: string): (r: Option<Json>)
    ensures r.Some? ==> (key, r.value) in fields
    ensures r.None? ==> forall i :: 0 <= i < |fields| ==> fields[i].0 != key
  {
    if fields == [] then None
    else if fields[0].0 == key then Some(fields[0].1)
    else Lookup(fields[1..], key)
  }

  /** `parsed.action`: only an object has such a member; reading it from `null` throws. */
  function Member(j: Json, key: string): Option<Json>
    requires !j.JNull?
  {
    if j.JObj? then Lookup(j.fields, key) else None
  }

  /** `queryAction || parsed.action`, and whether that is truthy. */
  function ResolveAction(query: Option<string>, parsed: Json): (r: ActionLookup)
    ensures r.Found? ==> Truthy(r.action)
  {
    if query.Some? && query.value != "" then Found(JStr(query.value))
    else if parsed.JNull? then NullRead
    else
      match Member(parsed, "action")
      case Some(v) => if Truthy(v) then Found(v) else Missing
      case None => Missing
  }

  /** `{ ...parsed }`: an object's own members; an array or a string spreads into its indices; anything else into nothing. */
  function Spread(j: Json): seq<(string, Json)>
  {
    match j
    case JObj(fields) => fields
    case JArr(items) => seq(|items|, i requires 0 <= i < |items| => (NatToString(i), items[i]))
    case JStr(s) => seq(|s|, i requires 0 <= i < |s| => (NatToString(i), JStr([s[i]])))
    case _ => []
  }

  /** The copy of the body with its `action` member deleted. */
  function ForwardBody(parsed: Json): Json
  {
    JObj(Filter(Spread(parsed), (p: (string, Json)) => p.0 != "action"))
  }

  /** `String(action)`. */
  function ActionText(action: Json, rt: Runtime): string
  {
    if action.JStr? then action.s else rt.show(action)
  }

  /** `rawText.slice(0, 200)`. */
  function Snippet(raw: string): (r: string)
    ensures |r| <= SnippetLength && r <= raw
    ensures |raw| <= SnippetLength ==> r == raw
  {
    if |raw| <= SnippetLength then raw else raw[..SnippetLength]
  }

  /** The script's reply text as JSON, or an error object quoting its start. */
  function Wrap(raw: string, rt: Runtime): Json
  {
    match rt.parse(raw)
    case Some(j) => j
    case None => JObj([("ok", JBool(false)), ("error", JStr(InvalidJsonMessage)), ("rawSnippet", JStr(Snippet(raw)))])
  }

  /**
   * The handler: the response, and the request made to the script if one
   * was made. `gasUrl` is the configured address; `upstream` is what the
   * script does with a request.
   */
  function Handle(ev: Event, gasUrl: Option<string>, rt: Runtime, upstream: Upstream): (r: (Response, Option<Call>))
    ensures r.0.headers == Cors
    ensures r.0.body.NoBody? <==> ev.httpMethod == "OPTIONS"
    ensures r.0.statusCode == 200 || r.0.statusCode == 400 || r.0.statusCode == 500
    ensures r.1.Some? ==>
      && ev.httpMethod != "OPTIONS" && gasUrl.Some? && gasUrl.value != ""
      && (r.0.statusCode == 200 || r.0.statusCode == 500)
      && gasUrl.value + "?action=" <= r.1.value.url
      && r.1.value.body == ForwardBody(Parsed(ev, rt))
  {
    if ev.httpMethod == "OPTIONS" then (Response(200, Cors, NoBody), None)
    else if gasUrl.None? || gasUrl.value == "" then (ErrorResponse(500, MissingUrlMessage), None)
    else
      var parsed := Parsed(ev, rt);
      match ResolveAction(QueryAction(ev), parsed)
      case NullRead => (ErrorResponse(500, ThrownText(NullReadMessage)), None)
      case Missing => (ErrorResponse(400, MissingActionMessage), None)
      case Found(action) =>
        var call := Call(gasUrl.value + "?action=" + rt.encode(ActionText(action, rt)), ForwardBody(parsed));
        var response := match upstream
          case Answered(_, text) => Response(200, Cors, JsonBody(Wrap(text, rt)))
          case Threw(message) => ErrorResponse(500, ThrownText(message));
        (response, Some(call))
  }

  /** The preflight is answered at once, whatever the configuration, and nothing is forwarded. */
  lemma PreflightAnswered(ev: Event, gasUrl: Option<string>, rt: Runtime, upstream: Upstream)
    requires ev.httpMethod == "OPTIONS"
    ensures Handle(ev, gasUrl, rt, upstream) == (Response(200, Cors, NoBody), None)
  {
  }

  /** Without a configured address every other request fails with 500 and nothing is forwarded. */
  lemma MissingUrlFails(ev: Event, gasUrl: Option<string>, rt: Runtime, upstream: Upstream)
    requires ev.httpMethod != "OPTIONS" && (gasUrl.None? || gasUrl.value == "")
    ensures Handle(ev, gasUrl, rt, upstream) == (ErrorResponse(500, MissingUrlMessage), None)
  {
  }

  /** A non-empty action in the query string wins over the body, even a body of `null` or one that is not JSON. */
  lemma QueryActionWins(ev: Event, url: string, rt: Runtime, upstream: Upstream)
    requires ev.httpMethod != "OPTIONS" && url != ""
    requires "action" in ev.query && ev.query["action"] != ""
    ensures var (_, call) := Handle(ev, Some(url), rt, upstream);
      call == Some(Call(url + "?action=" + rt.encode(ev.query["action"]), ForwardBody(Parsed(ev, rt))))
  {
  }

  /** With no action in the query, a truthy `action` member of the body object is used. */
  lemma BodyActionUsed(ev: Event, url: string, rt: Runtime, upstream: Upstream, fields: seq<(string, Json)>, action: Json)
    requires ev.httpMethod != "OPTIONS" && url != ""
    requires QueryAction(ev).None? || QueryAction(ev) == Some("")
    requires Parsed(ev, rt) == JObj(fields) && Lookup(fields, "action") == Some(action) && Truthy(action)
    ensures var (_, call) := Handle(ev, Some(url), rt, upstream);
      call == Some(Call(url + "?action=" + rt.encode(ActionText(action, rt)), ForwardBody(JObj(fields))))
  {
  }

  /**
   * The 400 answer is given exactly when neither the query nor the body
   * names a truthy action (and the body is not `null`).
   */
  lemma MissingActionIff(ev: Event, url: string, rt: Runtime, upstream: Upstream)
    requires ev.httpMethod != "OPTIONS" && url != ""
    ensures var (resp, call) := Handle(ev, Some(url), rt, upstream);
      var parsed := Parsed(ev, rt);
      resp == ErrorResponse(400, MissingActionMessage)
      <==>
        && (QueryAction(ev).None? || QueryAction(ev) == Some(""))
        && !parsed.JNull?
        && (Member(parsed, "action").None? || !Truthy(Member(parsed, "action").value))
    ensures var (resp, call) := Handle(ev, Some(url), rt, upstream);
      resp.statusCode == 400 ==> call.None?
  {
  }

  /** A body of `null` with no query action throws on reading its member and is answered with 500. */
  lemma NullBodyFails(ev: Event, url: string, rt: Runtime, upstream: Upstream)
    requires ev.httpMethod != "OPTIONS" && url != ""
    requires QueryAction(ev).None? && rt.parse(RequestText(ev)) == Some(JNull)
    ensures Handle(ev, Some(url), rt, upstream) == (ErrorResponse(500, NullReadMessage), None)
  {
  }

  /** A body that is not JSON is handled exactly like a missing body. */
  lemma UnparsableBodyIsEmpty(ev: Event, gasUrl: Option<string>, rt: Runtime, upstream: Upstream)
    requires rt.parse("{}") == Some(JObj([]))
    requires rt.parse(RequestText(ev)).None?
    ensures Handle(ev, gasUrl, rt, upstream) == Handle(ev.(body := None), gasUrl, rt, upstream)
  {
    assert Parsed(ev, rt) == Parsed(ev.(body := None), rt);
  }

  /** The forwarded body never has an `action` member, and keeps every other member of a body object in order. */
  lemma ForwardBodySpec(parsed: Json)
    ensures ForwardBody(parsed).JObj?
    ensures forall i :: 0 <= i < |ForwardBody(parsed).fields| ==> ForwardBody(parsed).fields[i].0 != "action"
    ensures parsed.JObj? ==> IsSubsequence(ForwardBody(parsed).fields, parsed.fields)
    ensures parsed.JObj? ==> forall p :: p in parsed.fields && p.0 != "action" ==> p in ForwardBody(parsed).fields
  {
    if parsed.JObj? {
      var keep := (p: (string, Json)) => p.0 != "action";
      forall p | p in parsed.fields && p.0 != "action" ensures p in ForwardBody(parsed).fields {
        FilterKeeps(parsed.fields, p, keep);
      }
    }
  }

  /** An array body is forwarded as an object keyed by its indices, the keys all different. */
  lemma ArrayBodySpread(items: seq<Json>)
    ensures var f := Spread(JArr(items));
      && |f| == |items|
      && (forall i :: 0 <= i < |items| ==> f[i] == (NatToString(i), items[i]))
      && (forall i, j :: 0 <= i < j < |f| ==> f[i].0 != f[j].0)
  {
    var f := Spread(JArr(items));
    forall i, j | 0 <= i < j < |f| ensures f[i].0 != f[j].0 {
      if f[i].0 == f[j].0 {
        NatToStringInjective(i, j);
      }
    }
  }

  /** A JSON reply is passed through unchanged with 200, whatever status the script answered with. */
  lemma ReplyPassedThrough(ev: Event, url: string, rt: Runtime, status: int, text: string, j: Json)
    requires Handle(ev, Some(url), rt, Answered(status, text)).1.Some?
    requires rt.parse(text) == Some(j)
    ensures Handle(ev, Some(url), rt, Answered(status, text)).0 == Response(200, Cors, JsonBody(j))
  {
  }

  /** A reply that is not JSON becomes an error object quoting at most its first 200 characters. */
  lemma InvalidReplyWrapped(ev: Event, url: string, rt: Runtime, status: int, text: string)
    requires Handle(ev, Some(url), rt, Answered(status, text)).1.Some?
    requires rt.parse(text).None?
    ensures var resp := Handle(ev, Some(url), rt, Answered(status, text)).0;
      && resp.statusCode == 200
      && resp.body == JsonBody(JObj([("ok", JBool(false)), ("error", JStr(InvalidJsonMessage)), ("rawSnippet", JStr(Snippet(text)))]))
      && |Snippet(text)| <= SnippetLength && Snippet(text) <= text
  {
  }

  /** A failed fetch is answered with 500 and its message, or the fixed text when the message is empty. */
  lemma FetchFailureReported(ev: Event, url: string, rt: Runtime, message: string)
    requires Handle(ev, Some(url), rt, Threw(message)).1.Some?
    ensures Handle(ev, Some(url), rt, Threw(message)).0
      == ErrorResponse(500, if message == "" then FallbackMessage else message)
  {
  }
}
