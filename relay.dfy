/**
 * The express relay the contact form posts to: it forwards the JSON body to
 * the upstream Google Apps Script URL and relays the upstream's status,
 * re-encoding the reply as JSON when it parses and passing it through as
 * text otherwise; any failure of the forward becomes a 500. `cors()` opens
 * every route to any origin.
 *
 * The upstream call is an input (`Upstream`), JSON parsing is a function
 * parameter, and `J` is whatever value `JSON.parse` produces.
 */
module Relay {
  import opened Wrappers

  const DefaultPort: string := "3001"
  const ContactRoute: string := "/api/contact"
  const HealthRoute: string := "/api/health"
  const UpstreamUrl: string := "https://script.google.com/macros/s/AKfycbxkZkwQOlMD0lYmTvcvpTsAtq72EbWejS6vNr2oVRtKynJbGLxmLOuvVwQU_xVsrJof/exec"

  /** `process.env.PORT || 3001`: an unset or empty variable falls back to 3001. */
  function ListenPort(env: Option<string>): (port: string)
    ensures env.Some? && env.value != "" ==> port == env.value
    ensures env.None? || env.value == "" ==> port == DefaultPort
    ensures port != ""
  {
    if env.Some? && env.value != "" then env.value else DefaultPort
  }

  /** A request arriving at the relay. `B` is the body as `express.json()` parsed it. */
  datatype Incoming<B> = Incoming(verb: string, path: string, body: B)

  /** The request the relay sends upstream. */
  datatype Outgoing<B> = Outgoing(url: string, verb: string, contentType: string, body: B)

  /** What the forward produced: a reply read to its end, or a thrown error. */
  datatype Upstream = Reached(status: int, text: string) | Failed

  datatype Body<J> =
    | JsonValue(value: J)                  // `res.json(data)` of the parsed reply
    | Text(text: string)                   // `res.send(responseText)`
    | JsonObject(fields: seq<(string, string)>)  // an object literal sent with `res.json`
    | Empty
    | NotFoundPage

  datatype Response<J> = Response(status: int, body: Body<J>, allowOrigin: string)

  /** The forward: a POST of the received body, re-serialised as JSON, to the upstream URL. */
  function Forward<B>(req: Incoming<B>): (out: Outgoing<B>)
    ensures out.url == UpstreamUrl && out.verb == "POST" && out.contentType == "application/json"
    ensures out.body == req.body
  {
    Outgoing(UpstreamUrl, "POST", "application/json", req.body)
  }

  /** The 500 reply of the outer `catch`. */
  const FailureFields: seq<(string, string)> := [("error", "Failed to process request")]

  /** The `/api/health` reply body. */
  const HealthFields: seq<(string, string)> := [("status", "OK"), ("message", "Proxy server is running")]

  /** The `/api/contact` handler, given what the forward produced. */
  function ContactReply<J>(up: Upstream, parse: string -> Option<J>): (r: Response<J>)
    ensures up.Failed? ==> r.status == 500 && r.body == JsonObject(FailureFields)
    ensures up.Reached? ==> r.status == up.status
    ensures up.Reached? && parse(up.text).Some? ==> r.body == JsonValue(parse(up.text).value)
    ensures up.Reached? && parse(up.text).None? ==> r.body == Text(up.text)
  {
    match up
    case Failed => Response(500, JsonObject(FailureFields), "*")
    case Reached(status, text) =>
      match parse(text)
      case Some(data) => Response(status, JsonValue(data), "*")
      case None => Response(status, Text(text), "*")
  }

  /**
   * The whole relay for one request. `OPTIONS` is the CORS preflight,
   * answered with 204; every reply allows any origin; an unmatched route
   * gets express's 404 page.
   */
  function Handle<B, J>(req: Incoming<B>, up: Upstream, parse: string -> Option<J>): (r: Response<J>)
    ensures r.allowOrigin == "*"
    ensures req.verb == "OPTIONS" ==> r.status == 204 && r.body == Empty
    ensures req.verb == "POST" && req.path == ContactRoute ==> r == ContactReply(up, parse)
    ensures req.verb == "GET" && req.path == HealthRoute ==>
      r.status == 200 && r.body == JsonObject(HealthFields)
  {
    if req.verb == "OPTIONS" then Response(204, Empty, "*")
    else if req.verb == "POST" && req.path == ContactRoute then ContactReply(up, parse)
    else if req.verb == "GET" && req.path == HealthRoute then Response(200, JsonObject(HealthFields), "*")
    else Response(404, NotFoundPage, "*")
  }

  /** Only the two declared routes and the preflight are answered with anything but 404. */
  lemma NotFoundIff<B, J>(req: Incoming<B>, up: Upstream, parse: string -> Option<J>)
    ensures Handle(req, up, parse).body == NotFoundPage <==>
      req.verb != "OPTIONS"
      && !(req.verb == "POST" && req.path == ContactRoute)
      && !(req.verb == "GET" && req.path == HealthRoute)
  {
  }

  /** Whether a status is in the 2xx range, `response.ok` in the browser. */
  predicate IsOk(status: int)
  {
    200 <= status < 300
  }

  /**
   * The relay's status is independent of whether the upstream reply is JSON:
   * the client's success test sees the upstream status and nothing else.
   */
  lemma StatusIgnoresParse<J>(up: Upstream, p1: string -> Option<J>, p2: string -> Option<J>)
    ensures ContactReply(up, p1).status == ContactReply(up, p2).status
    ensures IsOk(ContactReply(up, p1).status) <==> up.Reached? && IsOk(up.status)
  {
  }

  /** A reply that is not JSON is relayed byte for byte. */
  lemma TextPassesThrough<J>(status: int, text: string, parse: string -> Option<J>)
    requires parse(text).None?
    ensures ContactReply(Reached(status, text), parse) == Response(status, Text(text), "*")
  {
  }
}
