/*
 * The analytics handler (`POST` and `GET /api/analytics`): an event record
 * built from the request context with the caller's metadata spread over it,
 * and a Notion page written from it whose failure is ignored.
 *
 * Headers, the clock and the NOTION_TOKEN check are parameters; the write is
 * recorded as a `Call` and its answer comes from `create`.
 */
module Analytics {
  import opened Js
  import opened Http
  import opened Notion

  const AnalyticsDatabaseId := "26fab9fd509880098973f7d9a3595da8"

  const ActionRequired := "Action is required"
  const LogFailed := "Failed to log event"
  const EndpointActive := "Analytics endpoint active"

  /** The JSON body: `action` and the `metadata` object, whose own properties are spread into
      the event (an absent or null `metadata` spreads nothing: the empty map). */
  datatype Request = Request(action: Value, metadata: map<string, Value>)

  /** `req.headers.get(...)` for the headers read: a string, or `Null` when absent. */
  datatype Headers = Headers(userAgent: Value, referer: Value, forwardedFor: Value, realIp: Value)

  type Event = map<string, Value>

  const ContextKeys := {"action", "timestamp", "userAgent", "referer", "ip"}

  /** The event's own fields, before the metadata is spread over them. */
  function ContextFields(data: Request, now: string, h: Headers): (ctx: Event)
    ensures ctx.Keys == ContextKeys
    ensures ctx["ip"] == (if Truthy(h.forwardedFor) then h.forwardedFor else h.realIp)
  {
    map["action" := data.action,
        "timestamp" := Str(now),
        "userAgent" := h.userAgent,
        "referer" := h.referer,
        "ip" := Or(h.forwardedFor, h.realIp)]
  }

  /** `{ action, timestamp, userAgent, referer, ip, ...data.metadata }`: later keys win. */
  function BuildEvent(data: Request, now: string, h: Headers): (e: Event)
    ensures e.Keys == ContextKeys + data.metadata.Keys
    ensures forall k :: k in data.metadata ==> e[k] == data.metadata[k]
    ensures forall k :: k in ContextKeys && k !in data.metadata ==> e[k] == ContextFields(data, now, h)[k]
  {
    ContextFields(data, now, h) + data.metadata
  }

  /** The page properties written for an event. `Action` is read from the request, the others
      from the event; falsy text falls back to 'Unknown' and a falsy referer to null. */
  function PersistedProperties(data: Request, e: Event): (p: Properties)
    requires ContextKeys <= e.Keys
    ensures p.Keys == {"Action", "Timestamp", "User Agent", "Referer", "IP Address"}
    ensures p["Action"] == Select(data.action)
  {
    map["Action" := Select(data.action),
        "Timestamp" := Date(e["timestamp"]),
        "User Agent" := RichText(Or(e["userAgent"], Str("Unknown"))),
        "Referer" := Url(Or(e["referer"], Null)),
        "IP Address" := RichText(Or(e["ip"], Str("Unknown")))]
  }

  /** What the handler answers and which calls it makes. */
  datatype Outcome = Outcome(response: Response, calls: seq<Call>)

  /** `POST /api/analytics`. `body` is `None` when `req.json()` throws or the body is `null`.
      The write's answer `create` is looked at by nobody: a failed write is logged and dropped. */
  function Post(body: Option<Request>, h: Headers, now: string, tokenPresent: bool,
                create: Properties -> bool): (o: Outcome)
    ensures o.response.status == 500 <==> body.None?
    ensures body.None? ==> o.response.body == ErrorBody(LogFailed)
    ensures o.response.status == 400 <==> body.Some? && !Truthy(body.value.action)
    ensures o.response.status == 400 ==> o.response.body == ErrorBody(ActionRequired)
    ensures body.Some? && Truthy(body.value.action) ==> o.response == Response(200, SuccessBody(None))
    ensures o.calls != [] <==> body.Some? && Truthy(body.value.action) && tokenPresent
    ensures o.calls != [] ==>
      o.calls == [CreatePage(AnalyticsDatabaseId,
                   PersistedProperties(body.value, BuildEvent(body.value, now, h)))]
  {
    if body.None? then Outcome(Response(500, ErrorBody(LogFailed)), [])
    else
      var data := body.value;
      if !Truthy(data.action) then Outcome(Response(400, ErrorBody(ActionRequired)), [])
      else
        var event := BuildEvent(data, now, h);
        var calls := if tokenPresent then [CreatePage(AnalyticsDatabaseId, PersistedProperties(data, event))] else [];
        // the write may succeed or throw: either way the answer is the same
        var _ := if tokenPresent then create(PersistedProperties(data, event)) else true;
        Outcome(Response(200, SuccessBody(None)), calls)
  }

  /** `GET /api/analytics`: a fixed acknowledgement stamped with the current time. */
  function Get(now: string): (r: Response)
    ensures r.status == 200
    ensures r.body.InfoBody? && r.body.message == EndpointActive && r.body.timestamp == now
  {
    Response(200, InfoBody(EndpointActive, now))
  }

  // ---------------------------------------------------------------------
  // Properties

  /** The value the event ends up holding under a context key: the metadata's when it has that key. */
  function Effective(data: Request, key: string, own: Value): Value {
    if key in data.metadata then data.metadata[key] else own
  }

  /** The persisted page: `Action` comes from `data.action` whatever the metadata holds; the other
      four come from the event, where a metadata key of the same name overrides the context value;
      falsy user agent and ip become 'Unknown', a falsy referer becomes null. */
  lemma PersistedFromRequest(data: Request, now: string, h: Headers)
    ensures var p := PersistedProperties(data, BuildEvent(data, now, h));
      && p.Keys == {"Action", "Timestamp", "User Agent", "Referer", "IP Address"}
      && p["Action"] == Select(data.action)
      && p["Timestamp"] == Date(Effective(data, "timestamp", Str(now)))
      && p["User Agent"] == RichText(Or(Effective(data, "userAgent", h.userAgent), Str("Unknown")))
      && p["Referer"] == Url(Or(Effective(data, "referer", h.referer), Null))
      && p["IP Address"] == RichText(Or(Effective(data, "ip", Or(h.forwardedFor, h.realIp)), Str("Unknown")))
  {
    var e := BuildEvent(data, now, h);
    assert e["timestamp"] == Effective(data, "timestamp", Str(now));
    assert e["userAgent"] == Effective(data, "userAgent", h.userAgent);
    assert e["referer"] == Effective(data, "referer", h.referer);
    assert e["ip"] == Effective(data, "ip", Or(h.forwardedFor, h.realIp));
  }

  /** Without metadata, a missing user agent and ip are stored as 'Unknown' and a missing referer as null. */
  lemma DefaultsWithoutMetadata(data: Request, now: string, h: Headers)
    requires data.metadata == map[]
    requires !Truthy(h.userAgent) && !Truthy(h.referer) && !Truthy(h.forwardedFor) && !Truthy(h.realIp)
    ensures var p := PersistedProperties(data, BuildEvent(data, now, h));
      && p["User Agent"] == RichText(Str("Unknown"))
      && p["Referer"] == Url(Null)
      && p["IP Address"] == RichText(Str("Unknown"))
      && p["Timestamp"] == Date(Str(now))
  {
    PersistedFromRequest(data, now, h);
  }

  /** The outcome of the write never shows: the answer is the same whether it succeeds or fails. */
  lemma WriteFailureSwallowed(body: Option<Request>, h: Headers, now: string, tokenPresent: bool,
                              create1: Properties -> bool, create2: Properties -> bool)
    ensures Post(body, h, now, tokenPresent, create1) == Post(body, h, now, tokenPresent, create2)
  { }
}
