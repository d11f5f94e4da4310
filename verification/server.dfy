/**
  The bot's request handler: every request body taken from `bot_requests` is turned into one
  response dictionary, published on `bot_responses` under the request's correlation id.
 */
module BotServer {
  import opened Wrappers
  import opened Payloads
  import opened ApiAdapter
  import opened Bus

  /** What the finance service would answer to this request's single-quote and range calls. */
  datatype Upstream = Upstream(stock: StockReply, ranges: RangeReply)

  /** `Bot._create_error_response`: the `code` key is present exactly when the code is truthy. */
  function CreateErrorResponse(message: string, code: Option<string>): (r: BotResponse)
    ensures r.ErrorResponse? && r.message == message
    ensures r.code.Some? <==> code.Some? && code.value != ""
    ensures r.code.Some? ==> r.code == code
  {
    if code.Some? && code.value != "" then ErrorResponse(message, code) else ErrorResponse(message, None)
  }

  /** The `try ... except ApiException` around a query: the result, or the exception as an error response. */
  function Answer(o: Outcome<BotResponse>): BotResponse {
    match o
    case Ok(v) => v
    case Raised(e) => CreateErrorResponse(e.message, e.code)
  }

  /**
    `Bot._process_request` as a map from the decoded body to the response. None stands for
    the `KeyError` on a missing "type": it is not caught and no response is sent.
   */
  function Respond(body: InboundBody, upstream: Upstream): (r: Option<BotResponse>)
    ensures r.None? <==> body.Object? && body.typ.None?
    ensures body.Undecodable? || body.NotAnObject? ==>
              r.Some? && r.value.ErrorResponse? && r.value.code == Some("BOT03")
    ensures body.Object? && body.typ.Some? && body.typ.value != "stock" && body.typ.value != "day_range" ==>
              r == Some(ErrorResponse("Service not implemented: " + body.typ.value, None))
  {
    match body
    case Undecodable =>
      Some(CreateErrorResponse("Error when deserializing message received by the bot.", Some("BOT03")))
    case NotAnObject =>
      Some(CreateErrorResponse("Message is not a valid JSON object.", Some("BOT03")))
    case Object(typ, arg) =>
      if typ.None? then None
      else if typ.value == "stock" then Some(Answer(QueryStock(arg, upstream.stock)))
      else if typ.value == "day_range" then Some(Answer(DayRangeResult(arg, upstream.ranges)))
      else Some(CreateErrorResponse("Service not implemented: " + typ.value, None))
  }

  /**
    A request the dispatcher published always gets an answer, and that answer is the
    outcome of the query its type names.
   */
  lemma RespondToDispatched(req: CommandRequest, upstream: Upstream)
    ensures Respond(Encode(req), upstream) ==
              Some(match req.kind
                   case Stock => Answer(QueryStock(req.arg, upstream.stock))
                   case DayRange => Answer(DayRangeResult(req.arg, upstream.ranges)))
  {
    assert TypeName(DayRange) != "stock";
  }

  /**
    The codes a response can carry: `BOT01` or `BOT03`, or none. The `BOT04` and "not found"
    errors of `query_stock` never reach the chat application.
   */
  lemma ResponseCodes(body: InboundBody, upstream: Upstream)
    ensures var r := Respond(body, upstream);
            r.Some? && r.value.ErrorResponse? && r.value.code.Some? ==>
              r.value.code.value == "BOT01" || r.value.code.value == "BOT03"
  {
    if body.Object? && body.typ.Some? && body.typ.value == "day_range" {
      DayRangeResultSpec(body.arg, upstream.ranges);
    }
  }

  /** `_send_response`'s fallback when `json.dumps` fails on the response. */
  function Serialized(r: BotResponse, serializable: bool): (s: BotResponse)
    ensures !serializable ==> s == ErrorResponse("Non serializable response.", Some("BOT02"))
    ensures serializable ==> s == r
  {
    if serializable then r else CreateErrorResponse("Non serializable response.", Some("BOT02"))
  }

  /**
    The bot's consumer callback for the oldest request: it computes the response by the
    branches of `_process_request` and publishes it with the request's correlation id. The
    result says whether the missing-"type" `KeyError` escaped instead. `serializable` says
    whether `json.dumps` succeeds on the response.
   */
  method ProcessRequest(bus: MessageBus, upstream: Upstream, serializable: bool) returns (crashed: bool)
    requires |bus.botRequests| > 0
    modifies bus
    ensures bus.botRequests == old(bus.botRequests)[1..]
    ensures var m := old(bus.botRequests)[0];
            var r := Respond(m.body, upstream);
            && crashed == r.None?
            && bus.botResponses == old(bus.botResponses)
                 + (if r.Some? then [Envelope(m.correlationId, Utf8(Json(Serialized(r.value, serializable))))] else [])
  {
    var m := bus.TakeRequest();
    var response: BotResponse;
    match m.body {
      case Undecodable =>
        response := CreateErrorResponse("Error when deserializing message received by the bot.", Some("BOT03"));
      case NotAnObject =>
        response := CreateErrorResponse("Message is not a valid JSON object.", Some("BOT03"));
      case Object(typ, arg) =>
        if typ.None? {
          return true;
        } else if typ.value == "stock" {
          response := Answer(QueryStock(arg, upstream.stock));
        } else if typ.value == "day_range" {
          var outcome := QueryDayRange(arg, upstream.ranges);
          response := Answer(outcome);
        } else {
          response := CreateErrorResponse("Service not implemented: " + typ.value, None);
        }
    }
    bus.PublishResponse(m.correlationId, Utf8(Json(Serialized(response, serializable))));
    crashed := false;
  }
}
