/**
  The JSON bodies exchanged over the two queues, `bot_requests` (chat application to bot)
  and `bot_responses` (bot to chat application), as values instead of text.
 */
module Payloads {
  import opened Wrappers

  /** A command record's uuid; `str(uuid)` travels as the queue message's correlation id. */
  type Uuid = nat

  /** A queue message: its correlation id property and its body. */
  datatype Envelope<T> = Envelope(correlationId: Uuid, body: T)

  // ---------------------------------------------------------------- requests

  /** The JSON values the model admits for a request's `arg` key: `null`, a string or a list of strings. */
  datatype Arg = Null | Str(s: string) | List(items: seq<string>)

  /** The two commands the dispatcher publishes; their `type` strings are "stock" and "day_range". */
  datatype CommandKind = Stock | DayRange

  /** The request `{type, arg}` serialised by the dispatcher and stored in the command record. */
  datatype CommandRequest = CommandRequest(kind: CommandKind, arg: Arg)

  /** A request body as the bot sees it after `json.loads`. */
  datatype InboundBody =
    | Undecodable                           // `json.loads` raised
    | NotAnObject                           // decoded to something other than a dict
    | Object(typ: Option<string>, arg: Arg) // `typ` is None when the key "type" is absent

  function TypeName(k: CommandKind): (name: string)
    ensures name == "stock" || name == "day_range"
  {
    match k
    case Stock => "stock"
    case DayRange => "day_range"
  }

  /** `json.dumps({'type': ..., 'arg': ...})` followed by the bot's `json.loads`. */
  function Encode(req: CommandRequest): (body: InboundBody)
    ensures body.Object? && body.typ.Some? && body.arg == req.arg
  {
    Object(Some(TypeName(req.kind)), req.arg)
  }

  /** Recovers the request from a decoded body, when it is one the dispatcher could have sent. */
  function DecodeRequest(body: InboundBody): (r: Option<CommandRequest>)
    ensures r.Some? ==> body.Object? && r.value.arg == body.arg
  {
    match body
    case Object(Some(t), arg) =>
      if t == "stock" then Some(CommandRequest(Stock, arg))
      else if t == "day_range" then Some(CommandRequest(DayRange, arg))
      else None
    case _ => None
  }

  /** The dispatcher's encoding loses nothing: the bot can recover every request exactly. */
  lemma EncodeRoundTrip(req: CommandRequest)
    ensures DecodeRequest(Encode(req)) == Some(req)
  {
    match req.kind
    case Stock =>
    case DayRange =>
      assert TypeName(DayRange) != "stock";
  }

  // --------------------------------------------------------------- responses

  /** Text that Python's `float()` accepts, in the decimal form this model admits. */
  predicate IsNumeric(s: string) {
    var body := if |s| > 0 && (s[0] == '-' || s[0] == '+') then s[1..] else s;
    |body| > 0 && DigitsWithPoint(body, false) && exists i :: 0 <= i < |body| && IsDigit(body[i])
  }

  predicate IsDigit(c: char) { '0' <= c <= '9' }

  /** Digits with at most one decimal point (`seenPoint` says whether one was already read). */
  predicate DigitsWithPoint(s: string, seenPoint: bool) {
    if s == [] then true
    else if s[0] == '.' then !seenPoint && DigitsWithPoint(s[1..], true)
    else IsDigit(s[0]) && DigitsWithPoint(s[1..], seenPoint)
  }

  /** A number as the bot sends it: the text that `float()` converted. */
  type Numeral = s: string | IsNumeric(s) witness "0"

  /** One entry of a `day_range` answer's `results` list. */
  datatype RangeEntry =
    | EntryOk(companyCode: string, name: string, daysLow: Numeral, daysHigh: Numeral, message: string)
    | EntryError(message: string)

  /**
    The bot's answer. `ErrorResponse` is `{error: True, message, code?}` with `code` absent when
    None; `StockQuote` and `DayRanges` carry `error: False` (and `lang: 'en'` on success entries).
   */
  datatype BotResponse =
    | ErrorResponse(message: string, code: Option<string>)
    | StockQuote(companyCode: string, name: Option<string>, price: Numeral, message: string)
    | DayRanges(results: seq<RangeEntry>)

  /** The text stored in a command record's `response` column, as `json.loads` reads it back. */
  datatype ResponseText = Garbled | Json(resp: BotResponse)

  /** A `bot_responses` body: bytes that `body.decode()` may fail on. */
  datatype ResponseBody = NotUtf8 | Utf8(text: ResponseText)
}
