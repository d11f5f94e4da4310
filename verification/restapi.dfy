/**
  The two views of the chat application that take part in the command protocol:
  `PostMessage` (a chat line is saved and echoed; a command gets a pending record, is
  published to `bot_requests` and answered "queued") and `GetUpdates` (new chat lines, then
  the caller's answered commands as display items, which are then deleted).
 */
module RestApi {
  import opened Wrappers
  import opened Seqs
  import opened Payloads
  import opened Models
  import opened CommandSyntax
  import opened Store
  import opened Bus

  // ------------------------------------------------------------ PostMessage

  /** The JSON reply of a post. `Queued` is `{type: 'command', status: 'queued', error: False}`. */
  datatype PostReply =
    | ErrorReply(message: string, code: Option<string>, status: nat)
    | Echo(item: DisplayMessage)
    | Queued

  /** What a post does, decided from the posted text alone. */
  datatype Decision = Reject(reply: PostReply) | SaveChat(text: string) | Enqueue(request: CommandRequest)

  const EmptyMessage := ErrorReply("Parameter \"message\" was not send or was empty.", Some("CH01"), 400)

  /**
    `_process_command` for a recognised command line. Only `stock` and `day_range` have
    handlers; `day_range` without an argument fails inside its handler (`None.find`), which is
    reported as `CH02` before any record exists.
   */
  function ProcessCommand(name: string, arg: Option<string>): (d: Decision)
    ensures d.Enqueue? <==> name == "stock" || (name == "day_range" && arg.Some?)
    ensures d.Enqueue? && name == "stock" ==> d.request == CommandRequest(Stock, if arg.Some? then Str(arg.value) else Null)
    ensures d.Enqueue? && name == "day_range" ==> d.request == CommandRequest(DayRange, CompaniesArg(arg.value))
    ensures name != "stock" && name != "day_range" ==>
              d == Reject(ErrorReply("Command \"" + name + "\" not recognized.", None, 500))
    ensures name == "day_range" && arg.None? ==>
              d == Reject(ErrorReply("Error executing command day_range", Some("CH02"), 500))
  {
    if name == "stock" then
      Enqueue(CommandRequest(Stock, if arg.Some? then Str(arg.value) else Null))
    else if name == "day_range" then
      if arg.None? then Reject(ErrorReply("Error executing command day_range", Some("CH02"), 500))
      else Enqueue(CommandRequest(DayRange, CompaniesArg(arg.value)))
    else
      Reject(ErrorReply("Command \"" + name + "\" not recognized.", None, 500))
  }

  /**
    `PostMessage.post`: a missing or empty `message` is `CH01` with status 400; text the
    command pattern does not match is a chat line; a match goes to `_process_command`.
   */
  function Decide(posted: Option<string>): (d: Decision)
    ensures d == Reject(EmptyMessage) <==> posted.None? || posted.value == ""
    ensures d.SaveChat? <==> posted.Some? && posted.value != "" && MatchCommand(posted.value).None?
    ensures d.SaveChat? ==> d.text == posted.value
    ensures d.Enqueue? ==> posted.Some? && MatchCommand(posted.value).Some?
    ensures posted.Some? && posted.value != "" && MatchCommand(posted.value).Some? ==>
              d == ProcessCommand(MatchCommand(posted.value).value.0, MatchCommand(posted.value).value.1)
  {
    if posted.None? || posted.value == "" then Reject(EmptyMessage)
    else match MatchCommand(posted.value)
      case None => SaveChat(posted.value)
      case Some((name, arg)) => ProcessCommand(name, arg)
  }

  /**
    A post with the state changes its decision calls for: a chat line is saved with the
    current time and echoed; a command gets a pending record under a fresh uuid, and the same
    request is published to `bot_requests` with that uuid as correlation id; a rejection
    changes nothing.
   */
  method PostMessage(db: Database, bus: MessageBus, user: User, posted: Option<string>) returns (reply: PostReply)
    requires db.Valid()
    modifies db, bus
    ensures db.Valid()
    ensures Decide(posted).Reject? ==>
              reply == Decide(posted).reply && unchanged(db) && unchanged(bus)
    ensures Decide(posted).SaveChat? ==>
              var m := Message(user, old(db.clock), posted.value);
              && reply == Echo(ToJsonSafeObject(m))
              && db.messages == old(db.messages) + [m]
              && db.commands == old(db.commands) && db.nextUuid == old(db.nextUuid)
              && unchanged(bus)
    ensures Decide(posted).Enqueue? ==>
              var req, id := Decide(posted).request, old(db.nextUuid);
              && reply == Queued
              && IndexOf(old(db.commands), id).None?
              && db.commands == old(db.commands) + [CommandRecord(id, old(db.clock), None, req, None, user)]
              && bus.botRequests == old(bus.botRequests) + [Envelope(id, Encode(req))]
              && bus.botResponses == old(bus.botResponses)
              && db.messages == old(db.messages)
              && db.clock == old(db.clock) + 1 && db.nextUuid == old(db.nextUuid) + 1
  {
    var decision := Decide(posted);
    match decision {
      case Reject(r) =>
        reply := r;
      case SaveChat(text) =>
        var m := db.SaveMessage(user, text);
        reply := Echo(ToJsonSafeObject(m));
      case Enqueue(request) =>
        var rec := db.CreateCommand(request, user);
        bus.PublishRequest(rec.uuid, Encode(request));
        reply := Queued;
    }
  }

  // ------------------------------------------------------------- GetUpdates

  /** The `last_t` parameter: absent or empty, a parsed timestamp, or text that does not parse. */
  datatype Since = NoSince | Since(t: Timestamp) | BadSince(text: string)

  datatype PollReply = PollError(message: string, status: nat) | Updates(items: seq<DisplayMessage>)

  /** `Message.objects.filter(date_posted__gt=t).order_by('-date_posted')[:100]`, reversed. */
  function ChatUpdates(messages: seq<Message>, t: Timestamp): seq<Message> {
    LastN(Filter(messages, (m: Message) => m.datePosted > t), 100)
  }

  /**
    In a chronological log, the chat part of a poll holds only lines newer than `t`, at most
    100 of them, oldest first, and they are the newest such lines: any newer line left out is
    older than all the returned ones and was cut by the limit.
   */
  lemma ChatUpdatesSpec(messages: seq<Message>, t: Timestamp)
    requires PairwiseOrdered(messages, EarlierMessage)
    ensures var r := ChatUpdates(messages, t);
            && |r| <= 100
            && (forall i :: 0 <= i < |r| ==> r[i] in messages && r[i].datePosted > t)
            && PairwiseOrdered(r, EarlierMessage)
            && (forall i :: 0 <= i < |messages| && messages[i].datePosted > t && messages[i] !in r ==>
                  |r| == 100 && forall j :: 0 <= j < |r| ==> messages[i].datePosted < r[j].datePosted)
  {
    var p := (m: Message) => m.datePosted > t;
    var f := Filter(messages, p);
    FilterKeepsOrder(messages, p, EarlierMessage);
    var r := ChatUpdates(messages, t);
    var cut := |f| - |r|;
    assert r == f[cut..];
    forall i | 0 <= i < |messages| && messages[i].datePosted > t && messages[i] !in r
      ensures |r| == 100 && forall j :: 0 <= j < |r| ==> messages[i].datePosted < r[j].datePosted
    {
      assert messages[i] in f;
      var k :| 0 <= k < |f| && f[k] == messages[i];
      assert k < cut;
      forall j | 0 <= j < |r| ensures messages[i].datePosted < r[j].datePosted {
        assert r[j] == f[cut + j];
      }
    }
  }

  /** A bot answer as a display item (`_create_message_error_response` when `isError`). */
  function BotItem(text: string, isError: bool, rec: CommandRecord): DisplayMessage {
    DisplayMessage(text, BotAuthor, rec.dateAnswered, CommandType, Some(isError))
  }

  /** The item shown for a record whose answer cannot be converted; it has no `error` key. */
  function ConversionFailure(rec: CommandRecord): DisplayMessage {
    DisplayMessage("Error getting response from bot.", BotAuthor, rec.dateAnswered, CommandType, None)
  }

  /** One display item per `day_range` result, in order, each with the result's own error flag. */
  function ResultItems(results: seq<RangeEntry>, rec: CommandRecord): (items: seq<DisplayMessage>)
    ensures |items| == |results|
    ensures forall i :: 0 <= i < |results| ==>
              items[i] == BotItem(results[i].message, results[i].EntryError?, rec)
  {
    seq(|results|, i requires 0 <= i < |results| => BotItem(results[i].message, results[i].EntryError?, rec))
  }

  /**
    `_convert_response_to_message`; None stands for the `ValueError`, `TypeError` or
    `KeyError` it raises: no answer, an answer that is not a JSON object, or an answer whose
    shape does not fit the request (a quote for a `day_range` has no `results`, a range answer
    for a `stock` has no `message`).
   */
  function ConvertResponse(rec: CommandRecord): (r: Option<seq<DisplayMessage>>)
    ensures r.None? <==>
              || rec.response.None? || rec.response.value.Garbled?
              || (rec.response.value.resp.StockQuote? && rec.request.kind == DayRange)
              || (rec.response.value.resp.DayRanges? && rec.request.kind == Stock)
    ensures r.Some? && rec.response.value.resp.ErrorResponse? ==>
              r.value == [BotItem(rec.response.value.resp.message, true, rec)]
    ensures r.Some? && rec.response.value.resp.StockQuote? ==>
              r.value == [BotItem(rec.response.value.resp.message, false, rec)]
    ensures r.Some? && rec.response.value.resp.DayRanges? ==>
              |r.value| == |rec.response.value.resp.results|
              && r.value == ResultItems(rec.response.value.resp.results, rec)
  {
    match rec.response
    case None => None
    case Some(Garbled) => None
    case Some(Json(resp)) =>
      match resp
      case ErrorResponse(message, _) => Some([BotItem(message, true, rec)])
      case StockQuote(_, _, _, message) =>
        if rec.request.kind == Stock then Some([BotItem(message, false, rec)])
        else assert rec.request.kind == DayRange; None
      case DayRanges(results) =>
        if rec.request.kind == DayRange then Some(ResultItems(results, rec))
        else assert rec.request.kind == Stock; None
  }

  /**
    What one record contributes to a poll: its converted items, or, all or nothing, the
    single conversion-failure item. Every item is a Bot command item stamped with the answer date.
   */
  function DisplayFor(rec: CommandRecord): (items: seq<DisplayMessage>)
    ensures ConvertResponse(rec).None? ==> items == [ConversionFailure(rec)]
    ensures ConvertResponse(rec).Some? ==> items == ConvertResponse(rec).value
    ensures forall i :: 0 <= i < |items| ==>
              items[i].user == BotAuthor && items[i].kind == CommandType && items[i].timestamp == rec.dateAnswered
  {
    match ConvertResponse(rec)
    case Some(items) => items
    case None => [ConversionFailure(rec)]
  }

  /** The bot part of a poll: each record's items, records in the given order. */
  function Delivered(recs: seq<CommandRecord>): seq<DisplayMessage> {
    if recs == [] then [] else Delivered(recs[..|recs| - 1]) + DisplayFor(recs[|recs| - 1])
  }

  /** Every item of a poll's bot part is a `command` item authored by the Bot. */
  lemma {:induction false} DeliveredAreBotItems(recs: seq<CommandRecord>)
    ensures forall i :: 0 <= i < |Delivered(recs)| ==>
              Delivered(recs)[i].user == BotAuthor && Delivered(recs)[i].kind == CommandType
  {
    if recs != [] {
      DeliveredAreBotItems(recs[..|recs| - 1]);
    }
  }

  /**
    The loop of `GetUpdates.get` over the caller's answered records: each record's converted
    items are appended, or the conversion-failure item when conversion raises.
   */
  method ConvertAll(recs: seq<CommandRecord>) returns (items: seq<DisplayMessage>)
    ensures items == Delivered(recs)
  {
    items := [];
    for i := 0 to |recs|
      invariant items == Delivered(recs[..i])
    {
      assert recs[..i + 1][..i] == recs[..i];
      var converted := ConvertResponse(recs[i]);
      if converted.Some? {
        items := items + converted.value;
      } else {
        items := items + [ConversionFailure(recs[i])];
      }
    }
    assert recs[..|recs|] == recs;
  }

  /** The chat part of a poll. */
  function ChatPart(messages: seq<Message>, since: Since): seq<DisplayMessage> {
    if since.Since? then
      var news := ChatUpdates(messages, since.t);
      seq(|news|, i requires 0 <= i < |news| => ToJsonSafeObject(news[i]))
    else []
  }

  /**
    A poll reply lists the new chat lines first, as `message` items without an error flag,
    and the bot answers after them, as `command` items authored by the Bot.
   */
  lemma PollLayout(messages: seq<Message>, since: Since, recs: seq<CommandRecord>)
    ensures var chat := ChatPart(messages, since);
            var items := chat + Delivered(recs);
            && (forall i :: 0 <= i < |chat| ==> items[i].kind == MessageType && items[i].error.None?)
            && (forall i :: |chat| <= i < |items| ==> items[i].kind == CommandType && items[i].user == BotAuthor)
  {
    DeliveredAreBotItems(recs);
    var chat := ChatPart(messages, since);
    forall i | |chat| <= i < |chat + Delivered(recs)|
      ensures (chat + Delivered(recs))[i] == Delivered(recs)[i - |chat|]
    {}
  }

  /**
    `GetUpdates.get`, atomic: an unparsable `last_t` is a 400 reply and changes nothing;
    otherwise the reply is the chat part followed by the caller's answered records converted
    oldest first, and exactly those records are deleted.
   */
  method GetUpdates(db: Database, user: User, since: Since) returns (reply: PollReply)
    requires db.Valid()
    modifies db
    ensures db.Valid()
    ensures since.BadSince? ==> reply == PollError("Invalid date: " + since.text, 400) && unchanged(db)
    ensures !since.BadSince? ==>
              && reply == Updates(ChatPart(old(db.messages), since) + Delivered(AnsweredBy(old(db.commands), user)))
              && db.commands == Undelivered(old(db.commands), user)
              && db.messages == old(db.messages) && db.clock == old(db.clock) && db.nextUuid == old(db.nextUuid)
  {
    if since.BadSince? {
      return PollError("Invalid date: " + since.text, 400);
    }
    var chat := ChatPart(db.messages, since);
    var botItems := ConvertAll(AnsweredBy(db.commands, user));
    db.DeleteDelivered(user);
    var messageList := chat + botItems;
    reply := Updates(messageList);
  }
}
