/**
  The command protocol end to end: a command posted to the chat is recorded and published,
  the bot answers it on `bot_responses` under the same correlation id, the receiver stores the
  answer on the record, and the next poll of the same user shows it and deletes the record.
 */
module Protocol {
  import opened Wrappers
  import opened Seqs
  import opened Payloads
  import opened Models
  import opened Store
  import opened Bus
  import opened ApiAdapter
  import opened BotServer
  import opened Receiver
  import opened RestApi

  /** The answer the bot publishes for a request the dispatcher sent, as it arrives at the receiver. */
  function DispatchedAnswer(req: CommandRequest, upstream: Upstream, serializable: bool): (r: BotResponse)
    ensures Respond(Encode(req), upstream).Some?
    ensures r == Serialized(Respond(Encode(req), upstream).value, serializable)
  {
    RespondToDispatched(req, upstream);
    Serialized(match req.kind
               case Stock => Answer(QueryStock(req.arg, upstream.stock))
               case DayRange => Answer(DayRangeResult(req.arg, upstream.ranges)), serializable)
  }

  /**
    The bot's answer to a dispatched request always has the shape its request calls for, so
    the poller converts it and never shows the conversion-failure item for it.
   */
  lemma DispatchedAnswerConverts(rec: CommandRecord, upstream: Upstream, serializable: bool)
    requires rec.response == Some(Json(DispatchedAnswer(rec.request, upstream, serializable)))
    ensures ConvertResponse(rec).Some?
    ensures DisplayFor(rec) != [ConversionFailure(rec)]
  {
    if rec.request.kind == DayRange {
      DayRangeResultSpec(rec.request.arg, upstream.ranges);
    }
  }

  /** The bot part of a poll over rows followed by one more row. */
  lemma {:induction false} DeliveredAppend(recs: seq<CommandRecord>, rec: CommandRecord)
    ensures Delivered(recs + [rec]) == Delivered(recs) + DisplayFor(rec)
  {
    assert (recs + [rec])[..|recs|] == recs;
  }

  /** The record of a dispatched command once its answer is stored. */
  function AnsweredRecord(id: Uuid, posted: Timestamp, req: CommandRequest, user: User,
                          upstream: Upstream, serializable: bool): CommandRecord
  {
    CommandRecord(id, posted, Some(posted + 1), req, Some(Json(DispatchedAnswer(req, upstream, serializable))), user)
  }

  /**
    A command posted with quiet queues, handled by the bot and received back: the post is
    answered "queued", both queues are empty again, and the table holds one new row, already
    answered one tick after its post with the bot's answer to the request.
   */
  method DispatchAndAnswer(db: Database, bus: MessageBus, user: User, text: string, upstream: Upstream, serializable: bool)
    returns (post: PostReply)
    requires db.Valid() && bus.botRequests == [] && bus.botResponses == []
    requires Decide(Some(text)).Enqueue?
    modifies db, bus
    ensures db.Valid()
    ensures post == Queued
    ensures bus.botRequests == [] && bus.botResponses == []
    ensures db.commands == old(db.commands)
              + [AnsweredRecord(old(db.nextUuid), old(db.clock), Decide(Some(text)).request, user, upstream, serializable)]
    ensures db.messages == old(db.messages)
  {
    var req := Decide(Some(text)).request;
    var commands0, id, t := db.commands, db.nextUuid, db.clock;
    post := PostMessage(db, bus, user, Some(text));
    var pending := CommandRecord(id, t, None, req, None, user);
    assert db.commands == commands0 + [pending];

    var crashed := ProcessRequest(bus, upstream, serializable);
    RespondToDispatched(req, upstream);
    var answer := DispatchedAnswer(req, upstream, serializable);
    assert bus.botResponses == [Envelope(id, Utf8(Json(answer)))];

    assert IndexOf(db.commands, id) == Some(|commands0|);
    var outcome := ReceiveNext(db, bus);
  }

  /** A poll without `last_t` right after one more of the caller's rows was answered. */
  lemma PollAfterAnswer(commands: seq<CommandRecord>, rec: CommandRecord, user: User, messages: seq<Message>)
    requires Deliverable(rec, user)
    ensures ChatPart(messages, NoSince) + Delivered(AnsweredBy(commands + [rec], user))
              == Delivered(AnsweredBy(commands, user)) + DisplayFor(rec)
    ensures Undelivered(commands + [rec], user) == Undelivered(commands, user)
  {
    AnsweredByAppend(commands, rec, user);
    DeliveredAppend(AnsweredBy(commands, user), rec);
  }

  /**
    One command from post to poll, with quiet queues: the post is answered "queued"; the
    poll shows the caller's earlier answered records and then this command's answer, which
    converts; and the table ends as the poll leaves it, without the delivered records.
   */
  method CommandRoundTrip(db: Database, bus: MessageBus, user: User, text: string, upstream: Upstream, serializable: bool)
    returns (post: PostReply, poll: PollReply)
    requires db.Valid() && bus.botRequests == [] && bus.botResponses == []
    requires Decide(Some(text)).Enqueue?
    modifies db, bus
    ensures db.Valid()
    ensures post == Queued
    ensures bus.botRequests == [] && bus.botResponses == []
    ensures var rec := AnsweredRecord(old(db.nextUuid), old(db.clock), Decide(Some(text)).request, user, upstream, serializable);
            && ConvertResponse(rec).Some?
            && poll == Updates(Delivered(AnsweredBy(old(db.commands), user)) + DisplayFor(rec))
            && db.commands == Undelivered(old(db.commands), user)
            && db.messages == old(db.messages)
  {
    var commands0 := db.commands;
    var rec := AnsweredRecord(db.nextUuid, db.clock, Decide(Some(text)).request, user, upstream, serializable);
    post := DispatchAndAnswer(db, bus, user, text, upstream, serializable);
    DispatchedAnswerConverts(rec, upstream, serializable);
    PollAfterAnswer(commands0, rec, user, db.messages);
    poll := GetUpdates(db, user, NoSince);
  }
}
