/**
  The chat application's consumer of `bot_responses`: each response is stored on the command
  row whose uuid is the message's correlation id, ready for the poller to hand over.
 */
module Receiver {
  import opened Wrappers
  import opened Payloads
  import opened Store
  import opened Bus

  /** How `process_response` ended: the row was updated, no row had the id, or the update raised. */
  datatype ReceiveOutcome = Stored | NotFound | Failed

  /**
    `BotReceiver.process_response`: the row with the correlation id is looked up; if there is
    none, nothing changes (`ObjectDoesNotExist` is logged). A body that is not UTF-8 makes
    `decode()` raise before the save, so nothing changes either. Otherwise the row gets the
    current time and the decoded text, whether or not it was already answered.
   */
  method ProcessResponse(db: Database, correlationId: Uuid, body: ResponseBody) returns (outcome: ReceiveOutcome)
    requires db.Valid()
    modifies db
    ensures db.Valid()
    ensures outcome == NotFound <==> IndexOf(old(db.commands), correlationId).None?
    ensures outcome == Failed <==> IndexOf(old(db.commands), correlationId).Some? && body.NotUtf8?
    ensures outcome != Stored ==> unchanged(db)
    ensures outcome == Stored ==>
              var i := IndexOf(old(db.commands), correlationId).value;
              && db.commands == old(db.commands)[i := old(db.commands)[i].(dateAnswered := Some(old(db.clock)),
                                                                            response := Some(body.text))]
              && db.messages == old(db.messages) && db.nextUuid == old(db.nextUuid) && db.clock == old(db.clock) + 1
  {
    var found := IndexOf(db.commands, correlationId);
    if found.None? {
      return NotFound;
    }
    match body {
      case NotUtf8 =>
        outcome := Failed;
      case Utf8(text) =>
        db.Answer(found.value, text);
        outcome := Stored;
    }
  }

  /** One delivery from `bot_responses`: the oldest message is taken off and processed. */
  method ReceiveNext(db: Database, bus: MessageBus) returns (outcome: ReceiveOutcome)
    requires db.Valid() && |bus.botResponses| > 0
    modifies db, bus`botResponses
    ensures db.Valid()
    ensures bus.botResponses == old(bus.botResponses)[1..]
    ensures var m := old(bus.botResponses)[0];
            && (outcome == NotFound <==> IndexOf(old(db.commands), m.correlationId).None?)
            && (outcome == Stored <==> IndexOf(old(db.commands), m.correlationId).Some? && m.body.Utf8?)
            && (outcome == Stored ==>
                  var i := IndexOf(old(db.commands), m.correlationId).value;
                  db.commands == old(db.commands)[i := old(db.commands)[i].(dateAnswered := Some(old(db.clock)),
                                                                              response := Some(m.body.text))])
            && (outcome == Stored ==> db.clock == old(db.clock) + 1)
            && (outcome != Stored ==> db.commands == old(db.commands) && db.clock == old(db.clock))
            && db.messages == old(db.messages) && db.nextUuid == old(db.nextUuid)
  {
    var m := bus.TakeResponse();
    outcome := ProcessResponse(db, m.correlationId, m.body);
  }
}
