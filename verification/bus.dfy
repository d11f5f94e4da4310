/**
  The two RabbitMQ queues between the chat application and the bot. Publishing appends to a
  queue; a consumer (prefetch 1, `no_ack=True`) takes the oldest message off it.
 */
module Bus {
  import opened Payloads

  class MessageBus {
    var botRequests: seq<Envelope<InboundBody>>
    var botResponses: seq<Envelope<ResponseBody>>

    constructor ()
      ensures botRequests == [] && botResponses == []
    {
      botRequests, botResponses := [], [];
    }

    /** `basic_publish(routing_key='bot_requests', body=..., correlation_id=...)`. */
    method PublishRequest(correlationId: Uuid, body: InboundBody)
      modifies this`botRequests
      ensures botRequests == old(botRequests) + [Envelope(correlationId, body)]
    {
      botRequests := botRequests + [Envelope(correlationId, body)];
    }

    /** `basic_publish(routing_key='bot_responses', body=..., correlation_id=...)`. */
    method PublishResponse(correlationId: Uuid, body: ResponseBody)
      modifies this`botResponses
      ensures botResponses == old(botResponses) + [Envelope(correlationId, body)]
    {
      botResponses := botResponses + [Envelope(correlationId, body)];
    }

    /** Delivery of the oldest `bot_requests` message to the bot's callback. */
    method TakeRequest() returns (m: Envelope<InboundBody>)
      requires |botRequests| > 0
      modifies this`botRequests
      ensures m == old(botRequests)[0] && botRequests == old(botRequests)[1..]
    {
      m := botRequests[0];
      botRequests := botRequests[1..];
    }

    /** Delivery of the oldest `bot_responses` message to the receiver's callback. */
    method TakeResponse() returns (m: Envelope<ResponseBody>)
      requires |botResponses| > 0
      modifies this`botResponses
      ensures m == old(botResponses)[0] && botResponses == old(botResponses)[1..]
    {
      m := botResponses[0];
      botResponses := botResponses[1..];
    }
  }
}
