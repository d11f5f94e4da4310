# Chat command protocol — a Dafny model

This project models how the chat application and its stock-quote bot correlate commands
with their answers:

- **Dispatcher** (`PostMessage`). A chat line that matches `^/(\w+)(?:=(.*))?$` is a
  command.
  - For `stock` and `day_range`, a pending `CommandMessage` row is stored under a fresh uuid.
    The request `{type, arg}` is published on the `bot_requests` queue with that uuid as its
    correlation id, and the reply is "queued".
  - Any other text is saved as a chat `Message` and echoed back.
  - An empty post gets `CH01`.
- **Bot** (`Bot._process_request`). It decodes each request and answers through the quote
  adapter (`query_stock`, `query_day_range`). It publishes one response dictionary on
  `bot_responses` under the same correlation id. A response that cannot be serialised is
  replaced by the `BOT02` error.
- **Receiver** (`process_response`). It finds the row whose uuid is the correlation id and
  stores the answer and the answer time on it. An unknown id, or a body that is not UTF-8,
  leaves the table as it was.
- **Poller** (`GetUpdates`). It returns the chat lines newer than `last_t`: at most 100,
  oldest first. Then it returns the caller's answered commands, oldest first, converted to
  display items. A record that cannot be converted becomes the single "Error getting
  response from bot." item. After that the poller deletes exactly the records it delivered.

The database is the class `Store.Database`.

- Its tables are sequences of rows in insertion order.
- Its clock ticks once for every `timezone.now()` reading that is stored in a row. The
  receiver's reading, taken before a decode that then fails, is never stored, so it does
  not tick.
- Its uuids come from a counter.

The invariant `Valid()` says three things:

- rows are in strictly increasing `date_posted` order;
- uuids are distinct and below the counter;
- both answer columns are set together, after the post and before the clock.

The two queues are the class `Bus.MessageBus`. Each queue is a sequence that is appended to
on publish and taken from the front on delivery.

JSON bodies are datatypes (`Payloads`). The upstream finance service is a parameter: it is
the already-parsed reply document, or the fact that the call failed.

`Protocol.CommandRoundTrip` follows one command through every stage. The post is answered
"queued". The bot's answer is stored on the new record. The next poll shows the caller's
earlier answers and then this one. That answer always converts. Finally the table holds
exactly the undelivered records.

Where the intended behaviour and the code differ, the model follows the code:

- `query_stock` raises "not found" and the `BOT04` missing-field error inside its own `try`.
  Its handler turns both into the `BOT03` "Error when querying Stock API" error, so those two
  never reach a client (`BotServer.ResponseCodes`).
- In `query_day_range`, a quote without a `symbol` attribute raises `KeyError`. The
  per-quote handler does not catch it, or raises it again while formatting its own message.
  The whole batch then fails with `BOT03`; the bad entry is not replaced by a per-entry error.
- A request object without a `"type"` key raises `KeyError` in `_process_request`, which
  nothing catches. No response is published (`BotServer.Respond` returns None). The error
  also leaves `start_consuming()`, so the bot process stops: that command and every later
  one stay pending.
- `/day_range` without `=` fails inside the dispatcher (`None.find`) with `CH02`. It never
  reaches the bot's `BOT01` check. `/day_range=` with an empty argument does reach it.
- The receiver overwrites an already-answered row without checking.

## Model

| member | source | states |
|---|---|---|
| `Payloads.Encode` | chatapp/chatroom/restapi.py:73 | the published request decodes to a JSON object with a `type` key and the command's own `arg` |
| `Payloads.EncodeRoundTrip` | chatapp/chatroom/restapi.py:73-90 | the bot recovers exactly the request the dispatcher encoded, both kind and argument |
| `Models.ToJsonSafeObject` | chatapp/chatroom/models.py:25-30 | a chat line becomes a `message` item with its text, author id and name, and post time, and no error flag |
| `Store.IndexOf` | chatapp/chatroom/receiver.py:37 | the lookup by uuid finds a row with that uuid, and finds none exactly when no row has it |
| `Store.AnsweredBy` | chatapp/chatroom/restapi.py:167-169 | the poll's command query returns only the caller's answered rows, and every one of them |
| `Store.Undelivered` | chatapp/chatroom/restapi.py:181 | after the delete, pending rows and other users' rows remain, and no remaining row is deliverable to the caller |
| `Store.PollPartition` | chatapp/chatroom/restapi.py:167-181 | the delivered rows and the surviving rows together are the old table as a multiset: nothing lost, nothing duplicated |
| `Store.DrainIsComplete` | chatapp/chatroom/restapi.py:181 | right after a poll, the same query finds nothing more for that user |
| `Store.AnsweredOldestFirst` | chatapp/chatroom/restapi.py:167-169 | in a well-formed table, answered rows are delivered in ascending `date_posted` order |
| `Store.DistinctRowOccursOnce` | chatapp/chatroom/models.py:44 | in a table with distinct primary keys, each row occurs once |
| `Store.DeliveredExactlyOnce` | chatapp/chatroom/restapi.py:166-181 | every answered row of the caller is delivered exactly once by a poll and is gone afterwards |
| `Store.AnsweredByAppend` | chatapp/chatroom/restapi.py:167-181 | a row added last is delivered after all earlier rows when it is deliverable, and otherwise survives the delete, last |
| `Store.Database.SaveMessage` | chatapp/chatroom/restapi.py:40-44 | a chat line is stored with the current time, the clock moves on, and the invariant is kept |
| `Store.Database.CreateCommand` | chatapp/chatroom/restapi.py:74-75 | a pending row is appended under a uuid no existing row has, stamped with the current time, and the invariant is kept |
| `Store.Database.Answer` | chatapp/chatroom/receiver.py:38-40 | exactly the answer columns of that one row change, to now and the text; the invariant is kept |
| `Store.Database.DeleteDelivered` | chatapp/chatroom/restapi.py:181 | the table becomes its undelivered rows, still well-formed |
| `Bus.MessageBus.PublishRequest` | chatapp/chatroom/restapi.py:99-111 | the request is appended to `bot_requests` with its correlation id |
| `Bus.MessageBus.PublishResponse` | bot/server.py:87-89 | the response is appended to `bot_responses` with its correlation id |
| `Bus.MessageBus.TakeRequest` | bot/server.py:24-26 | the bot is handed the oldest request, which leaves the queue |
| `Bus.MessageBus.TakeResponse` | chatapp/chatroom/receiver.py:20-22 | the receiver is handed the oldest response, which leaves the queue |
| `CommandSyntax.WordPrefixLength` | chatapp/chatroom/restapi.py:23 | `\w+` takes the longest run of word characters |
| `CommandSyntax.MatchCommandSound` | chatapp/chatroom/restapi.py:23-36 | every reported match is a derivation `/name[=arg]`, with an optional final line feed |
| `CommandSyntax.MatchCommandComplete` | chatapp/chatroom/restapi.py:23-36 | every such derivation is matched, with the same name and argument groups |
| `CommandSyntax.StripIsTrimmedSlice` | chatapp/chatroom/restapi.py:87 | `strip()` returns a slice of its input with only whitespace cut on either side, and no whitespace at either end |
| `CommandSyntax.Split` | chatapp/chatroom/restapi.py:86 | `split(',')` yields at least one piece, and no piece contains the separator |
| `CommandSyntax.SplitJoin` | chatapp/chatroom/restapi.py:86 | joining the pieces with the separator gives back the argument |
| `CommandSyntax.SplitCount` | chatapp/chatroom/restapi.py:86 | there is one piece more than there are commas |
| `CommandSyntax.StripAll` | chatapp/chatroom/restapi.py:87 | each company code is its piece stripped, in order |
| `CommandSyntax.CompaniesArg` | chatapp/chatroom/restapi.py:85-89 | with a comma, the argument becomes the list of stripped pieces, one more than the commas; without one, the string as typed |
| `ApiAdapter.QueryStock` | bot/api_adapter.py:33-60 | a quote comes back exactly for a string code with a resource that has name and price fields and a numeric price. It carries those values and the message "{code} ({name}) quote is ${price} per share.". Every failure is the `BOT03` one |
| `ApiAdapter.ClassifyQuote` | bot/api_adapter.py:91-113 | a quote missing `symbol` aborts the batch; a complete quote with numeric lows and highs is a success entry with its values and the message "{code} ({name}) Days Low quote is ${low} and Days High is ${high}."; the other error entries carry the message for their case |
| `ApiAdapter.ClassifyAllSpec` | bot/api_adapter.py:89-113 | the loop completes exactly when every quote has a symbol, and then gives one entry per quote in upstream order |
| `ApiAdapter.ClassifyAllAborts` | bot/api_adapter.py:96 | one quote without a symbol fails the whole loop |
| `ApiAdapter.DayRangeResultSpec` | bot/api_adapter.py:62-119 | `BOT01` exactly for a falsy argument; success exactly for a non-empty reply whose quotes all have a symbol, with one result per quote; every other failure is `BOT03` |
| `ApiAdapter.QueryDayRange` | bot/api_adapter.py:62-119 | the loop with its per-quote handling computes exactly the outcome `DayRangeResultSpec` describes |
| `BotServer.CreateErrorResponse` | bot/server.py:97-102 | an error response with the message; the `code` key is present exactly when the code is truthy |
| `BotServer.Respond` | bot/server.py:35-68 | undecodable and non-object bodies get `BOT03`; an unknown type gets "Service not implemented"; only a missing `type` gets no response |
| `BotServer.RespondToDispatched` | bot/server.py:54-65 | every request the dispatcher publishes is answered with the outcome of the query its type names |
| `BotServer.ResponseCodes` | bot/server.py:43-68 | an error response carries no code, `BOT01` or `BOT03`, never anything else |
| `BotServer.Serialized` | bot/server.py:79-84 | a response that does not serialise is replaced by the `BOT02` error, and otherwise left unchanged |
| `BotServer.ProcessRequest` | bot/server.py:35-70 | the oldest request is consumed, and exactly one response, or none on a missing `type`, is published under its correlation id |
| `Receiver.ProcessResponse` | chatapp/chatroom/receiver.py:27-45 | an unknown id or an undecodable body changes nothing; otherwise exactly the matching row is answered with the text at the current time |
| `Receiver.ReceiveNext` | chatapp/chatroom/receiver.py:22-45 | the oldest response is consumed and stored on the row its correlation id names, if there is one; otherwise the table and the clock are unchanged |
| `RestApi.ProcessCommand` | chatapp/chatroom/restapi.py:52-97 | only `stock`, and `day_range` with an argument, are queued with their request; unknown names and `day_range` without an argument get their error replies |
| `RestApi.Decide` | chatapp/chatroom/restapi.py:25-37 | `CH01` exactly for a missing or empty post; a chat line exactly when the pattern does not match; a non-empty match goes to `ProcessCommand` with groups 1 and 2 |
| `RestApi.PostMessage` | chatapp/chatroom/restapi.py:25-111 | a rejection changes nothing; a chat line is stored and echoed; a command is stored pending under a fresh uuid and published with that uuid |
| `RestApi.ChatUpdatesSpec` | chatapp/chatroom/restapi.py:153-160 | the chat part has at most 100 lines, all newer than `last_t`, oldest first; any newer line left out is older than all of them and was cut by the limit |
| `RestApi.ResultItems` | chatapp/chatroom/restapi.py:209-220 | one display item per `day_range` result, in order, each flagged as that result's error flag says |
| `RestApi.ConvertResponse` | chatapp/chatroom/restapi.py:190-223 | conversion fails exactly for a missing answer, an answer that is not a JSON object, or an answer whose shape does not fit the request; otherwise an error answer or a quote gives its one item, and a range answer gives one item per result (`ResultItems`) |
| `RestApi.DisplayFor` | chatapp/chatroom/restapi.py:171-179 | a successful conversion gives exactly the converted items, and a failed one the single failure item; every item is a Bot `command` item stamped with the answer time |
| `RestApi.DeliveredAreBotItems` | chatapp/chatroom/restapi.py:171-179 | every item of the bot part is a `command` item by the Bot |
| `RestApi.ConvertAll` | chatapp/chatroom/restapi.py:169-179 | the loop appends each record's items, or its failure item, oldest record first |
| `RestApi.PollLayout` | chatapp/chatroom/restapi.py:150-179 | chat lines come first as `message` items without an error flag, and bot answers follow as Bot `command` items |
| `RestApi.GetUpdates` | chatapp/chatroom/restapi.py:148-188 | a bad `last_t` is a 400 that changes nothing; otherwise the reply is the chat part then the delivered items, and exactly the delivered rows are deleted |
| `Protocol.DispatchedAnswer` | bot/server.py:54-84 | the bot always answers a dispatched request, with that request's query outcome after the serialisation fallback |
| `Protocol.DispatchedAnswerConverts` | chatapp/chatroom/restapi.py:198-220 | the answer to a dispatched request always fits its request, so the poller never shows the failure item for it |
| `Protocol.PollAfterAnswer` | chatapp/chatroom/restapi.py:166-181 | a poll right after one more row is answered delivers the earlier rows' items, then that row's |
| `Protocol.DispatchAndAnswer` | chatapp/chatroom/receiver.py:37-40 | post, bot and receiver in turn leave the queues empty and the new row answered, one tick after its post, with the bot's answer |
| `Protocol.CommandRoundTrip` | chatapp/chatroom/restapi.py:70-80 | a posted command is queued, answered, shown by the next poll after the caller's earlier answers, and then deleted |

## Left out

- `\w` in the command pattern and the whitespace of `str.strip()` are ASCII only. Unicode
  letters and Unicode spaces are not modelled.
- `float()` is modelled as a decimal-text check: an optional sign, digits and at most one
  point. Exponents, `inf`, `nan` and surrounding whitespace are not accepted. The model keeps
  the text instead of the float value.
- `uuid.uuid4()` is a counter. Uniqueness is a fact of the counter, not a probability.
- `timezone.now()` is a clock that moves forward one tick per reading. Equal timestamps and
  clock skew between the processes are not modelled.
- `getattr(self, command)` in `_process_command` is limited to `stock` and `day_range`.
  Other attribute names of the view (`post`, `dispatch`, and so on) count as unknown commands.
- HTTP calls, `raise_for_status` and XML parsing are not modelled. Each query receives the
  parsed reply, or `StockUnavailable` / `RangeUnavailable` when any of them failed.
- RabbitMQ connections, channels, `queue_declare`, `prefetch_count` and acknowledgements are
  not modelled. A queue is a sequence. A failure to connect while publishing is not
  modelled, whether in the dispatcher or in `_send_response`'s "FATAL" path.
- `RestApi.PostMessage`: does not model the `DB01` reply when saving a chat line fails. The
  model's database never fails.
- `RestApi.GetUpdates`: does not model the 500 reply for a database failure. The poll is one
  atomic step, so a row answered between the read and the delete cannot be lost in the model.
- `Receiver.ProcessResponse`: models a failed UTF-8 decode as the only failure after the
  lookup. Other database errors on save are not modelled.
- `RestApi.ChatUpdatesSpec`: parsing of `last_t` (`str_to_datetime_aware`) is not modelled.
  The parse result is an input: a timestamp or unparsable text.
- `BotServer.Respond`: assumes a Python version where `json.loads` accepts the encoding as
  its second positional argument. On versions that reject it, every request takes the
  `BOT03` deserialisation branch. The model follows the evident intent: a well-formed body
  decodes.
- The list that `str(list)` produces in error messages assumes the items contain no quote
  characters, so no escaping is needed.
- Request bodies are limited to a `type` key that is a string or missing, and an `arg` that
  is null, a string or a list of strings. Other JSON shapes sent by third parties are not
  modelled.
- `BotServer.ProcessRequest`: on a missing `"type"` the result `crashed` is true, but the
  model has no stopped state for the bot. In the code the `KeyError` ends `start_consuming()`
  and the bot process, so no later request is answered either. A caller of the model that
  keeps consuming after `crashed` goes beyond what the code does.
- `BotServer.ProcessRequest`: whether `json.dumps` fails is the input `serializable`. The
  dictionaries the bot builds always serialise; the flag covers the fallback branch.
- `_convert_response_to_message`'s "not implemented" branch for other request types is not
  modelled. The dispatcher stores only `stock` and `day_range` requests.
- `GetLastMessages` and `GetOnlineUsers`, the HTML views, the URL routing, the
  receiver-thread start-up in the app config, `bot_main.py` and the timestamp formatting
  helpers are not part of this model.
- The ordering meta options of the models are not modelled. Every query the core runs
  orders explicitly.
