# Poll relay of the Roblox AI chat-bot proxy

The proxy server lets a Roblox client, which cannot wait on slow outbound HTTP
calls, hand a job to the server and fetch the answer later by polling. The
server keeps the jobs in an in-memory `Map` (`pollRequests`) keyed by an id the
client chooses. There are four operations:

- **register** (`POST /api/poll-register`). It refuses a missing id or url with
  400. Otherwise it stores a fresh `pending` record under the id, replacing any
  earlier one, runs the job, and acknowledges the id.
- **poll-result** (`GET /api/poll-result`). A missing id gets 400 and an unknown
  id gets 404. A `complete` record is returned with its response and deleted.
  Any other record is reported by its status alone and kept.
- **`processPollingRequest`**. It moves a record from `pending` to `processing`,
  then to `complete` or `error`. A job whose url contains `/api/chat` parses its
  body and answers the message with the keyword classifier. Any other job gets
  a fixed reply.
- **sweep** (the `setInterval` body). It deletes every record that is more than
  five minutes (300000 ms) old.

Two pure pieces sit beside the relay and are modelled too:

- `generateSimpleResponse`: a case-insensitive keyword classifier with a fixed
  priority (hello/hi, then help, then follow, then stop/stay, then a random
  generic reply).
- The assembly of the message list in the `/api/chat` handler. Only the Gemini
  and OpenAI branches send the list on (server.js:170, 226), and the `API_TYPE`
  constant (server.js:18) selects neither. What a caller can observe of this
  step is the exception it throws on a `null` context element.

Modules: `Wrappers` (Option, Result), `Text` (`toLowerCase` and `includes`),
`SimpleReply`, `ChatMessages`, `PollRelay` (the record types and the class
`Registry`, whose field `requests` is the map), and `PollProperties` (what a
client sees over several calls).

## Where the code departs from the relay's intended behaviour

The relay was meant to acknowledge a registration at once, run the job in the
background, and consume error results like successful ones. The code does not
do that; the model follows the code in each case.

- `processPollingRequest` is `async` but never awaits, so the whole job runs
  inside the register handler, before the acknowledgement is sent. For a string
  id, every record is therefore already `complete` or `error` when register
  returns. A poll never
  sees `pending` or `processing`, although a job was meant to be still pending
  or processing right after registration. `Registry.Valid` states that
  every stored record is terminal, and `RegisterThenPollTwice` shows the first
  poll is already final.
- An `error` record is not deleted when it is polled, and the reply carries only
  `status: 'error'`, without the error message. A failed job's reason never
  reaches the client, and the record stays until the sweep evicts it or a new
  registration under the id replaces it.
- An empty or missing id at poll-result is a 400, not a not-found.
- Validation does not look at the body. A chat job (url containing `/api/chat`)
  whose body cannot be parsed into a message fails later, inside the job, into
  `error`. Any other job never reads its body and completes whatever it is.

## Model

| member | source | states |
|---|---|---|
| `Text.ToLower` | server.js:496 | lower-casing keeps the length and maps each character on its own (ASCII letters only) |
| `Text.ContainsIffOccurs` | server.js:498-507 | `includes` is true exactly when the keyword occurs at some index of the string |
| `SimpleReply.GenerateSimpleResponse` | server.js:495-524 | the reply is the greeting iff the lower-cased message contains "hello" or "hi"; the help reply iff it has no greeting keyword and contains "help"; the follow reply iff neither earlier keyword matches and "follow" does; the stay reply iff only "stop"/"stay" match; otherwise one of the six generic replies, and only then |
| `SimpleReply.CaseInsensitive` | server.js:496 | lower-casing the message before classifying it changes nothing |
| `SimpleReply.EmbeddedHiGreets` | server.js:498 | "hi" matches inside words: any message containing "this", "which" or "nothing" gets the greeting |
| `SimpleReply.FollowOutranksStop` | server.js:504-509 | "Stop following me" contains a stop keyword yet gets the follow reply, because "follow" is tested first |
| `ChatMessages.RoleOf` | server.js:97 | a context item's role is kept when present and non-empty, otherwise it becomes "user"; it is never empty |
| `ChatMessages.AssembleMessages` | server.js:89-104 | the assembly throws exactly when some context element is `null`; otherwise the list is the system entry, then one entry per context item in order (role defaulted, content copied), then the user's message, and a non-array context adds nothing |
| `PollRelay.JobOutcome` | server.js:442-492 | a job always ends `complete` or `error`; it ends `error` exactly when its url contains `/api/chat` and its body cannot be parsed into a message, and then holds that error; a complete job holds a response; request fields and creation time are untouched |
| `PollRelay.NewRecordSettles` | server.js:366-374 | the record stored at registration, once its job has run, is terminal, holds a response iff complete and an error iff failed, and keeps `created = now` |
| `PollRelay.ChatJobAnswer` | server.js:457-470 | a chat job whose body parses answers with the keyword classifier's reply to its message and the status `polling_success` |
| `PollRelay.GeneralJobAnswer` | server.js:472-475 | a job whose url does not contain `/api/chat` completes with the fixed general reply, whatever its body |
| `PollRelay.Swept` | server.js:527-535 | the sweep keeps exactly the records that are at most 300000 ms old, unchanged |
| `PollRelay.SweptBoundary` | server.js:529-532 | a record exactly 300000 ms old survives the sweep; one millisecond older, it is evicted |
| `PollRelay.SweptIdempotent` | server.js:531-535 | a second sweep at the same time removes nothing more |
| `PollRelay.SweptMonotone` | server.js:532 | a later sweep keeps no record that an earlier sweep would have evicted |
| `PollRelay.Registry.constructor` | server.js:354 | the table starts empty |
| `PollRelay.Registry.Process` | server.js:442-492 | an unknown id leaves the table unchanged; otherwise only that id's record changes, and it becomes the job's outcome |
| `PollRelay.Registry.Register` | server.js:357-392 | a missing or empty id or url gives the 400 reply and leaves the table unchanged; otherwise the id is acknowledged and only the record under the id changes: it is replaced by a new record with `created = now` and the given url, method, headers and body, already terminal; every record stays terminal and well-formed |
| `PollRelay.Registry.PollResult` | server.js:395-439 | a missing id gives 400 and an unknown id gives 404, both leaving the table unchanged; a complete record's response is returned and only that key is deleted; a pending, processing or error record is reported by status alone and the table is unchanged |
| `PollRelay.Registry.Sweep` | server.js:527-536 | visiting every record and deleting the expired ones leaves exactly the swept table |
| `PollProperties.RegisterThenPollTwice` | server.js:357-430 | after a valid registration the first poll is already final (never pending or processing); it is an error exactly when a chat job's body fails to parse; the result delivered is the general reply for a non-chat url and the classifier's reply for a chat body that parses; a completed result is delivered once and a second poll finds nothing; an error answer repeats on the second poll |
| `PollProperties.RejectedRegistration` | server.js:361-363 | a refused registration answers 400 and stores nothing: a later poll with that id gets not-found (404), or 400 if the id is missing |
| `PollProperties.SweepThenPoll` | server.js:527-535 | a job registered at `now` and swept at `later` is not found exactly when `later - now > 300000` |
| `PollProperties.LastRegistrationWins` | server.js:366-374 | registering an id twice, with any urls, bodies and times, leaves only the second job: the poll shows the outcome of the second url and body (the general reply for a non-chat url, the classifier's reply or `error` for a chat url) |

## Left out

- Express setup, CORS, JSON body parsing, `app.listen` and all logging: framework plumbing and I/O.
- The 500 replies of both handlers: with Express 4's body parser, which always sets `req.body`, and with string or missing ids, nothing in their `try` blocks can throw, because the job catches its own errors. Register can throw only on an id that is not a string, such as an object whose `toString` cannot be called: the log line at server.js:376 then throws after the `pending` record is stored, the job never runs, and the client gets 500 while the `pending` record stays until the sweep. Such ids are not modelled.
- `Date.now()` and `setInterval`: the time is a parameter of `Register` and `Sweep`. The 60-second timer period is not modelled.
- `Math.random()`: the index of the generic reply is the parameter `pick`, reduced modulo six.
- `JSON.parse`, the destructuring of its result and `message.toLowerCase()` on a chat job's body are one abstract `BodyParser` parameter. It either gives the message text or fails with an error message. The exact text of JavaScript's error messages is not modelled.
- `Text.ToLower`: maps only the ASCII letters A-Z. JavaScript's full Unicode lower-casing is not modelled.
- Ids, urls, bodies and the HTTP method are strings or missing. JSON numbers, booleans or objects in those fields are not modelled, and falsy values other than a missing or empty string are not either. In the source a numeric id (`{"id": 12345}`) is acknowledged, but `req.query.id` is never a number (it is a string, or an array or object of strings for repeated or bracketed keys) and `Map` keys compare by SameValueZero, so no poll ever finds that job: every poll gets 404 until the sweep evicts it.
- ChatMessages.RoleOf: a truthy role that is not a string (`{role: 5}`) is kept as it is by the source; roles are modelled as strings only.
- ChatMessages.AssembleMessages: `content` can be any JSON value in the source and is copied as it is; it is modelled as a string or missing. A `null` context element is modelled as a failure; the handler's catch block that turns the exception into the 200 `fallback` reply (server.js:259-291) is not modelled.
- Records are values in the map, not shared objects. No record object is ever reachable from two keys, so no aliasing is lost.
- The sweep visits keys in an arbitrary order, not the `Map`'s insertion order. The result does not depend on the order.
- The Gemini and OpenAI calls (server.js:160-247), the `/api/chat` handler's other branches, `/api/simple-chat`, the system-prompt text, the unenforced token check and the Python `app.py` forwarder: network calls or glue with no behaviour to prove.
