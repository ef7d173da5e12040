# Chat server data layer and request handling, in Dafny

This project models the server side of a browser-based coding-assistant chat application. It has three parts:

- **The in-memory store** (`MemStorage`, module `Storage`). It holds chat sessions and the append-only message list of each session. Message ids come from one store-wide counter. It also holds the model configurations, of which at most one is active.
- **The model gateway** (`GeminiService`, module `Gateway`). It wraps the one remote call to the language model. It keeps a transcript of past turns and the generation settings. It truncates oversized messages before sending them. It turns every upstream failure into a canned reply.
- **The HTTP handlers** (`registerRoutes`, module `Routes`). They validate each request body, then orchestrate the store and the gateway and shape the response.

The store and the gateway are immutable values (`Storage.Store`, `Gateway.Gateway`). Together they form the application state `Routes.App`. Every mutating method is a pure function from the old state to the new one. Each handler takes:

- the state;
- the request's path parameters and parsed body;
- what the outside world supplies: the clock (`now`), a freshly generated session id, and what the remote model did (`Gateway.Outcome`: a reply text or a thrown value).

It returns the next state and a response: a status code plus a tagged body. Schema validation is a predicate on the body. It is decided before any state changes.

Files: `wrappers.dfy` (the `Option` type and a schema-field type), `text.dfy` (substring search, as in `String.prototype.includes`), `storage.dfy`, `gateway.dfy`, `routes.dfy`.

Store invariants (`Storage.Wf`):

- message ids lie below the counter;
- each session's list holds only that session's messages, in strictly increasing id order;
- every session record and every configuration is stored under its own id;
- configuration ids were handed out by their counter;
- at most one configuration is active.

Every store operation and every handler is proved to preserve these invariants.

## Behaviour worth noting

- **Upstream failure on `POST /api/chat`.** A failed remote call is answered 200 without `error: true`. `GeminiService.sendMessage` catches every upstream error and returns a canned reply (server/services/geminiService.ts:204-216), so the handler's own fallback (server/routes.ts:66-83) never runs. The response carries the gateway's canned text, and that text is what gets stored. `Routes.StoreReply` models the handler's fallback as written. `Routes.UpstreamFailureIsAnsweredNormally` proves what actually happens.
- **Duplicate session ids.** `createSession` overwrites an existing record; it does not reject the call.
- **Active configurations.** The code keeps *at most* one configuration active, not exactly one. An update with `isActive: false` can leave none active, and so can deleting the active configuration.
- **Invalid body on `POST /api/models/:id/update`.** This is answered 500, not 400. The body is validated before the id is looked up, so an invalid body for an unknown id also gets 500.
- **When `updatedAt` changes.** Storing a message does not refresh the session's `updatedAt`. Only `updateSessionTitle` refreshes it. It is called by the chat handler's touch step and by `PATCH /api/sessions/:id`.
- **One transcript for all sessions.** The gateway keeps a single process-wide transcript. Turns from every session feed the context of every later call.

## Model

| member | source | states |
|---|---|---|
| Storage.Init | server/storage.ts:51-96 | The constructor leaves no sessions or messages and starts the message counter at 1. It seeds configurations 1 to 4, of which only configuration 1 is active, and the next configuration id is 5. The result satisfies every store invariant. |
| Storage.GetMessages | server/storage.ts:117-119 | A session's messages are its stored list; an id with no list has no messages. |
| Storage.CreateMessage | server/storage.ts:121-134 | The new message gets the current counter value as its id, and the counter then grows by one. The message is appended at the end of its session's list, which is created if missing. No other session's list changes, and no session record is created. |
| Storage.NextMessageIdIsFresh | server/storage.ts:121-124 | In a well-formed store, the id the next message gets is greater than every message id already stored, in any session. So ids increase across the whole store. |
| Storage.CreateMessagePreservesWf | server/storage.ts:121-134 | Storing a message keeps every session's list in strictly increasing id order and keeps all ids below the counter. |
| Storage.DeleteMessages | server/storage.ts:136-138 | Clearing a session leaves it with no messages. Other lists, the session records and the counter are unchanged. Clearing an unknown id changes nothing. |
| Storage.GetSession | server/storage.ts:147-149 | The result is present exactly when a record is stored under the id, and then it is that record. |
| Storage.CreateSession | server/storage.ts:151-162 | The new record has the given id and title, and `createdAt == updatedAt == now`. It replaces any record with the same id and leaves every other record unchanged. |
| Storage.UpdateSessionTitle | server/storage.ts:164-176 | For an unknown id the result is absent and the store is unchanged. Otherwise the title and `updatedAt := now` are set, the id and `createdAt` are kept, and nothing else changes. |
| Storage.DeleteSession | server/storage.ts:178-182 | Afterwards the id has no record and no messages. Other sessions and their messages are unchanged. An unknown id is a no-op. |
| Storage.SessionOpsPreserveWf | server/storage.ts:136-182 | Creating, retitling and deleting sessions, and clearing messages, all keep a well-formed store well-formed. |
| Storage.InsertByRecency | server/storage.ts:141-145 | Inserting a session into a list ordered most-recent-first keeps it ordered, and adds exactly that session. |
| Storage.GetSessions | server/storage.ts:141-145 | The listing is a permutation of the stored session records, ordered by `updatedAt`, newest first. |
| Storage.SessionListingCoversStore | server/storage.ts:141-145 | When every record sits under its own id, any such permutation has one entry per stored session and contains each of them. |
| Storage.GetModelConfigs | server/storage.ts:185-187 | In a well-formed store the listing holds every stored configuration, each one as stored, in ascending id order. That is the map's insertion order. |
| Storage.GetActiveModelConfig | server/storage.ts:189-191 | In a well-formed store, a configuration is active exactly when it is the one returned. The result is absent exactly when none is active. |
| Storage.CreateModelConfig | server/storage.ts:193-215 | The new configuration takes the counter's id, and the counter grows by one. `isActive` defaults to false. If the new configuration is active, every other one is deactivated; otherwise the others are untouched. No field except `isActive` changes on the others. |
| Storage.Merge | server/storage.ts:221 | Each supplied field replaces the existing one and absent fields are kept. The id and `createdAt` are always kept. |
| Storage.MergeIdempotent | server/storage.ts:221 | Applying the same partial update twice equals applying it once. |
| Storage.UpdateModelConfig | server/storage.ts:217-235 | For an unknown id the result is absent and the store is unchanged. Otherwise the stored record becomes the merged one. Other configurations are deactivated exactly when the update turns an inactive configuration active. |
| Storage.SetActiveModelConfig | server/storage.ts:241-243 | The result is absent, with the store unchanged, exactly for an unknown id. Otherwise the result is the stored configuration with `isActive` set and every other field kept. The other configurations keep all their fields, and lose `isActive` unless the target was already active. If at most one was active before, it is now the only active one. Sessions, messages and both counters are unchanged. |
| Storage.DeleteModelConfig | server/storage.ts:237-239 | Exactly the given id is removed, and the remaining configurations and both counters are unchanged. |
| Storage.CreateModelConfigPreservesInvariants | server/storage.ts:193-215 | If at most one configuration was active before a create, at most one is active after. A well-formed store stays well-formed. |
| Storage.UpdateModelConfigPreservesInvariants | server/storage.ts:217-235 | The same two facts hold for an update. |
| Storage.SetActiveModelConfigPreservesInvariants | server/storage.ts:241-243 | The same two facts hold for an activation. |
| Storage.DeleteModelConfigPreservesInvariants | server/storage.ts:237-239 | The same two facts hold for a deletion. |
| Text.ContainsIffOccurs | server/services/geminiService.ts:176 | The left-to-right substring scan succeeds exactly when the pattern occurs at some position of the text. |
| Gateway.Init | server/services/geminiService.ts:104-111 | A fresh gateway has an empty transcript and the settings temperature 0.2 and 8192 output tokens. |
| Gateway.TruncationNotice | server/services/geminiService.ts:176-181 | The notice for a truncated message is the upload notice exactly when the message contains the upload marker phrase; otherwise it is the generic notice. |
| Gateway.Preprocess | server/services/geminiService.ts:169-185 | A message of at most 30000 characters is returned unchanged. A longer one yields its first 30000 characters followed by the notice, so the length is 30000 plus the notice length. The upload notice is used exactly when the marker is present. The output never exceeds 30000 plus the longer notice's length. |
| Gateway.UploadGetsUploadNotice | server/services/geminiService.ts:176-178 | An oversized message that opens with the upload marker is truncated with the upload notice. |
| Gateway.FailureReply | server/services/geminiService.ts:210-215 | The reply is the "too large" text exactly when the thrown value is an `Error` whose message contains `RESOURCE_EXHAUSTED`; otherwise it is the generic apology. |
| Gateway.SendMessage | server/services/geminiService.ts:188-217 | On a reply, the result is the reply text. The transcript grows by exactly two entries: the user turn with the preprocessed text, then the model turn with the reply. On a failure the gateway is unchanged and the canned reply is returned. The settings never change. |
| Gateway.OperationsKeepTranscriptAlternating | server/services/geminiService.ts:199-201 | Sending, updating the settings and resetting all keep the transcript an even-length sequence of alternating user and model turns. |
| Gateway.SendAllAppendsExchanges | server/services/geminiService.ts:193-201 | Over any run of answered messages, the transcript only grows at its end, by one (user, model) pair per message, in sending order. |
| Gateway.SendAllGrowsByTwoPerMessage | server/services/geminiService.ts:199-201 | Each answered message adds exactly two entries to the transcript. |
| Gateway.UpdateSettings | server/services/geminiService.ts:142-153 | Each supplied field replaces the current setting; the others and the transcript are kept. |
| Gateway.UpdateSettingsIdempotent | server/services/geminiService.ts:142-143 | Applying the same settings twice equals applying them once, and an empty update changes nothing. |
| Gateway.ResetChat | server/services/geminiService.ts:225-228 | The transcript becomes empty and the settings are kept. |
| Routes.ValidChatBody | server/routes.ts:15-27 | An accepted body has a string `message` and a string `sessionId`. A `settings` object, when present, has a temperature in [0, 1], a positive `maxLength`, and boolean or absent flags. A body with both strings is accepted when `settings` is absent or is such an object, so acceptance is an if-and-only-if. |
| Routes.DeriveTitle | server/routes.ts:33-36 | An empty message gives "New Conversation". A message of 1 to 30 characters gives the message itself. A longer one gives its first 30 characters followed by "...". A title is never empty and never longer than 33 characters. |
| Routes.TouchOrCreate | server/routes.ts:30-41 | An unknown session is created with the derived title and both times set to `now`. A known one keeps its id, title and `createdAt` and gets `updatedAt := now`. No other session and no message changes. |
| Routes.StoreReply | server/routes.ts:50-83 | A fulfilled gateway call stores its text as the assistant message and returns it unflagged. A rejected call stores and returns the fixed apology with `error: true`, still with status 200. |
| Routes.PostChat | server/routes.ts:12-89 | An invalid body gets 400 and changes nothing. A valid one gets 200 with the request's session id and the gateway's answer, and never the error flag. Exactly two messages are appended to that session: the user message, then the assistant message with the returned text, with consecutive ids. Other sessions' messages, the configurations and the configuration counter are unchanged; the message counter grows by two. |
| Routes.UpstreamFailureIsAnsweredNormally | server/routes.ts:50-65 | When the remote call fails, the response is a plain 200 carrying the gateway's canned reply. That reply is the last stored message, and the transcript is unchanged. |
| Routes.ChatOpensOrTouchesSession | server/routes.ts:30-41 | After a chat turn the session exists with `updatedAt == now`. A new session is titled from the message. An existing one keeps its title and `createdAt`. |
| Routes.ChatMovesSessionToFront | server/routes.ts:38-41 | If `now` is later than every earlier update, the session just written to comes first in any newest-first listing of the sessions. |
| Routes.GetChat | server/routes.ts:92-101 | The response lists the session's stored messages, or no messages for an unknown id. The state is unchanged. |
| Routes.ChatThenHistory | server/routes.ts:43-59 | Reading the history right after a chat turn shows two more messages than before: the user's message, then the returned reply. |
| Routes.ClearChat | server/routes.ts:104-113 | The session loses its messages but keeps its record. Other sessions' records and messages, the configurations, both counters and the gateway are unchanged, and the answer is always success. |
| Routes.ListSessions | server/routes.ts:116-124 | The response lists every stored session exactly once, newest `updatedAt` first. |
| Routes.PostSession | server/routes.ts:126-141 | A non-string title gets 400 and changes nothing. Otherwise a session is created under the fresh id, titled as given or "New Conversation", and returned. Other sessions, all messages, the configurations, both counters and the gateway are unchanged. |
| Routes.PatchSession | server/routes.ts:143-162 | A missing or non-string title gets 400, and an unknown id gets 404. Neither changes or creates anything. Otherwise the session is retitled, its `updatedAt` is refreshed, and it is returned. Other sessions, all messages, the configurations, both counters and the gateway are unchanged. |
| Routes.DeleteSessionRoute | server/routes.ts:164-174 | The session and its messages are gone and the answer is always success. Other sessions and their messages, the configurations, both counters and the gateway are untouched, and an unknown id changes nothing. |
| Routes.ValidSettingsBody | server/routes.ts:179-184 | Both fields are required. Given both, the body is accepted exactly when the temperature lies in [0, 1] and `maxLength` is positive. |
| Routes.PostSettings | server/routes.ts:177-200 | Values out of range get 400 and change nothing. Otherwise the gateway's temperature and output limit become the given values, the transcript is kept, and the values are echoed back. |
| Routes.ListModels | server/routes.ts:218-226 | In a well-formed store the response lists every stored configuration, lists nothing else (each entry is the record stored under its id), and is in ascending id order. The state is unchanged. |
| Routes.ActiveModel | server/routes.ts:228-239 | In a well-formed store, the active configuration is returned exactly when there is one; otherwise the answer is 404. |
| Routes.ActivateModel | server/routes.ts:241-255 | An unparsable or unknown id gets 404 and changes nothing. Otherwise the response is the stored configuration with `isActive` set and every other field kept. The other configurations keep every field but `isActive`. If at most one was active before, the target is now the only active one. Sessions, messages, both counters and the gateway are unchanged. |
| Routes.ValidModelPatchBody | server/routes.ts:260-269 | Every field is optional: a body is accepted exactly when none of its supplied fields has the wrong type, so in particular the empty body is accepted. |
| Routes.ToPatch | server/routes.ts:269-270 | The validated body becomes a partial update carrying exactly the supplied fields, with their values; absent fields stay absent. |
| Routes.UpdateModel | server/routes.ts:257-281 | A body failing its schema gets 500. An unparsable or unknown id gets 404. Neither changes anything. Otherwise the merged configuration is stored and returned. The other configurations keep every field and lose `isActive` exactly when the update turns an inactive target active. Sessions, messages, both counters and the gateway are unchanged, and at most one configuration stays active. |
| Routes.ChatRoutesPreserveWf | server/routes.ts:12-113 | The chat handlers keep a well-formed store well-formed. |
| Routes.SessionRoutesPreserveWf | server/routes.ts:126-174 | The session handlers keep a well-formed store well-formed. |
| Routes.ModelRoutesPreserveWf | server/routes.ts:241-281 | The configuration handlers keep a well-formed store well-formed. |

## Left out

- The user records (`getUser`, `getUserByUsername`, `createUser`) are not modelled: no route uses them.
- `POST /api/upload/process` is not modelled: it only answers a fixed success message.
- `GeminiService.loadHistory` and `getHistory` are not modelled. No route calls `loadHistory`, and `getHistory` only reads the `history` field.
- The remote model itself is replaced by an outcome the caller supplies. This covers the SDK, the API key, the system prompt, `startChat` and the replay of the transcript into a new chat.
- Express, HTTP and JSON encoding are left out. The 500 answers of the read-only and delete routes, and of `POST /api/models/:id/activate` (server/routes.ts:251-253), need the in-memory store to throw, which it never does, so they are left out too.
- Session ids are generated outside the model: `PostSession` takes the fresh id as an argument. The `sessionId = uuidv4()` default in `POST /api/chat` never applies, because the schema requires `sessionId`.
- The clock is an argument. One reading, `now`, serves a whole handler; the source reads the clock separately for the session, each message and each configuration.
- Concurrency is left out. Each handler runs atomically, whereas in the source another request can interleave while the remote call is pending.
- Floating-point numbers (`temperature`, `maxLength`) are modelled as reals. Only their range checks and their copying are modelled.
- `parseInt` of the `:id` path segment is left out: the handlers take its result, with `None` standing for NaN.
- String lengths count characters, whereas JavaScript counts UTF-16 code units. This affects titles and truncation for text outside the Basic Multilingual Plane.
- Logging is left out: the `console.log` and `console.error` calls in the gateway and the handlers have no effect on state or responses.
- The JSON `parameters` object of a configuration is an opaque string map.
- Storage.GetSessions: does not fix the order among sessions with equal `updatedAt`, which the source inherits from map insertion order through a stable sort.
- Storage.GetModelConfigs: states insertion order as ascending id order, which equals the map's insertion order only in well-formed stores, where every id came from the counter.
