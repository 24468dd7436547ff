# Watson middleware for Botkit — a verified model

This project models `WatsonMiddlewareV2`, the Botkit middleware that forwards chat
messages to IBM Watson Assistant (v2), and its context store adapter. The model covers:

- the **message gate** that answers platform-internal, empty, reply and bot messages
  locally with a dummy `{output: {text: []}}` response;
- the **session state machine**: `sessionId` and `expiringSession`, renewed lazily when
  the expiry is absent or strictly before "now", with expiry `now + inactivityTimeOut*60*1000`;
- the **payload builder**: assistant and session ids, the sanitized input text, and the
  context resolution rule (stored context, delta, or their deep merge);
- the **orchestration** of one exchange (`sendToWatson`, `receive`, `interpret`), which
  never throws and captures every failure into `watsonError`;
- the **intent matcher** `hear`;
- the **context store adapter**: `readContext` / `updateContext` on records kept under
  `"user." + userId`, and the instance accessors that throw until storage is bound;
- `deleteUserData`.

Files: `wrappers.dfy` (Option/Result/Outcome), `assistant.dfy` (JSON-like values,
requests, responses, errors), `utils.dfy` (module `Utils`, src/utils.ts), `index.dfy`
(module `Middleware`, src/index.ts), `scenarios.dfy` (client methods that derive
behaviours of the code from the contracts).

How the outside world enters the model:

- Each call of the assistant service is answered by a parameter: `sessionReply`,
  `messageReply` (a `Result` of the value or a `RemoteError(code, message)`), `deleteReply`.
  A ghost log `calls` records every call the middleware makes to the service, with its
  arguments, so "no remote call" and the order of calls are part of the contracts.
- The clock is two parameters: `now` (read by `checkExiringSession`) and `createdAt`
  (read by `createSession` after the reply arrived).
- The storage backend is a class `Utils.Storage` holding `entries: map<string, Record>`
  and the backend's current read and write rejection (`readFault`, `writeFault`).
- The `before`/`after` hooks and `deepmerge` are function values given to the
  constructor; nothing is assumed about `merge`.

Two details of the code worth knowing:

- A session whose expiry equals `now` is reused: the test at src/index.ts:207 is a strict `<`.
- The deep-merge semantics are those of the `deepmerge` library and are not modelled.

## Model

| member | source | states |
|---|---|---|
| Utils.ReadContext | src/utils.ts:29-49 | the record's context is returned exactly when the store reads successfully, the key `user.<id>` exists and its context is truthy; otherwise absent (null); a read failure is absence; a function, so the store is untouched |
| Utils.ItemIdInjective | src/utils.ts:27-33 | distinct users get distinct store keys under the `user.` prefix |
| Utils.UpdatedRecord | src/utils.ts:58-74 | the written record has the prior record's keys plus `id` and `context`, `id` is the user id, `context` is the response's context, and every other field is kept |
| Utils.UpdateContext | src/utils.ts:51-80 | the store changes only at `user.<id>`, to the prior record (or `{}` when absent or unreadable) with `id`/`context` set; the response is returned unchanged; a write failure is returned as the error and nothing is stored; after success a readable store gives back the response's context if it is truthy |
| Utils.ReadAfterUpdate | src/utils.ts:33-77 | round trip: looking up a key just written with a context yields that context when truthy, absent otherwise |
| Middleware.Sanitize | src/index.ts:160-166 | the sanitized text has the input's length, a space wherever the input has `\r`, `\n` or `\t`, and the input's character everywhere else |
| Middleware.Ignored | src/index.ts:135-140 | a message is forwarded exactly when it has text or is a `welcome` event, its type is neither `presence_change` nor `reconnect_url`, and neither `reply_to` nor `bot_id` is set |
| Middleware.ResolveContext | src/index.ts:167-177 | a context is sent exactly when a delta is given or a context is stored; with no delta it is the stored one; with a delta it is the delta alone when nothing is stored and `merge(stored, delta)` otherwise |
| Middleware.SanitizedHasNoBreaks | src/index.ts:161-162 | sanitized text holds no carriage return, newline or tab |
| Middleware.SanitizeKeepsCleanText | src/index.ts:162 | text without those characters is sent unchanged |
| Middleware.SessionErrorCarriesCause | src/index.ts:106-112 | the session-creation error text contains the remote code and message at fixed positions |
| Middleware.DeleteErrorCarriesCause | src/index.ts:257-263 | the deletion error text contains the remote code and message at fixed positions |
| Middleware.ReusedAtExpiry | src/index.ts:207 | a session whose expiry equals now does not count as expired |
| Middleware.WatsonMiddlewareV2.constructor | src/index.ts:48-68 | timeout defaults to 5 and confidence to 0.5, each replaced only by a truthy (non-zero, present) argument; no session, no expiry, no storage and no calls yet |
| Middleware.WatsonMiddlewareV2.Hear | src/index.ts:82-96 | true iff the message has a response with intents and some pattern p and intent i have `i.intent == p` and `i.confidence >= minimumConfidence`; false when the response or its intents are missing |
| Middleware.WatsonMiddlewareV2.CreateSession | src/index.ts:98-114 | one create-session call for the assistant; on success `sessionId` is the returned id and the result is `createdAt + timeout*60*1000`; on failure `sessionId` is unchanged and the error text carries code and message |
| Middleware.WatsonMiddlewareV2.CheckExpiringSession | src/index.ts:206-210 | a create-session call is made iff the expiry is absent or strictly before now; then both fields take the new id and expiry on success and stay unchanged on failure; otherwise nothing changes; on success a session id exists |
| Middleware.WatsonMiddlewareV2.BuildPayload | src/index.ts:155-177 | the payload carries the current assistant and session ids; `input` is present iff the text is non-empty and then holds the sanitized text; the context is the stored one (omitted if none) without a delta, the delta without a stored context, and `merge(stored, delta)` with both |
| Middleware.WatsonMiddlewareV2.Forward | src/index.ts:152-203 | no request is sent unless the session and the `before` hook succeed, and then it is the `before` result; a successful exchange had a session, a reply, and its result is the `after` hook's result on that reply |
| Middleware.WatsonMiddlewareV2.ForwardFailsIffAStageFails | src/index.ts:152-203 | an exchange ends in an error exactly when the session, the `before` hook, the message call or the `after` hook fails; a successful one's result is the `after` hook's result |
| Middleware.WatsonMiddlewareV2.ForwardWithDefaultHooks | src/index.ts:116-128 | with the pass-through hooks the built payload is what is sent and the service's response is the result |
| Middleware.WatsonMiddlewareV2.SendToWatson | src/index.ts:130-204 | an ignored message gets the dummy response, with no session check, no remote call, no store change and storage left unbound; any other message binds the storage and runs the exchange |
| Middleware.WatsonMiddlewareV2.RunExchange | src/index.ts:150-203 | on the first failing stage its error is put into `watsonError`, `watsonData` and the store stay as they were; on success `watsonData` is the `after` result and the store is updated with that same response, a failed write landing in `watsonError`; the calls are the session check's followed by one message call with the `before` result, if it got that far |
| Middleware.WatsonMiddlewareV2.Receive | src/index.ts:212-217 | behaves as `sendToWatson` with no context delta |
| Middleware.WatsonMiddlewareV2.Interpret | src/index.ts:219-224 | behaves as `sendToWatson` with no context delta |
| Middleware.WatsonMiddlewareV2.ReadContext | src/index.ts:226-233 | throws the "called before the first this.receive call" error while storage is unbound, else returns the adapter's `readContext` on the bound storage |
| Middleware.WatsonMiddlewareV2.UpdateContext | src/index.ts:235-245 | throws the "called before the first this.receive call" error while storage is unbound, else updates the bound storage exactly as the adapter does |
| Middleware.WatsonMiddlewareV2.DeleteUserData | src/index.ts:247-265 | the session check runs first and its failure is thrown with no delete call; otherwise one delete call with the given session id and the current assistant id follows, and its rejection is thrown with code and message |
| Scenarios.SanitizeExample | src/index.ts:162 | `"hello\tworld\n!"` is sent as `"hello world !"` |
| Scenarios.IgnoredRunLeavesStorageUnbound | src/index.ts:135-150 | after any run of ignored messages storage is still unbound, no call was made, the store is unchanged and `readContext` still throws |
| Scenarios.SessionReuse | src/index.ts:206-210 | checks within the window (including its last instant) reuse the first session; the first check after it creates exactly one new session |
| Scenarios.ReceiveThenReadBack | src/index.ts:193-196 | after an exchange with pass-through hooks on any store whose reads and writes succeed, `readContext(user)` returns the response's context when it is truthy and null otherwise |

## Left out

- Asynchrony and interleaving: concurrent session checks racing on `sessionId`/`expiringSession` and concurrent read-then-write updates of one user's record; the model runs one call at a time.
- The `AssistantV2` client, `IamAuthenticator` and the constructor's `version`, `apikey` and `url` arguments: network wiring; only the replies of its calls are modelled.
- `postMessage` (src/utils.ts:82-90): modelled as one logged message call answered by `messageReply`; its debug logging is left out.
- `deepmerge`: an opaque function value; its recursive, array and leaf behaviour is not modelled.
- `Date.now()`: replaced by the `now` and `createdAt` parameters.
- `debug` and `console.debug` output itself is left out; the arguments computed for it are not side-effect free, as the next three lines say.
- Middleware.WatsonMiddlewareV2.RunExchange: does not model the catch block's `Object.getOwnPropertyNames(error)` (src/index.ts:199-202), which throws when the caught value is `null` or `undefined` (a hook or `storage.write` rejecting with no reason); the source then leaves `watsonError` undefined and `sendToWatson` rejects, while the model's rejection reasons are always strings and it never throws.
- Utils.ReadContext: does not model a `JSON.stringify` of the stored context that throws (a cyclic value, src/utils.ts:38-42); the source then returns `null` for a stored truthy context.
- Utils.UpdateContext: does not model a `JSON.stringify` of the stored record that throws (src/utils.ts:62-66); the source then starts from `{}` instead of the stored record.
- Floating-point arithmetic: numbers are reals, so rounding of the expiry and NaN (falsy in JavaScript) are not modelled.
- Hooks are pure functions of the message's fields and a payload or response; a hook that mutates the message object is not modelled.
- `err.code` and `err.message` are taken as already-rendered text; how JavaScript prints an undefined or numeric code is not modelled.
- A message `type` that is undefined is modelled as a string different from all the named types; `reply_to` and `bot_id` only by their truthiness.
- The `return_response: true` option of the delete call is not recorded in the log.
- Response fields other than `output`, `context` and `intents` are not modelled.
- Utils.UpdateContext: builds a new record value; that the source mutates the very object the store's `read` returned (aliasing) is not modelled.
- The storage backend's failures are per-store state (`readFault`, `writeFault`) rather than per-call events.
- The commented-out `workspaceId` and `output.error` handling in src/index.ts is dead code and not modelled.
- lib/index.js, lib/index.d.ts and lib/utils.d.ts: compiled output and type declarations of the same code.
