# live-poll-bot core, modelled in Dafny

A model of the live-poll system's core:

- **Realtime service.**
  - The `WebSocketManager` registry keeps two maps: connection → subscribed poll ids, and poll id → subscribers. It handles `subscribe`/`unsubscribe` frames and disconnects, and fans `poll_update` envelopes out to subscribers.
  - Two entry points trigger that fan-out: the gRPC `NotifyPollUpdate` handler and the HTTP route `POST /notify/poll/:pollId`.
- **Bot service.**
  - The Telegram commands `/createpoll`, `/addoption`, `/finish`, `/mypolls` and the single-poll view: command matching, the ordered checks, and the calls made to the polls service.
  - `ensureUser`, which registers the message sender.
- **API service.**
  - The gRPC handlers: the per-user poll filter, find-or-create-or-update of users, lookup by Telegram id, and the status code each handler answers a thrown error with.
  - The Express error handler.
  - The Zod request schemas for polls, votes and users.
- **Frontend.**
  - `handleError` / `isApiError` / `getErrorMessage` / `isNetworkError` and the `tryCatch` wrappers.
  - The `retry` helper with exponential backoff.
  - The `useLoading` composable.
  - The `localStorage`-backed mock authentication.

How the model is built:

- Collaborators (the data services, Telegram, the database) are parameters. Each service operation maps its arguments to a `Result`, whose `Failure` stands for a thrown error.
- Handlers return the service calls they made together with their single reply.
- Stateful objects are classes whose methods are specified by functions on their state:
  - `WebSocket.WebSocketManager` (registry, socket state, outbox of sends);
  - `UseLoading.Loading` (`data`, `loading`, `error`);
  - `MockAuth.Storage` (`localStorage`).
- The loops in the source are `while` loops with invariants:
  - the subscriber fan-out and the disconnect cleanup;
  - the `/mypolls` listing;
  - the retry loop;
  - `clearAllVotedStatuses`.
- The JavaScript string operations the code relies on are defined in `JsStrings`: `\s`, `trim`, UTF-16 `length`, `parseInt(s, 10)`, `String(n)`, `includes` and `startsWith`.

## Model

| member | source | states |
|---|---|---|
| WebSocket.Classify | backend/realtime-service/src/modules/websocket/websocket.manager.ts:47-70 | only a `subscribe`/`unsubscribe` frame whose `poll_id` is a non-zero number is acted on; any other type gives "Unknown message type"; an unparseable frame or a missing payload gives "Invalid message format" |
| WebSocket.RegisterKeepsValid | backend/realtime-service/src/modules/websocket/websocket.manager.ts:22-30 | a new connection joins with no subscriptions and the two maps stay mutually consistent with no empty subscriber set |
| WebSocket.SubscribeKeepsValid | backend/realtime-service/src/modules/websocket/websocket.manager.ts:67-95 | subscribing keeps the registry consistent, puts the connection into the poll's subscriber set and the poll into its client entry, and registers no connection |
| WebSocket.SubscribeIsLocal | backend/realtime-service/src/modules/websocket/websocket.manager.ts:76-88 | subscribing changes no other (connection, poll) pair |
| WebSocket.UnsubscribeKeepsValid | backend/realtime-service/src/modules/websocket/websocket.manager.ts:97-127 | unsubscribing keeps the registry consistent, removes the pair and deletes a subscriber set once it is empty |
| WebSocket.UnsubscribeAbsentIsNoOp | backend/realtime-service/src/modules/websocket/websocket.manager.ts:106-119 | unsubscribing a pair that is not subscribed changes nothing |
| WebSocket.UnsubscribeIsLocal | backend/realtime-service/src/modules/websocket/websocket.manager.ts:106-119 | unsubscribing changes no other (connection, poll) pair |
| WebSocket.UnregisterKeepsValid | backend/realtime-service/src/modules/websocket/websocket.manager.ts:129-145 | a disconnect removes the connection from every subscriber set and from the clients, keeps everyone else's subscriptions and keeps the registry consistent |
| WebSocket.DetachAllStep | backend/realtime-service/src/modules/websocket/websocket.manager.ts:133-140 | one more `Detach` extends `DetachAll` by that poll, so the order in which the loop visits the polls does not matter |
| WebSocket.FanOutIsOncePerSubscriber | backend/realtime-service/src/modules/websocket/websocket.manager.ts:147-171 | a broadcast makes exactly one send per subscriber, each carrying the update, delivered exactly when that socket is open |
| WebSocket.FanOutHasNoRepeats | backend/realtime-service/src/modules/websocket/websocket.manager.ts:158-171 | no subscriber receives the same broadcast twice |
| WebSocket.SplitByOpen | backend/realtime-service/src/modules/websocket/websocket.manager.ts:158-171 | delivered plus failed sends equal the number of subscribers |
| WebSocket.WebSocketManager.constructor | backend/realtime-service/src/modules/websocket/websocket.manager.ts:14-17 | the manager starts with no clients, no subscriptions and nothing sent |
| WebSocket.WebSocketManager.Connect | backend/realtime-service/src/modules/websocket/websocket.manager.ts:22-30 | the `connection` event registers the socket with an empty subscription set and keeps the registry valid |
| WebSocket.WebSocketManager.SendToClient | backend/realtime-service/src/modules/websocket/websocket.manager.ts:178-189 | a send is attempted and reported successful exactly when the socket is open |
| WebSocket.WebSocketManager.SendError | backend/realtime-service/src/modules/websocket/websocket.manager.ts:191-197 | one `error` envelope with the message goes to the connection |
| WebSocket.WebSocketManager.HandleMessage | backend/realtime-service/src/modules/websocket/websocket.manager.ts:47-65 | the registry changes as `Classify` says, with one acknowledgement or one error envelope, and stays valid |
| WebSocket.WebSocketManager.HandleSubscribe | backend/realtime-service/src/modules/websocket/websocket.manager.ts:67-95 | an invalid `poll_id` sends "Invalid poll_id" and changes nothing; otherwise the new state is `AddSubscription` of the old one and one `subscribe` acknowledgement is sent |
| WebSocket.WebSocketManager.HandleUnsubscribe | backend/realtime-service/src/modules/websocket/websocket.manager.ts:97-127 | an invalid `poll_id` sends the error and changes nothing; otherwise the new state is `RemoveSubscription` of the old one and one acknowledgement is sent |
| WebSocket.WebSocketManager.HandleDisconnect | backend/realtime-service/src/modules/websocket/websocket.manager.ts:129-145 | the new state is `Unregister` of the old one; an unknown socket changes nothing |
| WebSocket.WebSocketManager.DetachFromAll | backend/realtime-service/src/modules/websocket/websocket.manager.ts:133-140 | the loop over the client's polls removes it from each subscriber set, deleting sets that become empty |
| WebSocket.WebSocketManager.BroadcastPollUpdate | backend/realtime-service/src/modules/websocket/websocket.manager.ts:147-176 | the sends appended form a fan-out to the poll's current subscribers, and the success and failure counts are the numbers of open and non-open subscribers |
| WebSocket.WebSocketManager.SendToEach | backend/realtime-service/src/modules/websocket/websocket.manager.ts:158-171 | the `forEach` loop sends once per subscriber and tallies delivered and failed sends |
| WebSocket.WebSocketManager.GetSubscriberCount | backend/realtime-service/src/modules/websocket/websocket.manager.ts:199-201 | the size of the poll's subscriber set, 0 when it has none |
| WebSocket.WebSocketManager.GetTotalConnections | backend/realtime-service/src/modules/websocket/websocket.manager.ts:203-205 | the number of registered connections |
| Notify.PollServiceResults | backend/realtime-service/src/modules/polls/polls.service.ts:6-19 | a missing poll is thrown as "Poll not found" with status 404, a client failure propagates, found results pass through |
| Notify.GrpcFailure | backend/realtime-service/src/grpc-server.ts:24-56 | null results answer NOT_FOUND "Poll <id> not found"; a thrown error answers INTERNAL with its message; otherwise the handler goes on to broadcast |
| Notify.NotFoundSurfacesAsInternal | backend/realtime-service/src/grpc-server.ts:29-37 | since the service throws rather than return null, a missing poll reaches the caller as INTERNAL "Poll not found" |
| Notify.NotifyPollUpdate | backend/realtime-service/src/grpc-server.ts:24-56 | on results, one fan-out to the poll's subscribers and a reply with the subscriber count after it; on an error, the error reply and no sends |
| Notify.NotifyHttp | backend/realtime-service/src/modules/websocket/websocket.routes.ts:9-38 | a `pollId` that `parseInt` reads as NaN answers 400 without a fetch; a failed fetch goes to `next`; otherwise a fan-out for the parsed id and 200 with the subscriber count |
| BotPolls.AfterCommand | backend/bot-service/src/modules/polls/polls.handler.ts:10 | the text is the command followed by the returned rest |
| BotPolls.AfterCommandOf | backend/bot-service/src/modules/polls/polls.handler.ts:10 | a command followed by any rest is recognised with that rest |
| BotPolls.MatchSpacedQuotedComplete | backend/bot-service/src/modules/polls/polls.handler.ts:10 | `\s+"(.+)"$` accepts white space, a quote, a non-empty single line and a closing quote, capturing the line |
| BotPolls.MatchSpacedQuotedSound | backend/bot-service/src/modules/polls/polls.handler.ts:10 | everything the quoted matcher accepts has that shape |
| BotPolls.MatchSpacedDigitsOf | backend/bot-service/src/modules/polls/polls.handler.ts:134 | `\s+(\d+)` captures exactly the digit run after the white space |
| BotPolls.MatchAddOptionComplete | backend/bot-service/src/modules/polls/polls.handler.ts:134 | `/addoption <spaces><digits><spaces>"text"` is matched with those digits and that text |
| BotPolls.MatchFinishComplete | backend/bot-service/src/modules/polls/polls.handler.ts:188 | `/finish <spaces><digits>` is matched with those digits |
| BotPolls.CommandPollId | backend/bot-service/src/modules/polls/polls.handler.ts:144 | the poll id is `parseInt` of the captured digits and is never negative |
| BotPolls.HandleCreatePoll | backend/bot-service/src/modules/polls/polls.handler.ts:7-51 | usage on a non-matching text; a trimmed question under 3 UTF-16 units gets the too-short reply and one over 500 the too-long reply, with no call; `createPoll` is called, once, exactly when the length is 3..500; the reply is the created id or the error reply |
| BotPolls.HandleAddOption | backend/bot-service/src/modules/polls/polls.handler.ts:131-146 | usage on a non-matching text, else the checks on `parseInt` of the digits and the trimmed text |
| BotPolls.AddOptionChecks | backend/bot-service/src/modules/polls/polls.handler.ts:147-182 | each rejection holds exactly when the earlier checks pass and its own fails (not found, not owner, length 1..200, at most 10 options); on any rejection no `addPollOption` call is made; the option is added only after all checks, as the last call; on success the reply is `OptionAdded` with the text, the previous count plus one and the poll id |
| BotPolls.AddOptionHappyPath | backend/bot-service/src/modules/polls/polls.handler.ts:131-178 | an owner's well-formed `/addoption` on a poll with fewer than 10 options adds the trimmed text and reports the new count |
| BotPolls.HandleFinishPoll | backend/bot-service/src/modules/polls/polls.handler.ts:185-200 | usage on a non-matching text, else the checks on the parsed poll id |
| BotPolls.FinishChecks | backend/bot-service/src/modules/polls/polls.handler.ts:193-231 | not found, not owner, no options and the ready reply, each exactly under its condition; the ready reply carries the question, the option count and the vote link; nothing is written |
| BotPolls.HandleGetPoll | backend/bot-service/src/modules/polls/polls.handler.ts:91-129 | a missing poll gives the not-found reply after one call; the no-options reply exactly when the poll exists and its results are missing or have no options, giving its id and question; otherwise the details carry the poll id, question, result options, total votes and the poll URL; the error reply exactly when a fetch throws |
| BotPolls.ListEntriesSucceedIff | backend/bot-service/src/modules/polls/polls.handler.ts:66-81 | the listing succeeds exactly when every option fetch succeeds |
| BotPolls.ListEntriesCalls | backend/bot-service/src/modules/polls/polls.handler.ts:66-68 | a successful listing fetched each poll's options once, in list order |
| BotPolls.ListEntriesInOrder | backend/bot-service/src/modules/polls/polls.handler.ts:66-81 | entries are appended in list order, entry `k` numbered `k`: each shorter listing is a prefix of a longer one and ends with its last entry |
| BotPolls.FailureIsFinal | backend/bot-service/src/modules/polls/polls.handler.ts:66-85 | once an option fetch throws, the listing stops with that failure |
| BotPolls.HandleMyPolls | backend/bot-service/src/modules/polls/polls.handler.ts:53-89 | no polls gives the "no polls" reply; otherwise the header with the count and the entries, or the error reply when any fetch throws |
| BotPolls.BuildListing | backend/bot-service/src/modules/polls/polls.handler.ts:64-82 | the loop's message is the header followed by the listing of all polls, with the calls and the stop on the first failure of the listing function |
| BotUsers.EnsureUser | backend/bot-service/src/modules/users/users.handler.ts:6-30 | no sender gives the Telegram-id reply and no call; otherwise one `getOrCreateUser` call whose Telegram id is `String(id)`, which `parseInt` reads back as the sender id, plus the derived username and full name; the user id is returned exactly when the call succeeds, else the registration-error reply |
| BotUsers.UsernameDefaults | backend/bot-service/src/modules/users/users.handler.ts:9 | the username is the sender's non-empty one, else `user_<id>`, and never empty |
| BotUsers.FullNameOfTrimmedParts | backend/bot-service/src/modules/users/users.handler.ts:10-12 | for trimmed names the full name is `first last`, or `first` when the last name is missing or empty |
| BotUsers.FallbackRegistration | backend/bot-service/src/modules/users/users.handler.ts:8-23 | a sender with only a first name registers as `user_<id>` with that first name |
| ApiGrpc.FailureCode | backend/api-service/src/grpc-server.ts:35-218 | a thrown error answers NOT_FOUND exactly in `GetPoll` and `GetPollResults`, INTERNAL elsewhere |
| ApiGrpc.Respond | backend/api-service/src/grpc-server.ts:35-133 | a handler replies with the service value, or with its catch code and the error's message |
| ApiGrpc.UserPolls | backend/api-service/src/grpc-server.ts:86 | a poll is kept exactly when it was created by the user |
| ApiGrpc.UserPollsOfConcat | backend/api-service/src/grpc-server.ts:86 | the filter keeps the stored order |
| ApiGrpc.UserPollsIdempotent | backend/api-service/src/grpc-server.ts:86 | filtering twice is filtering once |
| ApiGrpc.GetUserPollsRpc | backend/api-service/src/grpc-server.ts:82-104 | when listing succeeds the reply is exactly the polls whose creator is the user, in listing order; a thrown error answers INTERNAL |
| ApiGrpc.RenderUser | backend/api-service/src/grpc-server.ts:164-175 | id, username and email are copied; null full name and Telegram id are rendered as "" |
| ApiGrpc.FindByTelegramId | backend/api-service/src/grpc-server.ts:144 | the first user with that Telegram id, or none when no user has it |
| ApiGrpc.RepositoryUpdate | backend/api-service/src/modules/users/users.repository.ts:45-62 | an update without a username or an email is rejected with "Username and email are required"; otherwise all four columns are overwritten, an absent `full_name` or `telegram_id` becoming null |
| ApiGrpc.AsWrittenRepeatsUpdate | backend/api-service/src/grpc-server.ts:155-161 | as written, a stored user without a full name whose request carries none is sent to `updateUser` on every call |
| ApiGrpc.AsWrittenUpdateRejected | backend/api-service/src/grpc-server.ts:155-161 | as written, every update the handler asks for lacks the email, so the repository rejects it and the call answers INTERNAL "Username and email are required" |
| ApiGrpc.NeedsUpdateIffChange | backend/api-service/src/grpc-server.ts:156-161 | with the corrected comparison, an update is asked for exactly when it changes the row, and a repeated request asks for none |
| ApiGrpc.GetOrCreateUserRpc | backend/api-service/src/grpc-server.ts:138-183 | no matching user: one create with email `<telegram_id>@telegram.local` and `full_name \|\| null`, answered with the created user or INTERNAL; a matching user whose username or full name differs from the raw request: one update with `{username, full_name \|\| null}` only, answered with the updated user or INTERNAL; otherwise no write and that user; at most one write; listing errors answer INTERNAL |
| ApiGrpc.GetOrCreateUserRpcCorrected | backend/api-service/src/grpc-server.ts:138-183 | the handler with its update branch corrected: it updates only when the stored username or `full_name \|\| null` differs, and passes the stored email and Telegram id along; the lookup and the create branch are the same as the handler as written |
| ApiGrpc.CorrectedUpdateStores | backend/api-service/src/grpc-server.ts:155-161 | the corrected update is accepted by the repository whenever the request has a username and the stored user an email, and answers the updated user with its email and Telegram id kept |
| ApiGrpc.GetOrCreateUserSettles | backend/api-service/src/grpc-server.ts:138-175 | for the corrected handler, repeating a request against the user it created or updated writes nothing and answers that user |
| ApiGrpc.GetUserByTelegramIdRpc | backend/api-service/src/grpc-server.ts:185-218 | NOT_FOUND "User not found" exactly when no user has the id; otherwise the rendered user at the first matching index of the listing; INTERNAL when listing throws |
| ApiErrors.PgError | backend/api-service/src/app/errors/error-handler.ts:41-54 | 23505 → 409; 23503, 23502 and 23514 → 400; 42P01 and 42703 → 500; nothing else is mapped |
| ApiErrors.HandleError | backend/api-service/src/app/errors/error-handler.ts:17-83 | always `success: false`; an `AppError` keeps its status and message and echoes a non-empty code; a known Postgres code maps to its status and message; a refused or unresolved connection gives 503; anything else gives 500 without a code |
| ApiErrors.CodeEchoedIffRecognised | backend/api-service/src/app/errors/error-handler.ts:58-82 | a non-`AppError` echoes its code exactly when it is recognised |
| ApiErrors.AppErrorFirst | backend/api-service/src/app/errors/error-handler.ts:26-38 | the `AppError` rule wins over every other |
| ApiErrors.NumericCodeUsesPropertyKey | backend/api-service/src/app/errors/error-handler.ts:58-64 | a numeric code is looked up under its decimal key, so 23505 maps to 409 |
| Schemas.CreatePoll | backend/api-service/src/modules/polls/polls.schema.ts:3-9 | a valid body has a non-empty string question and a `created_by` number of at least 1; a null question or creator fails |
| Schemas.UpdatePoll | backend/api-service/src/modules/polls/polls.schema.ts:11-22 | a body with neither field is valid; a null field fails (optional, not nullable); a present `created_by` is a number of at least 1 |
| Schemas.CreateVote | backend/api-service/src/modules/votes/votes.schema.ts:3-9 | a valid body has both ids as numbers of at least 1, and `user_id` is a whole number |
| Schemas.UpdateVote | backend/api-service/src/modules/votes/votes.schema.ts:11-22 | a body with neither id is valid; a null id fails; a present `user_id` is a number of at least 1 |
| Schemas.CreateUser | backend/api-service/src/modules/users/users.schema.ts:4-31 | a valid body has a username of 1..50 characters and an email the format check accepts; a valid username and email with null full name and Telegram id pass; an empty Telegram id fails |
| Schemas.UpdateUser | backend/api-service/src/modules/users/users.schema.ts:34-63 | the empty body passes, as do null full name and Telegram id alone; a null username or email fails; a present email passes the format check |
| Schemas.ParamsId | backend/api-service/src/modules/polls/polls.schema.ts:25-30 | an id is accepted exactly when it is a non-empty string of digits, and its value is `parseInt` of it |
| Schemas.ParamsIdRoundTrip | backend/api-service/src/modules/users/users.schema.ts:66-71 | every natural number written in decimal is accepted and read back |
| Schemas.ParamsIdExamples | backend/api-service/src/modules/votes/votes.schema.ts:25-30 | "007" → 7 and "0" → 0; "invalid", "-1" and a number are rejected |
| Schemas.CreateImpliesUpdate | backend/api-service/src/modules/users/users.schema.ts:4-63 | every body valid for creating a poll, vote or user is valid for updating it |
| Schemas.EmptyBody | backend/api-service/src/modules/polls/polls.schema.ts:3-22 | the empty body is a valid update and an invalid creation, for polls, votes and users |
| Schemas.CreateVoteRejects | backend/api-service/src/modules/votes/votes.schema.ts:3-9 | a negative, missing or fractional id fails vote creation |
| Schemas.UsernameIsAscii | backend/api-service/src/modules/users/users.schema.ts:5-12 | a valid username is ASCII, so its UTF-16 length is its character count, 1..50 |
| FrontendErrors.ApiErrorOf | frontend/shared/src/utils/errorHandler.ts:31-44 | the literal `{success: false, message}` passes the type guard |
| FrontendErrors.IsApiError | frontend/shared/src/utils/errorHandler.ts:73-81 | strings and other primitives fail; passing implies `success` is present and `false`; a plain object without `message` fails; an `Error` with its own `success: false` passes through its inherited `message` |
| FrontendErrors.Normalise | frontend/shared/src/utils/errorHandler.ts:28-45 | anything passing the type guard is passed through as is, including an `Error` with its own `success: false` and an inherited `message`; any other `Error` gives its message; a string becomes the message; anything else gets "An unexpected error occurred" |
| FrontendErrors.HandleError | frontend/shared/src/utils/errorHandler.ts:19-68 | the result passes the type guard; without a custom message the result is the normalised error and the caller keeps its own; a non-empty custom message gives the normalised error with only `message` replaced, written into the caller's object too when that object passed the type guard and was returned as is |
| FrontendErrors.InheritedMessageErrorPassesThrough | frontend/shared/src/utils/errorHandler.ts:73-81 | an `Error` with its own `success: false` and no own message is an `ApiError` by inheritance; `handleError` returns that same object, keeps its other properties, and writes a custom message into it |
| FrontendErrors.HandleErrorIdempotent | frontend/shared/src/utils/errorHandler.ts:19-68 | handling an already handled error again gives the same error |
| FrontendErrors.GetErrorMessage | frontend/shared/src/utils/errorHandler.ts:86-114 | a missing or zero status gives the generic text; each unlisted status gives the "try again" text; 502 and 503 share the unavailable text |
| FrontendErrors.StatusMessage | frontend/shared/src/utils/errorHandler.ts:89-113 | the default text goes exactly to the unlisted statuses, and the unavailable text exactly to 502 and 503 |
| FrontendErrors.IsNetworkError | frontend/shared/src/utils/errorHandler.ts:119-131 | true exactly for an `Error` whose message has "Network Error", "No response from server" or "timeout", or an `ApiError` whose message has "No response from server"; a `TypeError` (None) exactly when such an `Error` or `ApiError` has a message that is not a string; false for anything else |
| FrontendErrors.ErrorCheckedBeforeApiError | frontend/shared/src/utils/errorHandler.ts:120-129 | the `Error` test comes first: a timeout `Error` shaped like an `ApiError` is a network error, and a timeout `ApiError` is not |
| FrontendErrors.NotIncludedInShorter | frontend/shared/src/utils/errorHandler.ts:122-128 | a string never includes a longer one |
| FrontendErrors.TryCatch | frontend/shared/src/utils/errorHandler.ts:136-146 | the value when the function returns, null when it throws |
| FrontendErrors.TryCatchWithDefault | frontend/shared/src/utils/errorHandler.ts:151-162 | the value when the function returns, the default when it throws |
| FrontendErrors.TryCatchWrappersAgree | frontend/shared/src/utils/errorHandler.ts:136-162 | the two wrappers agree: the default one replaces the null |
| Retry.Effective | frontend/shared/src/utils/retry.ts:15-37 | each given option overrides its default (3 retries, 1000 ms, backoff on), and a given `shouldRetry` replaces the default "retry on network errors" |
| Retry.DelayDoubles | frontend/shared/src/utils/retry.ts:84-87 | the first wait is the delay; with backoff each wait doubles, without backoff every wait is the same |
| Retry.Retry | frontend/shared/src/utils/retry.ts:33-96 | the loop's result, event log and call count are those of the recursive specification `Run` |
| Retry.CallsBounded | frontend/shared/src/utils/retry.ts:43-57 | `fn` is called at least once and at most `maxRetries + 1` times, and a resolved run ends on a successful call |
| Retry.RunThrough | frontend/shared/src/utils/retry.ts:58-91 | each retried failure adds exactly one consult / `onRetry(attempt + 1)` / wait triple, in order |
| Retry.FirstSuccessReturned | frontend/shared/src/utils/retry.ts:53-57 | the first success is returned at once after `k + 1` calls |
| Retry.DeclinedErrorRethrown | frontend/shared/src/utils/retry.ts:74-79 | an error `shouldRetry` declines is rethrown at once, with no `onRetry` or wait |
| Retry.FinalFailureThrown | frontend/shared/src/utils/retry.ts:66-72 | the final attempt's error is thrown without consulting `shouldRetry` |
| UseLoading.Loading.constructor | frontend/shared/src/composables/useLoading.ts:34-40 | starts with no data, no error, and `loading` from `initialLoading`, false by default |
| UseLoading.Loading.Start | frontend/shared/src/composables/useLoading.ts:44-45 | before the await, `loading` is set and the error cleared |
| UseLoading.Loading.Settle | frontend/shared/src/composables/useLoading.ts:46-55 | a result becomes `data` and is returned; an error becomes `error` after `handleError` while `data` is kept and null is returned; `loading` ends false |
| UseLoading.Loading.Execute | frontend/shared/src/composables/useLoading.ts:42-56 | the whole `execute`: afterwards `error` is set exactly when the function threw |
| UseLoading.Loading.Reset | frontend/shared/src/composables/useLoading.ts:58-62 | everything is cleared |
| UseLoading.Loading.SetData | frontend/shared/src/composables/useLoading.ts:64-66 | only `data` changes |
| UseLoading.Loading.SetError | frontend/shared/src/composables/useLoading.ts:68-70 | only `error` changes |
| MockAuth.ReadUserId | frontend/poll-app/src/utils/mockAuth.ts:14-23 | a non-empty stored id is parsed with `parseInt`; otherwise 1 is stored and returned |
| MockAuth.ClearAllVoted | frontend/poll-app/src/utils/mockAuth.ts:67-74 | exactly the keys without the `voted_poll_` prefix are kept, with their values |
| MockAuth.VotedKeyInjective | frontend/poll-app/src/utils/mockAuth.ts:44 | distinct polls have distinct voted keys |
| MockAuth.MarkThenHasVoted | frontend/poll-app/src/utils/mockAuth.ts:43-54 | after marking a poll it reads as voted, and every other poll reads as before |
| MockAuth.ClearVotedIsLocal | frontend/poll-app/src/utils/mockAuth.ts:59-62 | clearing a poll makes it read as not voted and touches no other key |
| MockAuth.ClearAllVotedKeepsOthers | frontend/poll-app/src/utils/mockAuth.ts:67-74 | after clearing all, no poll reads as voted and the user id is kept |
| MockAuth.SetThenGet | frontend/poll-app/src/utils/mockAuth.ts:14-31 | setting an id and reading it returns that id and writes nothing more |
| MockAuth.ClearThenGet | frontend/poll-app/src/utils/mockAuth.ts:14-38 | after clearing, a read returns the default 1 and stores it, and a second read returns 1 without writing |
| MockAuth.Storage.constructor | frontend/poll-app/src/utils/mockAuth.ts:14-15 | the store starts as the given `localStorage` contents |
| MockAuth.Storage.GetMockUserId | frontend/poll-app/src/utils/mockAuth.ts:14-23 | returns and stores as `ReadUserId` says |
| MockAuth.Storage.GetMockUserInfo | frontend/poll-app/src/utils/mockAuth.ts:80-87 | the id as `getMockUserId` reads it, and the username `user_<id>` |
| MockAuth.Storage.SetMockUserId | frontend/poll-app/src/utils/mockAuth.ts:29-31 | stores `String(id)` under `user_id` |
| MockAuth.Storage.ClearMockUserId | frontend/poll-app/src/utils/mockAuth.ts:36-38 | removes `user_id` only |
| MockAuth.Storage.HasVotedForPoll | frontend/poll-app/src/utils/mockAuth.ts:43-46 | true exactly when the poll's key holds "true" |
| MockAuth.Storage.MarkPollAsVoted | frontend/poll-app/src/utils/mockAuth.ts:51-54 | stores "true" under the poll's key |
| MockAuth.Storage.ClearVotedStatus | frontend/poll-app/src/utils/mockAuth.ts:59-62 | removes the poll's key only |
| MockAuth.Storage.ClearAllVotedStatuses | frontend/poll-app/src/utils/mockAuth.ts:67-74 | the loop over the keys leaves the store `ClearAllVoted` describes |
| JsStrings.TrimmedHasNoOuterSpace | backend/bot-service/src/modules/polls/polls.handler.ts:20 | `trim` leaves no white space at either end and is idempotent |
| JsStrings.Utf16Length | backend/bot-service/src/modules/polls/polls.handler.ts:22-30 | `length` counts UTF-16 units: between one and two per character, one for each BMP character |
| JsStrings.NatToString | frontend/poll-app/src/utils/mockAuth.ts:30 | `String(n)` has no leading zero and denotes `n` |
| JsStrings.ParseIntOfIntToString | frontend/poll-app/src/utils/mockAuth.ts:17-30 | `parseInt(String(n) + rest, 10) == n` when `rest` does not start with a digit |
| JsStrings.ParseIntOfDigits | backend/bot-service/src/modules/polls/polls.handler.ts:144 | `parseInt` of a digit run is its decimal value |
| JsStrings.IntToStringInjective | frontend/poll-app/src/utils/mockAuth.ts:44 | `String(n)` is injective on integers |
| JsStrings.TrimStartOfSpacesThen | backend/bot-service/src/modules/polls/polls.handler.ts:10 | skipping white space followed by a non-space drops exactly that white space |

## Left out

- Logging, toasts, `console` output and the `onError`/`showToast`/`logToConsole` options of `handleError` are not modelled: they do not affect results.
- Sleeping is not performed: `retry`'s waits are recorded in its event log.
- The retry context (`setRetryContext`, the operation id attached to errors) and `retryWithNotification` are not modelled: they are logging and toast plumbing around `retry`.
- Retry.Effective: non-integer or `NaN` option values, and an option passed explicitly as `undefined` (which the spread lets override its default), are not modelled; options are integers or absent.
- Retry.Retry: when `shouldRetry` or `onRetry` throws, the source rejects with that error; the model takes both as total, and `onRetry` as a log entry.
- `useAsyncData` is not modelled: it is `useLoading` followed by one `execute`.
- WebSocket.WebSocketManager.SendToClient: an exception from `ws.send` on an OPEN socket (reported as a failed send) is not modelled; a send to an open socket succeeds.
- The WebSocket server's event wiring, JSON serialisation of envelopes and the order in which `forEach` visits sets are not modelled; the fan-out is specified for any order.
- Concurrency is not modelled. Each handler runs to completion, except `useLoading`'s `execute`, which is split at its `await`.
- Notify.PollServiceResults and Notify.NotifyHttp: the conversion of the results' timestamps (`new Date(...)`) is left out; the model carries no dates. The subscriber count logging is left out too.
- Floating point is not modelled:
  - ids and counts are integers (reals for the registry's JSON poll ids);
  - `parseInt` is exact beyond 2^53;
  - the vote percentages of the single-poll view are not computed.
- BotPolls.HandleGetPoll and BotPolls.HandleMyPolls: the reply text is modelled as the values it interpolates. Only the `/mypolls` listing text is modelled character for character.
- ApiGrpc.RepositoryUpdate: a row deleted between the lookup and the update (the repository's "User not found") is not modelled; the update is applied to the row the lookup found.
- ApiGrpc: `created_at`/`updated_at` ISO strings and the shaping of `CreatePoll`, `GetPoll` and `GetPollResults` replies are left out: they copy fields.
- ApiErrors.HandleError: codes that name inherited object properties (such as `constructor`) are not modelled; the code table is a plain lookup.
- FrontendErrors.IsNetworkError: a non-string `message` on an `Error` or `ApiError` makes `includes` throw; it is modelled as `None`. An array message on an `ApiError` (where `includes` would not throw) is not distinguished.
- Schemas: the `.email()` format check is a parameter, and non-object request bodies are not modelled.
- Schemas: a body with a numeric `NaN`/`Infinity` cannot arrive through JSON and is not modelled.
- MockAuth: `localStorage` key order and storage quota errors are not modelled.

## Findings

| source | as written | input that shows it | evidently intended | confidence | as-written member | corrected member |
|---|---|---|---|---|---|---|
| backend/api-service/src/grpc-server.ts:156 | `full_name !== user.full_name` compares the request's `full_name`, which protobuf defaults to "", with the stored value, which is null when there is none | a stored user with `full_name` null, and a request with the same username and no full name: "" !== null, so `updateUser` is called on every call, and with the next row every such call answers INTERNAL | update only when the stored row would change, i.e. compare with `full_name \|\| null` | medium, not executed | ApiGrpc.AsWrittenRepeatsUpdate | ApiGrpc.GetOrCreateUserSettles |
| backend/api-service/src/grpc-server.ts:158-161 | the update passes `{username, full_name}` only, and `usersRepository.update` throws "Username and email are required" (users.repository.ts:48-49) when the email is missing; had it passed, `telegram_id` would be set to null (users.repository.ts:53-54) | a stored user "alice" sending a request with the username "alice2": the update is rejected and the call answers INTERNAL, on every call | pass the stored email and Telegram id along with the new username and full name | high, not executed | ApiGrpc.AsWrittenUpdateRejected | ApiGrpc.CorrectedUpdateStores |
