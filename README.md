# chat-mirror, modelled in Dafny

chat-mirror mirrors WhatsApp conversations. A gateway (the Evolution API) hosts
one WhatsApp *instance* per operator *Line*. The backend receives the
gateway's webhooks through a queue and stores messages. It also backfills
history from the gateway. A back-office web client lists operators, Lines,
conversations and reports.

This project models the backend's data paths and the client's decision logic:

- **The three keyed tables** (`schema.dfy`, `database.dfy`):
  - Lines, keyed by `instanceName`;
  - Conversations, keyed by `(lineId, remoteJid)`;
  - Messages, keyed by `evolutionId`.

  `Schema.Tables` is the value of the store. The database primitives the
  services use (conversation upsert, message create, Line create, Line state
  update) are pure functions over it. They check uniqueness and foreign keys
  as the database does. `Database.Store` is a class with the same fields; its
  methods are proved to compute those functions. `Schema.ValidTables` is the
  store's invariant: unique keys, unique ids, and every foreign key resolving.
- **The writers**:
  - the webhook job handler (`webhooks_processor.dfy`);
  - the intake queue (`webhooks_service.dfy`);
  - Line creation, QR code, instance sync, history backfill and the sync-all
    tally (`lines_service.dfy`).

  Each writer is a method over a `Store`. It is proved equal to a pure effect
  function, and the lemmas are stated about that function. Gateway replies,
  the clock (`nowMs`) and the contact/message lists the gateway returns are
  parameters. `gateway.dfy` holds the pure rules applied to gateway replies:
  content chains, state tokens, owner JID to phone number, fallbacks, backfill
  window and webhook registration order.
- **Interleaving** (`ingestion.dfy`): every write is a step `Ingestion.Op`, so
  any interleaving of webhook and backfill writes is a sequence of steps. The
  invariant holds after any such sequence. A stored message is never lost or
  duplicated.
- **Read side**:
  - reports (`reports_service.dfy`, with the counting loops as methods);
  - dashboard metrics and operator list (`dashboard_controller.dfy`);
  - conversation queries (`conversations_service.dfy`).
- **Accounts**: password choice and the user table (`users_service.dfy`);
  login decision (`auth_service.dfy`). bcrypt's hash and compare and JWT
  signing are function parameters.
- **Client helpers**:
  - CSV export and a reader proving it reads back (`reports_page.dfy`);
  - operator filters, wallet list and click target (`digital_dashboard_page.dfy`);
  - operator search, active Line, user-creation requests and QR dialog
    (`management_page.dfy`);
  - conversation search, initials, status icon and day separators
    (`conversations_page.dfy`);
  - route guards (`app_routes.dfy`).

  The JavaScript operators the client relies on (`||` on strings and
  optionals, `toLowerCase`, `includes`, `split`/`join`, `slice`, string order)
  are defined once in `text.dfy`; sequence filtering, counting and sorting are
  in `seqs.dfy`.

Ids generated by the database are `nat`s drawn from a counter in the tables;
in the program they are non-empty strings. Ids the client receives are
`Option<nat>`, and a present id is truthy, as a non-empty string is.

## Model

| member | source | states |
|---|---|---|
| Schema.LineNamed | backend/src/webhooks/webhooks.processor.ts:36-38 | `findUnique` by instance name: the Line returned has that name; none is returned exactly when no Line has it |
| Schema.MessageWithEvolutionId | backend/src/webhooks/webhooks.processor.ts:84-86 | `findUnique` by `evolutionId`: a found message carries the id; none exactly when no message has it |
| Schema.ConversationsOfLine | backend/src/reports/reports.service.ts:18-30 | the conversations included under a Line are exactly those whose `lineId` is the Line's |
| Schema.MessagesOf | backend/src/conversations/conversations.service.ts:24-30 | the messages of a conversation are exactly those pointing at it |
| Schema.LinesOf | backend/src/dashboard/dashboard.controller.ts:31-33 | the Lines included under an operator are exactly those the operator owns |
| Schema.ConversationKeyDeterminesRow | backend/src/webhooks/webhooks.processor.ts:64-67 | under the unique `(lineId, remoteJid)` key, two rows with the same key are the same row |
| Schema.EmptyTablesValid | backend/src/webhooks/webhooks.processor.ts:64-101 | the empty store satisfies the uniqueness and foreign-key invariant |
| Schema.UpsertConversation | backend/src/webhooks/webhooks.processor.ts:64-80 | the upsert keeps the invariant and touches only conversations (and the id counter); it fails, with a foreign-key violation and nothing changed, exactly when the key is new and the Line unknown; an existing row (the first with the key) stays at its index with its id, gets `updatedAt := now` and the new contact name when one is given, and every other row is unchanged; otherwise exactly `Conversation(nextId, lineId, remoteJid, createName, now)` is appended and the counter advances |
| Schema.CreateMessage | backend/src/webhooks/webhooks.processor.ts:89-100 | a message is appended exactly when its timestamp is valid, its id is new and its conversation exists; otherwise the store is unchanged; the invariant is kept |
| Schema.CreateLine | backend/src/lines/lines.service.ts:58-65 | a Line is appended unless its instance name is taken (unique violation, store unchanged); the invariant is kept |
| Schema.SetLineState | backend/src/lines/lines.service.ts:122-126 | `updateMany` by instance name: only that Line's status and phone change, every other row and table stays; unknown names change nothing |
| Database.Store.constructor | backend/src/webhooks/webhooks.processor.ts:64-101 | a new store is empty and valid |
| Database.Store.FindLine | backend/src/webhooks/webhooks.processor.ts:36-38 | the lookup returns the Line named so, if any |
| Database.Store.FindMessage | backend/src/webhooks/webhooks.processor.ts:84-86 | the lookup finds nothing exactly when no stored message has the id |
| Database.Store.UpsertConversation | backend/src/webhooks/webhooks.processor.ts:64-80 | the in-place upsert leaves the store equal to `Schema.UpsertConversation`'s and keeps validity |
| Database.Store.CreateMessage | backend/src/webhooks/webhooks.processor.ts:89-100 | the in-place create equals `Schema.CreateMessage` and keeps validity |
| Database.Store.CreateLine | backend/src/lines/lines.service.ts:58-65 | the in-place create equals `Schema.CreateLine` and keeps validity |
| Database.Store.SetLineState | backend/src/lines/lines.service.ts:122-126 | the in-place update equals `Schema.SetLineState` and keeps validity |
| Gateway.BodyText | backend/src/webhooks/webhooks.processor.ts:54-57 | text is `conversation`, else `extendedTextMessage.text`, else `imageMessage.caption`; it is present iff one of them is |
| Gateway.WebhookContent | backend/src/webhooks/webhooks.processor.ts:54-58 | webhook content is the first text present, else `'Media/Unknown'`; never empty |
| Gateway.Placeholder | backend/src/lines/lines.service.ts:329-335 | the image placeholder iff the type is `imageMessage`, the audio one iff `audioMessage`, else the generic one |
| Gateway.HistoryContent | backend/src/lines/lines.service.ts:329-335 | backfill content is the first text present, else the placeholder for the type; never empty |
| Gateway.ContentChainsAgreeOnText | backend/src/lines/lines.service.ts:329-335 | when a message has text, webhook and backfill store the same content |
| Gateway.FirstKey | backend/src/webhooks/webhooks.processor.ts:60 | the message type is the first key of the message object, absent iff it has none |
| Gateway.StateToken | backend/src/lines/lines.service.ts:117-118 | the state token is `state`, else `status`, read under `instance` when the reply has one, else at top level |
| Gateway.NormaliseState | backend/src/lines/lines.service.ts:121-126 | a status is written iff the token is truthy, and it is Connected iff the token is `'open'` |
| Gateway.ConnectedTokenMismatch | backend/src/lines/lines.service.ts:121-128 | the raw token `'connected'` is stored as disconnected yet takes the connected branch |
| Gateway.StoredConnectedTakesBranch | backend/src/lines/lines.service.ts:121-128 | whenever connected is stored, the connected branch is taken |
| Gateway.ChooseInstance | backend/src/lines/lines.service.ts:137-138 | the first instance, in list order, whose nested or top-level `instanceName` is the name; else the first instance; none only for an empty list |
| Gateway.OwnerJid | backend/src/lines/lines.service.ts:141 | no instance gives none; otherwise `ownerJid` when truthy, else `instance.ownerJid` when truthy, else `owner` as it is |
| Gateway.PhoneOf | backend/src/lines/lines.service.ts:144 | the phone number is the longest `@`-free prefix of the JID |
| Gateway.PhoneOfJid | backend/src/lines/lines.service.ts:144 | the phone number of `user@server` is `user` |
| Gateway.ResolvedPhone | backend/src/lines/lines.service.ts:137-144 | a phone is resolved iff the chosen instance has an owner JID, and it is that JID's phone part |
| Gateway.CreateOrFallback | backend/src/lines/lines.service.ts:24-39 | a success passes through; a 403 or an "already exists" failure becomes a reply naming the instance by its own name; any other failure propagates |
| Gateway.RemoteId | backend/src/lines/lines.service.ts:41-45 | the remote id is `instanceId`, else `id`, else the instance name |
| Gateway.FallbackRemoteId | backend/src/lines/lines.service.ts:24-45 | after the "already exists" fallback the stored instance id is the instance name |
| Gateway.CreatedQr | backend/src/lines/lines.service.ts:73-75 | the reply's `qrcode` when it is truthy (an object, or a non-empty string); otherwise `base64` as a text code whatever it holds, and nothing when `base64` is absent too |
| Gateway.ConfigureWebhook | backend/src/lines/lines.service.ts:405-466 | attempts are nested, then flat, then the alternative route only after a 404 on either; registration succeeds iff one attempt does; a failure reports the flat attempt's error, or the alternative route's when that route was tried |
| Gateway.EffectiveLimit | backend/src/lines/lines.service.ts:239 | the limit is the one given unless absent or 0, which mean 100 |
| Gateway.EffectiveDaysBack | backend/src/lines/lines.service.ts:240 | the window is the one given unless absent or 0, which mean 30 days |
| Gateway.Threshold | backend/src/lines/lines.service.ts:263 | the threshold is the floor, in seconds, of `now − daysBack` days in milliseconds |
| Gateway.ThresholdMonotone | backend/src/lines/lines.service.ts:263 | a longer window never raises the threshold |
| Gateway.ContactDisplayName | backend/src/lines/lines.service.ts:278-287 | a contact is named by `name`, else `pushName`, else its id; never empty |
| Gateway.AlreadyExists | backend/src/lines/lines.service.ts:28 | (predicate) a creation failure counts as "already exists" iff its status is 403 or its error text contains `already exists` |
| Gateway.HistoryDraft | backend/src/lines/lines.service.ts:337-351 | a backfilled message keeps the id, gets non-empty content, type defaulting to `'text'`, status defaulting to `'DELIVERED'`, direction Sent iff `fromMe`, and seconds × 1000 as timestamp (now for a zero timestamp) |
| Gateway.Importable | backend/src/lines/lines.service.ts:314-326 | (predicate) a backfilled message is importable iff it has a truthy id and its seconds are not below the threshold |
| WebhooksService.Enqueued | backend/src/webhooks/webhooks.service.ts:11-27 | a falsy payload leaves the queue; otherwise exactly one `'process-webhook'` job carrying the payload, with 3 attempts, exponential back-off from 1000 ms and removal on completion |
| WebhooksService.EnqueuedAll | backend/src/webhooks/webhooks.service.ts:11-27 | a run of webhooks only appends to the queue |
| WebhooksService.AllJobsRetry | backend/src/webhooks/webhooks.service.ts:17-23 | every job ever queued carries the retry options |
| WebhooksService.OneJobPerTruthyPayload | backend/src/webhooks/webhooks.service.ts:13-16 | the queue grows by exactly the number of truthy payloads |
| WebhooksService.Queue.constructor | backend/src/webhooks/webhooks.service.ts:9 | a new queue is empty |
| WebhooksService.WebhooksService.constructor | backend/src/webhooks/webhooks.service.ts:9 | the service holds the queue it is given |
| WebhooksService.WebhooksService.HandleWebhook | backend/src/webhooks/webhooks.service.ts:11-27 | the queue becomes `Enqueued` of the old one; the answer is absent iff the payload is, and otherwise reports success |
| WebhooksProcessor.Rename | backend/src/webhooks/webhooks.processor.ts:73-75 | the update renames iff `pushName` is truthy, to `pushName` |
| WebhooksProcessor.UpsertDraft | backend/src/webhooks/webhooks.processor.ts:89-100 | the new message has the key's id, the webhook content, the first key as type, Sent iff `fromMe`, status `'DELIVERED'`, and seconds × 1000 as timestamp |
| WebhooksProcessor.StoreUpsert | backend/src/webhooks/webhooks.processor.ts:45-101 | once the Line is known: Lines are never written, stored messages are never dropped, the invariant is kept, and a key without `remoteJid` fails before any write |
| WebhooksProcessor.HandleUpsert | backend/src/webhooks/webhooks.processor.ts:31-102 | the handler never writes Lines, never drops a stored message and keeps the invariant; a payload without an instance name fails with nothing written |
| WebhooksProcessor.Process | backend/src/webhooks/webhooks.processor.ts:14-29 | a job never writes Lines, never drops a stored message and keeps the invariant |
| WebhooksProcessor.OtherEventsWriteNothing | backend/src/webhooks/webhooks.processor.ts:14-24 | any event but `messages.upsert` completes as ignored, with the store unchanged |
| WebhooksProcessor.ProcessRethrows | backend/src/webhooks/webhooks.processor.ts:25-28 | the job fails exactly when the upsert handler fails: failures are rethrown, not swallowed |
| WebhooksProcessor.UnknownLineWritesNothing | backend/src/webhooks/webhooks.processor.ts:36-43 | an unknown instance name writes nothing |
| WebhooksProcessor.ExactlyOneConversation | backend/src/webhooks/webhooks.processor.ts:64-80 | after the upsert exactly one conversation has the key, and the table grew by one only if there was none |
| WebhooksProcessor.UpsertOnlyTouchesConversations | backend/src/webhooks/webhooks.processor.ts:64-80 | the handler's conversation table and answer are those of the upsert primitive |
| WebhooksProcessor.UpsertConversationCount | backend/src/webhooks/webhooks.processor.ts:64-80 | an upsert grows the conversations by one iff the key was new |
| WebhooksProcessor.ContactNameRule | backend/src/webhooks/webhooks.processor.ts:73-78 | a new conversation is named by `pushName`; an existing one changes its name only to a truthy `pushName` |
| WebhooksProcessor.InsertedMessage | backend/src/webhooks/webhooks.processor.ts:84-101 | an inserted message is appended once, with the id, content, type, direction, status and timestamp the rules give |
| WebhooksProcessor.HandleUpsertIdempotent | backend/src/webhooks/webhooks.processor.ts:84-101 | handling the same payload twice leaves the message table as once |
| WebhooksProcessor.NewDeliveryStored | backend/src/webhooks/webhooks.processor.ts:84-101 | for a known Line, a payload with remote JID, message id and timestamp whose id is not stored yet is inserted, and the id is stored afterwards |
| WebhooksProcessor.StoredIdAddsNothing | backend/src/webhooks/webhooks.processor.ts:84-87 | a delivery whose message id is already stored, by a delivery or by a backfill, leaves the message table as it was |
| WebhooksProcessor.StoreUpsertIdempotent | backend/src/webhooks/webhooks.processor.ts:64-101 | once the Line is known, the second delivery's upsert and guarded insert leave the messages as the first left them |
| WebhooksProcessor.HandleMessageUpsert | backend/src/webhooks/webhooks.processor.ts:31-102 | the step-by-step handler leaves the store and answer `HandleUpsert` gives, and keeps validity |
| WebhooksProcessor.ProcessJob | backend/src/webhooks/webhooks.processor.ts:14-29 | the job dispatcher leaves the store and answer `Process` gives, and keeps validity |
| LinesService.CreateLineGatewayFailure | backend/src/lines/lines.service.ts:24-39 | an instance-creation failure other than "already exists" stores nothing and is reported |
| LinesService.CreatedLineFields | backend/src/lines/lines.service.ts:41-72 | a created Line has the name, the remote id, the operator and a disconnected status; it is appended alone and a 100-message/30-day backfill is started |
| LinesService.CreateLineStoreFailure | backend/src/lines/lines.service.ts:58-84 | storing fails exactly when the instance name is taken, and then nothing changes |
| LinesService.CreateLineEffect | backend/src/lines/lines.service.ts:20-84 | creation writes no conversation or message and keeps the invariant; it succeeds iff the gateway answered (or the instance exists) and the name is free; a failure changes nothing and starts no backfill |
| LinesService.CreateLine | backend/src/lines/lines.service.ts:20-84 | the method's store, answer and backfill request are `CreateLineEffect`'s; webhook attempts follow `ConfigureWebhook` and their failure never stops the Line being stored |
| LinesService.RecordState | backend/src/lines/lines.service.ts:117-126 | recording a state keeps the invariant and touches only Lines |
| LinesService.RecordOwner | backend/src/lines/lines.service.ts:144-151 | recording the owner keeps the invariant and touches only Lines |
| LinesService.GetQrCodeAnswer | backend/src/lines/lines.service.ts:109-185 | the connected branch answers "connected"; otherwise (or on a failed state call) the connect reply is passed on with no backfill; only Lines change |
| LinesService.GetQrCodeEffect | backend/src/lines/lines.service.ts:109-185 | a failed state call changes nothing and passes the connect reply on; a backfill (with default options) is started only together with the "connected" answer; the Line writes are those of `GetQrCodeWritesAsSync` |
| LinesService.GetQrCodeWritesAsSync | backend/src/lines/lines.service.ts:109-151 | the tables after `getQrCode` are those after `syncInstance` given the same state and info replies |
| LinesService.GetQrCodeLineState | backend/src/lines/lines.service.ts:121-151 | the named Line ends Connected with the resolved owner's phone (the part of the owner JID before `@`) when the connected branch resolves one, else with the normalised status (unchanged for a falsy token); nothing else is written, and a failed state call writes nothing |
| LinesService.GetQrCode | backend/src/lines/lines.service.ts:109-185 | the method's store, answer and backfill request are `GetQrCodeEffect`'s, and a valid store stays valid |
| LinesService.SyncResult | backend/src/lines/lines.service.ts:187-236 | a failed state call is the answer; a reported status is never empty; a reported phone has no `@` |
| LinesService.SyncInstanceTables | backend/src/lines/lines.service.ts:197-221 | the sync writes only Lines, keeps the invariant, and writes nothing when the state call fails |
| LinesService.SyncResultCases | backend/src/lines/lines.service.ts:187-236 | fails iff the state call fails or the info call fails in the connected branch; reports a phone iff an owner JID resolves, and it is the JID's phone part; otherwise the raw token or `'unknown'` |
| LinesService.SyncInstanceLineState | backend/src/lines/lines.service.ts:197-221 | only the Line named is rewritten: connected with the phone when one resolves, else the normalised state |
| LinesService.ConnectedTokenWithoutOwner | backend/src/lines/lines.service.ts:197-235 | a `'connected'` token without a resolved owner is reported as connected while the Line is stored disconnected |
| LinesService.SyncInstance | backend/src/lines/lines.service.ts:187-236 | the method's store, answer and backfill request are the specification's, and a valid store stays valid |
| LinesService.ImportChat | backend/src/lines/lines.service.ts:314-352 | a chat import counts at most one import or skip per message of the chat and never writes Lines or Conversations |
| LinesService.SyncContacts | backend/src/lines/lines.service.ts:266-367 | the contact loop never writes Lines, and a list of contacts none of which has a truthy id writes nothing |
| LinesService.SyncHistoryEffect | backend/src/lines/lines.service.ts:238-377 | an unknown instance writes nothing and is the only cause of the no-Line outcome; a failed contact fetch writes nothing; Lines are never written |
| LinesService.ImportChatFrame | backend/src/lines/lines.service.ts:314-352 | a chat import only appends messages, counts one import per appended message and keeps the invariant |
| LinesService.ImportedMessagesAreImportable | backend/src/lines/lines.service.ts:320-351 | every message appended comes from an input message with an id at or after the threshold, converted by the backfill rules |
| LinesService.CompletedImport | backend/src/lines/lines.service.ts:320-351 | a completed import skips exactly the messages older than the threshold (the threshold second is kept) and stores every importable one |
| LinesService.ImportChatAgain | backend/src/lines/lines.service.ts:337-339 | re-importing a chat whose messages are stored writes nothing |
| LinesService.SyncContactsFrame | backend/src/lines/lines.service.ts:267-366 | the per-contact loop never writes Lines, never drops a message and keeps the invariant, whatever chat fetches fail |
| LinesService.SyncHistoryFrame | backend/src/lines/lines.service.ts:238-377 | no stored Line means no writes; a failed contact fetch writes nothing; Lines are never written and messages never dropped |
| LinesService.ImportChatCompletes | backend/src/lines/lines.service.ts:336-349 | under the invariant, importing into an existing conversation never has a create rejected |
| LinesService.ContactStep | backend/src/lines/lines.service.ts:266-366 | under the invariant and an existing Line, one contact's upsert succeeds, its chat import completes, the invariant and Lines are kept and messages only appended |
| LinesService.SyncContactsCompletes | backend/src/lines/lines.service.ts:266-367 | under the invariant and an existing Line, the contact loop runs to its end |
| LinesService.ContactsWithoutIdSkipped | backend/src/lines/lines.service.ts:267-268 | the loop over all contacts does exactly what it does over those with a truthy id: the others write nothing |
| LinesService.SyncContactsKeepsRow | backend/src/lines/lines.service.ts:266-367 | a conversation row stays as it is when no contact in the loop has its key |
| LinesService.ContactRowNamed | backend/src/lines/lines.service.ts:271-288 | after a contact's upsert some row has its key and its display name |
| LinesService.SyncContactsNames | backend/src/lines/lines.service.ts:266-367 | after a loop that ran to its end, each contact with a truthy id has its conversation on the Line, named `name || pushName || id` of its last occurrence |
| LinesService.SyncContactsStoresChat | backend/src/lines/lines.service.ts:290-366 | under the invariant, every importable message of a contact whose fetch succeeded is stored at the end, whatever the other contacts' fetches returned |
| LinesService.SyncHistoryContact | backend/src/lines/lines.service.ts:238-377 | a history sync of an existing Line completes; each contact with an id gets its conversation named after its last occurrence, and each successfully fetched chat has every importable message stored |
| LinesService.ImportMessages | backend/src/lines/lines.service.ts:314-352 | the loop's store, counts and failure are `ImportChat`'s |
| LinesService.SyncHistory | backend/src/lines/lines.service.ts:238-377 | the method's store and outcome are `SyncHistoryEffect`'s |
| LinesService.Details | backend/src/lines/lines.service.ts:383-399 | one detail per Line, in order, carrying that Line's sync error if any |
| LinesService.DetailsSnoc | backend/src/lines/lines.service.ts:383-399 | each loop turn pushes exactly the current Line's detail |
| LinesService.SyncAllSummary | backend/src/lines/lines.service.ts:379-402 | the report's total is the number of Lines, with one detail per Line naming its instance, in order |
| LinesService.SyncAllTally | backend/src/lines/lines.service.ts:379-402 | `success + failed = total = #Lines = #details`, and a Line counts as a success iff its sync succeeded |
| LinesService.SyncAllTables | backend/src/lines/lines.service.ts:379-402 | syncing every Line writes only Lines and keeps the invariant |
| LinesService.SyncAllLines | backend/src/lines/lines.service.ts:379-402 | the loop's report is `SyncAllSummary` of the Lines and its store is the successive syncs' |
| Ingestion.RunConcat | backend/src/lines/lines.service.ts:238-377 | running two batches of writes is running one after the other |
| Ingestion.ApplyPreserves | backend/src/webhooks/webhooks.processor.ts:64-101 | every single write keeps the invariant, never drops a message and never removes a conversation |
| Ingestion.RunPreserves | backend/src/lines/lines.service.ts:271-351 | any sequence of writes keeps the invariant and keeps every message and conversation |
| Ingestion.StoredMessageStays | backend/src/webhooks/webhooks.processor.ts:84-101 | once stored, a message id stays stored under any later writes |
| Ingestion.HandleUpsertIsRun | backend/src/webhooks/webhooks.processor.ts:31-102 | the webhook handler is a run of at most two primitive writes |
| Ingestion.ImportChatIsRun | backend/src/lines/lines.service.ts:314-352 | a chat import is a run of primitive writes |
| Ingestion.InterleavedWritersStayConsistent | backend/src/lines/lines.service.ts:238-377 | webhook writes between any other writes keep one conversation per key and one message per id |
| Ingestion.WebhookThenBackfillStoresOnce | backend/src/lines/lines.service.ts:337-339 | a message received by webhook and then backfilled is stored once |
| UsersService.StoredPassword | backend/src/users/users.service.ts:15-21 | a supplied password is stored hashed; none stores the hashed default for `'digital'` and nothing for operators |
| UsersService.UserWithEmail | backend/src/users/users.service.ts:47-51 | the lookup returns a user with that e-mail, none iff no user has it |
| UsersService.CreateUser | backend/src/users/users.service.ts:11-29 | creation fails on a taken e-mail or id and then changes nothing; otherwise it appends the input with the stored password; unique e-mails and ids are kept |
| UsersService.Patched | backend/src/users/users.service.ts:53-63 | an update replaces the password with its hash only when one is supplied, and each given field |
| UsersService.UpdateUser | backend/src/users/users.service.ts:53-64 | an unknown id fails with not-found; a known id fails with e-mail-taken exactly when the patched e-mail belongs to another user (the unique violation of `update`); a failure changes nothing; a success replaces only that user by its patch; unique e-mails and ids are kept |
| UsersService.RemoveUser | backend/src/users/users.service.ts:66-70 | removal fails iff the id is unknown; otherwise exactly that user is removed |
| UsersService.CreatedUserFound | backend/src/users/users.service.ts:11-51 | a created user is found by its e-mail |
| UsersService.UserTable.constructor | backend/src/users/users.service.ts:9 | a new table is empty and valid |
| UsersService.UserTable.Create | backend/src/users/users.service.ts:11-29 | the in-place create is `CreateUser` and keeps unique e-mails and ids |
| UsersService.UserTable.FindByEmail | backend/src/users/users.service.ts:47-51 | the found user has the e-mail |
| UsersService.UserTable.Update | backend/src/users/users.service.ts:53-64 | the in-place update is `UpdateUser` and keeps the table valid |
| UsersService.UserTable.Remove | backend/src/users/users.service.ts:66-70 | the in-place removal is `RemoveUser` and keeps the table valid |
| AuthService.WithoutPassword | backend/src/auth/auth.service.ts:16-23 | the public user keeps every field but the password |
| AuthService.ValidateUser | backend/src/auth/auth.service.ts:13-26 | null iff the user is missing, has no password or the comparison fails; Unauthorized iff the credentials are valid for a role other than `'digital'`; otherwise the user without password |
| AuthService.Login | backend/src/auth/auth.service.ts:28-34 | the session's user is `{email, sub: id, role, name}` and the token is signed over exactly that payload |
| AuthService.OperatorWithoutPasswordNeverValidates | backend/src/auth/auth.service.ts:15 | an operator created without a password can never log in |
| ReportsService.AddCounts | backend/src/reports/reports.service.ts:37-40 | the inner loop adds the Sent messages to `sent` and all others to `received` |
| ReportsService.CountDirections | backend/src/reports/reports.service.ts:36-41 | the nested loop counts Sent and non-Sent messages over all conversations |
| ReportsService.MessagesByLine | backend/src/reports/reports.service.ts:32-51 | one row per Line, in order, with the Line's id and instance name |
| ReportsService.GetMessagesByLine | backend/src/reports/reports.service.ts:8-52 | the loop's rows are `MessagesByLine` of the store |
| ReportsService.GroupsCount | backend/src/reports/reports.service.ts:36-41 | the messages visited over a Line's conversations are exactly the messages of those conversations |
| ReportsService.LineRowTotals | backend/src/reports/reports.service.ts:43-50 | `total = sent + received` = the number of the Line's messages; the phone defaults to `'Sem número'` |
| ReportsService.MessagesByOperator | backend/src/reports/reports.service.ts:54-97 | one row per user with role `'operador'` |
| ReportsService.GetMessagesByOperator | backend/src/reports/reports.service.ts:54-97 | the loop's rows are `MessagesByOperator` of the store |
| ReportsService.LinesGroupsSums | backend/src/reports/reports.service.ts:79-94 | counting over all of an operator's Lines equals summing the per-Line counts |
| ReportsService.OperatorSumsItsLines | backend/src/reports/reports.service.ts:79-94 | an operator's sent and received are the sums over its Lines' rows, and total their sum |
| ReportsService.OperatorName | backend/src/reports/reports.service.ts:109-116 | never empty; with unique user ids, the owner's name when the owner exists and its name is truthy, else `'Sem operador'`; no owner gives `'Sem operador'` |
| ReportsService.LinesStatus | backend/src/reports/reports.service.ts:99-117 | one status row per Line |
| ReportsService.LinesStatusOrder | backend/src/reports/reports.service.ts:106-116 | rows are a permutation of the Lines' rows, newest `createdAt` first |
| DashboardController.GetMetrics | backend/src/dashboard/dashboard.controller.ts:9-24 | `totalOperators` counts operators, `operatorsOnline = activeLines` = connected Lines, `totalMessages` all messages |
| DashboardController.View | backend/src/dashboard/dashboard.controller.ts:38-51 | the view keeps the user and its Lines; online iff some Line is connected; `currentLine` is present iff online and summarises the first connected Line |
| DashboardController.NameLeTotal | backend/src/dashboard/dashboard.controller.ts:34 | name order is a total order |
| DashboardController.GetOperators | backend/src/dashboard/dashboard.controller.ts:27-53 | one view per operator |
| DashboardController.OperatorsListed | backend/src/dashboard/dashboard.controller.ts:27-53 | the views are exactly the operators' views, by name ascending |
| ConversationsService.OrdersTotal | backend/src/conversations/conversations.service.ts:15-28 | the three sort orders are total |
| ConversationsService.Preview | backend/src/conversations/conversations.service.ts:14-17 | at most one message, present iff the conversation has one, and the latest |
| ConversationsService.Listings | backend/src/conversations/conversations.service.ts:11-20 | each conversation listed in order with its preview |
| ConversationsService.FindAll | backend/src/conversations/conversations.service.ts:8-21 | no line id yields `[]`; every listing carries its preview |
| ConversationsService.FindAllListsLine | backend/src/conversations/conversations.service.ts:8-21 | exactly the Line's conversations, by `updatedAt` descending |
| ConversationsService.ConversationWithId | backend/src/conversations/conversations.service.ts:24-26 | the conversation with the id, none iff there is none |
| ConversationsService.FindOne | backend/src/conversations/conversations.service.ts:23-33 | null for an unknown id; otherwise that conversation with all its messages, in ascending timestamp order |
| ConversationsService.PagingIgnored | backend/src/conversations/conversations.controller.ts:19-23 | `limit`, `before` and `after` never change the answer |
| Text.Initials | src/pages/Management.tsx:95-97 | at most two characters, one per word in order, each the upper-cased first letter of its word |
| Text.InitialsOfTwoWords | src/pages/DigitalDashboard.tsx:115-117 | the initials of a first and a last name are their upper-cased first letters |
| Text.SplitJoin | src/pages/Management.tsx:95-97 | joining the parts of a split with its separator gives back the text |
| ReportsPage.DownloadCsv | src/pages/Reports.tsx:53-68 | nothing for empty data; otherwise the header of the first row's keys, then one line per row with those columns, joined by LF |
| ReportsPage.Doubled | src/pages/Reports.tsx:65 | doubling quotes never shortens the text and leaves quote-free text as it is |
| ReportsPage.Cell | src/pages/Reports.tsx:65 | a cell is the value between two quotes, at least two characters longer |
| ReportsPage.CellRoundTrip | src/pages/Reports.tsx:64-65 | reading a quoted cell back (halving doubled quotes) recovers the value |
| ReportsPage.RecordRoundTrip | src/pages/Reports.tsx:61-66 | a row line reads back as its values |
| ReportsPage.RecordsRoundTrip | src/pages/Reports.tsx:60-67 | the LF-joined row lines read back as the rows |
| ReportsPage.JoinThenSplit | src/pages/Reports.tsx:57 | splitting joined parts that avoid the separator gives back the parts |
| ReportsPage.CsvReadsBack | src/pages/Reports.tsx:53-68 | the export's header reads back as the keys and its body as every row's values in those columns |
| DigitalDashboardPage.Distinct | src/pages/DigitalDashboard.tsx:75 | `new Set` keeps each value once, the same values |
| DigitalDashboardPage.Wallets | src/pages/DigitalDashboard.tsx:75 | exactly the operators' truthy wallets, each once |
| DigitalDashboardPage.WalletValues | src/pages/DigitalDashboard.tsx:75 | the wallet values are exactly the operators' non-empty wallets |
| DigitalDashboardPage.Shown | src/pages/DigitalDashboard.tsx:78-95 | (predicate) an operator passes the status filter (a missing status counts as offline), the wallet filter, then the name, e-mail or phone search |
| DigitalDashboardPage.FilteredOperators | src/pages/DigitalDashboard.tsx:78-95 | an operator is kept iff it passes search, status and wallet filters |
| DigitalDashboardPage.FilterGuarantees | src/pages/DigitalDashboard.tsx:78-95 | the result keeps the operators' order; every kept one matches the search; `'online'` keeps only online, `'offline'` only missing or offline status; a wallet filter keeps only that wallet |
| DigitalDashboardPage.AllFiltersAdmit | src/pages/DigitalDashboard.tsx:86-92 | with both filters on `'all'`, every search match is kept |
| DigitalDashboardPage.EmptySearchListsAll | src/pages/DigitalDashboard.tsx:78-95 | no search and no filters list every operator |
| DigitalDashboardPage.ClickTarget | src/pages/DigitalDashboard.tsx:97-113 | current Line when it has an id, else the first connected Line, else the first Line, else the alert |
| DigitalDashboardPage.CardOf | backend/src/dashboard/dashboard.controller.ts:38-51 | the card lists the operator's Lines in order |
| DigitalDashboardPage.ClickOpensOperatorLine | src/pages/DigitalDashboard.tsx:97-113 | for an operator from the dashboard list, a click opens its first connected Line, else its first Line, and alerts iff it has none |
| ManagementPage.FilteredOperators | src/pages/Management.tsx:90-93 | kept iff the lower-cased name or e-mail contains the lower-cased term |
| ManagementPage.SearchKeepsOrder | src/pages/Management.tsx:90-93 | the search keeps the order, and an empty term keeps everyone |
| ApiTypes.ActiveLine | src/pages/Management.tsx:234-237 | the first connected Line, else the first Line; none iff there are no Lines (the same expression picks the fallback Line at src/pages/DigitalDashboard.tsx:105-106) |
| ManagementPage.IsConnected | src/pages/Management.tsx:237 | connected iff some Line is connected |
| ManagementPage.BadgeMatchesLine | src/pages/Management.tsx:234-237 | the badge is connected iff the Line shown is |
| ManagementPage.InstanceNameFor | src/pages/Management.tsx:127 | `user-` followed by the id when it has at most eight characters, else by its first eight |
| ManagementPage.CreateUserCalls | src/pages/Management.tsx:108-138 | no request iff a `'digital'` user has no password; the user is created first; a Line is created iff the role is `'operador'`, `createLine` is not false and creation succeeded, named after the new id |
| ManagementPage.PageDigitalAccountsGetTheirPassword | src/pages/Management.tsx:109-112 | a back-office account from this page stores its own hashed password, never the default |
| ManagementPage.QrFrom | src/pages/Management.tsx:549 | the code is `base64`, else `qrcode.base64`, else the reply itself if it is a `data:` string; never empty |
| ManagementPage.SaysConnected | src/pages/Management.tsx:555 | (predicate) a reply without a code means connected iff its status or state is `'open'` or its status is `'connected'` |
| ManagementPage.FetchQr | src/pages/Management.tsx:543-570 | a code shows as not connected; no code shows connected iff the status or state is open (or status connected), else the "unavailable" text; a failure keeps image and flag and reports unless silent |
| ManagementPage.ConnectedInstanceShowsConnected | src/pages/Management.tsx:543-570 | when the backend finds the instance connected the dialog shows connected, no image, no error |
| ManagementPage.DisconnectedInstanceShowsCode | src/pages/Management.tsx:543-570 | otherwise a connect reply with a code shows that code as not connected |
| ConversationsPage.DisplayName | src/pages/Conversations.tsx:104-107 | `contactName`, else `remoteJid`, else `'Desconhecido'`; never empty |
| ConversationsPage.FilteredConversations | src/pages/Conversations.tsx:104-107 | kept iff the lower-cased display name contains the lower-cased term |
| ConversationsPage.SearchByNameOrJid | src/pages/Conversations.tsx:104-107 | the search keeps order, finds unnamed contacts by JID, and an empty term keeps all |
| ConversationsPage.ConversationInitials | src/pages/Conversations.tsx:109-111 | `'?'` for a missing or empty name, else the initials; at most two characters |
| ConversationsPage.StatusIcon | src/pages/Conversations.tsx:186-195 | single check iff the lower-cased status is `'sent'`, grey double check iff `'delivered'`, else the read double check |
| ConversationsPage.StatusIconIgnoresCase | src/pages/Conversations.tsx:187 | upper- or lower-casing the status never changes the icon |
| ConversationsPage.DeliveredIcon | src/pages/Conversations.tsx:186-195 | `'DELIVERED'`, the stored webhook status, shows the grey double check |
| ConversationsPage.ShowDate | src/pages/Conversations.tsx:318-319 | (predicate) a separator is shown before the first message and before each message whose label differs from the previous one's |
| ConversationsPage.OneSeparatorPerDay | src/pages/Conversations.tsx:318-319 | in a chat in time order whose day labels are intervals over the chat's own span (true of `dd 'de' MMMM` for a chat shorter than 364 days), no two separators show the same label, and each message's label has a separator at or before it |
| ConversationsPage.DayStart | src/pages/Conversations.tsx:318-319 | the first message of a message's day is at or before it |
| ConversationsPage.DayStartShows | src/pages/Conversations.tsx:318-319 | that first message carries the day's separator |
| ConversationsPage.ChatDaysSeparatedOnce | src/pages/Conversations.tsx:318-319 | a chat as `findOne` returns it shows each day label's separator once, when the labels are intervals over the chat's span |
| ConversationsPage.RepeatedLabelShownTwice | src/pages/Conversations.tsx:117-119 | when a label comes back after another, as the year-free label does a year later, a chat shows that label's separator twice |
| ConversationsPage.WebhookMessageRendering | src/pages/Conversations.tsx:320 | a webhook message is drawn as sent iff the account sent it, with the grey double check |
| AppRoutes.ProtectedRoute | src/App.tsx:19-39 | loading iff loading; to `/login` iff no user; to `/` iff the role is not allowed; otherwise the page |
| AppRoutes.AnyRoleWithoutList | src/App.tsx:34 | no role list admits every signed-in user |
| AppRoutes.RoleBasedRedirect | src/App.tsx:42-63 | `'operador'` to `/operator`, any other role to `/dashboard`, no user to `/login` |
| AppRoutes.Route | src/App.tsx:65-119 | an unknown path shows the not-found page; the loading screen shows exactly on guarded paths while the session loads |
| AppRoutes.PagesByRole | src/App.tsx:65-119 | back-office pages render only for `'digital'`, the panel only for `'operador'`, the login only for visitors; a signed-in user at `/login` goes to `/` |
| AppRoutes.NoRedirectLoop | src/App.tsx:42-119 | for visitors and the two roles every path reaches a page within three redirects |
| AppRoutes.OtherRolesLoop | src/App.tsx:42-119 | any other role bounces between `/` and `/dashboard` forever |

## Left out

- HTTP calls to the gateway (axios, URLs, API-key headers): each reply is a parameter (`Result` of the reply or a gateway error).
- The database engine: tables are sequences in `Schema.Tables`, and ids come from a counter. Only the uniqueness and foreign-key checks the services rely on are modelled.
- The queue's retry execution and Redis: `WebhooksService` models the enqueued jobs and their options; a retried job is the same `ProcessJob` run again.
- Background promises (the backfill started by `createLine`, `getQrCode` and `syncInstance`): the methods return the backfill they would start (`BackfillRequest`) instead of running it. The throttling `setTimeout`s are left out because they only delay.
- `Date.now()`, bcrypt, JWT signing and `date-fns` formatting: they are parameters (`nowMs`, `hash`, `compare`, `sign`, `day`).
- Concurrency: the writers are sequential steps, and `Ingestion` covers every interleaving of whole primitive writes. Races inside one database statement are not modelled.
- Line status strings: the source stores `'DISCONNECTED'` when creating a Line but `'connected'`/`'disconnected'` when syncing. Both are one `LineStatus` datatype here, and `Disconnected` is sent to the client as `'disconnected'`. The client's `status === 'connected'` checks are unaffected.
- DashboardController.GetOperators: the source spreads the whole user row into the answer, password hash included. The model's view keeps the `User` value but does not model JSON serialisation.
- UsersService: `findAll` and `findOne` (backend/src/users/users.service.ts:31-45) are plain lookups no core rule depends on, and are not modelled.
- Logging, NestJS controllers and modules, `src/lib/api.ts`, `src/contexts/AuthContext.tsx`, `src/types/index.ts`, `src/data/mockData.ts` and `src/pages/OperatorPanel.tsx`: I/O, wiring, fixtures or declarations. The client types use lower-case message directions, unlike the backend's `'SENT'`/`'RECEIVED'`. The model follows the backend.
- React rendering, polling intervals, the conversation PDF export (src/pages/Conversations.tsx:121-184) and the Blob download (src/pages/Reports.tsx:70-77).
- `toLowerCase`/`toUpperCase` are modelled on ASCII letters only, and string order is code-unit order; Unicode case mapping and locale collation are not modelled.
- ReportsPage.CsvReadsBack: the header keys are written unquoted, so the read-back is proved only for keys without `,` or line breaks. The export uses LF line ends, not the CRLF of RFC 4180 section 2.
- DigitalDashboardPage.Wallets: the contract states the wallets and their distinctness but not their order of first appearance.
- AppRoutes.NoRedirectLoop: only visitors and the roles `'operador'` and `'digital'` settle. Any other role loops, as `AppRoutes.OtherRolesLoop` shows.
- ManagementPage.FetchQr: a silent refresh that fails clears an earlier error text, as the source does; the model keeps that behaviour.
- LinesService.SyncAllLines: the backfill request each `syncInstance` returns is discarded, as the source discards the promise; the report and the Lines written are modelled.
- ConversationsPage.OneSeparatorPerDay: holds only when the day labels are intervals over the chat's span. The `dd 'de' MMMM` label has no year, so a chat spanning a year or more can show a label twice (`ConversationsPage.RepeatedLabelShownTwice`).
- ConversationsPage.ChatDaysSeparatedOnce: the same interval hypothesis as `OneSeparatorPerDay`.
- LinesService.SyncHistoryContact: the naming and storage facts assume the contact loop runs to its end, which `SyncContactsCompletes` proves under the invariant for an existing Line.
