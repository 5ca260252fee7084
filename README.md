# WhatsApp instance lifecycle and webhook ingestion, modelled in Dafny

This project models the three Supabase edge functions that manage a bot's
WhatsApp connection through the Evolution API gateway:

- **create-whatsapp-instance** (the connect request). It validates the bot
  id and looks the bot up. It asks the gateway whether the instance
  `bot-<id>` exists, and answers at once when its session is already open.
  Otherwise it creates the instance if the gateway does not know it, and
  polls `connect` up to ten times for a QR code, sleeping 1.5 s and then
  3 s between attempts. When all ten attempts bring nothing, it deletes
  and recreates the instance and tries once more. It then upserts the
  instance row as `connecting`, with the QR and an expiry five minutes
  ahead.
- **whatsapp-webhook**. It dispatches gateway events:
  - `connection.update` rewrites the row's status, and clears the QR once
    connected.
  - `qrcode.updated` stores a new QR.
  - `messages.upsert` writes each message of a batch into a conversation,
    found or created by (instance, customer phone), and into the messages
    table.
- **delete-whatsapp-instance**. It deletes the instance at the gateway,
  ignoring the answer, and marks the row disconnected, without a QR code or
  a phone number.

Layout:

- `common.dfy` (module `Common`): optional JSON fields, JavaScript
  truthiness (`Present`, `Truthy`, `Or`), and the string operations the
  handlers use (`includes`, first-occurrence `replace`, `split('@')[0]`).
- `store.dfy` (module `Store`): the tables as a value `Db`, column-wise
  partial updates (`Patch`), the store invariant `Valid`, the queries and
  writes as functions, and a `Store` class whose methods perform them in
  place.
- `gateway.dfy` (module `Gateway`): the gateway as a fixed script of replies
  per endpoint, a `Gateway` object that hands them out in order and logs
  every call, and a `Timer` standing for `setTimeout`.
- `connect.dfy` (module `Connect`): the connect request. `ConnectSpec` and
  its parts are pure functions. The imperative `Connect` method, with the
  poll loop, is proved to do exactly what `ConnectSpec` says.
- `connect_props.dfy` (module `ConnectProps`): properties of the connect
  request.
- `webhook.dfy` (module `Webhook`): the payload, the extractors, the batch
  specification `Ingest`, the handler methods and the dispatch.
- `disconnect.dfy` (module `Disconnect`): the delete request.

The gateway, the clock and store failures are inputs:

- A `Script` with a `Cursor` fixes what the gateway answers. A script that
  runs out answers like a rejected fetch.
- `now` is the time.
- Flags such as `upsertFails` or `dbFails`, and the sets `convFail` and
  `msgFail` of message positions whose inserts fail, say which store
  writes the database rejects.

Where the system's specification and the code disagree, the model follows
the code:

- Replaying a message stores it again. There is no deduplication by
  message id (`Webhook.ReplayStoresTwice`).
- A connect request that obtains no QR still answers 200 with a null QR
  and writes the row (`ConnectProps.QrIssuedUnlessGatewayFails`, with a
  concrete case in `ConnectProps.QrFailureStillSucceeds`).
- A repeated connect request re-provisions every time. It does not return
  the stored, unexpired QR, because the stored row is read but never used.
- The webhook answers 400 not only for an unparsable (or `null`) body but
  also for a `connection.update` or `qrcode.updated` event without `data`
  (`Webhook.WebhookStatus`). A body that parses to a number, a string or
  an array answers 200: it has no `event` and falls to the default case.
- The delete request answers 400 when the store rejects the update, and
  it does not clear `qr_code_expires_at`.

## Model

| member | source | states |
|---|---|---|
| Common.OrTruthy | supabase/functions/whatsapp-webhook/index.ts:68-69 | `a \|\| b` is truthy iff one operand is, and then it is the first truthy operand; `Truthy` (`x \|\| null`) keeps exactly the non-empty strings |
| Common.FirstFromIsIndexOf | supabase/functions/create-whatsapp-instance/index.ts:133 | the substring search behind `includes`/`replace` finds the first occurrence, and finds none only when there is none |
| Common.StripJidDomainOfId | supabase/functions/whatsapp-webhook/index.ts:172 | removing `@s.whatsapp.net` turns the id `p@s.whatsapp.net` into `p` and leaves a bare phone unchanged |
| Common.BeforeFirst | supabase/functions/whatsapp-webhook/index.ts:69 | `split('@')[0]` is the longest prefix without `@`, ending right before the first `@` |
| Store.ApplyPatch | supabase/functions/whatsapp-webhook/index.ts:89-92 | an update sets every column it names to the value it gives and leaves every other column, the bot included, as it was; the row id never changes |
| Store.ApplyPatchIdempotent | supabase/functions/whatsapp-webhook/index.ts:89-92 | applying the same update to a row twice equals applying it once |
| Store.UpdateInstance | supabase/functions/delete-whatsapp-instance/index.ts:50-57 | `.update(...).eq('instance_name', n)` changes only row `n`, by the patch, and nothing when there is no such row |
| Store.UpsertInstance | supabase/functions/create-whatsapp-instance/index.ts:253-255 | upsert on `instance_name`: merges into the existing row or inserts a new row under the generator's next id, which then advances; no other row and no other table changes |
| Store.SingleConversationFound | supabase/functions/whatsapp-webhook/index.ts:175-182 | with unique keys, `.single()` on (instance, phone) finds an id iff a conversation with that key is stored |
| Store.SingleConversationIs | supabase/functions/whatsapp-webhook/index.ts:175-182 | looking up a stored conversation's key yields that conversation's id |
| Store.CountMatching | supabase/functions/whatsapp-webhook/index.ts:175-180 | with unique keys at most one conversation matches, and one does iff some row has the key |
| Store.InsertConversation | supabase/functions/whatsapp-webhook/index.ts:186-197 | the insert appends one active conversation under the next id with the given instance, bot, phone, name and time, keeping all earlier rows |
| Store.TouchConversation | supabase/functions/whatsapp-webhook/index.ts:207-213 | the update sets time and name on the conversation with that id only |
| Store.UpdateKeepsValid | supabase/functions/whatsapp-webhook/index.ts:82-92 | an update that nulls the QR whenever it writes `connected` keeps "connected implies no QR" and the rest of the store invariant |
| Store.UpdateInstanceIdempotent | supabase/functions/whatsapp-webhook/index.ts:89-92 | writing the same update to the same instance twice equals writing it once |
| Store.UpsertKeepsValid | supabase/functions/create-whatsapp-instance/index.ts:237-255 | such an upsert keeps the store invariant, including distinct positive instance ids below the generator |
| Store.InsertConversationKeepsValid | supabase/functions/whatsapp-webhook/index.ts:184-204 | creating a conversation only when none has the key keeps keys unique and ids distinct and positive; the new id is stored |
| Store.TouchConversationKeepsValid | supabase/functions/whatsapp-webhook/index.ts:205-214 | touching a conversation keeps the invariant and the set of conversation ids |
| Store.InsertMessageKeepsValid | supabase/functions/whatsapp-webhook/index.ts:243-254 | a message linked to a stored conversation keeps every message linked |
| Store.Store.constructor | supabase/functions/whatsapp-webhook/index.ts:182-184 | a new store holds the given bots, no rows otherwise, and an id generator starting at 1, and satisfies the invariant, under which every stored id is positive and so passes the `!conversationId` truthiness test |
| Store.Store.Update | supabase/functions/whatsapp-webhook/index.ts:89-92 | the store afterwards is `UpdateInstance` of the store before |
| Store.Store.Upsert | supabase/functions/create-whatsapp-instance/index.ts:253-255 | the store afterwards is `UpsertInstance` of the store before |
| Store.Store.FindConversation | supabase/functions/whatsapp-webhook/index.ts:175-180 | returns `SingleConversation` of the current store |
| Store.Store.CreateConversation | supabase/functions/whatsapp-webhook/index.ts:186-204 | returns the fresh id and leaves `InsertConversation` of the store before |
| Store.Store.UpdateConversation | supabase/functions/whatsapp-webhook/index.ts:207-213 | leaves `TouchConversation` of the store before |
| Store.Store.AddMessage | supabase/functions/whatsapp-webhook/index.ts:243-254 | appends the message row |
| Gateway.Gateway.Fetch | supabase/functions/create-whatsapp-instance/index.ts:69-71 | answers the next fetch reply of the script and logs the fetch for the instance |
| Gateway.Gateway.Create | supabase/functions/create-whatsapp-instance/index.ts:115-127 | answers the next create reply and logs a create without QR, with the Baileys integration and the three webhook events |
| Gateway.Gateway.Connect | supabase/functions/create-whatsapp-instance/index.ts:150-152 | answers the next connect reply and logs the connect |
| Gateway.Gateway.Delete | supabase/functions/create-whatsapp-instance/index.ts:169-172 | answers the next delete reply and logs the delete |
| Gateway.Timer.Sleep | supabase/functions/create-whatsapp-instance/index.ts:211 | a sleep adds its duration to the time slept |
| Connect.FindNamed | supabase/functions/create-whatsapp-instance/index.ts:78 | an index it returns lies inside the fetched array |
| Connect.FindNamedFirst | supabase/functions/create-whatsapp-instance/index.ts:78 | `find` returns the first entry with the instance's name, and nothing only when no entry has it |
| Connect.ProbeStatePicks | supabase/functions/create-whatsapp-instance/index.ts:73-83 | the gateway's view is set iff the fetch is OK with a non-empty array; it is the first entry with the name, else the first entry |
| Connect.QrOfIsOrChain | supabase/functions/create-whatsapp-instance/index.ts:199-201 | a connect reply's QR is `base64 \|\| code \|\| qrcode?.base64` of an OK reply, is never empty, and is absent iff all three are falsy or the reply failed |
| Connect.WaitTotalClosedForm | supabase/functions/create-whatsapp-instance/index.ts:209-211 | the sleeps after n failed attempts total 1500·n for n ≤ 2 and 3000·n − 3000 from then on |
| Connect.WaitTotalBound | supabase/functions/create-whatsapp-instance/index.ts:191-211 | ten failed attempts sleep 27 s, and no fewer attempts sleep more |
| Connect.PollFromBounds | supabase/functions/create-whatsapp-instance/index.ts:193-212 | the loop makes between one and ten attempts, all ten only when none stopped it |
| Connect.PollFromPrefix | supabase/functions/create-whatsapp-instance/index.ts:193-212 | every attempt before the last was fruitless (OK, no QR) |
| Connect.PollFromStop | supabase/functions/create-whatsapp-instance/index.ts:193-212 | the last attempt is why the loop stopped: its QR, its rejection, or the tenth fruitless reply |
| Connect.PollSkipsFruitless | supabase/functions/create-whatsapp-instance/index.ts:193-212 | after j fruitless replies the loop is at attempt j + 1 |
| Connect.PollSpec | supabase/functions/create-whatsapp-instance/index.ts:188-212 | the loop stops at the first reply that rejects or yields a QR; it ends empty-handed iff all ten replies were fruitless, and then it slept 27 s |
| Connect.FirstQrNone | supabase/functions/create-whatsapp-instance/index.ts:193-232 | no first QR exists among n connect replies iff none of them yields one |
| Connect.PollFirstQr | supabase/functions/create-whatsapp-instance/index.ts:193-232 | a loop that did not reject found the first QR among its replies, or else the reset's connect decides |
| Connect.ResetShape | supabase/functions/create-whatsapp-instance/index.ts:214-232 | the reset is delete, create, connect in that order; it stops after the delete iff the delete rejects ("unreachable"), after the create iff the create reply is fatal (its error, 5 s slept), and otherwise fails only when the final connect rejects; its QR is the final connect's; it sleeps 7 s when it completes |
| Connect.UpsertedRow | supabase/functions/create-whatsapp-instance/index.ts:236-255 | the upserted row belongs to the bot, is connecting, expires in five minutes, holds the new QR and phone when there are any, and keeps the invariant |
| Connect.PollForQr | supabase/functions/create-whatsapp-instance/index.ts:188-212 | the loop makes exactly the calls and sleeps `PollFrom` prescribes and returns its QR |
| Connect.ForceReset | supabase/functions/create-whatsapp-instance/index.ts:214-232 | the reset makes exactly the calls and sleeps `ResetSpec` prescribes |
| Connect.ObtainQr | supabase/functions/create-whatsapp-instance/index.ts:188-232 | polling then resetting yields exactly `ObtainSpec`'s QR or error, calls and sleeps |
| Connect.Connect | supabase/functions/create-whatsapp-instance/index.ts:20-280 | the request answers `ConnectSpec`'s response, makes its calls, sleeps its time, and leaves the store with its upsert merged unless rejected |
| Connect.Probe | supabase/functions/create-whatsapp-instance/index.ts:67-110 | from the probe on, the request does exactly what `ProbeSpec` says |
| Connect.Provision | supabase/functions/create-whatsapp-instance/index.ts:179-269 | from the create decision on, the request does exactly what `ProvisionSpec` says |
| ConnectProps.ObtainLog | supabase/functions/create-whatsapp-instance/index.ts:188-232 | obtaining a QR starts with a connect and only calls the gateway about this instance, one logged call per reply used |
| ConnectProps.ObtainBudget | supabase/functions/create-whatsapp-instance/index.ts:188-232 | at most eleven connects, one create, one delete; the delete happens iff all ten polls were fruitless; at most 34 s of sleep |
| ConnectProps.ObtainFirstQr | supabase/functions/create-whatsapp-instance/index.ts:188-232 | without error the QR is the first among the eleven connect replies; errors are "unreachable" or a create failure |
| ConnectProps.ProvisionLog | supabase/functions/create-whatsapp-instance/index.ts:179-232 | from the create decision on, calls address only this instance; the first is the create when creating, else a connect |
| ConnectProps.ProvisionBudget | supabase/functions/create-whatsapp-instance/index.ts:179-232 | at most two creates, eleven connects, one delete; the delete iff ten fruitless polls; at most 34 s of sleep |
| ConnectProps.ProvisionOutcome | supabase/functions/create-whatsapp-instance/index.ts:179-269 | the answer is a failure or a QR; the row is written iff a QR answer is given, with the first QR found; a fatal create reply fails at once |
| ConnectProps.ProbeLog | supabase/functions/create-whatsapp-instance/index.ts:67-232 | the first call is the fetch; past an early answer, the next is a create iff the gateway had no entry, otherwise a connect |
| ConnectProps.ProbeBudget | supabase/functions/create-whatsapp-instance/index.ts:67-232 | one fetch, at most two creates, eleven connects, one delete, 34 s of sleep |
| ConnectProps.ProbeResets | supabase/functions/create-whatsapp-instance/index.ts:214-217 | the delete happens iff the poll ran and its ten replies were fruitless |
| ConnectProps.ProbeOutcome | supabase/functions/create-whatsapp-instance/index.ts:67-269 | "already connected" iff the session is open; a rejected or unparsable fetch fails at once; the row is written iff a QR answer is given |
| ConnectProps.ValidationComesFirst | supabase/functions/create-whatsapp-instance/index.ts:21-39 | a missing or empty bot id, then a failed bot lookup (`Store.FindBot`, `BotOf`), answer 400 before any gateway call, write or sleep |
| ConnectProps.AlreadyConnectedIff | supabase/functions/create-whatsapp-instance/index.ts:89-105 | the request answers "already connected" iff the bot is valid and the gateway reports the session open; then it made only the fetch, wrote nothing, and reports the owner's number without its domain, or else the bot's |
| ConnectProps.ProbeFailures | supabase/functions/create-whatsapp-instance/index.ts:69-75 | a rejected fetch answers "unreachable" and an unparsable body "malformed", in both cases after that one call and with nothing written |
| ConnectProps.CreateOnlyWhenUnknown | supabase/functions/create-whatsapp-instance/index.ts:88-110 | the instance is created iff the gateway returned no entry; a fatal create reply (`CreateError`: a rejected call, or an error body without "already exists") then answers 400 with nothing written |
| ConnectProps.UpsertIffQrIssued | supabase/functions/create-whatsapp-instance/index.ts:236-269 | the row is upserted iff the answer carries a QR field; that QR is the first found; the row and the answer agree on name, phone and expiry |
| ConnectProps.CallBudget | supabase/functions/create-whatsapp-instance/index.ts:67-232 | every call addresses `bot-<id>`; at most one fetch, two creates, eleven connects and one delete |
| ConnectProps.ResetOnlyAfterTenFruitless | supabase/functions/create-whatsapp-instance/index.ts:214-217 | the delete-and-recreate fallback runs iff the poll ran and all ten replies were fruitless |
| ConnectProps.WaitBound | supabase/functions/create-whatsapp-instance/index.ts:209-227 | a request sleeps at most 34 s |
| ConnectProps.ConnectKeepsStoreValid | supabase/functions/create-whatsapp-instance/index.ts:236-259 | the store invariant survives the request, whether or not the upsert is rejected |
| ConnectProps.CreateRepliesMatterOnlyByError | supabase/functions/create-whatsapp-instance/index.ts:128-145 | create replies with the same meaning lead to the same request outcome |
| ConnectProps.AlreadyExistsIsBenign | supabase/functions/create-whatsapp-instance/index.ts:131-136 | an "already exists" create error (one `CreateError` lets through) behaves exactly like a successful create |
| ConnectProps.ObtainSucceeds | supabase/functions/create-whatsapp-instance/index.ts:188-232 | when the eleven connects and the delete answer and the create is benign, obtaining a QR raises no error |
| ConnectProps.ProvisionSucceeds | supabase/functions/create-whatsapp-instance/index.ts:179-259 | with benign creates and a gateway that answers, provisioning answers with the first QR of the eleven replies and upserts it |
| ConnectProps.QrIssuedUnlessGatewayFails | supabase/functions/create-whatsapp-instance/index.ts:67-269 | for every gateway whose fetch, eleven connects, creates and delete do not fail and that reports no open session, the request answers with the first QR of the eleven replies and upserts the row; the QR is null, and the answer still a success, iff all eleven replies are fruitless |
| ConnectProps.QrFailureStillSucceeds | supabase/functions/create-whatsapp-instance/index.ts:214-269 | a gateway that never gives a QR still yields a 200 answer with a null QR after ten polls, the reset and 34 s, and the row is written as connecting |
| Webhook.ConnectionUpdateEffect | supabase/functions/whatsapp-webhook/index.ts:63-99 | the row is connected iff the state is "open" and connecting iff "connecting"; once connected it has no QR, a connection time and the reported phone (domain stripped); otherwise the QR, phone and connection time stay; other rows stay; the invariant holds |
| Webhook.PhoneFromJid | supabase/functions/whatsapp-webhook/index.ts:69-83 | a user id `p@s.whatsapp.net` in `id`, with no phone or owner field, gives the phone `p` |
| Webhook.QrSources | supabase/functions/whatsapp-webhook/index.ts:104-116 | the QR is a non-empty `qrcode` string, else `qrcode.base64` when `qrcode` is an object (never `data.base64` then), else `data.base64`; never empty |
| Webhook.QrUpdateEffect | supabase/functions/whatsapp-webhook/index.ts:118-127 | a found QR is stored with a five-minute expiry and status connecting; phone and connection time stay; the invariant holds |
| Webhook.FirstRuleIsFirst | supabase/functions/whatsapp-webhook/index.ts:221-240 | the reference first-match picks the applicable rule of least priority index, or none when no rule applies |
| Webhook.ClassifyIsFirstMatch | supabase/functions/whatsapp-webhook/index.ts:216-240 | the content extraction is the first-match over the rules in the order text, extended text, image, audio, video, document, sticker; content is non-empty iff a rule applies; media only for messages without text |
| Webhook.IngestOneFrame | supabase/functions/whatsapp-webhook/index.ts:160-260 | one message touches only conversations and messages, adds at most one message and keeps stored messages, conversation ids and keys |
| Webhook.IngestOneValid | supabase/functions/whatsapp-webhook/index.ts:160-260 | one message keeps the store invariant |
| Webhook.IngestKeeps | supabase/functions/whatsapp-webhook/index.ts:158-261 | a batch keeps the invariant, leaves bots and instances alone, appends at most one message per batch entry, and keeps conversation ids and keys |
| Webhook.IngestOneStores | supabase/functions/whatsapp-webhook/index.ts:171-254 | a routable message lands in the conversation for its key (found, or new under the next id), which a later lookup finds |
| Webhook.IngestOneRecordsSender | supabase/functions/whatsapp-webhook/index.ts:184-213 | that conversation, and no other row, carries the push name (null without one, overwriting a stored name) and the message time; a new one is active, with the instance's bot |
| Webhook.ReplayStoresTwice | supabase/functions/whatsapp-webhook/index.ts:174-254 | the same message delivered twice is stored twice, in one conversation |
| Webhook.WebhookStatus | supabase/functions/whatsapp-webhook/index.ts:17-60 | 400 iff the body does not parse or is `null` (`payload` is `None`), or a connection/QR event lacks `data`, with nothing changed; 200 otherwise, also for a number, string or array body, which has no `event`; unknown events change nothing |
| Webhook.WebhookKeepsValid | supabase/functions/whatsapp-webhook/index.ts:26-44 | every request keeps the invariant; only message batches touch conversations and messages, and then only append messages |
| Webhook.StatusEventReplay | supabase/functions/whatsapp-webhook/index.ts:63-137 | replaying a connection or QR event answers the same and changes nothing more |
| Webhook.HandleConnectionUpdate | supabase/functions/whatsapp-webhook/index.ts:63-99 | the store afterwards is the row updated by `ConnectionPatch`, unchanged when the write fails |
| Webhook.HandleQrCodeUpdate | supabase/functions/whatsapp-webhook/index.ts:101-137 | the store afterwards holds the extracted QR, unchanged when there is none or the write fails |
| Webhook.HandleMessageUpsert | supabase/functions/whatsapp-webhook/index.ts:139-266 | the message loop leaves exactly `MessageUpsertSpec`: nothing without the instance (looked up by `Store.Store.FindInstance`, which answers `LookupInstance`), else the batch written message by message |
| Webhook.HandleWebhook | supabase/functions/whatsapp-webhook/index.ts:17-60 | the request answers `WebhookSpec`'s status and leaves its store |
| Disconnect.Disconnect | supabase/functions/delete-whatsapp-instance/index.ts:20-72 | the request answers, writes and calls the gateway exactly as `DisconnectSpec` says, whatever the gateway replies |
| Disconnect.DisconnectOutcome | supabase/functions/delete-whatsapp-instance/index.ts:23-71 | 400 iff the name is missing or empty or the store write fails, with nothing written; no name means no gateway call, otherwise exactly one delete for that name |
| Disconnect.DisconnectEffect | supabase/functions/delete-whatsapp-instance/index.ts:46-57 | the row becomes disconnected without QR or phone; its expiry, connection time, bot and id stay; other rows stay; the invariant holds; an unknown name changes nothing |
| Disconnect.DisconnectIdempotent | supabase/functions/delete-whatsapp-instance/index.ts:50-57 | deleting twice leaves the store as deleting once |

## Left out

- HTTP plumbing is not modelled: CORS preflight, headers, and the JSON
  shapes of the responses (a response is a datatype plus a status code).
- Environment variables, URLs and logging are not modelled.
- Network I/O is not modelled. The gateway is a script of replies per
  endpoint, so every sequence of answers is a possible world. Bodies that
  are never read (the create and delete replies' text beyond "already
  exists") carry nothing.
- Time is not modelled. `setTimeout` is a counter of milliseconds slept,
  and each request takes one `now` for all its `Date.now()` calls.
  Timestamps are integers, not ISO strings.
- Concurrency is not modelled. Requests run one at a time against the
  store, so races between concurrent first messages, and the database
  constraints that would resolve them, are not captured.
- Values of unexpected JSON types are not modelled:
  - numbers where strings are expected (`phoneNumber.replace`, `remoteJid.replace`);
  - `null` array elements;
  - a non-array truthy `messages`.
  In the source these throw. Fields are strings or absent, and array
  elements are objects.
- The response's `qrCode`/`phoneNumber` fields treat an empty string like
  `null`. The source would echo a falsy `""` value.
- Store write failures are flags, modelled only where the code branches on
  them:
  - connect upsert: ignored;
  - webhook instance update: only logged;
  - conversation insert: the message is skipped;
  - conversation touch (`whatsapp-webhook/index.ts:207-213`): its error is
    never read, and the model always performs the touch;
  - message insert: only logged;
  - delete update: 400.
- Failures of reads are not modelled separately. For the bot lookup and
  the webhook's instance lookup a failure acts like a missing row, which
  the model does cover (400, or the batch skipped). For the connect
  request's instance lookup nothing depends on the answer. A failed
  conversation lookup (`whatsapp-webhook/index.ts:175-184`) is not
  modelled: the source would then insert a second conversation for the
  same key, a state the store invariant's unique keys rule out.
- The `status = connecting` freshness requirement (an expiry in the
  future) is not part of the invariant, since time does not advance in the
  model.
- `get-bot-config` and the web app are not part of this model.
