# looksmaxxer core, modelled in Dafny

This project models the core of the PHP bot library `looksmaxxer`, a client for the MAX
messenger's bot API, and proves properties of that model.

The core is the `Bot` object of `src/Bot.php`. It keeps:

- an ordered list of callables per update type, filled by `on` and the filter sugar
  (`onCommand`, `onCallbackQuery`, `onText`, `onPhoto` and the others);
- a list of middlewares run as an onion around the dispatch;
- a `running` flag, cleared by `stop()`;
- a resumption marker for long polling;
- an optional error handler.

Updates reach the bot in two ways:

- the long-polling loop of `start()`, with its per-pass `try`/`catch`;
- `handleWebhook()`, which picks a single update or a batch by the shape of the body.

Around the core sit the decoders that turn the API's JSON into models (`Update`,
`UpdatesResponse`, `Message`, `MessageBody`, `Attachment`, the attachment payloads,
`User`, `MarkupElement`), the serialisers of the payloads, the keyboard buttons, the
fluent request builders, and the `Formatting` helpers.

Modules, one per file, in dependency order:

- `Wrappers`: `Option` and `Result`.
- `PhpStrings`: `%d`, `explode(' ', …)`, `ltrim(…, '/')` and `strcasecmp`.
- `Json`: a decoded JSON value as PHP sees it (ordered arrays with string keys), the PHP
  array operations and casts the core uses, and element-wise decoding.
- `Enums`: the string-backed enums with `from`/`tryFrom`.
- `Payloads`, `Users`, `Attachments`, `Messages`, `Updates`: the models and their
  `fromArray`/`toArray`.
- `Keyboard`: `Button` and `InlineKeyboard`.
- `MessageBuilders`, `ChatBuilders`: the builders as classes whose methods update the
  arrays they hold.
- `Formatting`: the four string helpers, with parsers that read their output back.
- `Filters`: user callables and the filtering closures of the `on*` sugar.
- `Dispatch`: the registry, `executeHandlers` and the middleware onion.
- `Polling`: `processUpdate` on a batch, the `catch` block, one pass of the loop, and the
  loop itself driven by a sequence of `getUpdates` answers.
- `Webhook`: the shape dispatch of `handleWebhook`.
- `BotEngine`: the `Bot` class, whose methods update its fields in place and are proved
  against the functions of `Dispatch`, `Polling` and `Webhook`. It also holds the scenarios
  of the repository's bot and middleware tests, stated for their inputs.

A user callable is arbitrary PHP code. The model keeps only its name and what it does to
the bot: it returns, calls `stop()`, or throws. Each call is recorded in the bot's event
log, as are the middlewares' notes before and after `$next`, the `getUpdates` requests,
and the failures the loop prints.

The behaviour follows the code where it differs from the library's documentation:

- A handler's `\Exception` thrown while the loop dispatches a batch is caught by the
  same `try` as a failed `getUpdates` call (`src/Bot.php:232-253`). It goes to the
  error handler, or is printed, and the loop goes on. The marker has already moved past
  that batch, so the rest of the batch is not asked for again.
- The marker is replaced by any non-null marker in the answer, larger or not; nothing
  keeps it increasing (`src/Bot.php:239-241`).
- An unknown `update_type` is read as `message_created` (`src/Models/Update.php:42-45`).

## Model

| member | source | states |
|---|---|---|
| Enums.UpdateTypeValue | src/Enums/UpdateType.php:10-27 | each update type's backing value maps back to that same case under `tryFrom` |
| Enums.UpdateTypeFromExact | src/Enums/UpdateType.php:10-27 | `tryFrom(s)` yields case `t` exactly when `s` is `t`'s backing value, in both directions |
| Enums.UpdateTypeFromValue | src/Enums/UpdateType.php:10-27 | whatever `tryFrom` accepts is the backing value of the case it returns |
| Enums.UpdateTypeFrom | src/Enums/UpdateType.php:10-27 | `tryFrom` gives a case exactly when the string is one of the fifteen backing values, and null otherwise |
| Enums.ChatTypeValue | src/Enums/ChatType.php:10-14 | `chat` and `dialog` map back to their own cases |
| Enums.MessageLinkTypeValue | src/Enums/MessageLinkType.php:10-14 | `forward` and `reply` map back to their own cases |
| Enums.PermissionValue | src/Enums/ChatAdminPermission.php:10-23 | each of the eleven administrator rights maps back to its own case |
| Enums.MarkupTypeValue | src/Enums/MarkupType.php:10-19 | each of the seven markup kinds maps back to its own case |
| PhpStrings.NatToDecimal | src/Helpers/Formatting.php:21 | `%d` of a non-negative number is a non-empty run of digits with no leading zero |
| PhpStrings.IntToDecimal | src/Helpers/Formatting.php:21 | `%d` is a well-formed decimal whose leading minus appears exactly for negative numbers |
| PhpStrings.ParseIntToDecimal | src/Helpers/Formatting.php:21 | the decimal rendering of any integer parses back to that integer |
| PhpStrings.IntToDecimalInjective | src/Helpers/Formatting.php:33 | two different user ids never render the same |
| PhpStrings.Explode | src/Bot.php:128 | `explode(' ', …)` gives at least one piece and no piece contains a space |
| PhpStrings.ImplodeExplode | src/Bot.php:128 | joining the pieces with single spaces gives the text back |
| PhpStrings.ExplodeImplode | src/Bot.php:128-132 | space-free pieces joined by spaces split back into exactly those pieces |
| PhpStrings.ExplodeWord | src/Bot.php:128-129 | a space-free first word followed by a space is piece 0, and the rest splits on its own |
| PhpStrings.LTrim | src/Bot.php:125 | `ltrim(…, '/')` removes exactly the leading slashes: a suffix, with no leading slash, after a prefix of slashes only |
| PhpStrings.Lowered | src/Bot.php:131 | ASCII lower-casing keeps the length and maps each character on its own |
| PhpStrings.StrCaseEquals | src/Bot.php:131 | case-insensitive equality implies equal length and holds for equal strings |
| Filters.NormaliseCommand | src/Bot.php:125 | the normalised command starts with exactly one slash, followed by the command with its leading slashes removed |
| Filters.LeadingSlashIgnored | src/Bot.php:125 | `onCommand('/x')` and `onCommand('x')` register the same command |
| Filters.NormaliseIdempotent | src/Bot.php:125 | normalising an already normalised command changes nothing |
| Filters.CommandArgs | src/Bot.php:127-133 | the command closure fires only when the first word has the length of the command, and then passes one argument per space-separated word after it, none containing a space |
| Filters.PayloadMatches | src/Bot.php:110-119 | a pattern longer than `/` that starts with `/` is a regular expression matched against the payload; any other pattern fires exactly on a payload equal to it |
| Filters.TextFires | src/Bot.php:140-145 | the text closure fires exactly when the message has a text other than `''` and `'0'` that the pattern matches |
| Filters.CommandFires | src/Bot.php:127-133 | a text made of the command word in any letter case and space-free arguments fires with exactly those arguments |
| Filters.CommandFired | src/Bot.php:127-133 | conversely, a text that fires is the command word in some case, joined by single spaces to the arguments passed |
| Filters.LongerWordDoesNotFire | src/Bot.php:128-131 | a first word of a different length never fires, whatever follows it |
| Filters.StartIsNormalised | src/Bot.php:125 | `onCommand('start')` registers `/start` |
| Filters.StarterIsNotStart | src/Bot.php:128-131 | `/starter` does not run the `/start` command |
| Filters.StartWithArguments | src/Bot.php:128-133 | `/Start a b` runs the `/start` command with arguments `a` and `b` |
| Filters.PlainPatternIsExact | src/Bot.php:111-118 | a callback pattern that is not a regular expression (the lone `/` included) matches by strict equality only |
| Filters.FalsyTextNeverFires | src/Bot.php:141-142 | a missing text, `''` and `'0'` never reach the `onText` pattern |
| Filters.AttachmentFires | src/Bot.php:151 | the attachment filter passes exactly when the message has an attachment of that type tag |
| Filters.Fire | src/Bot.php:107-182 | a plain callable is always called; each filter closure calls its own handler exactly when its test passes; only the command closure passes arguments |
| Dispatch.Register | src/Bot.php:80-84 | registering appends after the earlier callables of that type and changes no other type |
| Dispatch.CallHandler | src/Bot.php:294 | a handler call is recorded; it clears `running` exactly when the handler calls `stop()` and throws exactly what the handler throws |
| Dispatch.Invoke | src/Bot.php:293-295 | a callable whose filter does not pass leaves the run unchanged; one whose filter passes adds exactly one call of its handler, with the update and the arguments the filter gives |
| Dispatch.ExecuteHandlers | src/Bot.php:289-297 | the dispatch only adds to the log, and does nothing once something was thrown |
| Dispatch.TwoListeners | src/Bot.php:293-295 | with two callables, the calls, throws and stops are those of the first followed by those of the second |
| Dispatch.HandlersInOrder | src/Bot.php:289-297 | with no throw, exactly the callables whose filters pass are called, in registration order, and the bot keeps running unless one of them stopped it |
| Dispatch.FirstThrowStops | src/Bot.php:293-295 | the first throwing handler ends the dispatch with its value; the ones after it are not called |
| Dispatch.Stages | src/Bot.php:267-270 | the pipeline is the middlewares in `use` order followed by the dispatch closure |
| Dispatch.CallPipeline | src/Bot.php:275-287 | running the pipeline only adds to the log |
| Dispatch.DispatchOne | src/Bot.php:289-297 | with a single plain handler that returns normally, the dispatch stage adds exactly one call of it and changes nothing else |
| Dispatch.CallNext | src/Bot.php:282-284 | each call of `$next` only adds to the log, and none happens after a throw |
| Dispatch.Enters | src/Bot.php:275-287 | the entry notes are one per middleware, outermost first |
| Dispatch.Exits | src/Bot.php:275-287 | the exit notes are one per middleware, innermost first |
| Dispatch.OnionLayer | src/Bot.php:281-286 | a middleware that calls `$next` once begins, runs the rest of the pipeline on the update it hands on (its own when it hands on none), and finishes unless the rest threw |
| Dispatch.Onion | src/Bot.php:265-287 | when each middleware calls `$next` once, all begin in `use` order, the handlers run, then all finish in reverse order; a handler's throw finishes none |
| Dispatch.ShortCircuit | src/Bot.php:281-286 | a middleware that never calls `$next`, with only middlewares before it, means no handler runs |
| Dispatch.ForwardedUpdateReachesHandlers | src/Bot.php:278-286 | behind any chain of middlewares that each call `$next` once, the handlers see the update the last of them handed on, are chosen by its type, and run between every entry and every exit |
| Dispatch.NextTwice | src/Bot.php:282-286 | a middleware that calls `$next` twice runs the whole rest of the pipeline twice on the same update, the second time after the first's effects, and not at all a second time if the first threw |
| Dispatch.NextTwiceOneHandler | src/Bot.php:282-286 | with one matching handler and nothing behind the middleware, calling `$next` twice runs that handler twice |
| Polling.ProcessUpdate | src/Bot.php:265-273 | processing an update only adds to the log |
| Polling.DispatchAll | src/Bot.php:243-245 | a batch is dispatched in order and nothing more happens after a throw |
| Polling.DispatchAllAppend | src/Bot.php:243-245 | dispatching `a + b` is dispatching `a`, then `b` |
| Polling.DispatchPair | src/Bot.php:243-245 | in a batch of two, the second update is processed only when the first did not throw |
| Polling.HandlersIgnoreRunning | src/Bot.php:289-297 | what the handlers do does not depend on whether `stop()` was called |
| Polling.PipelineIgnoresRunning | src/Bot.php:275-287 | neither does what the middlewares do |
| Polling.StopFinishesBatch | src/Bot.php:231-245 | `stop()` does not cut a batch short: the batch runs the same whether or not the bot was stopped during it |
| Polling.Catch | src/Bot.php:246-253 | a PHP `\Error` passes through; an `\Exception` goes to the error handler when there is one, otherwise it is printed; only an error handler that throws lets a failure out |
| Polling.TypeFilter | src/Bot.php:227-229 | the types asked for are null exactly when nothing is registered, and otherwise exactly the registered types |
| Polling.Iteration | src/Bot.php:232-253 | one pass asks from the current marker, then adopts the response's marker unless it is null |
| Polling.Poll | src/Bot.php:231-254 | the loop stops at once when not running, ends on a throw exactly when that throw escapes, and `Stopped` means `running` is false |
| Polling.FailedBatchPass | src/Bot.php:239-251 | when the first update of a batch throws an `\Exception` and there is no error handler, the marker still moves on and the failure is printed |
| Polling.FailedBatchNotRefetched | src/Bot.php:231-253 | a failed batch is not asked for again: the loop goes on from the batch's marker |
| Webhook.WebhookItems | src/Bot.php:199-219 | an empty body dispatches nothing; a list whose element 0 is set is a batch; an object's `updates` array is a batch; otherwise only an object with `update_type` is dispatched, alone |
| Webhook.DispatchItem | src/Bot.php:211 | an item that does not decode throws before anything is dispatched |
| Webhook.DispatchItems | src/Bot.php:210-212 | items are dispatched in order and nothing more happens after a throw |
| Webhook.WebhookLikePolling | src/Bot.php:210-212 | when every item decodes, a webhook batch is dispatched exactly like the same updates fetched by polling |
| Webhook.BadItemStops | src/Bot.php:210-212 | an item that does not decode (a PHP `\TypeError` or `\ValueError`, or a cast the model leaves unmodelled) stops the batch: the items before it were dispatched, none after it |
| Webhook.HandleWebhook | src/Bot.php:199-219 | a body that stands for no update leaves the bot unchanged |
| Webhook.EmptyBody | src/Bot.php:202 | the body counts as empty exactly when PHP's `empty` holds for it: the empty string and `'0'` |
| Webhook.FirstIsSet | src/Bot.php:208 | for an array value, `isset($data[0])` holds exactly when key `0` is set to a non-null value |
| Webhook.UpdatesIsArray | src/Bot.php:208 | holds exactly when the value is an object whose `updates` is set to a list or an object |
| Webhook.BatchSource | src/Bot.php:209 | `$data['updates'] ?? $data` is the `updates` value when it is set and the whole value otherwise; when `updates` is an array, the source can be iterated |
| BotEngine.Bot.constructor | src/Bot.php:16-40 | a new bot has nothing registered, is not running, and has no marker and no error handler |
| BotEngine.Bot.Use | src/Bot.php:54-58 | the middleware is appended; nothing else changes |
| BotEngine.Bot.SetMarker | src/Bot.php:63-67 | the marker is replaced; nothing else changes |
| BotEngine.Bot.GetMarker | src/Bot.php:72-75 | returns the marker the bot holds, changing nothing |
| BotEngine.Bot.On | src/Bot.php:80-84 | the callable is appended to its type's list; nothing else changes |
| BotEngine.Bot.OnError | src/Bot.php:89-93 | the error handler is replaced; nothing else changes |
| BotEngine.Bot.OnMessage | src/Bot.php:97-100 | registers the callable for `message_created` |
| BotEngine.Bot.OnCallback | src/Bot.php:102-105 | registers the callable for `message_callback` |
| BotEngine.Bot.OnCallbackQuery | src/Bot.php:107-121 | registers the payload-matching closure for `message_callback` |
| BotEngine.Bot.OnCommand | src/Bot.php:123-136 | registers the command closure, holding the normalised command, for `message_created` |
| BotEngine.Bot.OnText | src/Bot.php:138-146 | registers the text-matching closure for `message_created` |
| BotEngine.Bot.OnPhoto | src/Bot.php:148-155 | registers the `image` attachment closure for `message_created` |
| BotEngine.Bot.OnVideo | src/Bot.php:157-164 | registers the `video` attachment closure for `message_created` |
| BotEngine.Bot.OnLocation | src/Bot.php:166-173 | registers the `location` attachment closure for `message_created` |
| BotEngine.Bot.OnContact | src/Bot.php:175-182 | registers the `contact` attachment closure for `message_created` |
| BotEngine.Bot.OnUserJoined | src/Bot.php:184-187 | registers the callable for `user_added` |
| BotEngine.Bot.OnUserRemoved | src/Bot.php:189-192 | registers the callable for `user_removed` |
| BotEngine.Bot.Stop | src/Bot.php:257-260 | clears `running`; nothing else changes |
| BotEngine.Bot.ProcessUpdate | src/Bot.php:265-273 | the log and `running` become those of the pipeline over the current registrations; marker and registrations are unchanged |
| BotEngine.Bot.DispatchBatch | src/Bot.php:243-245 | the loop over a batch leaves the bot as dispatching the whole batch in order does |
| BotEngine.Bot.CatchFailure | src/Bot.php:246-253 | the bot becomes what the catch block makes of it, and the failure that escapes is returned |
| BotEngine.Bot.PollOnce | src/Bot.php:232-253 | one pass moves the marker and log as the pass does, and returns what escapes it |
| BotEngine.Bot.Start | src/Bot.php:224-255 | the loop sets `running`, fixes the types to ask for, and leaves marker, log, `running` and the ending as the polling loop over the answers does |
| BotEngine.Bot.DispatchWebhookItem | src/Bot.php:211 | one webhook item decodes, then goes through `processUpdate`, or throws |
| BotEngine.Bot.DispatchWebhookItems | src/Bot.php:210-212 | the loop over webhook items leaves the bot as dispatching them in order does |
| BotEngine.Bot.HandleWebhook | src/Bot.php:199-219 | the webhook entry point leaves the bot as the shape of the body decides |
| BotEngine.NoMiddlewarePipeline | src/Bot.php:265-297 | with no middleware and no throwing handler, processing an update is calling every passing callable of its type in order |
| BotEngine.MiddlewareChainRun | tests/MiddlewareTest.php:14-40 | one middleware that calls `$next` once around one handler gives begin, handler, end |
| BotEngine.MiddlewareChain | tests/MiddlewareTest.php:14-40 | the middleware test's log is begin, handler, end, and nothing is thrown |
| BotEngine.RouteUpdatePoll | tests/BotTest.php:18-56 | one message with marker 1 and a handler that stops the bot: one fetch, one call, stopped at marker 1 |
| BotEngine.RouteUpdate | tests/BotTest.php:18-56 | the routing test ends stopped at marker 1 after one fetch and one handler call |
| BotEngine.StartPasses | tests/BotTest.php:96-98 | the `/start` closure passes `/start` on with no arguments |
| BotEngine.NotACommandHeldBack | tests/BotTest.php:96-98 | the `/start` closure holds `Not a command` back |
| BotEngine.CommandCalls | tests/BotTest.php:96-106 | for each of the two messages, which of the two callables call their handlers, and that the message handler stops the bot |
| BotEngine.CommandFirstMessage | tests/BotTest.php:96-106 | `/start` runs the command handler, then the message handler, which stops the bot |
| BotEngine.CommandSecondMessage | tests/BotTest.php:96-106 | `Not a command` runs only the message handler |
| BotEngine.CommandBatch | tests/BotTest.php:58-112 | the batch of both messages gives three handler calls and stops the bot |
| BotEngine.CommandFilterPoll | tests/BotTest.php:58-112 | the command test's loop makes one fetch, runs the command once and the message handler twice, and ends stopped at marker 1 |
| BotEngine.CommandFilter | tests/BotTest.php:58-112 | the command test ends stopped, with the command handler called once without arguments and the message handler called twice |
| BotEngine.MarkerRoundTrip | src/Bot.php:63-75 | `getMarker` after `setMarker(m)` gives `m` back, and nothing else changed |
| Formatting.MentionsAreLinks | src/Helpers/Formatting.php:19-49 | a mention is the link of the same name to the address `max://max.ru/` followed by the user id in decimal |
| Formatting.IndexOf | src/Helpers/Formatting.php:41 | the position found holds the character and none before it does; none is found only when the character is absent |
| Formatting.ParseMarkdownLink | src/Helpers/Formatting.php:39-42 | whatever is read back as a text and url renders to the string it was read from |
| Formatting.MarkdownLinkReadsBack | src/Helpers/Formatting.php:39-42 | a Markdown link whose text holds no `]` reads back as that text and url |
| Formatting.MarkdownLinkAmbiguous | src/Helpers/Formatting.php:41 | nothing is escaped: two different texts and urls give the same Markdown link, so the first cannot be read back |
| Formatting.ParseMarkdownMention | src/Helpers/Formatting.php:19-22 | whatever is read back as a user id and name renders to the string it was read from |
| Formatting.MarkdownMentionReadsBack | src/Helpers/Formatting.php:19-22 | a Markdown mention whose name holds no `]` reads back as that user and name |
| Formatting.ParseHtmlLink | src/Helpers/Formatting.php:47-50 | whatever is read back as a text and url renders to the string it was read from |
| Formatting.HtmlLinkReadsBack | src/Helpers/Formatting.php:47-50 | an HTML link whose url holds no `"` reads back as that text and url |
| Formatting.ParseHtmlMention | src/Helpers/Formatting.php:31-34 | whatever is read back as a user id and name renders to the string it was read from |
| Formatting.HtmlMentionReadsBack | src/Helpers/Formatting.php:31-34 | every HTML mention reads back as its user and name, whatever the name holds |
| Formatting.HtmlLinkAmbiguous | src/Helpers/Formatting.php:49 | nothing is escaped: two different texts and urls give the same HTML link |
| Formatting.MarkdownMention | src/Helpers/Formatting.php:19-22 | the `[%s](max://max.ru/%d)` shape: the name between `[` and `](`, then the user address, then `)`, and no other character (read back by `MarkdownMentionReadsBack`, compared with the HTML form in `MentionsAreLinks`) |
| Formatting.HtmlMention | src/Helpers/Formatting.php:31-34 | the `<a href="max://max.ru/%d">%s</a>` shape: the user address inside the quotes, then the name up to `</a>`, and no other character (read back by `HtmlMentionReadsBack`) |
| Formatting.MarkdownLink | src/Helpers/Formatting.php:39-42 | the `[%s](%s)` shape: the text between `[` and `](`, the url up to the closing `)`, and no other character (read back by `MarkdownLinkReadsBack`) |
| Formatting.HtmlLink | src/Helpers/Formatting.php:47-50 | the `<a href="%s">%s</a>` shape: the url inside the quotes, then the text up to `</a>`, and no other character (read back by `HtmlLinkReadsBack`) |
| Payloads.FromArray | src/Models/Payloads/PhotoPayload.php:23-30 | decoding with a payload class gives a payload of that class, and the generic class keeps the array as it is |
| Payloads.FirstSetAt | src/Models/Payloads/ContactPayload.php:37-42 | when keys are distinct, the value kept for a key is the one listed for it |
| Payloads.FirstSetAbsent | src/Models/Payloads/ContactPayload.php:37-42 | a key that is not listed has no value |
| Payloads.DropNulls | src/Models/Payloads/ContactPayload.php:37-42 | `array_filter` with `!== null` keeps, for each key, its first non-null value, is no longer than its input, and keeps no null |
| Payloads.DropNullsThree | src/Models/Payloads/PhotoPayload.php:34-38 | with three distinct keys, each key keeps its own value once the nulls are dropped |
| Payloads.DropNullsFour | src/Models/Payloads/ContactPayload.php:37-42 | with four distinct keys, each key keeps its own value once the nulls are dropped |
| Payloads.PhotoFields | src/Models/Payloads/PhotoPayload.php:32-39 | a photo's array holds its url, token and photo id under their keys, each present exactly when set |
| Payloads.ShareFields | src/Models/Payloads/SharePayload.php:29-35 | a share's array holds its url and token, each present exactly when set |
| Payloads.ContactFields | src/Models/Payloads/ContactPayload.php:35-43 | a contact's array holds its name, and its contact id and vCard fields exactly when set |
| Payloads.ReadStr | src/Models/Payloads/PhotoPayload.php:26 | `$data[k] ?? null` reads back the optional string that was written |
| Payloads.ReadInt | src/Models/Payloads/PhotoPayload.php:28 | `isset($data[k]) ? (int)$data[k] : null` reads back the optional integer that was written |
| Payloads.FromArrayToArray | src/Models/Payloads/ContactPayload.php:25-43 | every payload's array decodes with its own class to the same payload |
| Payloads.ToArrayKeys | src/Models/Payloads/PhotoPayload.php:32-39 | a field appears in the array exactly when it is set, for the photo, video, share and contact payloads; a photo or share with nothing set, and a video with no token, give an empty array |
| Payloads.ToArrayNoNull | src/Models/Payloads/VideoPayload.php:24-27 | the array of a typed payload holds no null value |
| Payloads.ToArray | src/Models/Payloads/SharePayload.php:29-35 | the array of a typed payload uses only its own class's keys (`url` and `token` for a share; likewise for the other classes, in `PhotoPayload.php`, `VideoPayload.php`, `StickerPayload.php`, `ContactPayload.php` and `LocationPayload.php`) |
| Attachments.ClassForKind | src/Models/Attachment.php:43-51 | `image`/`photo` are photos, `video`/`audio`/`file` videos, `sticker`, `contact`, `location` and `share` their own classes, and every other tag the generic payload |
| Attachments.AttachmentFromArray | src/Models/Attachment.php:33-54 | a decoded attachment keeps the type tag it was given and holds a payload of the class that tag selects |
| Attachments.PhotoId | src/Models/Attachment.php:59-62 | a photo id is returned only for a photo payload, and it is that payload's |
| Attachments.Url | src/Models/Attachment.php:67-73 | a url is returned exactly for photo and share payloads, and it is theirs |
| Attachments.AttachmentRoundTrip | src/Models/Attachment.php:33-54 | an attachment whose payload has the class its tag selects decodes from its own array to itself |
| Attachments.LocationAtRoot | src/Models/Attachment.php:38-41 | a location with no payload is read from the coordinates of the record itself |
| Attachments.UnknownKindIsGeneric | src/Models/Attachment.php:50 | an unknown tag keeps its raw payload array |
| Attachments.ToArray | src/Builders/MessageBuilder.php:127-130 | an attachment is sent as exactly the keys `type` and `payload`, in that order: its type tag and its payload's array |
| Json.Get | src/Models/User.php:50 | a key is found exactly when it is one of the array's keys |
| Json.Val | src/Models/User.php:50-59 | `$a[$k] ?? …` sees a value exactly when `isset` holds, and it is the stored, non-null value |
| Json.Assign | src/Builders/MessageBuilder.php:49 | `$a[$k] = $v` makes `$k` read `$v` and changes no other key |
| Json.AssignKeys | src/Builders/MessageBuilder.php:49 | assignment keeps the key order: an existing key stays where it is, a new key comes last |
| Json.AssignDistinct | src/Builders/MessageBuilder.php:49 | assignment keeps a PHP array's keys distinct |
| Json.AssignWithin | src/Builders/ChatUpdateBuilder.php:27 | assignment adds at most the key written and grows the array by at most one entry |
| Json.AssignAppends | src/Builders/MessageBuilder.php:49 | writing a new key appends it, last in the key order |
| Json.AssignThree | src/Builders/ChatUpdateBuilder.php:25-89 | three different keys written onto an empty array appear in the order written |
| Json.AssignAssign | src/Builders/MessageBuilder.php:97-115 | of two writes to one key the last wins, and the key keeps its first position |
| Json.AssignCommute | src/Builders/MessageBuilder.php:47-87 | writes to two different keys already present can be made in either order |
| Json.AssignFresh | src/Builders/MessageBuilder.php:49 | assigning a key the array does not have appends it at the end |
| Json.Push | src/Builders/MessageBuilder.php:127 | `$a[$k][] = $v` appends `$v` to the list at `$k` and changes no other key |
| Json.MergeGet | src/Models/Keyboard/Button.php:97-100 | after `array_merge`, a key reads from the second array when it has the key, else from the first |
| Json.MergeDisjoint | src/Models/Keyboard/Button.php:97-100 | `array_merge` of arrays with no key in common is concatenation |
| Json.Items | src/Models/MessageBody.php:34 | `foreach` and `array_map` visit values exactly of arrays |
| Json.AsArray | src/Models/Message.php:38 | an `array` parameter accepts exactly an array; anything else is a `\TypeError` |
| Json.IntCast | src/Models/Message.php:34 | `(int)` keeps an integer, and fails only on a string, which is not modelled |
| Json.StringCast | src/Models/Update.php:41 | `(string)` keeps a string and writes an integer in decimal; it fails only on a float, which is not modelled |
| Json.FloatCast | src/Models/Payloads/LocationPayload.php:24-25 | `(float)` keeps a float and widens an integer; it fails only on a string, which is not modelled |
| Json.OptString | src/Models/Update.php:49 | `$a[$k] ?? null` into a `?string` is null exactly when not set, the string when a string, and a `\TypeError` only for a set non-string |
| Json.OptInt | src/Models/Recipient.php:28 | `isset(…) ? (int)… : null` is null exactly when not set, and the integer when an integer |
| Json.DecodeEach | src/Models/MessageBody.php:34 | `array_map` of a decoder succeeds exactly when every element decodes, gives them in order, and otherwise throws the first element's failure |
| Json.DecodeList | src/Models/UpdatesResponse.php:24 | `array_map` over null gives nothing, over a non-array throws a `\TypeError`, and over an array decodes each element |
| Json.Coalesce | src/Models/Message.php:37 | `??` takes the first operand when it is set, else the second |
| Json.DecodeIfSet | src/Models/Message.php:39-41 | `isset(…) ? T::fromArray(…) : null` is null exactly when not set, and otherwise the decoded value or its failure |
| Json.DecodeListIfSet | src/Models/MessageBody.php:33-38 | `isset(…) ? array_map(…) : null` is null exactly when not set, and otherwise the decoded list or its failure |
| Messages.MarkupElementFromArray | src/Models/MarkupElement.php:29-38 | a decoded span keeps its `from` and `length`, its kind falls back to bold on an unknown type, and url and user id are present exactly when set |
| Messages.MessageBodyFromArray | src/Models/MessageBody.php:27-40 | mid, seq and text are read as sent; attachments and markup are present exactly when set and decode element by element; decoding succeeds exactly when every field does |
| Messages.ChatTypeOf | src/Models/Recipient.php:29 | `ChatType::from` accepts exactly the case values, and gives back the case whose value was sent |
| Messages.RecipientFromArray | src/Models/Recipient.php:25-32 | the chat type is present exactly when set, and it is the case whose value was sent; chat and user ids are read as sent; decoding succeeds exactly when every field does |
| Messages.LinkedMessageFromArray | src/Models/LinkedMessage.php:27-35 | a decoded link's kind is the one sent, and sender and message are present exactly when set |
| Messages.MessageStatFromArray | src/Models/MessageStat.php:19-24 | views read as the integer sent, or zero when not set |
| Messages.BodySource | src/Models/Message.php:37 | the body is read from `body`, else `message`, else an empty array |
| Messages.MessageFromArray | src/Models/Message.php:31-44 | a decoded message has the timestamp sent, the body decoded from that source, the recipient decoded from the array sent, and sender, link, stat and url exactly when set; decoding succeeds exactly when every field does |
| Messages.HasKindFrom | src/Models/Message.php:84-89 | the search from position `i` succeeds exactly when some later attachment has the tag |
| Messages.HasAttachmentType | src/Models/Message.php:79-90 | `hasAttachmentType` holds exactly when some attachment's tag equals the argument, and never for no or empty attachments |
| Messages.FirstPayloadFrom | src/Models/Message.php:97-102 | the search finds a payload exactly when one of that class comes later, and it is the first such |
| Messages.FirstPayload | src/Models/Message.php:95-142 | `getLocation`, `getContact`, `getSticker` and `getPhoto` return a payload of their class exactly when the message has one |
| Messages.Location | src/Models/Message.php:95-103 | `getLocation` returns a location payload, and returns one exactly when some attachment holds one |
| Messages.Contact | src/Models/Message.php:108-116 | `getContact` returns a contact payload, and returns one exactly when some attachment holds one |
| Messages.Sticker | src/Models/Message.php:121-129 | `getSticker` returns a sticker payload, and returns one exactly when some attachment holds one |
| Messages.Photo | src/Models/Message.php:134-142 | `getPhoto` returns a photo payload, and returns one exactly when some attachment holds one |
| Messages.PhotoTagIsNotImage | src/Models/Message.php:79-142 | an attachment tagged `photo` is found by `getPhoto()` but is not an `image` to `hasAttachmentType` |
| Updates.CallbackQueryFromArray | src/Models/CallbackQuery.php:25-33 | a decoded press keeps the payload sent, with user and message present exactly when set; decoding succeeds exactly when every field does |
| Updates.OptStringCast | src/Models/Update.php:52-53 | `isset(…) ? (string)… : null` is null exactly when not set, keeps a string, writes an integer in decimal, and fails only on a float |
| Updates.BodyFixtureDecodes | tests/Models/UpdateTest.php:21 | the body of the update test's message decodes to its mid, seq and text |
| Updates.RecipientFixtureDecodes | tests/Models/UpdateTest.php:20 | the update test's recipient decodes to its chat id |
| Updates.MessageFixtureDecodes | tests/Models/UpdateTest.php:18-22 | the update test's message decodes, with its timestamp, body and recipient |
| Updates.UpdateFixtureDecodes | tests/Models/UpdateTest.php:15-30 | the update test's record decodes to a `message_created` update at 111 whose message text is "Hi" |
| Updates.UpdateWithType | src/Models/Update.php:44-55 | the decoded update keeps the type it was given and the timestamp sent, its optional parts are present exactly when set, and its string fields are read as sent; decoding succeeds exactly when every field does |
| Updates.UpdateFromArray | src/Models/Update.php:39-56 | a string `update_type` selects its case, and one that names no case gives `message_created` |
| Updates.TypeNeverFails | src/Models/Update.php:41-45 | the type only picks the case: it never decides whether decoding succeeds |
| Updates.KnownType | src/Models/Update.php:42-45 | a known type string decodes to its own case |
| Updates.UnknownType | src/Models/Update.php:42-45 | an unknown type string decodes as `message_created`, with no error |
| Updates.UpdatesResponseFromArray | src/Models/UpdatesResponse.php:21-27 | the response decodes exactly when its updates and marker do; a missing `updates` is an empty list and the marker is null exactly when not set |
| Users.BotCommandFromArray | src/Models/User.php:75-81 | the command's name is `name`, else the legacy `command`, else empty |
| Users.UserFromArray | src/Models/User.php:42-62 | the id is `user_id` when set and otherwise `id`, `is_bot` is read as a truth value, every other field is read as sent, and commands are present exactly when an array was sent and are then that array decoded; decoding succeeds exactly when every field does |
| Users.CommandsFixtureDecodes | tests/Models/UserTest.php:21-23 | the user test's list of one command decodes to the command `start` |
| Users.UserFixtureDecodes | tests/Models/UserTest.php:15-37 | the user test's record decodes, with the id, names, bot flag and the one command the test expects |
| Keyboard.ButtonToArrayAppends | src/Models/Keyboard/Button.php:95-101 | fields that repeat no key and never use `type` or `text` are sent after those two, unchanged |
| Keyboard.ButtonToArray | src/Models/Keyboard/Button.php:95-101 | for fields that repeat no key, each key reads as the field of that name when there is one (`array_merge` lets a field named `type` or `text` replace the head), else as the button's type or text, else is absent |
| Keyboard.NoneInHead | src/Models/Keyboard/Button.php:97-100 | fields that never use `type` or `text` share no key with the head of the array |
| Keyboard.Callback | src/Models/Keyboard/Button.php:27-33 | a callback button sends type, text, payload and the intent's value, `default` unless given |
| Keyboard.Link | src/Models/Keyboard/Button.php:41-44 | a link button sends type, text and url |
| Keyboard.RequestGeoLocation | src/Models/Keyboard/Button.php:52-55 | a location request sends type, text and `quick`, false unless given |
| Keyboard.RequestContact | src/Models/Keyboard/Button.php:62-65 | a contact request sends only type and text |
| Keyboard.MessageButton | src/Models/Keyboard/Button.php:90-93 | a message button sends only type and text |
| Keyboard.SetIfNotNull | src/Models/Keyboard/Button.php:78-80 | a conditional write sets the key exactly when the value is not null, and changes no other key |
| Keyboard.SetIfNotNullWithin | src/Models/Keyboard/Button.php:78-80 | a conditional write keeps the keys distinct and adds at most its own key |
| Keyboard.OpenAppFieldsKeys | src/Models/Keyboard/Button.php:77-80 | the app button's fields name each key once, at most three, all among `web_app`, `contact_id` and `payload` |
| Keyboard.OpenAppFieldsValues | src/Models/Keyboard/Button.php:77-80 | the app button sends exactly the optional fields whose arguments are not null, with their values |
| Keyboard.OpenApp | src/Models/Keyboard/Button.php:75-83 | an app button sends type and text, then its optional fields |
| Keyboard.InlineKeyboard.constructor | src/Models/Keyboard/InlineKeyboard.php:12-17 | a new keyboard has no rows |
| Keyboard.InlineKeyboard.AddRow | src/Models/Keyboard/InlineKeyboard.php:25-29 | one more row at the end, buttons in argument order; earlier rows are unchanged |
| Keyboard.InlineKeyboard.ToArray | src/Models/Keyboard/InlineKeyboard.php:35-41 | one list per row, of the same length, holding each button's array in place |
| Keyboard.TwoRows | tests/Models/KeyboardTest.php:27-36 | the keyboard test's array has two rows, of one link button and of two callback buttons, each sent with its type, text and link or payload |
| MessageBuilders.SentReadsBack | src/Builders/MessageBuilder.php:125-132 | an attachment whose tag names its payload's class is sent as an array that decodes back to it |
| MessageBuilders.MessageBuilder.constructor | src/Builders/MessageBuilder.php:19-27 | the body is empty, and `chat_id` and `user_id` reach the query string only when PHP reads them as true |
| MessageBuilders.MessageBuilder.Build | src/Builders/MessageBuilder.php:258-261 | the body names each key once, with `attachments` a list when present |
| MessageBuilders.MessageBuilder.QueryParams | src/Builders/MessageBuilder.php:148-151 | the query string names each key once |
| MessageBuilders.MessageBuilder.Set | src/Builders/MessageBuilder.php:47-117 | one key of the body is written; the rest of the body and the query string are unchanged |
| MessageBuilders.MessageBuilder.Text | src/Builders/MessageBuilder.php:47-51 | `text` is written |
| MessageBuilders.MessageBuilder.Format | src/Builders/MessageBuilder.php:59-63 | `format` is written as the mode's value |
| MessageBuilders.MessageBuilder.Notify | src/Builders/MessageBuilder.php:83-87 | `notify` is written, true unless given |
| MessageBuilders.MessageBuilder.DisableLinkPreview | src/Builders/MessageBuilder.php:71-75 | the flag goes to the query string, true unless given; the body is unchanged |
| MessageBuilders.MessageBuilder.ReplyTo | src/Builders/MessageBuilder.php:95-102 | `link` becomes a reply link to the message, replacing any earlier link |
| MessageBuilders.MessageBuilder.ForwardFrom | src/Builders/MessageBuilder.php:110-117 | `link` becomes a forward link to the message, replacing any earlier link |
| MessageBuilders.MessageBuilder.AddAttachment | src/Builders/MessageBuilder.php:125-132 | the attachment is appended after those already added; no other key changes |
| MessageBuilders.MessageBuilder.InlineKeyboard | src/Builders/MessageBuilder.php:140-146 | an `inline_keyboard` attachment holding the keyboard's rows as `buttons` is appended |
| MessageBuilders.MessageBuilder.AddHelper | src/Builders/MessageBuilder.php:159-256 | each attachment helper appends the attachment it stands for; no other key changes |
| MessageBuilders.HelperReadsBack | src/Builders/MessageBuilder.php:159-256 | every helper tags its payload so that what it sends decodes back to the same attachment |
| MessageBuilders.KeyboardReadsBack | src/Builders/MessageBuilder.php:140-146 | the keyboard attachment decodes back as a generic payload holding the rows |
| MessageBuilders.PhotoUrlSent | src/Builders/MessageBuilder.php:159-165 | `photoUrl` sends an `image` attachment whose payload holds only the url |
| MessageBuilders.MessageEditBuilder.constructor | src/Builders/MessageEditBuilder.php:17-20 | the body starts with `message_id` |
| MessageBuilders.MessageEditBuilder.Build | src/Builders/MessageEditBuilder.php:95-98 | the body names each key once and starts with `message_id` |
| MessageBuilders.MessageEditBuilder.Set | src/Builders/MessageEditBuilder.php:39-67 | one key other than `message_id` is written; the others are unchanged |
| MessageBuilders.MessageEditBuilder.Text | src/Builders/MessageEditBuilder.php:39-43 | `text` is written |
| MessageBuilders.MessageEditBuilder.Format | src/Builders/MessageEditBuilder.php:51-55 | `format` is written as the mode's value |
| MessageBuilders.MessageEditBuilder.Notify | src/Builders/MessageEditBuilder.php:63-67 | `notify` is written, true unless given |
| MessageBuilders.MessageEditBuilder.SetAttachments | src/Builders/MessageEditBuilder.php:75-82 | the attachment list is replaced by the given attachments' arrays, in order |
| MessageBuilders.MessageEditBuilder.ClearAttachments | src/Builders/MessageEditBuilder.php:89-93 | the attachment list becomes empty, and is still sent |
| MessageBuilders.BuildsCorrectArray | tests/Builders/MessageBuilderTest.php:14-33 | the first builder test's body is text, format and a reply link, and its query string holds the chat id |
| MessageBuilders.LastLinkWins | src/Builders/MessageBuilder.php:95-117 | a reply then a forward leaves one link, the forward |
| MessageBuilders.FalsyRecipientsDropped | src/Builders/MessageBuilder.php:21-26 | a chat id of `'0'` and a user id of 0 never reach the query string |
| MessageBuilders.PhotoUrlTest | tests/Builders/MessageBuilderTest.php:36-46 | the photo-url test's body holds one attachment, tagged `image`, whose payload holds the url |
| MessageBuilders.AttachmentsInOrder | src/Builders/MessageBuilder.php:125-132 | two attachments keep the order they were added in |
| MessageBuilders.EditBuild | tests/Builders/MessageEditBuilderTest.php:13-27 | the edit test's body is message id, text, format and notify, in that order |
| ChatBuilders.UpdateTypeValues | src/Builders/SubscriptionBuilder.php:38 | the update types are sent as their values, one for one, in order |
| ChatBuilders.PermissionValues | src/Builders/ChatAdminBuilder.php:41-44 | the permissions are sent as their values, one for one, in order |
| ChatBuilders.UpdateTypeValuesReadBack | src/Builders/SubscriptionBuilder.php:38 | the update-type values sent read back as the types chosen, in order |
| ChatBuilders.ChatUpdateBuilder.constructor | src/Builders/ChatUpdateBuilder.php:12-17 | nothing is set |
| ChatBuilders.ChatUpdateBuilder.Build | src/Builders/ChatUpdateBuilder.php:91-94 | the body names each key once, and only `title`, `icon`, `pin` and `notify` |
| ChatBuilders.ChatUpdateBuilder.Set | src/Builders/ChatUpdateBuilder.php:25-89 | one of the four keys is written; the others are unchanged |
| ChatBuilders.ChatUpdateBuilder.Title | src/Builders/ChatUpdateBuilder.php:25-29 | `title` is written |
| ChatBuilders.ChatUpdateBuilder.IconUrl | src/Builders/ChatUpdateBuilder.php:37-41 | the icon becomes `{url}`, whatever it was |
| ChatBuilders.ChatUpdateBuilder.IconToken | src/Builders/ChatUpdateBuilder.php:49-53 | the icon becomes `{token}`, whatever it was |
| ChatBuilders.ChatUpdateBuilder.IconPhotos | src/Builders/ChatUpdateBuilder.php:61-65 | the icon becomes `{photos}` holding the tokens in order |
| ChatBuilders.ChatUpdateBuilder.PinMessage | src/Builders/ChatUpdateBuilder.php:73-77 | the message id is written under `pin` |
| ChatBuilders.ChatUpdateBuilder.Notify | src/Builders/ChatUpdateBuilder.php:85-89 | `notify` is written |
| ChatBuilders.ChatUpdateBuild | tests/Builders/ChatUpdateBuilderTest.php:12-27 | the chat-update test's body holds the four keys in the order they were set |
| ChatBuilders.IconLastWins | src/Builders/ChatUpdateBuilder.php:37-53 | setting the icon twice keeps only the second icon, in the first one's place |
| ChatBuilders.ChatAdminBuilder.constructor | src/Builders/ChatAdminBuilder.php:16-20 | the body is `user_id`, then an empty `permissions` list |
| ChatBuilders.ChatAdminBuilder.Build | src/Builders/ChatAdminBuilder.php:72-75 | the body names each key once and always holds a `permissions` list |
| ChatBuilders.ChatAdminBuilder.Permissions | src/Builders/ChatAdminBuilder.php:19 | the values held are the `permissions` list of the body |
| ChatBuilders.ChatAdminBuilder.SetPermissions | src/Builders/ChatAdminBuilder.php:39-46 | the list is replaced by the given permissions' values, in order; no other key changes |
| ChatBuilders.ChatAdminBuilder.AddPermission | src/Builders/ChatAdminBuilder.php:54-58 | the value is appended, even when already present; no other key changes |
| ChatBuilders.ChatAdminBuilder.Alias | src/Builders/ChatAdminBuilder.php:66-70 | `alias` is written and the permissions are unchanged |
| ChatBuilders.DuplicatePermissionsKept | src/Builders/ChatAdminBuilder.php:39-58 | adding a permission twice keeps both copies, after the list set before |
| ChatBuilders.SubscriptionBuilder.constructor | src/Builders/SubscriptionBuilder.php:14-17 | the body is `url` |
| ChatBuilders.SubscriptionBuilder.Build | src/Builders/SubscriptionBuilder.php:54-57 | the body names each key once, starts with `url`, and holds only `url`, `update_types` and `secret` |
| ChatBuilders.SubscriptionBuilder.Set | src/Builders/SubscriptionBuilder.php:36-52 | `update_types` or `secret` is written; the others are unchanged |
| ChatBuilders.SubscriptionBuilder.UpdateTypes | src/Builders/SubscriptionBuilder.php:36-40 | the types' values are written, in order, replacing any earlier list |
| ChatBuilders.SubscriptionBuilder.Secret | src/Builders/SubscriptionBuilder.php:48-52 | `secret` is written |
| ChatBuilders.SubscriptionBuild | tests/Builders/SubscriptionBuilderTest.php:13-25 | the subscription test's body is url, update types and secret, in that order |
| ChatBuilders.CallbackAnswerBuilder.constructor | src/Builders/CallbackAnswerBuilder.php:14-17 | the body is `callback_id` |
| ChatBuilders.CallbackAnswerBuilder.Build | src/Builders/CallbackAnswerBuilder.php:48-51 | the body names each key once and starts with `callback_id` |
| ChatBuilders.CallbackAnswerBuilder.Message | src/Builders/CallbackAnswerBuilder.php:30-34 | `message` is the builder's body as it is now, or the array as given; no other key changes |
| ChatBuilders.CallbackAnswerBuilder.Notification | src/Builders/CallbackAnswerBuilder.php:42-46 | `notification` is written; no other key changes |
| ChatBuilders.CallbackAnswerBuild | tests/Builders/CallbackAnswerBuilderTest.php:12-22 | the callback-answer test's body is the id, then the notification |
| ChatBuilders.MessageIsSnapshot | src/Builders/CallbackAnswerBuilder.php:32 | the answer keeps the message body as it was when passed; a later change to the builder does not reach it |

## Left out

- `src/Client.php` is not part of this model: every method is an HTTP call followed by `json_decode`. The polling loop takes the answers of `getUpdates` as a sequence, one per pass; a failed request is a thrown `\Exception`, and `getClient()` is left out.
- Polling.Poll: the loop also ends when the sequence of `getUpdates` answers runs out. A loop that the source would keep running is seen only for as many passes as answers are given.
- The `php://input` read and `json_decode` in `handleWebhook` (`src/Bot.php:201-206`) are not modelled: the raw body and its decoded value are both parameters.
- The `echo` and `sleep(2)` of the `catch` block (`src/Bot.php:250-251`) are one `Logged` event in the log; time is not modelled.
- `preg_match` is not modelled: the `onCallbackQuery` and `onText` closures use a matching function fixed when the bot is made, of which nothing is assumed.
- Polling.TypeFilter: the update types asked for are a set. The order of `array_keys($this->handlers)` is not kept, since the API does not depend on it.
- Filters.Fire: a user callable does the same thing on every call. A handler that decides from its own state, as the `onMessage` handler of the command-filter test does (it stops the bot only from its second call), is modelled by its fixed effect. In that test the handler is taken to stop on every call; the outcome is the same, because `stop()` never cuts a batch short (Polling.StopFinishesBatch).
- Dispatch.ExecuteHandlers: the callables are fixed when the pipeline starts. A model callable cannot call `on()`, `use()` or `setMarker()`, whereas PHP's `executeHandlers` reads `$this->handlers` only when the dispatch stage runs (`src/Bot.php:289-297`). A middleware that registers a handler before calling `$next` would have it called for the current update in PHP; this model does not capture that.
- Dispatch.OnionLayer: a middleware does not throw on its own. It may call `$next` any number of times and hand it another update, and a throw from inside `$next` passes through it. A middleware that catches such a throw is not modelled.
- BotEngine.Bot.constructor: the API client argument is not modelled, and the matching function is a constant field whose value the contract cannot compare, because functions have no equality in Dafny.
- The fluent `return $this` of the builders and of the `Bot` registration methods is not modelled: the methods update the object and return nothing.
- Json.IntCast, Json.StringCast, Json.FloatCast: casts of ill-typed input are not modelled. `(int)` and `(float)` of a string and `(string)` of a float give an `Unmodelled` error instead of PHP's result.
- Webhook.DecodeFailure: an item that holds a cast the model leaves `Unmodelled` stops the batch like a thrown `\Error`, where PHP would cast the value and dispatch the update.
- Json.Val: PHP's warning on reading a missing key is not modelled; the key reads as null, as PHP then does.
- Floating-point numbers are exact reals: latitudes, longitudes and JSON numbers with a fraction are only copied, never computed with.
- The enums `ChatAction`, `ChatStatus`, `UploadType`, and the models `Chat`, `ChatMember`, `ChatList`, `ChatMemberList`, `ActionResponse`, `Subscription`, `Image` and `VideoInfo` are not part of this model. They are answers of the client, which the core never reads.
- `Message::getMid`, `getText` and `getAttachments` are the body's own fields (`Messages.Mid`, `Messages.Text`, `Messages.AttachmentsOf`), with nothing to state beyond that.
