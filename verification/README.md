# Wispr core in Dafny

Wispr is a Telegram bot that relays a user's conversations to OpenAI's
chat models. Each user has several named chats. Every text message in a
chat is stored, sent to the provider together with recent history, and
answered through a placeholder message. The placeholder is edited in
place while the answer streams in. Access is by allow-list, administrators
grant and revoke it, and each user may set an own API key and a preferred
model.

This project models the sequential logic under the Telegram, database and
OpenAI plumbing. It states what that logic promises and proves it. The
modules follow the program:

- `Config` (config.py): parsing of `ADMIN_USER_IDS` and `AVAILABLE_MODELS` and the derived default model.
- `Users` (models/user.py): the user record, `full_name`, `has_custom_api_key`, and the key and model a user's requests use.
- `ChatModel` (models/chat.py): messages, `add_message`, and the context builder with its 20-message window, its filter for stored error notices and its default system entry.
- `Provider` (services/openai_service.py):
  - request preparation: the empty-list error, model fallback, the Markdown instruction and empty-content repair;
  - stream accumulation;
  - the mapping from provider failures to fixed texts;
  - the non-streaming call and image generation.
- `Render` (routers/chats.py, inside the turn):
  - the stream reducer: throttled progress edits, stop at the first error text, and the final text;
  - the 4000-character slicing of long answers;
  - final delivery.
- `ChatStore` (database/db.py, abstractly): chats by id. Ids come from a counter that never reuses them, and a clock orders updates.
- `Sessions` (routers/chats.py): the per-user session over four pieces of state:
  - `active_chats`;
  - `processing_users`;
  - the chat store;
  - the FSM context.

  It holds every chat-session handler and the chat resolution at the start of a turn. `Coherent` is the invariant every handler keeps: a session only refers to chats of its own user, or to chats that are gone.
- `Turn` (routers/chats.py): `process_chat_message` as a method, from the slash and busy guards to storing and delivering the answer. Its contract names the stream's texts as the body of the provider's run. `Turn.TurnStreamIsBody` proves that this is what `generate_response_stream` yields for the turn's context and model.
- `Access` (middlewares/access.py): creating or refreshing the user record, and the allow decision.
- `Admin` (routers/admin.py): `/allow` and `/disallow`.
- `Settings` (routers/settings.py): the settings view, the API-key and model input states, and key removal.
- `Routing` (bot.py and the routers' registrations): which handler a text message reaches, as aiogram picks the first registration whose filters pass.
- `Wrappers` and `Text` are support modules:
  - `Option` and `Result`;
  - Python's `str.strip`, `split`, `int()` and `str()` on integers;
  - truthiness.

Several outside inputs are parameters:
- What the provider streams is a `ProviderRun`: the chunks, and the failure raised instead of a normal end.
- What the key validator answers is a boolean.
- The current time is the store's clock.
- The date in an automatic chat title is an opaque string.
- Outgoing Telegram traffic is a list of `Out` events.

Some facts the proofs bring out:
- The context is never empty, so the empty-context branch of the turn (routers/chats.py:344-350) cannot run.
- A turn's request always passes preparation.
- Inside a turn, the stream never ends in an empty answer, so the "⚠️ Пустой ответ от API" substitute never fires there.
- The rate-limit and bad-key notices do not begin with "⚠️ Ошибка". They are stored as ordinary answers and sent back to the provider in later contexts.
- Deleting a chat through its callback does not check who owns the chat.
- `db.delete_chat` reports success for every id, so the "could not delete" branch is unreachable.
- Inside a chat, `/exit`, `/clear_history` and `/image` never reach their handlers (see Findings).
- When both the delivery of an answer and the error reply about it fail, the turn stores a second, spurious answer (see Findings).

## Model

| member | source | states |
|---|---|---|
| Text.Strip | wispr_bot/routers/settings.py:69 | `str.strip()`: the result has no whitespace at either end, and it is the input with only whitespace removed before and after it. |
| Text.StripUnpadded | wispr_bot/routers/admin.py:47 | A text with no whitespace at either end strips to itself, so `int()` sees it whole. |
| Text.StripIdempotent | wispr_bot/routers/chats.py:62 | Stripping a stripped text changes nothing. |
| Text.Split | wispr_bot/config.py:26 | `split(',')` always yields at least one piece, and no piece contains the separator. |
| Text.JoinSplit | wispr_bot/config.py:26 | Joining the pieces of a split with the separator gives back the original text. |
| Text.SplitJoin | wispr_bot/config.py:18 | Splitting a join of separator-free pieces gives back exactly those pieces. |
| Text.NatToString | wispr_bot/models/user.py:24 | `str(n)` for a natural number: all digits, no leading zero, and the digits denote `n`. |
| Text.IntRoundTrip | wispr_bot/models/user.py:24 | `int(str(n)) == n` for every integer. |
| Text.ParseInt | wispr_bot/routers/admin.py:47 | `int()` accepts exactly the texts that strip to an optional sign followed by at least one ASCII digit, and gives their signed decimal value. Every other text is a `ValueError`. |
| Text.IntToString | wispr_bot/models/user.py:24 | `str(n)` is the decimal digits of the magnitude with no leading zero, preceded by "-" exactly when `n` is negative. |
| Text.ConcatPrefix | wispr_bot/services/openai_service.py:181 | With non-empty pieces, each running concatenation is a strict prefix of every later one. |
| Config.CollectMeaning | wispr_bot/config.py:17-19 | Collecting classified segments fails iff one is malformed. Otherwise the set holds exactly the values of the numbered segments. |
| Config.ParseIdsMeaning | wispr_bot/config.py:17-19 | The admin-id comprehension succeeds iff every non-empty segment parses. On success the set holds exactly the values the non-empty segments parse to. |
| Config.ParseIds | wispr_bot/config.py:17-19 | The comprehension over the segments; what it yields is stated by `ParseIdsMeaning`. |
| Config.AdminIds | wispr_bot/config.py:17-19 | `ADMIN_USER_IDS`, defaulting to the empty text, split on commas and given to the comprehension. |
| Config.AvailableModels | wispr_bot/config.py:26 | The model list is never empty, and joined with commas it is the variable's value, or `gpt-3.5-turbo` when unset. |
| Config.Load | wispr_bot/config.py:12-27 | Loading fails iff the admin list is malformed. On success the default model is the first available model, so the fallback is unreachable. |
| Config.NoAdminsByDefault | wispr_bot/config.py:17-19 | An unset or empty `ADMIN_USER_IDS` gives the empty set. |
| Config.AdminIdsOfPrinted | wispr_bot/config.py:17-19 | A comma-joined list of printed ids parses back to exactly the set of those ids. |
| Config.CollectNumbers | wispr_bot/config.py:18 | Segments that are all ids collect to exactly the set of those ids. |
| Config.BadAdminIdFailsLoad | wispr_bot/config.py:17-19 | One non-numeric, non-empty segment makes the whole configuration fail. |
| Users.NewUser | wispr_bot/models/user.py:9-15 | A fresh record has only its id: not allowed, with no names, key or preferred model. |
| Users.FullName | wispr_bot/models/user.py:20-24 | `full_name` is never empty. |
| Users.FullNameCases | wispr_bot/models/user.py:22-24 | The precedence is "first last", then the first name, then the username, then the printed id (which parses back to the id). |
| Users.HasCustomApiKey | wispr_bot/models/user.py:26-29 | A user has a custom key iff a key is stored and it is non-empty. |
| Users.EffectiveApiKey | wispr_bot/routers/chats.py:338 | A turn uses the user's key exactly when `has_custom_api_key`, and the bot's key otherwise. |
| Users.ModelFor | wispr_bot/routers/chats.py:65 | The preferred model when it is truthy, otherwise the configured default. |
| Users.CompleteUserExample | wispr_bot/tests/test_models.py:23-47 | The test's complete record has the full name "Test User" and a custom key. |
| Users.PartialUserExamples | wispr_bot/tests/test_models.py:49-59 | First name only gives "Test", username only gives "testuser", and an empty key is not a custom key. |
| ChatModel.AddMessage | wispr_bot/models/chat.py:26-31 | Exactly one message is appended with the given role and content. Earlier messages are unchanged, and `updated_at` moves to the new time. |
| ChatModel.Window | wispr_bot/models/chat.py:46 | `messages[-20:]`: the last min(n, 20) messages, as a suffix in order. |
| ChatModel.History | wispr_bot/models/chat.py:46-51 | At most one entry per message. Which messages survive, and in which order, is stated by the three lemmas that follow. |
| ChatModel.HistoryAppend | wispr_bot/models/chat.py:46-51 | Filtering distributes over concatenation, so order is kept. |
| ChatModel.HistoryCount | wispr_bot/models/chat.py:48-49 | Exactly the assistant messages that carry the error marker are dropped. |
| ChatModel.HistoryMembers | wispr_bot/models/chat.py:48-51 | Every message that is not a diagnostic survives with its role and content, and every surviving entry comes from such a message. |
| ChatModel.ContextMessages | wispr_bot/models/chat.py:33-66 | The context is never empty. A truthy system prompt comes first. The default system entry appears when there is no prompt and no history. A truthy new text comes last. The length is the number of system slots plus history plus current, and the history sits right after the prompt. |
| ChatModel.OlderMessagesIgnored | wispr_bot/models/chat.py:46 | Messages older than the last twenty never influence the context. |
| ChatModel.ContextExample | wispr_bot/tests/test_models.py:128-148 | The model test's chat yields the prompt followed by its three messages, in order. |
| ChatModel.UserMarkerKept | wispr_bot/models/chat.py:48 | A user message starting with "⚠️ Ошибка" is kept; the same text from the assistant is dropped. |
| Provider.FailureText | wispr_bot/services/openai_service.py:189-199 | Every failure maps to a non-empty fixed text. |
| Provider.FailureMarker | wispr_bot/services/openai_service.py:189-199 | A failure text carries the error marker iff it is the generic (connection) failure, not the rate-limit or bad-key one. |
| Provider.FailureTextsDistinct | wispr_bot/services/openai_service.py:189-199 | The three failure kinds give three different texts. |
| Provider.ChooseModel | wispr_bot/services/openai_service.py:120-123 | An available model is kept; any other is replaced by the default. |
| Provider.FirstSystem | wispr_bot/services/openai_service.py:136-142 | The index found is the first message with the system role, or the length when there is none. |
| Provider.WithInstruction | wispr_bot/services/openai_service.py:125-146 | Only the first system message gets " " plus the instruction appended. Without a system message, the instruction is inserted at the front. A system message without content fails. |
| Provider.WithInstructionWellFormed | wispr_bot/services/openai_service.py:148-153 | Adding the instruction neither repairs nor breaks a malformed list. |
| Provider.PrepareRequest | wispr_bot/services/openai_service.py:113-157 | An empty list gives exactly the empty-list error. Preparation succeeds iff the list is non-empty and every message has a role and content. Failures are the format error or the missing-content connection error. The model is the chosen one, and no content is empty. |
| Provider.PrepareShape | wispr_bot/services/openai_service.py:135-157 | The prepared list is the input with the instruction merged in and only empty contents replaced by a space. |
| Provider.Deltas | wispr_bot/services/openai_service.py:174-179 | Chunks with no choice or no content contribute nothing, and every kept delta is non-empty. |
| Provider.Accumulate | wispr_bot/services/openai_service.py:172-182 | The k-th yield is the concatenation of the first k+1 non-empty deltas. |
| Provider.AccumulateGrows | wispr_bot/services/openai_service.py:172-182 | Each yield is a strict prefix of every later one. |
| Provider.StreamBody | wispr_bot/services/openai_service.py:171-199 | The yields are the accumulated texts, then the failure text if one was raised. A stream without content that ends normally yields exactly the empty-stream error. |
| Provider.GenerateResponseStream | wispr_bot/services/openai_service.py:104-199 | An empty list yields only the empty-list error and makes no provider call. A request exists iff preparation succeeds. Otherwise the only yield is the preparation error. |
| Provider.FailureOnlyBody | wispr_bot/services/openai_service.py:189-199 | A provider that fails before sending any content makes the stream yield its failure text and nothing else. |
| Provider.StreamBodyNonEmpty | wispr_bot/services/openai_service.py:176-199 | Every text the stream body yields is non-empty: each accumulated text holds at least one non-empty delta, and every notice is non-empty. |
| Provider.StreamYieldsNonEmpty | wispr_bot/services/openai_service.py:171-199 | Every stream call yields at least one text, and every yielded text is non-empty. |
| Provider.GenerateResponse | wispr_bot/services/openai_service.py:23-102 | The answer is never empty. A preparation error is returned as it is, so an empty list gives the empty-list error. No choices give the empty-stream error. A truthy first choice is returned as is, and a falsy one gives the empty-answer text. A failure gives its fixed text. |
| Provider.CoerceSize | wispr_bot/services/openai_service.py:216-220 | Any size outside the three allowed ones becomes 1024x1024; an allowed size is kept. |
| Provider.GenerateImage | wispr_bot/services/openai_service.py:201-273 | Success iff there is data and the first item has a URL. A missing revised prompt falls back to the prompt. Errors carry a non-empty text. |
| Render.FirstError | wispr_bot/routers/chats.py:368-371 | The index is that of the first increment carrying the error marker, or the length when none does. |
| Render.ProgressEdits | wispr_bot/routers/chats.py:373-387 | At most one edit per 20 increments. |
| Render.ProgressEditsSound | wispr_bot/routers/chats.py:375-384 | Every edit is an increment at a counter value that is a multiple of 20, no longer than 4096, followed by " ⏳". |
| Render.ProgressEditsComplete | wispr_bot/routers/chats.py:375-384 | Every such increment before the first error is edited in. |
| Render.ReduceStream | wispr_bot/routers/chats.py:360-389 | The final text is the first error increment, or else the last increment, or else "". The edits are those of the increments before the first error. |
| Render.FinalText | wispr_bot/routers/chats.py:395-396 | The stored answer is never empty, and a non-empty result is kept as it is. |
| Render.Slices | wispr_bot/routers/chats.py:411-414 | The slices concatenate to the text. Their number k is the least with n <= 4000k. Each is non-empty and at most 4000 long, and the k-th is `text[4000k:4000k+4000]`. |
| Render.SlicesDeliver | wispr_bot/routers/chats.py:404-414 | Deleting the placeholder and replying with the slices of a text over 4096 characters sends at least two replies, each non-empty and at most 4000 long, that spell the text. |
| Render.Deliver | wispr_bot/routers/chats.py:402-420 | A text that fits gets one in-place edit. A longer one deletes the placeholder and sends at least two slices that spell it. |
| ChatStore.Create | wispr_bot/database/db.py:125-144 | The new chat gets an id that is positive and unused, and it is empty and owned as asked. Nothing else changes. |
| ChatStore.Get | wispr_bot/database/db.py:146-177 | A lookup succeeds iff the id exists. |
| ChatStore.Append | wispr_bot/database/db.py:194-212 | The chat gets the message and a later `updated_at`. The other chats and the set of ids are unchanged. |
| ChatStore.Delete | wispr_bot/database/db.py:214-223 | The chat is gone, and the reported flag is true even when there was no such chat. |
| Sessions.Detach | wispr_bot/routers/chats.py:460-463 | The user has no active chat and a cleared FSM, and nobody else is affected. |
| Sessions.NewChatCommand | wispr_bot/routers/chats.py:39-48 | The user waits for a title with the FSM data kept, and the one prompt is sent. The store, the active chats, the in-flight set and every other user's FSM are unchanged. |
| Sessions.CancelNewChat | wispr_bot/routers/chats.py:51-55 | The user's FSM is cleared and the store is untouched. |
| Sessions.OpenChat | wispr_bot/routers/chats.py:68-75 | A fresh chat becomes the user's active one, and nothing else moves. |
| Sessions.ProcessNewChatTitle | wispr_bot/routers/chats.py:58-86 | A chat titled with the stripped text, on the preferred or default model, is created and becomes active, and the FSM is in-chat on it. |
| Sessions.NewChatTitleIsLocal | wispr_bot/routers/chats.py:75-79 | Other users' sessions are unchanged. |
| Sessions.Capped | wispr_bot/routers/chats.py:105 | A keyboard shows the first min(n, 10) chats of the listing. |
| Sessions.ListChats | wispr_bot/routers/chats.py:89-124 | No chats iff no list. Otherwise the first ten are shown, with a "more" button iff there are more than ten. |
| Sessions.DeleteMenu | wispr_bot/routers/chats.py:156-186 | No chats iff no menu; otherwise a delete button for each of the first ten. |
| Sessions.CappedMostRecent | wispr_bot/database/db.py:179-192 | No chat of the user left off a keyboard was updated later than one shown on it. |
| Sessions.SelectChat | wispr_bot/routers/chats.py:127-153 | The session switches iff the id parses, exists and belongs to the user. Otherwise nothing changes. |
| Sessions.DeleteChatCallback | wispr_bot/routers/chats.py:189-219 | "cancel" changes nothing and sends the cancel notice. An unparsable id changes nothing and sends nothing. Otherwise the chat is removed. The active chat is cleared only if it was that chat, and the FSM only if its chat id matched as well. Other users' active chats and FSM contexts never change. |
| Sessions.DeleteIgnoresOwner | wispr_bot/routers/chats.py:200-203 | A chat of another user is deleted too: ownership is never checked. |
| Sessions.CurrentChatInfo | wispr_bot/routers/chats.py:222-256 | With no truthy active chat, a notice. For a vanished chat, the session is detached. Otherwise the chat's title, model and message count are shown. |
| Sessions.ExitChat | wispr_bot/routers/chats.py:456-468 | Always detaches, and never touches the store or the in-flight set. |
| Sessions.ClearChatHistory | wispr_bot/routers/chats.py:471-511 | A fresh chat titled "title (очищен)", with the same model and system prompt, replaces the active chat, and the old chat is kept. A missing chat detaches the session. |
| Sessions.FreshCoherent | wispr_bot/routers/chats.py:30-36 | The empty session after a restart satisfies the invariant. |
| Sessions.Wanted | wispr_bot/routers/chats.py:278-283 | The chat a turn looks for is the truthy FSM chat id, else the truthy active chat, else none. |
| Sessions.ResolveChat | wispr_bot/routers/chats.py:277-323 | An existing wanted chat is used with no change. Otherwise exactly one new chat is created and becomes active and the FSM chat id, and one notice is sent. |
| Sessions.ResolveIdempotent | wispr_bot/routers/chats.py:277-323 | Resolving again finds the same chat and changes nothing. |
| Sessions.ResolveOwned | wispr_bot/routers/chats.py:277-323 | Under the invariant, the chat a turn uses is the user's own, and the invariant still holds. |
| Sessions.NewChatCommandKeepsCoherent | wispr_bot/routers/chats.py:39-55 | `/newchat` and its cancel keep the invariant. |
| Sessions.OpenChatKeepsCoherent | wispr_bot/routers/chats.py:68-79 | Opening a chat and pointing the FSM at it keeps the invariant. |
| Sessions.NewChatTitleKeepsCoherent | wispr_bot/routers/chats.py:58-86 | Creating a chat from a title keeps the invariant. |
| Sessions.SelectChatKeepsCoherent | wispr_bot/routers/chats.py:136-145 | Selecting keeps the invariant thanks to its ownership check. |
| Sessions.DeleteChatKeepsCoherent | wispr_bot/routers/chats.py:189-219 | Deleting keeps the invariant. |
| Sessions.DetachKeepsCoherent | wispr_bot/routers/chats.py:456-463 | `/currentchat` and `/exit` keep the invariant. |
| Sessions.ClearHistoryKeepsCoherent | wispr_bot/routers/chats.py:471-511 | `/clear_history` keeps the invariant. |
| Turn.TurnAnswer | wispr_bot/routers/chats.py:389-426 | The stored answer is never empty. Unless writing it raised, it is the stream's result itself. If writing it raised, it is the generation-error text that carries the exception. |
| Turn.RecordTurn | wispr_bot/routers/chats.py:329-399 | The user's message and then the answer are appended to the turn's chat, in that order, and nothing else changes. |
| Turn.Conclude | wispr_bot/routers/chats.py:395-436 | After the stream, a failed write of the answer gives the generation-error answer and one error edit. Otherwise the answer is the final text. It is then delivered; if delivery fails, the send-error reply follows; if that reply fails too, nothing more is sent (corrected, see Findings). |
| Turn.Respond | wispr_bot/routers/chats.py:352-436 | The answer is `TurnAnswer`. The output is the progress edits of the stream's texts before the first error, then the conclusion stated by `Conclude`. |
| Turn.RespondAsWritten | wispr_bot/routers/chats.py:352-436 | As the handler has it, the turn behaves like `Respond` except when delivery and the send-error reply both fail. Then a second answer, the generation-error text of the reply's exception, is stored, and the placeholder is edited to it. |
| Turn.DoubleStore | wispr_bot/routers/chats.py:410-436 | In that case the handler as written stores the generated answer and then a generation error that never happened. |
| Turn.AdmittedTurn | wispr_bot/routers/chats.py:276-436 | An admitted turn stores the user text and then exactly one non-empty answer, `TurnAnswer`, in the resolved chat and nowhere else (corrected, see Findings: as written, a double fault stores a second answer). It sends the resolution notices, then the placeholder, then what `Respond` sends. The store stays valid and the in-flight set is unchanged. |
| Turn.ProcessChatMessage | wispr_bot/routers/chats.py:259-440 | A slash text changes nothing and sends nothing. A busy user gets one notice and nothing else changes. Any other text runs the admitted turn with its whole outcome, including its single stored answer (corrected, see Findings), and the in-flight set ends as it started. |
| Turn.TurnRequestAccepted | wispr_bot/routers/chats.py:341-350 | A turn's context is never empty and always well formed, so its request always passes preparation. |
| Turn.StreamResultNonEmpty | wispr_bot/routers/chats.py:394-396 | The result of a turn's stream is never empty, so the empty-answer substitute never fires inside a turn. |
| Turn.TurnStreamIsBody | wispr_bot/routers/chats.py:364-367 | The stream a turn consumes always reaches the provider, and what it yields is exactly the body of the provider's run. |
| Turn.FailureAnswer | wispr_bot/routers/chats.py:364-372 | When the provider fails before sending any content, the stored answer is the failure notice itself. |
| Turn.FailureAnswerReplayed | wispr_bot/models/chat.py:48 | Such an answer is stored as a diagnostic iff it is a connection failure, so the rate-limit and bad-key notices are replayed in later contexts. |
| Turn.TurnKeepsCoherent | wispr_bot/routers/chats.py:277-399 | A turn keeps the session invariant. |
| Access.Refreshed | wispr_bot/middlewares/access.py:36-54 | A newcomer is created with the event's names and allowed iff an administrator. A known user gets the three names refreshed and keeps the allow flag, key and model. |
| Access.Admit | wispr_bot/middlewares/access.py:14-75 | Other updates pass with no store access. A user update writes the record once and sets it as the handler's user. The handler runs iff the user is allowed or an administrator. Otherwise exactly one denial is sent, of the kind that matches the event. |
| Access.AdminsAdmitted | wispr_bot/middlewares/access.py:60-61 | An administrator always reaches the handler. |
| Access.NewcomerAdmission | wispr_bot/tests/test_access_middleware.py:90-153 | A first-time sender passes, and is stored allowed, iff an administrator. |
| Access.AdmitIdempotent | wispr_bot/middlewares/access.py:40-61 | A repeated event writes the same record and is decided the same way. |
| Admin.IsAdmin | wispr_bot/routers/admin.py:16-19 | A sender is an administrator iff its id is among the configured administrator ids. |
| Admin.SetAllowed | wispr_bot/routers/admin.py:50-59 | An unknown id changes nothing. A known one has only its allow flag set. |
| Admin.Allow | wispr_bot/routers/admin.py:38-63 | A missing argument gives usage, and a non-integer gives an error; neither changes anything. An unknown id gives not-found. Success sets only the target's flag to true. |
| Admin.Disallow | wispr_bot/routers/admin.py:66-96 | The same guards as `/allow`, plus: an administrator's id is refused before any lookup. Success sets only the target's flag to false. |
| Admin.AllowAdmits | wispr_bot/routers/admin.py:57 | After `/allow`, the user's next update passes the access check. |
| Admin.DisallowRefuses | wispr_bot/routers/admin.py:90 | After `/disallow`, the user's next update is refused. |
| Admin.DisallowSparesAdmins | wispr_bot/routers/admin.py:78-80 | `/disallow` never alters an administrator's record. |
| Settings.ShowSettings | wispr_bot/routers/settings.py:25-42 | The page reports a custom key iff a non-empty key is stored. The model it shows is the preferred one when that is truthy, and the configured default otherwise. |
| Settings.SettingsPageTruthful | wispr_bot/routers/settings.py:29-30 | The page tells what the bot does: the model shown is the one a new chat gets, and the key status says whether requests use the user's own key or the bot's. |
| Settings.Await | wispr_bot/routers/settings.py:55 | Entering a waiting state keeps the FSM data and touches no one else. |
| Settings.SetApiKeyCommand | wispr_bot/routers/settings.py:45-55 | `/setapikey` waits for a key and keeps the chat id. |
| Settings.SetModelCommand | wispr_bot/routers/settings.py:108-120 | `/setmodel` waits for a model and keeps the chat id. |
| Settings.CancelSetting | wispr_bot/routers/settings.py:58-62 | `/cancel` in either waiting state clears the FSM and writes nothing. |
| Settings.ProcessApiKey | wispr_bot/routers/settings.py:65-88 | A rejected key changes nothing and keeps waiting. An accepted key is stored stripped, and the FSM is cleared. |
| Settings.SavedKeyUsed | wispr_bot/routers/settings.py:82 | A saved, non-empty key becomes the key the user's requests use. |
| Settings.ProcessModel | wispr_bot/routers/settings.py:130-151 | A stripped name outside the list changes nothing. One in the list is stored, and the FSM is cleared. |
| Settings.SavedModelUsed | wispr_bot/routers/settings.py:145 | A saved model becomes the model of new chats, unless it is the empty name, for which the default still applies. |
| Settings.RemoveApiKey | wispr_bot/routers/settings.py:91-105 | Without a custom key nothing changes; with one, the key is removed. |
| Settings.RemovedKeyFallsBack | wispr_bot/routers/settings.py:99 | After removal, the bot's key is used again. |
| Settings.SettingsKeepCoherent | wispr_bot/routers/settings.py:45-148 | The settings handlers keep the session invariant. |
| Routing.CommandOf | wispr_bot/routers/chats.py:263-264 | A text beginning with "/" carries a command. A text that carries a command and does not begin with whitespace begins with "/". |
| Routing.Route | wispr_bot/bot.py:43-46 | No handler takes a text iff no registration's filters pass it. Otherwise the handler chosen is that of a registration whose filters pass. |
| Routing.FirstPassingTakes | wispr_bot/bot.py:43-46 | The first registration whose filters pass takes the text. |
| Routing.CommandsSwallowedInChat | wispr_bot/routers/chats.py:259-264 | Inside a chat, as registered, `/exit`, `/clear_history` and `/image` reach the chat-message handler, which drops any text beginning with "/". |
| Routing.CommandsReachedInChat | wispr_bot/routers/chats.py:456-474 | With the chat-message handler refusing commands, each of the three reaches its own handler inside a chat. |
| Routing.IntendedAgrees | wispr_bot/routers/chats.py:259-264 | The correction changes only where commands go inside a chat. Every other text, in every state, is routed as before. |

## Left out

- The SQL of database/db.py is not modelled. The store is abstract:
  - ids are never reused;
  - a missing id reads as `None`;
  - the users table is a map;
  - listings are stated as a predicate (`ChatStore.IsListing`) rather than computed.
- The Telegram transport is not modelled: sending, editing, deleting, keyboards and callback answers. Each is at most an `Out` event, and fixed interface texts are named rather than spelled out.
- `keep_typing`, the typing actions and the task that runs them are left out. They only send chat actions and have no effect on state.
- The current time is the store's clock, and the date in automatic titles is an opaque string; `strftime` formatting is not modelled. The creation date shown by `/currentchat` is left out.
- The OpenAI client is left out. The stream, the completion, the image answer and the key check are inputs. `update_api_key` only rebuilds the client.
- The image router's handlers (routers/images.py) are part of this model only as registrations in `Routing` and through `Provider.GenerateImage`. The unregistered commands router (routers/commands.py), bootstrap and logging are not part of this model.
- Administrator views that only read are not modelled: `/admin`, `/list_users` and `/stats`.
- Text.ParseInt: rejects the digit-group underscores (`1_000`) and non-ASCII decimal digits that Python's `int()` accepts. The ids of `/allow`, `/disallow` and `ADMIN_USER_IDS` are typed by people, so such a text is refused here where the bot would take it.
- Concurrency is not modelled. Each handler runs to completion, so `processing_users` only matters between turns. A user's record loaded by the access check is taken to be current.
- Turn.ProcessChatMessage: uses the corrected `Turn.Respond`, so it does not promise the second answer the handler as written stores when delivery and the send-error reply both fail; `Turn.RespondAsWritten` and `Turn.DoubleStore` state that behaviour. Each exception strikes at one fixed point: the write of the answer, the first delivery call, or the send-error reply. A failure part-way through a sliced delivery, after some slices were sent, is not modelled. The provider's own errors are not exceptions here, because the stream turns them into texts.
- Exceptions outside the handler's inner `try` are not modelled, such as a database failure while resolving or storing the user message. Neither is the foreign-key error of appending to a chat deleted in the meantime.
- Routing covers text messages only. Callback queries, which are routed by the prefix of their data, are not part of it. Neither are the `@botname` check on a command's mention, or messages without text. Each handler other than the turn's is given the events `Routing.Route` sends it.
- Access.Admit: models the middleware's `__call__` only for updates some handler takes. The middleware is registered as an inner middleware (wispr_bot/bot.py:39-40), so an update no registration accepts, such as plain text from a user in no state or an administrator command from someone else, creates or refreshes no record and draws no denial.
- Provider.WireMessage: a key that is present with the value `None` is treated like a missing key. The prompt entries the bot builds always carry both keys with strings.
- Provider.GenerateImage: a `revised_prompt` attribute that is present but `None` is treated like an absent one.
- Settings.ProcessApiKey: a write for an id without a record changes nothing, as the `UPDATE` statements do. The access check always creates the record first.
- Text lengths count Unicode code points, as Python's `len` does, not the UTF-16 units Telegram measures.

## Findings

| source | as written | input that shows it | evidently intended | confidence | as-written member | corrected member |
|---|---|---|---|---|---|---|
| wispr_bot/routers/chats.py:401-436 | The send-error reply of a failed delivery is sent inside the outer `try`. When that reply raises, the outer `except` takes it for a generation error: it edits the placeholder to "⚠️ Ошибка при генерации ответа: …" and stores that text as a second assistant message. | A turn whose final edit raises and whose send-error reply then raises too, for instance from two transient Telegram errors. | Each turn stores one answer. A failed error report is only logged. | medium; not executed | Turn.DoubleStore | Turn.Respond |
| wispr_bot/routers/chats.py:259-264 | The in-chat handler takes every message in the in-chat state. It is registered ahead of `/exit` and `/clear_history`, and the images router is included after the chats router. It drops texts beginning with "/", so these commands do nothing while a chat is open. A command preceded by whitespace, such as "  /exit", is still a command to aiogram but escapes that check, so it is sent to the provider as a chat message. | `/exit` sent while a chat is open. | `/exit`, `/clear_history` and `/image` reach their handlers inside a chat, as the help text offers. | high; not executed | Routing.CommandsSwallowedInChat | Routing.CommandsReachedInChat |
