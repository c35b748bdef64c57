# Chat-history engine of ChatWithGPT, modelled in Dafny

This project models the chat-history engine of the ChatWithGPT back end
(`api/routes/v1/chat/chat.py`) and proves properties of it. The engine keeps,
for every user, chat documents that each hold an ordered list of message
records, and a subscription record with a free-query counter. Its handlers:

- turn a chat's stored history into the prompt list sent upstream
  (`process_old_messages`);
- append numbered records (`insert_message`) and pull a question/answer pair
  (`remove_message`);
- spend or refuse a free query (`check_all_queries_used`);
- set or clear a like/dislike on a message, mirrored onto the previous id for
  even ids (`message_like_dislike`);
- relay a streamed upstream answer to the client, with a control token
  naming the assistant message id, then commit the question and the
  accumulated answer, replacing the last pair when regenerating
  (`gpt_answer_stream`);
- store audio exchanges (links plus transcripts) and image exchanges
  (`gpt_audio_answer`, `gpt_audio_answer_stream`, `image_generation`);
- strip double quotes from generated titles (`title_generator`).

Layout, one module per file:

| file | module | what it holds |
|---|---|---|
| types.dfy | `ChatTypes` | messages, chat and user documents, prompt entries, errors and their status codes |
| context.dfy | `ContextAssembly` | the history loop (`ProcessOldMessages`) and the prompt list of the question handler, proved against the fold `Assemble` |
| history.dfy | `MessageHistory` | the numbering loop of `insert_message` (`BuildRecords`), the `$pull` of `remove_message` (`WithoutPair`), id ordering |
| reactions.dfy | `Reactions` | the positional update of `is_liked` and the toggle state machine |
| quota.dfy | `Quota` | the free-query gate |
| titles.dfy | `Titles` | quote stripping |
| tokens.dfy | `ControlTokens` | the control token `"{id}:message_id{chat_id}:chat_id"` and its read-back |
| streaming.dfy | `Streaming` | the relay loops of the two streaming handlers (`RelayChunks`), proved against the fold `Relay` |
| flows.dfy | `ChatFlows` | the effect of each handler on the chat document it works on, as pure functions, and their properties |
| store.dfy | `ChatStore` | the `Store` class: the chats and users maps, updated in place by one method per handler |

The loops of the source are `while`/`for` loops in methods proved equal to a
pure specification function. The properties are lemmas about those
functions. The store is a class whose fields are the two collections; each
handler method states its whole new state in terms of the pure effects in
`ChatFlows`, and keeps the invariant that no free-query counter is
negative.

Two things one might expect of this code do not hold, and the model follows
what the code does:
- the comment at `api/routes/v1/chat/chat.py:758` speaks of the last ten
  messages, but the history loop walks the whole history;
- message ids are not unique: the image handler gives the question and the
  image reply the same id (`ChatFlows.ImageRepeatsId`).

## Model

| member | source | states |
|---|---|---|
| ContextAssembly.ProcessOldMessages | api/routes/v1/chat/chat.py:753-775 | The list built by the loop is the fold `Assemble`: the system prompt when one is given, then one entry per stored message in order, with an image popping the previous entry. The returned id is the last stored message's id. Requires a non-empty history whose images never pop an empty list. |
| ContextAssembly.BuildQuestionContext | api/routes/v1/chat/chat.py:273-286 | The prompt list is the assembled history followed by the user's question; the base id is the last stored id, or 0 for an empty chat. Both empty-history branches agree with that formula. |
| ContextAssembly.AssembleLength | api/routes/v1/chat/chat.py:755-773 | Length of the list = 1 if a prompt is given, plus the number of non-image messages, minus the number of images. |
| ContextAssembly.FoldLength | api/routes/v1/chat/chat.py:759-773 | The same count for the loop started from any list. |
| ContextAssembly.AssembleImageFree | api/routes/v1/chat/chat.py:755-773 | For a history without images, entry `i` after the prompt has message `i`'s role, and its transcript for audio or its content otherwise. |
| ContextAssembly.FoldImageFree | api/routes/v1/chat/chat.py:759-773 | Without images the loop only appends, one entry per message in order. |
| ContextAssembly.SystemEntryIffPrompt | api/routes/v1/chat/chat.py:755-773 | When no stored message has the system role and no image pops below the history's own entries: the list opens with the system entry when a prompt is given, and holds no system entry when none is. |
| ContextAssembly.PromptComesFirst | api/routes/v1/chat/chat.py:755-756 | When no image pops below the history's own entries, the prompted list is the system entry followed by the unprompted list. |
| ContextAssembly.FoldKeepsPrefix | api/routes/v1/chat/chat.py:759-773 | A starting prefix that no image reaches stays in front of the output. |
| ContextAssembly.FoldEntriesFrom | api/routes/v1/chat/chat.py:759-773 | Every output entry is a starting entry or the entry of some non-image message. |
| ContextAssembly.ContributionRoles | api/routes/v1/chat/chat.py:764-772 | Every entry contributed by the history has the role of some stored message. |
| ContextAssembly.FoldAppend | api/routes/v1/chat/chat.py:759-773 | Running the loop over `a + b` is running it over `a`, then over `b`. |
| ContextAssembly.PopsSafeMonotone | api/routes/v1/chat/chat.py:761 | A longer starting list never makes a pop underflow. |
| ContextAssembly.ImageDropsQuestion | api/routes/v1/chat/chat.py:760-762 | A question followed by an image reply leaves the output as it was before the question. |
| ContextAssembly.ImagePopsPrompt | api/routes/v1/chat/chat.py:755-762 | A history holding only an image pops the system prompt, leaving an empty list, and underflows when no prompt is given. |
| MessageHistory.BuildRecords | api/routes/v1/chat/chat.py:382-399 | The loop builds the records numbered `base + 1 .. base + n` in input order, each with the given type, `reaction` None, no `is_liked`, and transcript `audio_text[i]` or None. |
| MessageHistory.AppendKeepsIncreasing | api/routes/v1/chat/chat.py:383-401 | Appending at a base no lower than the last id keeps ids strictly increasing; the new records carry ids `base + 1 ..`. |
| MessageHistory.WithoutPair | api/routes/v1/chat/chat.py:364-370 | A message stays if and only if its id is neither `k` nor `k - 1`. |
| MessageHistory.WithoutPairAppend | api/routes/v1/chat/chat.py:368 | Pulling distributes over concatenation, so what stays keeps its order. |
| MessageHistory.WithoutPairUntouched | api/routes/v1/chat/chat.py:368 | A history holding neither id is left exactly as it was. |
| MessageHistory.WithoutPairKeepsIncreasing | api/routes/v1/chat/chat.py:368 | Pulling never breaks strictly increasing ids. |
| MessageHistory.PullLastPair | api/routes/v1/chat/chat.py:364-370 | Pulling the ids of the last pair of an increasing history leaves exactly the history before it. |
| MessageHistory.RegenerateReplacesPair | api/routes/v1/chat/chat.py:320-332 | Pulling `{b + 1, b + 2}` and appending the new pair at base `b` puts the new question and answer at exactly those ids, ids staying increasing. |
| MessageHistory.ImagePathRepeatsId | api/routes/v1/chat/chat.py:586-608 | Two inserts from the same base give two records the id `b + 1`; ids are then not strictly increasing. |
| Reactions.FirstIndex | api/routes/v1/chat/chat.py:146-151 | The position the `messages.$` operator resolves to: the first message with the id, or none exactly when no message has it. |
| Reactions.UpdateReaction | api/routes/v1/chat/chat.py:117-136 | Only the first message with the id changes, and only its `is_liked` (absent for None) and `updated_at`; every other field and every other message stays as it was. No such message: no change. |
| Reactions.Toggle | api/routes/v1/chat/chat.py:145-161 | Fails with not-found exactly when no message has the id. Reports removal exactly when the current `is_liked` equals the request; otherwise it reports the requested value. The value written is None on removal and the request otherwise. It goes to the first message with the id and, for an even id, to the first message with `id - 1`, changing only `is_liked` and `updated_at` there. Every other position is unchanged, later messages sharing those ids included; for an odd id only the target changes. |
| Reactions.UpdateOtherKeepsLiked | api/routes/v1/chat/chat.py:134-136 | Writing another id leaves this id's first match and its `is_liked` unchanged. |
| Reactions.ToggleTarget | api/routes/v1/chat/chat.py:152-160 | The target ends cleared when it held the requested value, and holding it otherwise. |
| Reactions.ToggleTwice | api/routes/v1/chat/chat.py:152-160 | The same reaction twice ends neutral, unless the target started with that value, in which case it ends with it again. |
| Reactions.ToggleTwiceFromNeutral | api/routes/v1/chat/chat.py:152-160 | From neutral, one reaction sets the value and a second one returns the target to neutral. |
| Reactions.ToggleEvenMirrors | api/routes/v1/chat/chat.py:155-160 | For an even id with a message at `id - 1`, that message ends with the target's new state. |
| Quota.QuotaGate | api/routes/v1/chat/chat.py:688-695 | Refuses (status 402) exactly an inactive user with 0 free queries; otherwise an inactive user loses exactly one query and an active user is untouched; a non-negative counter stays non-negative. |
| Titles.StripQuotes | api/routes/v1/chat/chat.py:361 | The result holds no `"`, keeps every other character with its multiplicity, is shorter by the number of quotes, and is the input itself when there is none. |
| Titles.StripQuotesAppend | api/routes/v1/chat/chat.py:361 | Stripping a concatenation strips each part. |
| ControlTokens.NatToDecimal | api/routes/v1/chat/chat.py:301 | The decimal form of an id is a non-empty run of digits. |
| ControlTokens.NatToDecimalValue | api/routes/v1/chat/chat.py:301 | The digits read back as the number. |
| ControlTokens.ParseUnsignedRoundTrip | api/routes/v1/chat/chat.py:301 | Digits, the id marker, any chat id and the chat-id marker read back as that id and chat id. |
| ControlTokens.ControlTokenRoundTrip | api/routes/v1/chat/chat.py:301 | Every control token, negative ids included, reads back as the id and chat id it was built from, whatever the chat id holds. |
| Streaming.RelayChunks | api/routes/v1/chat/chat.py:292-307 | The loop yields, accumulates and leaves the id that the fold `Relay` describes; it covers the audio-text relay of lines 532-539 too. |
| Streaming.RelayOne | api/routes/v1/chat/chat.py:294-305 | One pass of the generator loop yields what the relay's step emits for the chunk: on the question stream a role chunk first yields a control token, after lowering a non-zero id by two when regenerating; then the content is yielded and added to the answer. The audio-text relay skips a chunk that carries a role key. |
| Streaming.RelayFromAppends | api/routes/v1/chat/chat.py:293-305 | From any state, the relay yields the fragments in order, grows the answer by their concatenation and yields one control token per role chunk. |
| Streaming.RelayedAnswerIsWhatWasSent | api/routes/v1/chat/chat.py:302-308 | The texts the client receives are the upstream fragments in order; the committed answer is their concatenation; one token is yielded per role chunk. |
| Streaming.ControlsNameChatFrom | api/routes/v1/chat/chat.py:301 | From any state whose tokens name the chat, every token yielded names the chat. |
| Streaming.ControlsNameChat | api/routes/v1/chat/chat.py:301 | Every control token names the chat being answered. |
| Streaming.AudioRelayHasNoControlFrom | api/routes/v1/chat/chat.py:533-539 | The audio-text relay adds no token and never moves the id. |
| Streaming.AudioRelayHasNoControl | api/routes/v1/chat/chat.py:533-539 | The audio-text relay yields no token and keeps the base id. |
| Streaming.PlainQuestionIdsFrom | api/routes/v1/chat/chat.py:294-301 | Without a regenerate match the id never moves and each new token names that id plus 2. |
| Streaming.PlainQuestionIds | api/routes/v1/chat/chat.py:294-301 | Without a regenerate match the final id is the base and every token names `base + 2`, the id of the answer about to be stored. |
| Streaming.RegenerateIdFloorFrom | api/routes/v1/chat/chat.py:295-300 | With a match, `k` role chunks lower an even non-negative id by `2k`, stopping at 0. |
| Streaming.RegenerateIdFloor | api/routes/v1/chat/chat.py:295-300 | The same from the base id. |
| Streaming.RoleFreeKeepsId | api/routes/v1/chat/chat.py:294 | Chunks without a role key neither move the id nor yield a token. |
| Streaming.RegenerateSingleRole | api/routes/v1/chat/chat.py:295-301 | With a match, a non-zero base and one role chunk, the only token names the base (the answer being replaced) and the final id is `base - 2`. |
| ChatFlows.Inserted | api/routes/v1/chat/chat.py:373-409 | The old messages are kept as a prefix. The new records carry ids `base + 1 ..` with the turns' roles and contents, the type, the transcripts, `reaction` None and no `is_liked`. `updated_at` is set. The title changes only when one is given. Owner, prompt and creation time are kept. |
| ChatFlows.AudioFileNames | api/routes/v1/chat/chat.py:425 | A name whose last three characters are `ext` passes exactly when `ext` is `mp3` or `m4a`, whatever precedes it: no dot is needed. |
| ChatFlows.AnswerAppendsPair | api/routes/v1/chat/chat.py:308-332 | Without regeneration, the question and the concatenated fragments are stored as ids `b + 1`, `b + 2` after the last id `b`; the title is set only when `b` is 0. |
| ChatFlows.RegenerateReusesIds | api/routes/v1/chat/chat.py:295-332 | Regenerating the last pair `{b + 1, b + 2}` of an increasing history, with one role chunk, pulls that pair and stores the new question and answer at exactly those ids; ids stay increasing. |
| ChatFlows.RegenerateCommit | api/routes/v1/chat/chat.py:315-332 | The commit at final id `b` over a history ending in `{b + 1, b + 2}` replaces that pair. |
| ChatFlows.RemovingCommitIds | api/routes/v1/chat/chat.py:315-332 | For any history, a removing commit at final id `f` keeps exactly the old messages whose id is neither `f + 1` nor `f + 2`, in a list that ends with the new question at `f + 1` and the answer at `f + 2`; no other message holds either id. |
| ChatFlows.AnsweredTitle | api/routes/v1/chat/chat.py:310-314 | The stored title is the stripped generated one, without any `"`, when the final id is 0, and the old title otherwise. |
| ChatFlows.RemoveGuardFailsOnPromptedEmptyChat | api/routes/v1/chat/chat.py:315-319 | On the first question of a chat with a system prompt the list has two entries, and the guard as written indexes past its start. |
| ChatFlows.RemoveGuardsAgree | api/routes/v1/chat/chat.py:316-319 | The guard as written raises exactly on lists of two entries, and elsewhere decides as the corrected guard. |
| ChatFlows.FoldTwoPlain | api/routes/v1/chat/chat.py:759-773 | Two appended non-image messages add their two entries to the list. |
| ChatFlows.AudioExchangeReadsAsText | api/routes/v1/chat/chat.py:455-471 | The audio handler stores links, but later prompt lists see the question and answer transcripts, in that order. |
| ChatFlows.AudioStreamAppendsPair | api/routes/v1/chat/chat.py:515-554 | Before the stream the question link is stored as audio id `b + 1`; after it the concatenated answer is stored as text id `b + 2`. |
| ChatFlows.ImagedMessages | api/routes/v1/chat/chat.py:586-608 | The question and the image link are appended to the old messages, both with id `b + 1`. |
| ChatFlows.ImageRepeatsId | api/routes/v1/chat/chat.py:586-608 | After an image exchange the ids of the chat are not strictly increasing. |
| ChatFlows.ImageFailureLeavesQuestion | api/routes/v1/chat/chat.py:586-597 | When image generation or the upload fails, the question stays stored alone as id `b + 1`, and later prompt lists end with it as a user entry. |
| ChatFlows.ImageExchangeInvisible | api/routes/v1/chat/chat.py:586-608 | After an image exchange, later prompt lists are as they were: the image pops its question. |
| ChatStore.Store.constructor | api/routes/v1/chat/chat.py:31-35 | The user and chat-history collections start empty: no chats, no users, so no free-query counter is negative. |
| ChatStore.Store.CheckAllQueriesUsed | api/routes/v1/chat/chat.py:688-695 | Fails with 402 and no change, or passes with the user's subscription replaced by the gate's result; no counter becomes negative. |
| ChatStore.Store.InsertMessage | api/routes/v1/chat/chat.py:373-409 | The chat the filter matches becomes `Inserted(...)`; no matching chat, no change. |
| ChatStore.Store.RemoveMessage | api/routes/v1/chat/chat.py:364-370 | The chat the filter matches loses ids `k` and `k - 1`; no matching chat, no change. |
| ChatStore.Store.UpdateReaction | api/routes/v1/chat/chat.py:117-136 | The matched chat's messages become `Reactions.UpdateReaction(...)`. |
| ChatStore.Store.WriteReaction | api/routes/v1/chat/chat.py:154-160 | One reaction's writes: the target, then `id - 1` when the id is even. |
| ChatStore.Store.MessageLikeDislike | api/routes/v1/chat/chat.py:109-161 | Not-found (404) with no change when the chat or message is missing; otherwise the chat's messages become the toggle's result and the reply (202) describes it. |
| ChatStore.Store.GptAnswerStream | api/routes/v1/chat/chat.py:264-338 | Quota first (402, no change), then the chat (404, query already spent). Then the reply is the rendered relay. The chat changes only when the stream has run to its end and the removal guard does not raise (a regenerate request on a two-entry list raises IndexError), and then becomes `AnsweredChat(...)`. |
| ChatStore.Store.CommitQuestionAnswer | api/routes/v1/chat/chat.py:308-332 | The commit after the stream loop: optional pull of the old pair, then the question and answer inserted at the final id with the title rule. |
| ChatStore.Store.GptAudioAnswer | api/routes/v1/chat/chat.py:417-484 | Errors in the source's order: 402, then 415 for the file name, then 400 for an empty transcript, then 404. On success the chat becomes `AudioAnsweredChat(...)` and the reply carries both links and both texts. |
| ChatStore.Store.GptAudioAnswerStream | api/routes/v1/chat/chat.py:492-560 | Errors: 402, 415, 404. On success the question is stored before the stream, so an unfinished stream leaves `AudioStreamAsked(...)` and a finished one `AudioStreamAnswered(...)`; the reply is the rendered relay. |
| ChatStore.Store.StoreAudioStream | api/routes/v1/chat/chat.py:515-554 | Once the chat is found: the question link is stored as an audio record before the relay, the reply is the rendered relay, and the text answer is stored only when the stream has run to its end. |
| ChatStore.Store.ImageGeneration | api/routes/v1/chat/chat.py:568-615 | Errors: 402, then 404. The question is stored before the image is generated. If generation or upload fails, the reply is a 500 and the chat is `ImageAsked(...)`, the question alone. Otherwise the chat becomes `ImagedChat(...)` and the reply carries the question and the link. |

## Left out

- Upstream and cloud calls (chat completion, title generation, speech to text, translation, text to speech, image generation, file upload) and the local file writes and removals: their results (answers, transcripts, raw titles, links, chunk sequences) are parameters of the handler methods.
- `get_time()`: one opaque timestamp `now` per handler call. The source reads the clock separately for each field, so its values may differ slightly.
- `get_all_current_titles` and the title prompt: they only shape the title request sent upstream. The raw title it returns is a parameter; the quote stripping is modelled.
- The streaming transport (`StreamingResponse`, client disconnects). An upstream failure part-way through a stream is the flag `completes`: when it is false nothing is committed after the loop.
- The `finish_reason == "stop"` test of the question relay: it ends the loop body with `continue` and so has no effect.
- The language code of the speech-to-text result and the audio bytes: they feed only external calls.
- The routes that create, rename, delete, list or fetch chats, the live-prompt and most-liked-prompt aggregations, the system-prompt listing and `talk_generation` are not part of this model.
- The user lookup of the quota gate: the handlers require the user to exist, as authentication guarantees before any handler runs.
- ChatStore.Store.GptAnswerStream: inputs on which the regenerate test inside the stream loop indexes `[-3]` on a list shorter than three entries raise IndexError in the source; the method's precondition (`StreamLookupSafe`) excludes them.
- ChatStore.Store.GptAudioAnswer: an exception from the upload, speech-to-text, chat-completion or text-to-speech call ends the request after the query is spent and stores nothing. Those results are parameters, with no failure flag.
- ChatStore.Store.ImageGeneration: a failure of title generation, which runs before the first insert, stores nothing; only failures after the question is stored are modelled (`completes`).
- ContextAssembly.ProcessOldMessages: a history whose images pop an empty list raises IndexError in the source; the precondition `PopsSafe` excludes it, for the audio and image handlers too.
- Streaming.RegenerateIdFloor: states the id only for an even non-negative base. From an odd base, which the image handler's repeated ids can produce, the decrement skips 0 and the id goes negative; no lemma characterises that case.
- ChatFlows.RegenerateReusesIds: states the replacement only for a stream with exactly one role chunk. Several role chunks lower the id once each (`Streaming.RegenerateIdFloor`).
- Python integers are unbounded, as Dafny's are; no width is modelled.

## Findings

| source | as written | input that shows it | evidently intended | confidence | as-written member | corrected member |
|---|---|---|---|---|---|---|
| api/routes/v1/chat/chat.py:316-319 | the guard `len(messages_for_openai) not in [0, 1]` is followed by `messages_for_openai[-3]` | an empty chat that has a system prompt, asked with `regenerate_response` true: the list is `[system, question]`, so `[-3]` raises IndexError after the whole answer was streamed, and nothing is stored | the lookup runs only on lists of at least three entries, and the question and answer are stored | not executed | ChatFlows.RemoveGuardAsWritten (shown by ChatFlows.RemoveGuardFailsOnPromptedEmptyChat) | ChatFlows.MatchesThirdFromEnd (agreement proved by ChatFlows.RemoveGuardsAgree; used by ChatFlows.AnsweredChat, which ChatFlows.AnswerAppendsPair and ChatFlows.RegenerateReusesIds describe; ChatStore.Store.GptAnswerStream keeps the raise as written) |
