# Telegram AI chat bot: session store, chat clients and handlers

This project models the core of a Telegram bot that relays user messages to one of two chat-completion providers. The providers are reached through a proxy. One provider has the flat-chat shape ("openai"). The other has the block-content shape with optional extended thinking ("anthropic").

The model covers:

- **`ContextManager`** (context_manager.py). The per-user session store: history, model, provider, system prompt, temperature, max tokens and per-provider token counters.
  - In the model it is a `class` over a `map<int, Context>`. Its methods are proved against state functions: `Materialize`, `Update`, `AddTokens`, `ResetTokens`.
  - Lemmas give what those functions keep: the 50-message history bound, the counters, other users' sessions, and the save/load round trip of the numeric keys.
- **`ProxyAPIClient`** (proxyapi_client.py). The per-turn chat client.
  - Adopting the system prompt strips system messages from the history.
  - Requests are built for both provider shapes, including the extended-thinking budget rule.
  - Typed content blocks are parsed in a loop.
  - Tokens come from the first non-zero usage field, else length/4, and are at least 1.
  - On failure the history rolls back and the error text is returned.
- **`ChatAI`** (chat_ai.py). The older console client. It has the same structure, but takes its prompt at construction, counts no tokens and uses a fixed thinking budget.
- **From bot.py:**
  - the five-minute pending-input states;
  - `get_ai_client`;
  - what `handle_message`, `cmd_clear`, `cmd_reset_stats`, the provider switch commands and every branch of `handle_callback` do to the session store and the pending states.

Several inputs are parameters of the model:

| Source | Model |
|---|---|
| Provider calls | `OpenaiRequest -> Outcome<OpenaiResponse>` and `AnthropicRequest -> Outcome<AnthropicResponse>`; an exception raised by the SDK is `Raised(detail)` |
| `time.time()` | `now: real` |
| Python's `float()` of a button's text | `parseFloat: string -> Option<real>` |
| The persisted JSON file | the list of its (key text, session) entries, or `None` when it cannot be read |

Python behaviour the code relies on is written out:

- truthiness of an optional string (`Truthy`);
- `a or b or c` on counts (`FirstNonZero`);
- `int()` of a sign and ASCII digits (`ParseInt`);
- `str.split` on one character (`Split`);
- `str.lower` on the Latin and Cyrillic letters of the clear phrase (`Lower`).

Two details of the code decide where the model puts things:

- For the flat-chat provider, the token count is the first non-zero of `total_tokens`, `completion_tokens` and `prompt_tokens + completion_tokens` (proxyapi_client.py:162).
- `add_tokens_used` has no guard and adds any count, including zero or a negative one (context_manager.py:184-216). The `tokens_used > 0` guard is in `handle_message` (bot.py:496), and the model puts it there (`RecordTokens`).

## Model

| member | source | states |
|---|---|---|
| Text.Concat | proxyapi_client.py:112 | `"".join` of the text parts is empty exactly when every part is empty |
| Text.Join | proxyapi_client.py:111 | joining a single part gives that part unchanged |
| Text.Split | bot.py:762 | `split` yields at least one field, at least two when the separator occurs, and no field contains the separator |
| Text.JoinSplit | bot.py:762 | splitting on a character and joining the fields with it gives the original text back |
| Text.SplitWithoutSeparator | bot.py:795 | a text without the separator splits into itself alone |
| Text.SplitAtFirst | bot.py:795 | the first field is the text before the first separator; the rest splits independently |
| Text.LowerChar | bot.py:427 | lowering A-Z, А-Я and Ѐ-Џ leaves no capital of those ranges; only a lower-case Cyrillic letter itself or its capital lowers to it, and only a space lowers to a space |
| Text.Lower | bot.py:427 | lowering keeps the length, works character by character and leaves no capital of those ranges |
| Text.LowerIdempotent | bot.py:427 | lowering an already lowered text changes nothing |
| Text.NatToDecimal | context_manager.py:268 | a non-negative number prints as a non-empty digit string with no leading zero |
| Text.IntToDecimal | context_manager.py:268 | a number prints as a non-empty text that starts with '-' exactly when it is negative |
| Text.ParseInt | bot.py:795 | `int()` accepts only a non-empty text, a negative result needs a leading '-', and a digit string parses to its decimal value |
| Text.NatDecimalRoundTrip | context_manager.py:257 | the digits printed for a number read back as that number |
| Text.DecimalRoundTrip | context_manager.py:257 | `int(str(n)) == n` for every integer |
| Text.DecimalInjective | context_manager.py:268 | two user ids never print to the same key text |
| Provider.WithoutSystem | proxyapi_client.py:213 | removing system messages leaves none and never lengthens the history |
| Provider.WithoutSystemAppend | proxyapi_client.py:213 | the filter works message by message: filtering a concatenation is concatenating the filtered parts |
| Provider.WithoutSystemKeepsClean | proxyapi_client.py:213 | the filter changes nothing on a history without system messages (idempotent) |
| Provider.OpenaiRequestFor | proxyapi_client.py:215-232 | the flat-chat request carries the client's model, temperature and max tokens, and the history after one system message exactly when the prompt is non-empty, so a clean history is sent with a system message exactly then |
| Provider.WithSystemPrompt | proxyapi_client.py:215-220 | the flat-chat messages are the history, preceded by one system message exactly when the prompt is non-empty |
| Provider.ToAnthropic | proxyapi_client.py:234-248 | the block-content history has only user and assistant messages, each one text block, is no longer than the history, and is message by message the history when that has only dialogue roles |
| Provider.ToAnthropicAppend | proxyapi_client.py:237-247 | the conversion works message by message over a concatenation |
| Provider.ToAnthropicIgnoresSystem | proxyapi_client.py:238-239 | removing system messages first does not change the converted history |
| Provider.ThinkingBudget | proxyapi_client.py:268-278 | below 1536, max tokens rise to 2048 with budget 1024; otherwise max tokens are kept and the budget is min(1024, 66%); the budget is always in (0, 1024], below max tokens and at least 512 tokens short of it, and max tokens are never below 1536 |
| Provider.AnthropicRequestFor | proxyapi_client.py:250-281 | the request carries the model and converted history, `system` exactly when the prompt is non-empty, `thinking` exactly for a sonnet-4-5 / sonnet-4.5 model, in which case `max_tokens` and the budget are those of `ThinkingBudget` and leave at least 512 tokens for the answer; otherwise the client's `max_tokens` |
| Provider.TextParts | proxyapi_client.py:103-109 | there are no more text parts than blocks |
| Provider.ThinkingParts | proxyapi_client.py:103-107 | there are no more thinking parts than blocks |
| Provider.NoTypedBlocks | proxyapi_client.py:104 | blocks without a text or thinking type contribute nothing |
| Provider.CollectBlocks | proxyapi_client.py:100-109 | the block loop collects exactly the thinking texts and the text texts, in order |
| Provider.ReplyText | proxyapi_client.py:112-115 | the reply is never empty, and is the joined text of the text blocks whenever that is non-empty |
| Provider.ThinkingText | proxyapi_client.py:111 | the reasoning text is absent exactly when there is no thinking block |
| Provider.ParseBlocks | proxyapi_client.py:100-115 | the parsed reasoning and reply are those of the response's blocks |
| Provider.FirstNonZero | proxyapi_client.py:131 | `a or b or c` is one of the three, is zero only when all are, and is `a` whenever `a` is non-zero |
| Provider.ReportedAnthropic | proxyapi_client.py:126-131 | the block-content usage counts zero only when absent or all three fields are zero, and is the output count whenever that is non-zero |
| Provider.ReportedOpenai | proxyapi_client.py:157-162 | the flat-chat usage counts zero only when absent or all three fields are zero, and is the total whenever that is non-zero |
| Provider.TokensFor | proxyapi_client.py:134-142 | the count is at least 1, equals a non-zero reported count, and otherwise is max(1, len(reply) // 4) |
| ContextStore.Materialize | context_manager.py:36-52 | a read stores the fresh default session for an unseen user and changes nothing else |
| ContextStore.Truncate | context_manager.py:67-70 | the kept history is the last min(len, 50) messages |
| ContextStore.TruncateShort | context_manager.py:68 | a history within 50 messages is kept whole |
| ContextStore.Count | context_manager.py:231 | `tokens_used.get(provider, 0)`; what it reads after each transition is given by AddTokensGuarantees, ResetTokensGuarantees and UsageMonotone |
| ContextStore.Update | context_manager.py:54-93 | the store after `update_context`, specified by UpdateGuarantees and RunKeepsBounded |
| ContextStore.AddTokens | context_manager.py:184-216 | the store after `add_tokens_used`, specified by AddTokensGuarantees and ApplyKeepsUsage |
| ContextStore.ResetTokens | context_manager.py:235-248 | the store after `reset_tokens_used`, specified by ResetTokensGuarantees |
| ContextStore.LookupDefault | context_manager.py:36-49 | an unseen user reads the default session with an empty history and zero counters; a known user's read changes nothing |
| ContextStore.UpdateGuarantees | context_manager.py:54-93 | an update keeps the last 50 messages in order, stores the given settings, keeps the user's counters (zero for a new user) and leaves every other user alone |
| ContextStore.AddTokensGuarantees | context_manager.py:184-216 | adding moves the named counter by exactly the count, and no other counter, history or user |
| ContextStore.ResetTokensGuarantees | context_manager.py:235-248 | a reset zeroes the named counter only |
| ContextStore.ClearGuarantees | context_manager.py:95-104 | a clear drops the whole session, so the next read is the default with zero counters; other users are kept |
| ContextStore.ApplyKeepsUsage | context_manager.py:184-216 | no operation other than a reset, a clear or a negative addition lowers a counter |
| ContextStore.UsageMonotone | context_manager.py:184-248 | over any sequence of such operations, every counter is non-decreasing |
| ContextStore.RunKeepsBounded | context_manager.py:67-70 | every sequence of store operations keeps every history within 50 messages |
| ContextStore.LoadEntries | context_manager.py:257 | the keys convert all or nothing: the load succeeds exactly when every key is a number, and then every key's number is in the store |
| ContextStore.LoadContexts | context_manager.py:250-260 | a missing file or any non-numeric key gives the empty store; otherwise every key's number is in the store (SaveLoadRoundTrip gives the contents) |
| ContextStore.SavedEntries | context_manager.py:262-268 | the saved file has one entry per session, keyed by the id's text |
| ContextStore.SaveLoadRoundTrip | context_manager.py:250-268 | loading what was saved gives back the same integer-keyed store |
| ContextStore.ContextManager.constructor | context_manager.py:13-24 | the store starts as the loaded file, or empty when it is missing or a key is not a number |
| ContextStore.ContextManager.GetContext | context_manager.py:26-52 | returns the stored or default session and stores the default for an unseen user |
| ContextStore.ContextManager.UpdateContext | context_manager.py:54-93 | the store becomes `Update` of the old store (see UpdateGuarantees) |
| ContextStore.ContextManager.ClearContext | context_manager.py:95-104 | the user's entry is removed, if present |
| ContextStore.ContextManager.GetUserMessages | context_manager.py:106-117 | returns the session's history after the read's default creation |
| ContextStore.ContextManager.GetUserModel | context_manager.py:119-130 | returns the session's model after the read's default creation |
| ContextStore.ContextManager.GetUserProvider | context_manager.py:132-143 | returns the session's provider after the read's default creation |
| ContextStore.ContextManager.GetUserSystemPrompt | context_manager.py:145-156 | returns the session's prompt after the read's default creation |
| ContextStore.ContextManager.GetUserTemperature | context_manager.py:158-169 | returns the session's temperature after the read's default creation |
| ContextStore.ContextManager.GetUserMaxTokens | context_manager.py:171-182 | returns the session's max tokens after the read's default creation |
| ContextStore.ContextManager.AddTokensUsed | context_manager.py:184-216 | the store becomes `AddTokens` of the old store (see AddTokensGuarantees) |
| ContextStore.ContextManager.GetTokensUsed | context_manager.py:218-233 | returns the provider's counter, 0 when the key is missing |
| ContextStore.ContextManager.ResetTokensUsed | context_manager.py:235-248 | the store becomes `ResetTokens` of the old store (see ResetTokensGuarantees) |
| ProxyApi.Exchange | proxyapi_client.py:95-189 | an answered turn counts at least one token; a block-content reply is never empty; flat-chat has no reasoning; a failure's text starts with the provider's error prefix |
| ProxyApi.HistoryAfter | proxyapi_client.py:176-188 | an answer keeps the old history as a prefix and appends exactly the user message and the reply; a failure leaves the history as it was |
| ProxyApi.HistoryAfterKeepsNoSystem | proxyapi_client.py:93 | a turn never puts a system message into a history |
| ProxyApi.ThinkingAfter | proxyapi_client.py:99-146 | `last_thinking_text` after a turn, specified by ThinkingAfterExchange |
| ProxyApi.ThinkingAfterExchange | proxyapi_client.py:95-189 | a block-content answer leaves its reasoning and a block-content failure keeps the previous one; a flat-chat turn leaves none, or keeps the previous one when the call raised |
| ProxyApi.OpenaiTurn | proxyapi_client.py:145-173 | a flat-chat response answers with its first choice and at least one token (the reported one when non-zero); one without a choice fails and clears the reasoning |
| ProxyApi.ProxyAPIClient.constructor | proxyapi_client.py:18-42 | a new client has the given settings, no prompt, no history and no reasoning |
| ProxyApi.ProxyAPIClient.AddMessage | proxyapi_client.py:67-75 | appends one message and changes nothing else |
| ProxyApi.ProxyAPIClient.ClearHistory | proxyapi_client.py:191-193 | empties the history only |
| ProxyApi.ProxyAPIClient.GetHistory | proxyapi_client.py:195-202 | returns the history |
| ProxyApi.ProxyAPIClient.SetSystemPrompt | proxyapi_client.py:204-213 | sets the prompt and removes the system messages from the history |
| ProxyApi.ProxyAPIClient.OpenaiParams | proxyapi_client.py:222-232 | the flat-chat request for the client's state |
| ProxyApi.ProxyAPIClient.AnthropicParams | proxyapi_client.py:250-283 | the block-content request for the client's state |
| ProxyApi.ProxyAPIClient.SendMessage | proxyapi_client.py:77-189 | a prompt is adopted only when none is set; the reply and count are those of the turn; the history gains the exchange or is rolled back; the reasoning follows the turn |
| ProxyApi.ProxyAPIClient.AdoptPrompt | proxyapi_client.py:88-90 | a given prompt replaces a missing or empty one, stripping system messages; otherwise nothing changes |
| ProxyApi.ProxyAPIClient.Converse | proxyapi_client.py:92-189 | appends the user message, then keeps it with the reply or removes it again on failure |
| ProxyApi.ProxyAPIClient.CallProvider | proxyapi_client.py:95-173 | calls the client's provider and reports the answer or the failure's detail, changing only the reasoning |
| ProxyApi.ParseAnthropic | proxyapi_client.py:99-142 | reasoning and reply from the blocks; tokens are output, total, or input+output, else estimated |
| ProxyApi.ParseOpenai | proxyapi_client.py:147-173 | the first choice's text; tokens are total, completion, or prompt+completion, else estimated |
| ProxyApi.ConvertHistory | proxyapi_client.py:234-248 | the conversion loop computes exactly `ToAnthropic` |
| ChatAi.ChatAnthropicRequestFor | chat_ai.py:238-260 | `max_tokens` passes unchanged, `system` exactly when the prompt is non-empty, `thinking` exactly for sonnet-4-5 / sonnet-4.5 with a budget of 1024 |
| ChatAi.DefaultAnthropicModelThinks | config.py:20 | the default block-content model gets extended thinking |
| ChatAi.BudgetReachesMaxTokens | chat_ai.py:255-256 | with `max_tokens` at most 1024 the console sends a budget not below `max_tokens`, where the proxy client's rule sends one below it |
| ChatAi.ChatExchange | chat_ai.py:97-142 | a block-content reply is never empty; flat-chat has no reasoning; a failure's text starts with the provider's error prefix |
| ChatAi.HistoryAfter | chat_ai.py:127-141 | a reply keeps the old history as a prefix and appends exactly the user message and the reply; an error leaves the history as before |
| ChatAi.HistoryAfterKeepsNoSystem | chat_ai.py:94-141 | a call never puts a system message into a history |
| ChatAi.ThinkingAfter | chat_ai.py:97-124 | `last_thinking_text` after a call, specified by HistoryMatchesProxyClient |
| ChatAi.HistoryMatchesProxyClient | chat_ai.py:127-141 | for corresponding answers, the console's history and reasoning after the call are the proxy client's (ProxyApi.HistoryAfter, ProxyApi.ThinkingAfter) |
| ChatAi.SameStateAsProxyClient | chat_ai.py:94-142 | outside extended thinking, a call through either client leaves the same history and reasoning |
| ChatAi.SameReplyAsProxyClient | chat_ai.py:97-142 | outside extended thinking, the console returns the same text and success as the proxy client, with the same reasoning |
| ChatAi.ChatAI.constructor | chat_ai.py:18-44 | a new client has the given settings and prompt, no history and no reasoning |
| ChatAi.ChatAI.AddMessage | chat_ai.py:69-77 | appends one message and changes nothing else |
| ChatAi.ChatAI.ClearHistory | chat_ai.py:144-146 | empties the history only |
| ChatAi.ChatAI.GetHistory | chat_ai.py:148-155 | returns the history |
| ChatAi.ChatAI.SetSystemPrompt | chat_ai.py:192-201 | sets the prompt and removes the system messages from the history |
| ChatAi.ChatAI.OpenaiParams | chat_ai.py:210-220 | the flat-chat request for the client's state |
| ChatAi.ChatAI.AnthropicParams | chat_ai.py:238-260 | the console's block-content request for the client's state |
| ChatAi.ChatAI.SendMessage | chat_ai.py:79-142 | a prompt is adopted only when none is set; the returned text is the reply or the error; the history gains the exchange or is rolled back |
| ChatAi.ChatAI.AdoptPrompt | chat_ai.py:90-92 | a given prompt replaces a missing or empty one, stripping system messages |
| ChatAi.ChatAI.Converse | chat_ai.py:94-142 | appends the user message, then keeps it with the reply or removes it again on failure |
| ChatAi.ChatAI.CallProvider | chat_ai.py:97-124 | calls the client's provider and reports the reply or the failure's detail, changing only the reasoning |
| Bot.StateAt | bot.py:140-152 | the live pending state, specified by StateWindow and SetThenGet |
| Bot.AfterQuery | bot.py:140-152 | the states after a query, specified by StateWindow |
| Bot.StateWindow | bot.py:140-152 | a state is returned exactly while at most 300 seconds old; an expired one is deleted by the query; nothing else is touched |
| Bot.SetThenGet | bot.py:132-152 | a state just set reads back for exactly 300 seconds |
| Bot.UserStates.constructor | bot.py:180 | no user starts with a pending state |
| Bot.UserStates.SetUserState | bot.py:132-138 | records the state with the current time |
| Bot.UserStates.GetUserState | bot.py:140-152 | returns the live state and evicts an expired one |
| Bot.UserStates.ClearUserState | bot.py:154-158 | removes the user's state, if any |
| Bot.EffectivePrompt | bot.py:209-214 | the client's prompt is never empty: the stored one when non-empty, else the default |
| Bot.MaterializeStable | bot.py:193-198 | the settings reads are consistent: after the first, the session read back is the same one |
| Bot.GetAiClient | bot.py:183-219 | a new client with the session's settings and history, the effective prompt and no reasoning; the store only gains the default session |
| Bot.Resettle | bot.py:450-459 | the store after a client is saved back, specified by ResettleGuarantees |
| Bot.ResettleGuarantees | bot.py:450-459 | saving a client back replaces exactly the given settings, keeps history and counters, touches no other user and keeps the store well formed |
| Bot.ClearFlow | bot.py:396-400 | the store after the clear flow, specified by ClearFlowGuarantees |
| Bot.ClearFlowGuarantees | bot.py:396-400 | the clear flow leaves the default session with an empty history and every counter at zero; other users are kept |
| Bot.CmdClear | bot.py:389-400 | reads the provider, clears the session, then resets that provider's counter |
| Bot.CmdResetStats | bot.py:334-342 | both counters become 0; the history is kept |
| Bot.SwitchProvider | bot.py:265-281 | the session is saved back under the new model and provider with the effective prompt |
| Bot.CoerceTokens | bot.py:486-493 | the count the handler records, specified by CoerceTokensAgrees |
| Bot.CoerceTokensAgrees | bot.py:486-493 | a count and its decimal text are counted alike; an unparsable text counts 0 |
| Bot.RecordTokens | bot.py:496-500 | the guarded addition, specified by RecordTokensGuarantees |
| Bot.RecordTokensGuarantees | bot.py:496-500 | a positive count is added exactly; anything else changes nothing; no other counter changes |
| Bot.RouteOf | bot.py:419-434 | where a text goes, specified by RouteCases and ClearPhraseAnyCase |
| Bot.RouteCases | bot.py:419-434 | empty texts and commands are ignored; the clear phrase wins over a pending state; only a waiting user's other texts become the prompt |
| Bot.ClearPhraseMatch | bot.py:427 | a text lowers to "очистить контекст" exactly when it has the phrase's length and each letter is the phrase's letter or its capital, with the space in place |
| Bot.ClearPhraseAnyCase | bot.py:427-429 | "ОЧИСТИТЬ Контекст" and the phrase itself are clear requests in every state |
| Bot.PromptInput | bot.py:439-446 | "-" stores the default prompt; any other text is stored verbatim |
| Bot.TruncateKeepsNoSystem | context_manager.py:68-70 | truncating a history never brings in a system message |
| Bot.SaveTurn | bot.py:502-511 | the store after a chat turn is saved, specified by SaveTurnHistory, SaveTurnKeepsWellFormed and SaveTurnUsage |
| Bot.ChatTurnStore | bot.py:477-511 | the store after a chat turn, specified by ChatTurnRaisesUsage and MessageKeepsWellFormed |
| Bot.MessageStore | bot.py:412-529 | the store after a message, specified by SystemMessageGuarantees and MessageKeepsWellFormed |
| Bot.MessageStates | bot.py:412-468 | the pending states after a message, specified by MessageStatesGuarantees and SystemMessageGuarantees |
| Bot.MessageStatesGuarantees | bot.py:412-468 | a message never starts a wait: the user is left waiting only if a live wait was pending and the text was ignored or the clear phrase; other users' entries are kept |
| Bot.SaveTurnHistory | bot.py:477-511 | after a message, the history is the old one plus the exchange (last 50 kept) or unchanged on failure; the settings are kept and the prompt is the client's |
| Bot.SaveTurnKeepsWellFormed | bot.py:477-511 | a chat turn keeps every history bounded and free of system messages |
| Bot.SaveTurnUsage | bot.py:480-500 | an answer adds its tokens to the session provider's counter; a failure changes no counter |
| Bot.ChatTurnRaisesUsage | bot.py:480-497 | an answered message always raises its provider's counter |
| Bot.SystemMessageGuarantees | bot.py:435-468 | awaited input becomes the prompt ("-" restores the default); history, counters and settings are kept; the waiting state ends |
| Bot.MessageKeepsWellFormed | bot.py:412-529 | every route of `handle_message` keeps the store well formed |
| Bot.HandleMessage | bot.py:412-529 | ignores empty text and commands, clears on the clear phrase, stores an awaited system message, and otherwise runs a chat turn |
| Bot.StoreSystemMessage | bot.py:439-459 | saves the session back with the input prompt |
| Bot.ChatTurn | bot.py:477-511 | a fresh client answers, the positive token count is added, the session is saved |
| Bot.Perform | bot.py:544-886 | what a button's effect does to the store, specified by PerformGuarantees |
| Bot.CallbackEffect | bot.py:544-886 | the effect of each button of the `elif` chain, specified by MaxTokensButtonEffect and CallbackGuarantees |
| Bot.CallbackStore | bot.py:534-893 | the store after a button, specified by CallbackGuarantees, MaxTokensButtonStores and TemperatureButtonStores |
| Bot.CallbackStates | bot.py:815-817 | the pending states after a button, specified by CallbackStatesGuarantees |
| Bot.CallbackStatesGuarantees | bot.py:534-893 | after a button the user waits for a system message exactly when it was `set_system_message` or a wait was already live; value buttons and other users' entries leave the states alone |
| Bot.PerformGuarantees | bot.py:544-886 | only the clear effect touches histories or counters; every effect keeps the store well formed |
| Bot.CallbackGuarantees | bot.py:534-893 | every button except clear_context keeps all histories and counters; every button keeps the store well formed |
| Bot.ButtonData | bot.py:795 | the value a keyboard button encodes after its prefix is what `split("_")[1]` reads back |
| Bot.MaxTokensButtonEffect | bot.py:793-807 | a `tokens_N` button saves max tokens N with the other settings kept |
| Bot.MaxTokensButtonStores | bot.py:793-807 | after `tokens_N` the session is the old one with max tokens N and the effective prompt |
| Bot.TemperatureButtonStores | bot.py:760-774 | after `temp_X` the session holds temperature `float(X)`, or the store is unchanged when `float` fails |
| Bot.ShowInfo | bot.py:596-603 | the info reads only create the default session |
| Bot.ShowStats | bot.py:633-646 | the statistics reads only create the default session |
| Bot.ShowSettings | bot.py:721-725 | the settings reads only create the default session |
| Bot.ShowMain | bot.py:871-874 | the main-menu reads only create the default session |
| Bot.SaveSettings | bot.py:830-842 | the session is saved back with the new temperature, max tokens or default prompt |
| Bot.HandleCallback | bot.py:534-893 | the store and pending states after a button are those of its branch in the `elif` chain |
| Bot.HandleDisplayButtons | bot.py:596-749 | the display branches only read |
| Bot.HandleValueButtons | bot.py:760-807 | the temperature and max-tokens branches |
| Bot.TemperatureButton | bot.py:760-774 | a parsed temperature is saved; an unparsable one changes nothing |
| Bot.MaxTokensButton | bot.py:793-807 | a parsed max tokens value is saved; an unparsable one changes nothing |
| Bot.HandleLaterButtons | bot.py:815-886 | the system-message button sets the waiting state; reset restores the defaults; the back buttons only read |

## Left out

- Telegram I/O is not modelled: replies, keyboards, message edits, `callback.answer`, the typing indicator, logging and `print`. Handlers are modelled by what they do to the session store and the pending states.
- `cmd_start`, `cmd_help`, `cmd_stats` and `cmd_status` are not modelled. `cmd_help` only replies. The getters of the other three (bot.py:241-242, 315-319, 357-362) store the default session for an unseen user (context_manager.py:36-49), as the reads that `ShowStats`/`ShowInfo` model do; otherwise they change nothing.
- File persistence is modelled by its contents only. Reading the JSON file is the `persisted` input. `_save_contexts` after every change is not modelled; `SavedEntries` and `SaveLoadRoundTrip` give what it writes. A failed save or JSON syntax error is the `None` input.
- The SDK clients and API-key checks are not modelled: the constructors' `ValueError` without a key, the `_send_*` "client not initialised" checks, base URLs and timeouts. A provider call is an opaque function whose failure becomes `Raised`.
- `ChatAI.main` (the console loop) and `_print_request_info` (output only; it catches its own errors) are not modelled.
- Floating point is not modelled. Temperature is an opaque `real`. `float()` is a parameter. `int(max_tokens * 0.66)` is `max_tokens * 66 / 100`, which agrees with it for every `max_tokens` from 1536 to 1551; above that both are capped at 1024.
- Text.ParseInt: accepts an optional sign and ASCII digits only. Python's `int()` also accepts surrounding whitespace, `_` separators and other Unicode digits.
- Text.Lower: lowers only A-Z and U+0400..U+042F. Python's `str.lower` also lowers other capitals (Ä, Σ, …) and some characters to several; none of them lowers to a letter of "очистить контекст" or a space, so the clear-phrase comparison comes out the same.
- Bot.HandleMessage: takes the already stripped text. `strip()` and a missing `message.text` are not modelled.
- Bot.HandleCallback: `callback.data` is a string. A missing `data` (which raises inside the `try`) is not modelled.
- Missing-key fallbacks of the getters (`context.get("model", …)`) are not modelled: a session is a record with every field. A persisted file with a session lacking keys is not representable.
- OpenAI message content `None` is not modelled: a choice's content is a string.
- The `elif tokens_used == 0` branch of the block-content path (proxyapi_client.py:139-141) cannot be reached, because the reply is never empty there. The model has no separate case for it; `TokensFor` gives 1 only through `max(1, …)`.
- Concurrency between handlers is not modelled: each handler runs to completion on the store.
- Bot.ShowInfo: the `len(...)` of the history and the display formatting are not modelled.

## Findings

| source | as written | input that shows it | evidently intended | confidence | as-written member | corrected member |
|---|---|---|---|---|---|---|
| chat_ai.py:255-256 | an extended-thinking request gets `budget_tokens` 1024 and keeps `max_tokens` unchanged | model `claude-sonnet-4-5-20250929` with the default `max_tokens` 1000: the budget 1024 is not below `max_tokens` | the budget stays below `max_tokens`, as proxyapi_client.py:271-278 ensures by raising `max_tokens` to 2048 below 1536 | not executed | ChatAi.BudgetReachesMaxTokens | Provider.AnthropicRequestFor |
