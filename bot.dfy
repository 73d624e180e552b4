/**
 * bot.py: the pending-input states with their five-minute expiry, the client
 * built from a user's stored session, and what the message, command and
 * button handlers do to the session store. The Telegram replies, keyboards
 * and logging are not modelled; the clock is the parameter `now`, and the
 * provider calls are parameters passed through to the client.
 */
module Bot {
  import opened Wrappers
  import opened Text
  import opened Provider
  import opened ContextStore
  import opened ProxyApi
  import Config

  const STATE_TIMEOUT: real := 300.0
  const WAITING_SYSTEM_MESSAGE: string := "waiting_system_message"
  /** The text that clears the context, compared after `lower()`. */
  const CLEAR_PHRASE: string := "очистить контекст"
  /** The system-message input that restores the default prompt. */
  const RESET_PROMPT: string := "-"

  // ----- pending-input states -----

  /** `{"state": state, "timestamp": timestamp}` */
  datatype PendingState = PendingState(state: string, timestamp: real)

  /** What `get_user_state` returns at time `now`. */
  function StateAt(states: map<int, PendingState>, user: int, now: real): Option<string>
  {
    if user !in states then None
    else if now - states[user].timestamp > STATE_TIMEOUT then None
    else Some(states[user].state)
  }

  /** The states after `get_user_state`: an expired entry is deleted. */
  function AfterQuery(states: map<int, PendingState>, user: int, now: real): map<int, PendingState>
  {
    if user in states && now - states[user].timestamp > STATE_TIMEOUT then states - {user} else states
  }

  /**
   * A state is returned exactly while at most STATE_TIMEOUT seconds have
   * passed since it was set (300 seconds still counts); an expired one is
   * deleted by the query, and a live one or another user's is kept.
   */
  lemma StateWindow(states: map<int, PendingState>, user: int, now: real)
    ensures user !in states ==> StateAt(states, user, now) == None && AfterQuery(states, user, now) == states
    ensures user in states ==>
      (StateAt(states, user, now).Some? <==> now - states[user].timestamp <= STATE_TIMEOUT)
    ensures StateAt(states, user, now).Some? ==> StateAt(states, user, now).value == states[user].state
    ensures user in AfterQuery(states, user, now) <==> StateAt(states, user, now).Some?
    ensures forall v :: v != user ==> (v in AfterQuery(states, user, now) <==> v in states)
    ensures forall v :: v in AfterQuery(states, user, now) ==> AfterQuery(states, user, now)[v] == states[v]
  {
  }

  /** A freshly set state reads back for exactly STATE_TIMEOUT seconds. */
  lemma SetThenGet(states: map<int, PendingState>, user: int, state: string, setAt: real, now: real)
    ensures StateAt(states[user := PendingState(state, setAt)], user, now) == (if now - setAt <= STATE_TIMEOUT then Some(state) else None)
  {
  }

  /** The module-level `user_states` dictionary and its three accessors. */
  class UserStates {
    var states: map<int, PendingState>

    constructor ()
      ensures states == map[]
    {
      states := map[];
    }

    method SetUserState(user: int, state: string, now: real)
      modifies this
      ensures states == old(states)[user := PendingState(state, now)]
    {
      states := states[user := PendingState(state, now)];
    }

    method GetUserState(user: int, now: real) returns (state: Option<string>)
      modifies this
      ensures state == StateAt(old(states), user, now)
      ensures states == AfterQuery(old(states), user, now)
    {
      if user !in states {
        return None;
      }
      var stateData := states[user];
      if now - stateData.timestamp > STATE_TIMEOUT {
        states := states - {user};
        return None;
      }
      state := Some(stateData.state);
    }

    method ClearUserState(user: int)
      modifies this
      ensures states == old(states) - {user}
    {
      if user in states {
        states := states - {user};
      }
    }
  }

  // ----- the client built from a stored session -----

  /** The prompt `get_ai_client` gives the client: the stored one when non-empty, otherwise the default. */
  function EffectivePrompt(stored: Option<string>): (p: string)
    ensures p != ""
    ensures Truthy(stored) ==> p == stored.value
    ensures !Truthy(stored) ==> p == Config.DEFAULT_SYSTEM_PROMPT
  {
    if Truthy(stored) then stored.value else Config.DEFAULT_SYSTEM_PROMPT
  }

  lemma MaterializeStable(m: map<int, Context>, user: int)
    ensures Lookup(Materialize(m, user), user) == Lookup(m, user)
    ensures Materialize(Materialize(m, user), user) == Materialize(m, user)
    ensures user in Materialize(m, user)
  {
  }

  /**
   * `get_ai_client`: a new client with the user's settings, the stored
   * prompt or the default one, and a copy of the stored history.
   */
  method GetAiClient(store: ContextManager, user: int) returns (client: ProxyAPIClient)
    modifies store
    ensures fresh(client)
    ensures store.contexts == Materialize(old(store.contexts), user)
    ensures var c := Lookup(old(store.contexts), user);
      && client.model == c.model && client.provider == c.provider
      && client.temperature == c.temperature && client.maxTokens == c.maxTokens
      && client.systemPrompt == Some(EffectivePrompt(c.systemPrompt))
      && client.messages == c.messages
      && client.lastThinkingText == None
  {
    MaterializeStable(store.contexts, user);
    var model := store.GetUserModel(user);
    var provider := store.GetUserProvider(user);
    var systemPrompt := store.GetUserSystemPrompt(user);
    var temperature := store.GetUserTemperature(user);
    var maxTokens := store.GetUserMaxTokens(user);
    client := new ProxyAPIClient(model, provider, temperature, maxTokens);
    if Truthy(systemPrompt) {
      client.SetSystemPrompt(systemPrompt.value);
    } else {
      client.SetSystemPrompt(Config.DEFAULT_SYSTEM_PROMPT);
    }
    var messages := store.GetUserMessages(user);
    client.messages := messages;
  }

  // ----- what the handlers do to the store -----

  /**
   * The store after a handler loads the user's client and saves it back with
   * some settings replaced: the history is the stored one, the counters are kept.
   */
  function Resettle(m: map<int, Context>, user: int, model: string, provider: string,
                    prompt: Option<string>, temperature: real, maxTokens: int): map<int, Context>
  {
    Update(Materialize(m, user), user, Lookup(m, user).messages, model, provider, prompt, temperature, maxTokens)
  }

  /** Every store entry is within the history bound and holds no system message. */
  predicate WellFormed(m: map<int, Context>)
  {
    forall u :: u in m ==> |m[u].messages| <= Config.MAX_CONTEXT_LENGTH && NoSystem(m[u].messages)
  }

  /** Storing one well-formed session keeps the whole store well formed. */
  lemma WellFormedAfterSet(m: map<int, Context>, user: int, ctx: Context)
    requires WellFormed(m)
    requires |ctx.messages| <= Config.MAX_CONTEXT_LENGTH && NoSystem(ctx.messages)
    ensures WellFormed(m[user := ctx])
  {
  }

  /** A stored session, or the default one, is within the bound and holds no system message. */
  lemma LookupWellFormed(m: map<int, Context>, user: int)
    requires WellFormed(m)
    ensures |Lookup(m, user).messages| <= Config.MAX_CONTEXT_LENGTH && NoSystem(Lookup(m, user).messages)
  {
  }

  /** Saving settings back keeps the user's history and counters and touches no other user. */
  lemma ResettleGuarantees(m: map<int, Context>, user: int, model: string, provider: string,
                           prompt: Option<string>, temperature: real, maxTokens: int)
    requires WellFormed(m)
    ensures var r := Resettle(m, user, model, provider, prompt, temperature, maxTokens);
      && user in r
      && r[user] == Lookup(m, user).(model := model, provider := provider, systemPrompt := prompt,
                                     temperature := temperature, maxTokens := maxTokens)
      && (forall p :: Usage(r, user, p) == Usage(m, user, p))
      && (forall v :: v != user ==> (v in r <==> v in m) && Lookup(r, v) == Lookup(m, v))
      && WellFormed(r)
  {
    var c := Lookup(m, user);
    var updated := c.(model := model, provider := provider, systemPrompt := prompt,
                      temperature := temperature, maxTokens := maxTokens);
    LookupWellFormed(m, user);
    TruncateShort(c.messages);
    assert Resettle(m, user, model, provider, prompt, temperature, maxTokens) == m[user := updated];
    WellFormedAfterSet(m, user, updated);
  }

  /** `cmd_clear` and the clear button: the provider is read, the context deleted, then that provider's counter reset. */
  function ClearFlow(m: map<int, Context>, user: int): map<int, Context>
  {
    ResetTokens(Materialize(m, user) - {user}, user, Lookup(m, user).provider)
  }

  /**
   * After the clear flow the user has the fresh default session with every
   * counter at zero (the reset re-creates it, with the current provider's key);
   * other users are untouched.
   */
  lemma ClearFlowGuarantees(m: map<int, Context>, user: int)
    ensures var r := ClearFlow(m, user);
      && user in r
      && r[user] == DefaultContext().(tokensUsed := ZERO_USAGE[Lookup(m, user).provider := 0])
      && (Lookup(m, user).provider in {Config.OPENAI, Config.ANTHROPIC} ==> r[user] == DefaultContext())
      && r[user].messages == []
      && (forall p :: Usage(r, user, p) == 0)
      && (forall v :: v != user ==> (v in r <==> v in m) && Lookup(r, v) == Lookup(m, v))
  {
    var cleared := Materialize(m, user) - {user};
    assert user !in cleared;
    var provider := Lookup(m, user).provider;
    if provider == Config.OPENAI {
      assert ZERO_USAGE[provider := 0] == ZERO_USAGE;
    } else if provider == Config.ANTHROPIC {
      assert ZERO_USAGE[provider := 0] == ZERO_USAGE;
    }
  }

  method CmdClear(store: ContextManager, user: int)
    modifies store
    ensures store.contexts == ClearFlow(old(store.contexts), user)
  {
    var currentProvider := store.GetUserProvider(user);
    store.ClearContext(user);
    store.ResetTokensUsed(user, currentProvider);
  }

  /** `/reset_stats`: both counters to zero; history and settings kept. */
  method CmdResetStats(store: ContextManager, user: int)
    modifies store
    ensures store.contexts == ResetTokens(ResetTokens(old(store.contexts), user, Config.OPENAI), user, Config.ANTHROPIC)
    ensures Usage(store.contexts, user, Config.OPENAI) == 0 && Usage(store.contexts, user, Config.ANTHROPIC) == 0
    ensures Lookup(store.contexts, user).messages == Lookup(old(store.contexts), user).messages
  {
    store.ResetTokensUsed(user, Config.OPENAI);
    store.ResetTokensUsed(user, Config.ANTHROPIC);
  }

  /** `/switch_openai`, `/switch_claude` and their buttons: the session saved back under another model and provider. */
  method SwitchProvider(store: ContextManager, user: int, model: string, provider: string)
    modifies store
    ensures var c := Lookup(old(store.contexts), user);
      store.contexts == Resettle(old(store.contexts), user, model, provider, Some(EffectivePrompt(c.systemPrompt)), c.temperature, c.maxTokens)
  {
    var client := GetAiClient(store, user);
    store.UpdateContext(user, client.messages, model, provider, client.systemPrompt, client.temperature, client.maxTokens);
  }

  // ----- token bookkeeping -----

  /** A token count as the handler may receive it. */
  datatype TokenValue = IntCount(n: int) | TextCount(text: string)

  /** The `isinstance(tokens_used, str)` coercion: a numeric string is parsed, anything else unparsable counts 0. */
  function CoerceTokens(v: TokenValue): int
  {
    match v
    case IntCount(n) => n
    case TextCount(s) => match ParseInt(s) case Some(n) => n case None => 0
  }

  /** A number and its decimal text are counted alike; a text that is not a number counts nothing. */
  lemma CoerceTokensAgrees(n: int, s: string)
    ensures CoerceTokens(TextCount(IntToDecimal(n))) == CoerceTokens(IntCount(n)) == n
    ensures ParseInt(s).None? ==> CoerceTokens(TextCount(s)) == 0
  {
    DecimalRoundTrip(n);
  }

  /** The counter update guarded by `if tokens_used > 0`. */
  function RecordTokens(m: map<int, Context>, user: int, provider: string, v: TokenValue): map<int, Context>
  {
    var t := CoerceTokens(v);
    if t > 0 then AddTokens(m, user, provider, t) else m
  }

  /** Recording never lowers a counter, adds a positive count exactly, and ignores the rest. */
  lemma RecordTokensGuarantees(m: map<int, Context>, user: int, provider: string, v: TokenValue)
    ensures var r := RecordTokens(m, user, provider, v);
      && Usage(r, user, provider) >= Usage(m, user, provider)
      && (CoerceTokens(v) > 0 ==> Usage(r, user, provider) == Usage(m, user, provider) + CoerceTokens(v))
      && (CoerceTokens(v) <= 0 ==> r == m)
      && (forall p :: p != provider ==> Usage(r, user, p) == Usage(m, user, p))
      && Lookup(r, user).messages == Lookup(m, user).messages
      && (forall v :: v != user ==> (v in r <==> v in m) && Lookup(r, v) == Lookup(m, v))
  {
    if CoerceTokens(v) > 0 {
      AddTokensGuarantees(m, user, provider, CoerceTokens(v));
    }
  }

  // ----- handle_message -----

  /** Where `handle_message` sends a (stripped) text. */
  datatype Route = Ignored | ClearRequest | SystemMessageInput | ChatInput

  function RouteOf(states: map<int, PendingState>, user: int, text: string, now: real): Route
  {
    if text == "" || StartsWith(text, "/") then Ignored
    else if Lower(text) == CLEAR_PHRASE then ClearRequest
    else if StateAt(states, user, now) == Some(WAITING_SYSTEM_MESSAGE) then SystemMessageInput
    else ChatInput
  }

  /**
   * The routing order: commands and empty texts are ignored, the clear
   * phrase wins over a pending system-message state, and only a waiting
   * user's other texts become the new prompt.
   */
  lemma RouteCases(states: map<int, PendingState>, user: int, text: string, now: real)
    ensures RouteOf(states, user, text, now) == Ignored <==> text == "" || text[0] == '/'
    ensures RouteOf(states, user, text, now) == ClearRequest <==>
              text != "" && text[0] != '/' && Lower(text) == CLEAR_PHRASE
    ensures RouteOf(states, user, text, now) == SystemMessageInput <==>
              text != "" && text[0] != '/' && Lower(text) != CLEAR_PHRASE
              && StateAt(states, user, now) == Some(WAITING_SYSTEM_MESSAGE)
  {
    if text != "" {
      assert StartsWith(text, "/") <==> text[0] == '/' by {
        assert text[..1] == [text[0]];
      }
    }
  }

  /** Every character of the clear phrase is a space or a lower-case Cyrillic letter. */
  lemma ClearPhraseLetters()
    ensures forall i :: 0 <= i < |CLEAR_PHRASE| ==>
              CLEAR_PHRASE[i] == ' ' || '\U{0430}' <= CLEAR_PHRASE[i] <= '\U{044F}'
  {
  }

  /**
   * Which texts lower to the clear phrase: exactly those of its length whose
   * every letter is the phrase's letter or its capital, with the space in place.
   */
  lemma ClearPhraseMatch(s: string)
    ensures Lower(s) == CLEAR_PHRASE <==>
              |s| == |CLEAR_PHRASE| &&
              forall i :: 0 <= i < |s| ==>
                s[i] == CLEAR_PHRASE[i] || (CLEAR_PHRASE[i] != ' ' && s[i] as int == CLEAR_PHRASE[i] as int - 32)
  {
    ClearPhraseLetters();
    if |s| == |CLEAR_PHRASE| &&
       forall i :: 0 <= i < |s| ==>
         s[i] == CLEAR_PHRASE[i] || (CLEAR_PHRASE[i] != ' ' && s[i] as int == CLEAR_PHRASE[i] as int - 32)
    {
      forall i | 0 <= i < |s|
        ensures Lower(s)[i] == CLEAR_PHRASE[i]
      {
        if s[i] != CLEAR_PHRASE[i] {
          assert '\U{0410}' <= s[i] <= '\U{042F}';
        }
      }
    }
  }

  /** The phrase is recognised in any capitalisation, e.g. "ОЧИСТИТЬ Контекст". */
  lemma ClearPhraseAnyCase(states: map<int, PendingState>, user: int, now: real)
    ensures RouteOf(states, user, "ОЧИСТИТЬ Контекст", now) == ClearRequest
    ensures RouteOf(states, user, CLEAR_PHRASE, now) == ClearRequest
  {
    var shout := "ОЧИСТИТЬ Контекст";
    ClearPhraseMatch(shout);
    ClearPhraseMatch(CLEAR_PHRASE);
    assert Lower(shout) == CLEAR_PHRASE by {
      forall i | 0 <= i < |shout|
        ensures shout[i] == CLEAR_PHRASE[i] || (CLEAR_PHRASE[i] != ' ' && shout[i] as int == CLEAR_PHRASE[i] as int - 32)
      {
      }
    }
    RouteCases(states, user, shout, now);
    RouteCases(states, user, CLEAR_PHRASE, now);
  }

  /** The prompt a system-message input stores: the default for "-", otherwise the text verbatim. */
  function PromptInput(text: string): (p: string)
    ensures text == RESET_PROMPT ==> p == Config.DEFAULT_SYSTEM_PROMPT
    ensures text != RESET_PROMPT ==> p == text
  {
    if text == RESET_PROMPT then Config.DEFAULT_SYSTEM_PROMPT else text
  }

  /** The turn a fresh client for the session `c` makes of the text. */
  function ChatTurnOf(c: Context, text: string,
                      callOpenai: OpenaiRequest -> Outcome<OpenaiResponse>,
                      callAnthropic: AnthropicRequest -> Outcome<AnthropicResponse>): Turn
  {
    Exchange(c.provider, c.model, c.temperature, c.maxTokens, Some(EffectivePrompt(c.systemPrompt)),
             c.messages + [Message(USER, text)], callOpenai, callAnthropic)
  }

  /** The store after the turn: its tokens counted, then the client's history and settings saved. */
  function SaveTurn(m: map<int, Context>, user: int, text: string, turn: Turn): map<int, Context>
  {
    var c := Lookup(m, user);
    var counted := RecordTokens(Materialize(m, user), user, c.provider, IntCount(turn.Count()));
    Update(counted, user, HistoryAfter(c.messages, text, turn), c.model, c.provider, Some(EffectivePrompt(c.systemPrompt)), c.temperature, c.maxTokens)
  }

  /** The store after an ordinary message. */
  function ChatTurnStore(m: map<int, Context>, user: int, text: string,
                         callOpenai: OpenaiRequest -> Outcome<OpenaiResponse>,
                         callAnthropic: AnthropicRequest -> Outcome<AnthropicResponse>): map<int, Context>
  {
    SaveTurn(m, user, text, ChatTurnOf(Lookup(m, user), text, callOpenai, callAnthropic))
  }

  /** Keeping the last messages of a history keeps it free of system messages. */
  lemma TruncateKeepsNoSystem(msgs: seq<Message>)
    requires NoSystem(msgs)
    ensures NoSystem(Truncate(msgs))
  {
    var r := Truncate(msgs);
    forall i | 0 <= i < |r|
      ensures r[i].role != SYSTEM
    {
      assert r[i] == msgs[|msgs| - |r| + i];
    }
  }

  /**
   * An answered turn appends the exchange to the history, keeping the last
   * MAX_CONTEXT_LENGTH messages; a failed one leaves a well-formed history as
   * it was. Either way the settings are kept, the prompt becomes the one the
   * client used, and no other user changes.
   */
  lemma SaveTurnHistory(m: map<int, Context>, user: int, text: string, turn: Turn)
    ensures var c := Lookup(m, user);
      var r := SaveTurn(m, user, text, turn);
      && user in r
      && r[user].messages == Truncate(HistoryAfter(c.messages, text, turn))
      && (turn.Answered? ==> r[user].messages == Truncate(c.messages + [Message(USER, text), Message(ASSISTANT, turn.reply)]))
      && (turn.Failed? && |c.messages| <= Config.MAX_CONTEXT_LENGTH ==> r[user].messages == c.messages)
      && r[user].model == c.model && r[user].provider == c.provider
      && r[user].temperature == c.temperature && r[user].maxTokens == c.maxTokens
      && r[user].systemPrompt == Some(EffectivePrompt(c.systemPrompt))
      && (forall v :: v != user ==> (v in r <==> v in m) && Lookup(r, v) == Lookup(m, v))
  {
    var c := Lookup(m, user);
    var base := Materialize(m, user);
    var counted := RecordTokens(base, user, c.provider, IntCount(turn.Count()));
    RecordTokensGuarantees(base, user, c.provider, IntCount(turn.Count()));
    UpdateGuarantees(counted, user, HistoryAfter(c.messages, text, turn), c.model, c.provider,
                     Some(EffectivePrompt(c.systemPrompt)), c.temperature, c.maxTokens);
    if turn.Failed? && |c.messages| <= Config.MAX_CONTEXT_LENGTH {
      TruncateShort(c.messages);
    }
  }

  /** Saving a turn keeps the store well formed. */
  lemma SaveTurnKeepsWellFormed(m: map<int, Context>, user: int, text: string, turn: Turn)
    requires WellFormed(m)
    ensures WellFormed(SaveTurn(m, user, text, turn))
  {
    SaveTurnHistory(m, user, text, turn);
    var c := Lookup(m, user);
    var history := HistoryAfter(c.messages, text, turn);
    var r := SaveTurn(m, user, text, turn);
    LookupWellFormed(m, user);
    HistoryAfterKeepsNoSystem(c.messages, text, turn);
    TruncateKeepsNoSystem(history);
    forall v | v in r
      ensures |r[v].messages| <= Config.MAX_CONTEXT_LENGTH && NoSystem(r[v].messages)
    {
      if v != user {
        assert v in m && r[v] == Lookup(r, v) == Lookup(m, v) == m[v];
      }
    }
  }

  /**
   * An answered turn adds its token count to the session's provider counter;
   * a failed one changes no counter. No other counter changes.
   */
  lemma SaveTurnUsage(m: map<int, Context>, user: int, text: string, turn: Turn)
    ensures var c := Lookup(m, user);
      var r := SaveTurn(m, user, text, turn);
      && (turn.Answered? ==> Usage(r, user, c.provider) == Usage(m, user, c.provider) + turn.tokens)
      && (turn.Failed? ==> forall p :: Usage(r, user, p) == Usage(m, user, p))
      && (forall p :: p != c.provider ==> Usage(r, user, p) == Usage(m, user, p))
  {
    var c := Lookup(m, user);
    var base := Materialize(m, user);
    var counted := RecordTokens(base, user, c.provider, IntCount(turn.Count()));
    RecordTokensGuarantees(base, user, c.provider, IntCount(turn.Count()));
    UpdateGuarantees(counted, user, HistoryAfter(c.messages, text, turn), c.model, c.provider,
                     Some(EffectivePrompt(c.systemPrompt)), c.temperature, c.maxTokens);
    assert forall p :: Usage(base, user, p) == Usage(m, user, p);
  }

  /** An answered message always raises the counter of the session's provider. */
  lemma ChatTurnRaisesUsage(m: map<int, Context>, user: int, text: string,
                            callOpenai: OpenaiRequest -> Outcome<OpenaiResponse>,
                            callAnthropic: AnthropicRequest -> Outcome<AnthropicResponse>)
    requires ChatTurnOf(Lookup(m, user), text, callOpenai, callAnthropic).Answered?
    ensures var p := Lookup(m, user).provider;
      Usage(ChatTurnStore(m, user, text, callOpenai, callAnthropic), user, p) > Usage(m, user, p)
  {
    SaveTurnUsage(m, user, text, ChatTurnOf(Lookup(m, user), text, callOpenai, callAnthropic));
  }

  /** The store after `handle_message`. */
  function MessageStore(m: map<int, Context>, states: map<int, PendingState>, user: int, text: string, now: real,
                        callOpenai: OpenaiRequest -> Outcome<OpenaiResponse>,
                        callAnthropic: AnthropicRequest -> Outcome<AnthropicResponse>): map<int, Context>
  {
    match RouteOf(states, user, text, now)
    case Ignored => m
    case ClearRequest => ClearFlow(m, user)
    case SystemMessageInput =>
      var c := Lookup(m, user);
      Resettle(m, user, c.model, c.provider, Some(PromptInput(text)), c.temperature, c.maxTokens)
    case ChatInput => ChatTurnStore(m, user, text, callOpenai, callAnthropic)
  }

  /** The pending states after `handle_message`. */
  function MessageStates(states: map<int, PendingState>, user: int, text: string, now: real): map<int, PendingState>
  {
    match RouteOf(states, user, text, now)
    case Ignored => states
    case ClearRequest => states
    case SystemMessageInput => AfterQuery(states, user, now) - {user}
    case ChatInput => AfterQuery(states, user, now)
  }

  /**
   * A message never starts a wait: afterwards the user is waiting only if a
   * live wait was pending and the text was ignored or the clear phrase, and
   * no other user's entry changes.
   */
  lemma MessageStatesGuarantees(states: map<int, PendingState>, user: int, text: string, now: real)
    ensures StateAt(MessageStates(states, user, text, now), user, now) == Some(WAITING_SYSTEM_MESSAGE) ==>
              StateAt(states, user, now) == Some(WAITING_SYSTEM_MESSAGE) &&
              RouteOf(states, user, text, now) in {Ignored, ClearRequest}
    ensures MessageStates(states, user, text, now) - {user} == states - {user}
  {
    StateWindow(states, user, now);
  }

  /**
   * A system-message input stores the new prompt ("-" restoring the default),
   * keeps history, counters and the other settings, and ends the waiting state.
   */
  lemma SystemMessageGuarantees(m: map<int, Context>, states: map<int, PendingState>, user: int, text: string, now: real,
                                callOpenai: OpenaiRequest -> Outcome<OpenaiResponse>,
                                callAnthropic: AnthropicRequest -> Outcome<AnthropicResponse>)
    requires WellFormed(m)
    requires RouteOf(states, user, text, now) == SystemMessageInput
    ensures var r := MessageStore(m, states, user, text, now, callOpenai, callAnthropic);
      && user in r
      && r[user] == Lookup(m, user).(systemPrompt := Some(PromptInput(text)))
      && (forall p :: Usage(r, user, p) == Usage(m, user, p))
      && user !in MessageStates(states, user, text, now)
      && (text == RESET_PROMPT ==> r[user].systemPrompt == Some(Config.DEFAULT_SYSTEM_PROMPT))
  {
    var c := Lookup(m, user);
    ResettleGuarantees(m, user, c.model, c.provider, Some(PromptInput(text)), c.temperature, c.maxTokens);
  }

  /** Every route of `handle_message` keeps the store well formed. */
  lemma MessageKeepsWellFormed(m: map<int, Context>, states: map<int, PendingState>, user: int, text: string, now: real,
                               callOpenai: OpenaiRequest -> Outcome<OpenaiResponse>,
                               callAnthropic: AnthropicRequest -> Outcome<AnthropicResponse>)
    requires WellFormed(m)
    ensures WellFormed(MessageStore(m, states, user, text, now, callOpenai, callAnthropic))
  {
    var c := Lookup(m, user);
    match RouteOf(states, user, text, now)
    case Ignored =>
    case ClearRequest =>
      ClearFlowGuarantees(m, user);
      var r := ClearFlow(m, user);
      forall v | v in r
        ensures |r[v].messages| <= Config.MAX_CONTEXT_LENGTH && NoSystem(r[v].messages)
      {
        if v != user {
          assert v in m && r[v] == m[v];
        }
      }
    case SystemMessageInput =>
      ResettleGuarantees(m, user, c.model, c.provider, Some(PromptInput(text)), c.temperature, c.maxTokens);
    case ChatInput =>
      SaveTurnKeepsWellFormed(m, user, text, ChatTurnOf(Lookup(m, user), text, callOpenai, callAnthropic));
  }

  /**
   * `handle_message` for the stripped text of a message: ignores empty text
   * and commands, clears on the clear phrase, stores a system message while
   * one is awaited, and otherwise sends the text through a fresh client and
   * saves the outcome.
   */
  method HandleMessage(store: ContextManager, states: UserStates, user: int, text: string, now: real,
                       callOpenai: OpenaiRequest -> Outcome<OpenaiResponse>,
                       callAnthropic: AnthropicRequest -> Outcome<AnthropicResponse>)
    modifies store, states
    ensures store.contexts == MessageStore(old(store.contexts), old(states.states), user, text, now, callOpenai, callAnthropic)
    ensures states.states == MessageStates(old(states.states), user, text, now)
  {
    if text == "" {
      return;
    }
    if StartsWith(text, "/") {
      return;
    }
    if Lower(text) == CLEAR_PHRASE {
      CmdClear(store, user);
      return;
    }
    var userState := states.GetUserState(user, now);
    if userState == Some(WAITING_SYSTEM_MESSAGE) {
      StoreSystemMessage(store, user, text);
      states.ClearUserState(user);
      return;
    }
    ChatTurn(store, user, text, callOpenai, callAnthropic);
  }

  /** The waiting branch of `handle_message`: the text (or the default, for "-") saved as the system prompt. */
  method StoreSystemMessage(store: ContextManager, user: int, text: string)
    modifies store
    ensures var c := Lookup(old(store.contexts), user);
      store.contexts == Resettle(old(store.contexts), user, c.model, c.provider, Some(PromptInput(text)), c.temperature, c.maxTokens)
  {
    var systemMessage := if text == RESET_PROMPT then Config.DEFAULT_SYSTEM_PROMPT else text;
    var client := GetAiClient(store, user);
    store.UpdateContext(user, client.messages, client.model, client.provider, Some(systemMessage), client.temperature, client.maxTokens);
  }

  /** The chat branch of `handle_message`: a fresh client answers, the tokens are counted, the session is saved. */
  method ChatTurn(store: ContextManager, user: int, text: string,
                  callOpenai: OpenaiRequest -> Outcome<OpenaiResponse>,
                  callAnthropic: AnthropicRequest -> Outcome<AnthropicResponse>)
    modifies store
    ensures store.contexts == ChatTurnStore(old(store.contexts), user, text, callOpenai, callAnthropic)
  {
    ghost var m := store.contexts;
    ghost var c := Lookup(m, user);
    ghost var turn := ChatTurnOf(c, text, callOpenai, callAnthropic);
    var client := GetAiClient(store, user);
    var response, tokensUsed := client.SendMessage(text, None, callOpenai, callAnthropic);
    assert tokensUsed == turn.Count();
    assert client.messages == HistoryAfter(c.messages, text, turn);
    var tokens := CoerceTokens(IntCount(tokensUsed));
    if tokens > 0 {
      store.AddTokensUsed(user, client.provider, tokens);
    }
    assert store.contexts == RecordTokens(Materialize(m, user), user, c.provider, IntCount(turn.Count()));
    store.UpdateContext(user, client.messages, client.model, client.provider, client.systemPrompt, client.temperature, client.maxTokens);
  }

  // ----- handle_callback -----

  /** The text after the first `_` of a `temp_…` or `tokens_…` button. */
  function ButtonValue(data: string): string
    requires '_' in data
  {
    Split(data, '_')[1]
  }

  lemma PrefixHasUnderscore(data: string, prefix: string)
    requires StartsWith(data, prefix) && |prefix| > 0 && prefix[|prefix| - 1] == '_'
    ensures '_' in data
  {
    assert data[|prefix| - 1] == prefix[|prefix| - 1];
  }

  /** What a button does to the user's session. */
  datatype Effect =
    | Untouched
      /** a display branch: its reads create the default session if missing */
    | Read
    | Clear
      /** the session loaded into a client and saved back with these settings */
    | Save(model: string, provider: string, prompt: Option<string>, temperature: real, maxTokens: int)

  function Perform(m: map<int, Context>, user: int, e: Effect): map<int, Context>
  {
    match e
    case Untouched => m
    case Read => Materialize(m, user)
    case Clear => ClearFlow(m, user)
    case Save(model, provider, prompt, temperature, maxTokens) => Resettle(m, user, model, provider, prompt, temperature, maxTokens)
  }

  /** The effect of `handle_callback` for a user whose session reads `c`, in the handler's branch order. `parseFloat` is Python's `float`. */
  function CallbackEffect(c: Context, data: string, parseFloat: string -> Option<real>): Effect
  {
    var prompt := Some(EffectivePrompt(c.systemPrompt));
    if data == "switch_openai" then Save(Config.DEFAULT_MODEL_OPENAI, Config.OPENAI, prompt, c.temperature, c.maxTokens)
    else if data == "switch_claude" then Save(Config.DEFAULT_MODEL_ANTHROPIC, Config.ANTHROPIC, prompt, c.temperature, c.maxTokens)
    else if data == "clear_context" then Clear
    else if data == "show_info" || data == "show_stats" then Read
    else if data == "show_help" || data == "show_commands" || data == "show_models_info" then Untouched
    else if data == "show_settings" then Read
    else if data == "set_temperature" then Untouched
    else if StartsWith(data, "temp_") then
      PrefixHasUnderscore(data, "temp_");
      match parseFloat(ButtonValue(data))
      case None => Untouched
      case Some(t) => Save(c.model, c.provider, prompt, t, c.maxTokens)
    else if data == "set_max_tokens" then Untouched
    else if StartsWith(data, "tokens_") then
      PrefixHasUnderscore(data, "tokens_");
      match ParseInt(ButtonValue(data))
      case None => Untouched
      case Some(n) => Save(c.model, c.provider, prompt, c.temperature, n)
    else if data == "set_system_message" then Untouched
    else if data == "reset_settings" then
      Save(c.model, c.provider, Some(Config.DEFAULT_SYSTEM_PROMPT), Config.DEFAULT_TEMPERATURE, Config.DEFAULT_MAX_TOKENS)
    else if data == "back_to_settings" || data == "back_to_main" then Read
    else Untouched
  }

  /** The store after `handle_callback`. */
  function CallbackStore(m: map<int, Context>, user: int, data: string, parseFloat: string -> Option<real>): map<int, Context>
  {
    Perform(m, user, CallbackEffect(Lookup(m, user), data, parseFloat))
  }

  /** The pending states after `handle_callback`: only the system-message button sets one. */
  function CallbackStates(states: map<int, PendingState>, user: int, data: string, now: real): map<int, PendingState>
  {
    if data == "set_system_message" then states[user := PendingState(WAITING_SYSTEM_MESSAGE, now)] else states
  }

  /**
   * After a button the user is waiting for a system message exactly when the
   * button was `set_system_message`, or the user was already waiting; the
   * value buttons and every other user's entry are left alone.
   */
  lemma CallbackStatesGuarantees(states: map<int, PendingState>, user: int, data: string, now: real)
    ensures StateAt(CallbackStates(states, user, data, now), user, now) == Some(WAITING_SYSTEM_MESSAGE) <==>
              data == "set_system_message" || StateAt(states, user, now) == Some(WAITING_SYSTEM_MESSAGE)
    ensures CallbackStates(states, user, data, now) - {user} == states - {user}
    ensures StartsWith(data, "temp_") || StartsWith(data, "tokens_") ==> CallbackStates(states, user, data, now) == states
  {
    if StartsWith(data, "temp_") || StartsWith(data, "tokens_") {
      ValueButtonSetsNoState(data);
    }
  }

  /** Only the clear effect touches a history or a counter, and no effect breaks the store's shape. */
  lemma PerformGuarantees(m: map<int, Context>, user: int, e: Effect)
    requires WellFormed(m)
    ensures var r := Perform(m, user, e);
      && WellFormed(r)
      && (!e.Clear? ==>
            && (forall v :: Lookup(r, v).messages == Lookup(m, v).messages)
            && (forall v, p :: Usage(r, v, p) == Usage(m, v, p)))
  {
    match e
    case Untouched =>
    case Read =>
      LookupWellFormed(m, user);
      WellFormedAfterSet(m, user, Lookup(m, user));
    case Clear =>
      ClearFlowGuarantees(m, user);
      var r := ClearFlow(m, user);
      forall v | v in r
        ensures |r[v].messages| <= Config.MAX_CONTEXT_LENGTH && NoSystem(r[v].messages)
      {
        if v != user {
          assert v in m && r[v] == m[v];
        }
      }
    case Save(model, provider, prompt, temperature, maxTokens) =>
      ResettleGuarantees(m, user, model, provider, prompt, temperature, maxTokens);
  }

  /**
   * Every button except "clear_context" keeps every user's history and
   * counters (the switch, temperature, max-tokens and reset buttons change
   * settings only), and every button keeps the store well formed.
   */
  lemma CallbackGuarantees(m: map<int, Context>, user: int, data: string, parseFloat: string -> Option<real>)
    requires WellFormed(m)
    ensures var r := CallbackStore(m, user, data, parseFloat);
      && WellFormed(r)
      && (data != "clear_context" ==>
            && (forall v :: Lookup(r, v).messages == Lookup(m, v).messages)
            && (forall v, p :: Usage(r, v, p) == Usage(m, v, p)))
  {
    var e := CallbackEffect(Lookup(m, user), data, parseFloat);
    assert e.Clear? ==> data == "clear_context";
    PerformGuarantees(m, user, e);
  }

  /** The data a value button carries: its prefix, then the value's text. */
  lemma ButtonData(prefix: string, value: string)
    requires '_' !in prefix && '_' !in value
    ensures var data := prefix + "_" + value;
      && StartsWith(data, prefix + "_") && '_' in data && ButtonValue(data) == value
  {
    var data := prefix + "_" + value;
    assert data == prefix + ['_'] + value;
    assert data[|prefix|] == '_';
    SplitAtFirst(prefix, '_', value);
    SplitWithoutSeparator(value, '_');
  }

  /** Value buttons begin with 't', which no named button does. */
  lemma NotANamedButton(data: string)
    requires |data| > 0 && data[0] == 't'
    ensures data !in {"switch_openai", "switch_claude", "clear_context", "show_info", "show_stats", "show_help",
                      "show_commands", "show_models_info", "show_settings", "set_temperature", "set_max_tokens",
                      "set_system_message", "reset_settings", "back_to_settings", "back_to_main"}
  {
  }

  lemma MaxTokensButtonEffect(c: Context, n: nat, parseFloat: string -> Option<real>)
    ensures CallbackEffect(c, "tokens_" + NatToDecimal(n), parseFloat)
         == Save(c.model, c.provider, Some(EffectivePrompt(c.systemPrompt)), c.temperature, n)
  {
    var digits := NatToDecimal(n);
    var data := "tokens_" + digits;
    assert '_' !in digits by {
      forall i | 0 <= i < |digits|
        ensures digits[i] != '_'
      {
        assert IsDigit(digits[i]);
      }
    }
    assert ParseInt(ButtonValue(data)) == Some(n) by {
      ButtonData("tokens", digits);
      assert "tokens" + "_" + digits == data;
      NatDecimalRoundTrip(n);
    }
    assert !StartsWith(data, "temp_") && StartsWith(data, "tokens_") by {
      assert data[1] == 'o' && data[..7] == "tokens_";
    }
    NotANamedButton(data);
  }

  /**
   * A "tokens_N" button, as the max-tokens keyboard sends it, stores exactly
   * N as `max_tokens`, keeps the rest of the session, and saves back the
   * prompt the client was given.
   */
  lemma MaxTokensButtonStores(m: map<int, Context>, user: int, n: nat, parseFloat: string -> Option<real>)
    requires WellFormed(m)
    ensures var c := Lookup(m, user);
      var r := CallbackStore(m, user, "tokens_" + NatToDecimal(n), parseFloat);
      && user in r
      && r[user] == c.(systemPrompt := Some(EffectivePrompt(c.systemPrompt)), maxTokens := n)
  {
    var c := Lookup(m, user);
    MaxTokensButtonEffect(c, n, parseFloat);
    ResettleGuarantees(m, user, c.model, c.provider, Some(EffectivePrompt(c.systemPrompt)), c.temperature, n);
  }

  /**
   * A "temp_X" button whose value text `float` accepts stores that value as
   * the temperature and keeps the rest of the session; one it rejects
   * changes nothing.
   */
  lemma TemperatureButtonStores(m: map<int, Context>, user: int, value: string, parseFloat: string -> Option<real>)
    requires WellFormed(m)
    requires '_' !in value
    ensures var c := Lookup(m, user);
      var r := CallbackStore(m, user, "temp_" + value, parseFloat);
      && (parseFloat(value).Some? ==>
            user in r && r[user] == c.(systemPrompt := Some(EffectivePrompt(c.systemPrompt)), temperature := parseFloat(value).value))
      && (parseFloat(value).None? ==> r == m)
  {
    var c := Lookup(m, user);
    var data := "temp_" + value;
    ButtonData("temp", value);
    assert "temp" + "_" + value == data;
    assert data[0] == 't' && data[1] == 'e' && |data| >= 5;
    NotANamedButton(data);
    if parseFloat(value).Some? {
      var t := parseFloat(value).value;
      assert CallbackEffect(c, data, parseFloat) == Save(c.model, c.provider, Some(EffectivePrompt(c.systemPrompt)), t, c.maxTokens);
      ResettleGuarantees(m, user, c.model, c.provider, Some(EffectivePrompt(c.systemPrompt)), t, c.maxTokens);
    } else {
      assert CallbackEffect(c, data, parseFloat) == Untouched;
    }
  }

  /**
   * The reads of the "show_info" branch. The values read only fill the reply text,
   * which is not modelled; the calls matter because the first one stores the
   * default session for an unseen user.
   */
  method ShowInfo(store: ContextManager, user: int)
    modifies store
    ensures store.contexts == Materialize(old(store.contexts), user)
  {
    MaterializeStable(store.contexts, user);
    var currentModel := store.GetUserModel(user);
    var currentProvider := store.GetUserProvider(user);
    var currentTemp := store.GetUserTemperature(user);
    var currentTokens := store.GetUserMaxTokens(user);
    var currentSystem := store.GetUserSystemPrompt(user);
    var messages := store.GetUserMessages(user);
  }

  /**
   * The reads of the "show_stats" branch. The values read only fill the reply text,
   * which is not modelled; the calls matter because the first one stores the
   * default session for an unseen user.
   */
  method ShowStats(store: ContextManager, user: int)
    modifies store
    ensures store.contexts == Materialize(old(store.contexts), user)
  {
    MaterializeStable(store.contexts, user);
    var openaiTokens := store.GetTokensUsed(user, Config.OPENAI);
    var anthropicTokens := store.GetTokensUsed(user, Config.ANTHROPIC);
    var currentProvider := store.GetUserProvider(user);
  }

  /**
   * The reads of the "show_settings" and "back_to_settings" branches. The values read only fill the reply text,
   * which is not modelled; the calls matter because the first one stores the
   * default session for an unseen user.
   */
  method ShowSettings(store: ContextManager, user: int)
    modifies store
    ensures store.contexts == Materialize(old(store.contexts), user)
  {
    MaterializeStable(store.contexts, user);
    var currentTemp := store.GetUserTemperature(user);
    var currentTokens := store.GetUserMaxTokens(user);
    var currentSystem := store.GetUserSystemPrompt(user);
  }

  /**
   * The reads of the "back_to_main" branch. The values read only fill the reply text,
   * which is not modelled; the calls matter because the first one stores the
   * default session for an unseen user.
   */
  method ShowMain(store: ContextManager, user: int)
    modifies store
    ensures store.contexts == Materialize(old(store.contexts), user)
  {
    MaterializeStable(store.contexts, user);
    var currentModel := store.GetUserModel(user);
    var currentProvider := store.GetUserProvider(user);
  }

  /** The "temp_…", "tokens_…" and "reset_settings" branches: the session saved back with new settings. */
  method SaveSettings(store: ContextManager, user: int, temperature: Option<real>, maxTokens: Option<int>, resetPrompt: bool)
    modifies store
    ensures var c := Lookup(old(store.contexts), user);
      var prompt := if resetPrompt then Some(Config.DEFAULT_SYSTEM_PROMPT) else Some(EffectivePrompt(c.systemPrompt));
      store.contexts == Resettle(old(store.contexts), user, c.model, c.provider, prompt,
                                 if temperature.Some? then temperature.value else c.temperature,
                                 if maxTokens.Some? then maxTokens.value else c.maxTokens)
  {
    var client := GetAiClient(store, user);
    var prompt := if resetPrompt then Some(Config.DEFAULT_SYSTEM_PROMPT) else client.systemPrompt;
    var newTemperature := if temperature.Some? then temperature.value else client.temperature;
    var newMaxTokens := if maxTokens.Some? then maxTokens.value else client.maxTokens;
    store.UpdateContext(user, client.messages, client.model, client.provider, prompt, newTemperature, newMaxTokens);
  }

  /**
   * `handle_callback` for a button's data: the handler's `elif` chain, with
   * the display-only branches reduced to the reads they make.
   */
  method HandleCallback(store: ContextManager, states: UserStates, user: int, data: string, now: real,
                        parseFloat: string -> Option<real>)
    modifies store, states
    ensures store.contexts == CallbackStore(old(store.contexts), user, data, parseFloat)
    ensures states.states == CallbackStates(old(states.states), user, data, now)
  {
    if data == "switch_openai" {
      SwitchProvider(store, user, Config.DEFAULT_MODEL_OPENAI, Config.OPENAI);
    } else if data == "switch_claude" {
      SwitchProvider(store, user, Config.DEFAULT_MODEL_ANTHROPIC, Config.ANTHROPIC);
    } else if data == "clear_context" {
      CmdClear(store, user);
    } else {
      HandleDisplayButtons(store, states, user, data, now, parseFloat);
    }
  }

  /** The display branches of `handle_callback`, from "show_info" to "set_temperature", then the rest. */
  method HandleDisplayButtons(store: ContextManager, states: UserStates, user: int, data: string, now: real,
                              parseFloat: string -> Option<real>)
    requires data !in {"switch_openai", "switch_claude", "clear_context"}
    modifies store, states
    ensures store.contexts == CallbackStore(old(store.contexts), user, data, parseFloat)
    ensures states.states == CallbackStates(old(states.states), user, data, now)
  {
    if data == "show_info" {
      ShowInfo(store, user);
    } else if data == "show_stats" {
      ShowStats(store, user);
    } else if data == "show_help" || data == "show_commands" || data == "show_models_info" {
    } else if data == "show_settings" {
      ShowSettings(store, user);
    } else if data == "set_temperature" {
    } else {
      HandleValueButtons(store, states, user, data, now, parseFloat);
    }
  }

  /** The "temp_…", "set_max_tokens" and "tokens_…" branches of `handle_callback`, then the rest. */
  method HandleValueButtons(store: ContextManager, states: UserStates, user: int, data: string, now: real,
                            parseFloat: string -> Option<real>)
    requires data !in {"switch_openai", "switch_claude", "clear_context", "show_info", "show_stats", "show_help",
                       "show_commands", "show_models_info", "show_settings", "set_temperature"}
    modifies store, states
    ensures store.contexts == CallbackStore(old(store.contexts), user, data, parseFloat)
    ensures states.states == CallbackStates(old(states.states), user, data, now)
  {
    if StartsWith(data, "temp_") {
      ValueButtonSetsNoState(data);
      TemperatureButton(store, user, data, parseFloat);
    } else if data == "set_max_tokens" {
      assert CallbackEffect(Lookup(store.contexts, user), data, parseFloat) == Untouched;
    } else if StartsWith(data, "tokens_") {
      ValueButtonSetsNoState(data);
      MaxTokensButton(store, user, data, parseFloat);
    } else {
      HandleLaterButtons(store, states, user, data, now, parseFloat);
    }
  }

  lemma ValueButtonSetsNoState(data: string)
    requires StartsWith(data, "temp_") || StartsWith(data, "tokens_")
    ensures data != "set_system_message"
  {
    assert data[0] == data[..5][0] == 't';
  }

  /** The "temp_…" branch: the text after `_` parsed as a float and saved as the temperature. */
  method TemperatureButton(store: ContextManager, user: int, data: string, parseFloat: string -> Option<real>)
    requires StartsWith(data, "temp_")
    requires data !in {"switch_openai", "switch_claude", "clear_context", "show_info", "show_stats", "show_help",
                       "show_commands", "show_models_info", "show_settings", "set_temperature"}
    modifies store
    ensures store.contexts == CallbackStore(old(store.contexts), user, data, parseFloat)
  {
    ghost var c := Lookup(store.contexts, user);
    ghost var e := CallbackEffect(c, data, parseFloat);
    PrefixHasUnderscore(data, "temp_");
    var tempValue := parseFloat(Split(data, '_')[1]);
    if tempValue.Some? {
      assert e == Save(c.model, c.provider, Some(EffectivePrompt(c.systemPrompt)), tempValue.value, c.maxTokens);
      SaveSettings(store, user, tempValue, None, false);
    } else {
      assert e == Untouched;
    }
  }

  /** The "tokens_…" branch: the text after `_` parsed as an integer and saved as `max_tokens`. */
  method MaxTokensButton(store: ContextManager, user: int, data: string, parseFloat: string -> Option<real>)
    requires StartsWith(data, "tokens_") && !StartsWith(data, "temp_")
    requires data !in {"switch_openai", "switch_claude", "clear_context", "show_info", "show_stats", "show_help",
                       "show_commands", "show_models_info", "show_settings", "set_temperature", "set_max_tokens"}
    modifies store
    ensures store.contexts == CallbackStore(old(store.contexts), user, data, parseFloat)
  {
    ghost var c := Lookup(store.contexts, user);
    ghost var e := CallbackEffect(c, data, parseFloat);
    PrefixHasUnderscore(data, "tokens_");
    var tokensValue := ParseInt(Split(data, '_')[1]);
    if tokensValue.Some? {
      assert e == Save(c.model, c.provider, Some(EffectivePrompt(c.systemPrompt)), c.temperature, tokensValue.value);
      SaveSettings(store, user, None, tokensValue, false);
    } else {
      assert e == Untouched;
    }
  }

  /** The branches of `handle_callback` after the "tokens_…" one. */
  method HandleLaterButtons(store: ContextManager, states: UserStates, user: int, data: string, now: real,
                            parseFloat: string -> Option<real>)
    requires !StartsWith(data, "temp_") && !StartsWith(data, "tokens_")
    requires data !in {"switch_openai", "switch_claude", "clear_context", "show_info", "show_stats", "show_help",
                       "show_commands", "show_models_info", "show_settings", "set_temperature", "set_max_tokens"}
    modifies store, states
    ensures store.contexts == CallbackStore(old(store.contexts), user, data, parseFloat)
    ensures states.states == CallbackStates(old(states.states), user, data, now)
  {
    ghost var c := Lookup(store.contexts, user);
    ghost var e := CallbackEffect(c, data, parseFloat);
    if data == "set_system_message" {
      assert e == Untouched;
      states.SetUserState(user, WAITING_SYSTEM_MESSAGE, now);
    } else if data == "reset_settings" {
      assert e == Save(c.model, c.provider, Some(Config.DEFAULT_SYSTEM_PROMPT), Config.DEFAULT_TEMPERATURE, Config.DEFAULT_MAX_TOKENS);
      SaveSettings(store, user, Some(Config.DEFAULT_TEMPERATURE), Some(Config.DEFAULT_MAX_TOKENS), true);
    } else if data == "back_to_settings" {
      assert e == Read;
      ShowSettings(store, user);
    } else if data == "back_to_main" {
      assert e == Read;
      ShowMain(store, user);
    } else {
      assert e == Untouched;
    }
  }
}
