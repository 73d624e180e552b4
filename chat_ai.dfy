/**
 * chat_ai.py: the older console client. It keeps history and prompt like
 * `ProxyAPIClient`, but takes its prompt at construction, returns only the
 * reply, counts no tokens, and asks the block-content provider for a fixed
 * thinking budget of 1024 tokens whatever `max_tokens` is.
 */
module ChatAi {
  import opened Wrappers
  import opened Text
  import opened Provider
  import ProxyApi
  import Config

  /** The budget `_send_anthropic` sends to an extended-thinking model. */
  const FIXED_THINKING_BUDGET: int := 1024

  /** The block-content request of chat_ai.py: `max_tokens` passed through, the budget fixed. */
  function ChatAnthropicRequestFor(model: string, maxTokens: int, prompt: Option<string>, history: seq<Message>): (r: AnthropicRequest)
    ensures r.model == model && r.maxTokens == maxTokens && r.messages == ToAnthropic(history)
    ensures r.system.Some? <==> Truthy(prompt)
    ensures r.system.Some? ==> r.system == prompt
    ensures r.thinking.Some? <==> IsExtendedThinkingModel(model)
    ensures r.thinking.Some? ==> r.thinking.value.budgetTokens == FIXED_THINKING_BUDGET
  {
    var system := if Truthy(prompt) then prompt else None;
    var thinking := if IsExtendedThinkingModel(model) then Some(ThinkingConfig(FIXED_THINKING_BUDGET)) else None;
    AnthropicRequest(model, maxTokens, ToAnthropic(history), system, thinking)
  }

  /** The model the console offers for the block-content provider is an extended-thinking model. */
  lemma DefaultAnthropicModelThinks()
    ensures IsExtendedThinkingModel(Config.DEFAULT_MODEL_ANTHROPIC)
  {
    assert OccursAt(Config.DEFAULT_MODEL_ANTHROPIC, "sonnet-4-5", 7);
  }

  /**
   * As written, an extended-thinking request with `max_tokens` at most 1024
   * (the default is 1000) carries a budget that is not below `max_tokens`,
   * which the provider requires it to be.
   */
  lemma {:induction false} BudgetReachesMaxTokens(maxTokens: int, prompt: Option<string>, history: seq<Message>)
    requires maxTokens <= FIXED_THINKING_BUDGET
    ensures var r := ChatAnthropicRequestFor(Config.DEFAULT_MODEL_ANTHROPIC, maxTokens, prompt, history);
      && r.thinking == Some(ThinkingConfig(FIXED_THINKING_BUDGET))
      && r.thinking.value.budgetTokens >= r.maxTokens
    ensures var r := AnthropicRequestFor(Config.DEFAULT_MODEL_ANTHROPIC, maxTokens, prompt, history);
      && r.thinking.Some? && r.thinking.value.budgetTokens < r.maxTokens
  {
    DefaultAnthropicModelThinks();
  }

  /** What one call of chat_ai.py's `send_message` comes to. */
  datatype Reply =
    | Replied(text: string, thinking: Option<string>)
      /** `clearsThinking`: the flat-chat call succeeded, so `last_thinking_text` was already reset. */
    | Errored(text: string, clearsThinking: bool)

  function ChatExchange(provider: string, model: string, temperature: real, maxTokens: int,
                        prompt: Option<string>, sent: seq<Message>,
                        callOpenai: OpenaiRequest -> Outcome<OpenaiResponse>,
                        callAnthropic: AnthropicRequest -> Outcome<AnthropicResponse>): (r: Reply)
    ensures provider == Config.ANTHROPIC && r.Replied? ==> r.text != ""
    ensures provider != Config.ANTHROPIC && r.Replied? ==> r.thinking.None?
    ensures r.Errored? ==> StartsWith(r.text, ErrorPrefix(provider))
    ensures r.Errored? && r.clearsThinking ==> provider != Config.ANTHROPIC
  {
    if provider == Config.ANTHROPIC then
      match callAnthropic(ChatAnthropicRequestFor(model, maxTokens, prompt, sent))
      case Raised(detail) => Errored(ErrorText(provider, detail), false)
      case Returned(response) => Replied(ReplyText(response.content), ThinkingText(response.content))
    else
      match callOpenai(OpenaiRequestFor(model, temperature, maxTokens, prompt, sent))
      case Raised(detail) => Errored(ErrorText(provider, detail), false)
      case Returned(response) =>
        if |response.choices| == 0 then Errored(ErrorText(provider, INDEX_ERROR), true)
        else Replied(response.choices[0], None)
  }

  /** The history after a call: user message and reply appended, or as it was before the call. */
  function HistoryAfter(before: seq<Message>, message: string, reply: Reply): (r: seq<Message>)
    ensures reply.Replied? ==> |r| == |before| + 2 && r[..|before|] == before
    ensures reply.Replied? ==> r[|before|..] == [Message(USER, message), Message(ASSISTANT, reply.text)]
    ensures reply.Errored? ==> r == before
  {
    if reply.Replied? then before + [Message(USER, message), Message(ASSISTANT, reply.text)] else before
  }

  /** A call never puts a system message into the history. */
  lemma HistoryAfterKeepsNoSystem(before: seq<Message>, message: string, reply: Reply)
    requires NoSystem(before)
    ensures NoSystem(HistoryAfter(before, message, reply))
  {
    assert USER[0] != SYSTEM[0] && ASSISTANT[0] != SYSTEM[0];
  }

  /** `last_thinking_text` after a call. */
  function ThinkingAfter(before: Option<string>, reply: Reply): Option<string>
  {
    match reply
    case Replied(_, thinking) => thinking
    case Errored(_, clears) => if clears then None else before
  }

  /**
   * Given the same answer, both clients leave the same history and the same
   * `last_thinking_text` behind.
   */
  lemma HistoryMatchesProxyClient(before: seq<Message>, message: string, thought: Option<string>,
                                  r: Reply, t: ProxyApi.Turn)
    requires r.Replied? <==> t.Answered?
    requires r.Replied? ==> r.text == t.reply && r.thinking == t.thinking
    requires r.Errored? ==> r.clearsThinking == t.clearsThinking
    ensures HistoryAfter(before, message, r) == ProxyApi.HistoryAfter(before, message, t)
    ensures ThinkingAfter(thought, r) == ProxyApi.ThinkingAfter(thought, t)
  {
  }

  /** chat_ai.py answers from the same parsed blocks and the same first choice as the proxy client; only the budget rule differs. */
  lemma SameReplyAsProxyClient(provider: string, model: string, temperature: real, maxTokens: int,
                               prompt: Option<string>, sent: seq<Message>,
                               callOpenai: OpenaiRequest -> Outcome<OpenaiResponse>,
                               callAnthropic: AnthropicRequest -> Outcome<AnthropicResponse>)
    requires provider != Config.ANTHROPIC || !IsExtendedThinkingModel(model)
    ensures var r := ChatExchange(provider, model, temperature, maxTokens, prompt, sent, callOpenai, callAnthropic);
      var t := ProxyApi.Exchange(provider, model, temperature, maxTokens, prompt, sent, callOpenai, callAnthropic);
      && r.text == t.Text()
      && (r.Replied? <==> t.Answered?)
      && (r.Replied? ==> r.thinking == t.thinking)
      && (r.Errored? ==> r.clearsThinking == t.clearsThinking)
  {
    if provider == Config.ANTHROPIC {
      assert ChatAnthropicRequestFor(model, maxTokens, prompt, sent) == AnthropicRequestFor(model, maxTokens, prompt, sent);
    }
  }

  /** Outside the extended-thinking case, a call through either client leaves the same history and thinking text. */
  lemma SameStateAsProxyClient(provider: string, model: string, temperature: real, maxTokens: int,
                               prompt: Option<string>, before: seq<Message>, message: string, thought: Option<string>,
                               callOpenai: OpenaiRequest -> Outcome<OpenaiResponse>,
                               callAnthropic: AnthropicRequest -> Outcome<AnthropicResponse>)
    requires provider != Config.ANTHROPIC || !IsExtendedThinkingModel(model)
    ensures var sent := before + [Message(USER, message)];
      var r := ChatExchange(provider, model, temperature, maxTokens, prompt, sent, callOpenai, callAnthropic);
      var t := ProxyApi.Exchange(provider, model, temperature, maxTokens, prompt, sent, callOpenai, callAnthropic);
      && HistoryAfter(before, message, r) == ProxyApi.HistoryAfter(before, message, t)
      && ThinkingAfter(thought, r) == ProxyApi.ThinkingAfter(thought, t)
  {
    var sent := before + [Message(USER, message)];
    SameReplyAsProxyClient(provider, model, temperature, maxTokens, prompt, sent, callOpenai, callAnthropic);
    HistoryMatchesProxyClient(before, message, thought,
      ChatExchange(provider, model, temperature, maxTokens, prompt, sent, callOpenai, callAnthropic),
      ProxyApi.Exchange(provider, model, temperature, maxTokens, prompt, sent, callOpenai, callAnthropic));
  }

  class ChatAI {
    const provider: string
    const model: string
    const temperature: real
    const maxTokens: int
    var systemPrompt: Option<string>
    var messages: seq<Message>
    var lastThinkingText: Option<string>

    constructor (model: string, provider: string, temperature: real, maxTokens: int, systemMessage: Option<string>)
      ensures this.model == model && this.provider == provider
      ensures this.temperature == temperature && this.maxTokens == maxTokens
      ensures systemPrompt == systemMessage && messages == [] && lastThinkingText == None
    {
      this.provider := provider;
      this.model := model;
      this.temperature := temperature;
      this.maxTokens := maxTokens;
      systemPrompt := systemMessage;
      messages := [];
      lastThinkingText := None;
    }

    method AddMessage(role: string, content: string)
      modifies this
      ensures messages == old(messages) + [Message(role, content)]
      ensures systemPrompt == old(systemPrompt) && lastThinkingText == old(lastThinkingText)
    {
      messages := messages + [Message(role, content)];
    }

    method ClearHistory()
      modifies this
      ensures messages == []
      ensures systemPrompt == old(systemPrompt) && lastThinkingText == old(lastThinkingText)
    {
      messages := [];
    }

    /** A copy of the history: the same messages, and the client is unchanged. */
    method GetHistory() returns (history: seq<Message>)
      ensures history == messages
    {
      history := messages;
    }

    /** Stores the prompt and drops the system-role messages, keeping the rest in order. */
    method SetSystemPrompt(prompt: string)
      modifies this
      ensures systemPrompt == Some(prompt)
      ensures messages == WithoutSystem(old(messages))
      ensures lastThinkingText == old(lastThinkingText)
    {
      systemPrompt := Some(prompt);
      messages := WithoutSystem(messages);
    }

    /** The arguments of the flat-chat call (`_openai_messages` and `_send_openai`). */
    method OpenaiParams() returns (params: OpenaiRequest)
      ensures params == OpenaiRequestFor(model, temperature, maxTokens, systemPrompt, messages)
    {
      var msgs := messages;
      if Truthy(systemPrompt) {
        msgs := [Message(SYSTEM, systemPrompt.value)] + msgs;
      }
      params := OpenaiRequest(model, msgs, temperature, maxTokens);
    }

    /** The arguments of the block-content call (`_send_anthropic`). */
    method AnthropicParams() returns (params: AnthropicRequest)
      ensures params == ChatAnthropicRequestFor(model, maxTokens, systemPrompt, messages)
    {
      var converted := ProxyApi.ConvertHistory(messages);
      var system: Option<string> := None;
      if Truthy(systemPrompt) {
        system := systemPrompt;
      }
      var thinking: Option<ThinkingConfig> := None;
      if Contains(model, "sonnet-4-5") || Contains(model, "sonnet-4.5") {
        thinking := Some(ThinkingConfig(1024));
      }
      params := AnthropicRequest(model, maxTokens, converted, system, thinking);
    }

    /**
     * `send_message`: adopts `prompt` only when no prompt is set, appends the
     * user's message, then appends the reply, or on failure removes the
     * user's message again and returns the error text.
     */
    method SendMessage(message: string, prompt: Option<string>,
                       callOpenai: OpenaiRequest -> Outcome<OpenaiResponse>,
                       callAnthropic: AnthropicRequest -> Outcome<AnthropicResponse>)
      returns (reply: string)
      modifies this
      ensures var adopt := Truthy(prompt) && !Truthy(old(systemPrompt));
        var before := if adopt then WithoutSystem(old(messages)) else old(messages);
        var r := ChatExchange(provider, model, temperature, maxTokens, systemPrompt, before + [Message(USER, message)], callOpenai, callAnthropic);
        && systemPrompt == (if adopt then prompt else old(systemPrompt))
        && messages == HistoryAfter(before, message, r)
        && lastThinkingText == ThinkingAfter(old(lastThinkingText), r)
        && reply == r.text
    {
      AdoptPrompt(prompt);
      reply := Converse(message, callOpenai, callAnthropic);
    }

    /** The start of `send_message`: `prompt` is adopted only when no prompt is set yet. */
    method AdoptPrompt(prompt: Option<string>)
      modifies this
      ensures var adopt := Truthy(prompt) && !Truthy(old(systemPrompt));
        && systemPrompt == (if adopt then prompt else old(systemPrompt))
        && messages == (if adopt then WithoutSystem(old(messages)) else old(messages))
        && lastThinkingText == old(lastThinkingText)
    {
      if Truthy(prompt) && !Truthy(systemPrompt) {
        SetSystemPrompt(prompt.value);
      }
    }

    /**
     * The rest of `send_message`: the user's message appended, the provider
     * called, then the reply appended, or the user's message removed again.
     */
    method Converse(message: string,
                    callOpenai: OpenaiRequest -> Outcome<OpenaiResponse>,
                    callAnthropic: AnthropicRequest -> Outcome<AnthropicResponse>)
      returns (reply: string)
      modifies this
      ensures var turn := ChatExchange(provider, model, temperature, maxTokens, systemPrompt, old(messages) + [Message(USER, message)], callOpenai, callAnthropic);
        && systemPrompt == old(systemPrompt)
        && messages == HistoryAfter(old(messages), message, turn)
        && lastThinkingText == ThinkingAfter(old(lastThinkingText), turn)
        && reply == turn.text
    {
      ghost var before := messages;
      AddMessage(USER, message);
      ghost var turn := ChatExchange(provider, model, temperature, maxTokens, systemPrompt, messages, callOpenai, callAnthropic);

      var failure, aiResponse := CallProvider(callOpenai, callAnthropic);
      assert messages == before + [Message(USER, message)];
      if failure.None? {
        AddMessage(ASSISTANT, aiResponse);
        reply := aiResponse;
        assert HistoryAfter(before, message, turn) == before + [Message(USER, message), Message(ASSISTANT, aiResponse)] by {
          assert turn.Replied? && turn.text == aiResponse;
        }
      } else {
        reply := ErrorText(provider, failure.value);
        if |messages| > 0 && messages[|messages| - 1].role == USER {
          messages := messages[..|messages| - 1];
        }
        assert messages == before;
        assert HistoryAfter(before, message, turn) == before by {
          assert turn.Errored?;
        }
      }
    }

    /**
     * The provider branch of `send_message`'s `try` block for the current
     * history: the call and its reply, or the failure's detail. Only the
     * stored reasoning text changes.
     */
    method CallProvider(callOpenai: OpenaiRequest -> Outcome<OpenaiResponse>,
                        callAnthropic: AnthropicRequest -> Outcome<AnthropicResponse>)
      returns (failure: Option<string>, aiResponse: string)
      modifies this
      ensures var r := ChatExchange(provider, model, temperature, maxTokens, systemPrompt, messages, callOpenai, callAnthropic);
        && (failure.None? ==> r == Replied(aiResponse, lastThinkingText))
        && (failure.Some? ==> r.Errored? && r.text == ErrorText(provider, failure.value))
        && lastThinkingText == ThinkingAfter(old(lastThinkingText), r)
      ensures messages == old(messages) && systemPrompt == old(systemPrompt)
    {
      ghost var r := ChatExchange(provider, model, temperature, maxTokens, systemPrompt, messages, callOpenai, callAnthropic);
      aiResponse, failure := "", None;
      if provider == Config.ANTHROPIC {
        var params := AnthropicParams();
        match callAnthropic(params)
        case Raised(detail) =>
          failure := Some(detail);
          assert r == Errored(ErrorText(provider, detail), false);
        case Returned(response) =>
          lastThinkingText, aiResponse := ParseBlocks(response.content);
          assert r == Replied(aiResponse, lastThinkingText);
      } else {
        var params := OpenaiParams();
        match callOpenai(params)
        case Raised(detail) =>
          failure := Some(detail);
          assert r == Errored(ErrorText(provider, detail), false);
        case Returned(response) =>
          lastThinkingText := None;
          if |response.choices| == 0 {
            failure := Some(INDEX_ERROR);
            assert r == Errored(ErrorText(provider, INDEX_ERROR), true);
          } else {
            aiResponse := response.choices[0];
            assert r == Replied(aiResponse, None);
          }
      }
    }
  }
}
