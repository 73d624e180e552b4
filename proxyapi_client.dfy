/**
 * proxyapi_client.py: the chat client the bot creates for every turn. It
 * holds the history and the system prompt, builds the provider's request,
 * parses the answer, counts the tokens and rolls the history back when the
 * call fails. The provider calls are parameters of `SendMessage`.
 */
module ProxyApi {
  import opened Wrappers
  import opened Text
  import opened Provider
  import Config

  /** What one provider call comes to. */
  datatype Turn =
    | Answered(reply: string, thinking: Option<string>, tokens: nat)
      /** `error` is the text returned to the caller; `clearsThinking` is set when the
          flat-chat call itself succeeded, so `last_thinking_text` was already reset. */
    | Failed(error: string, clearsThinking: bool)
  {
    /** The first element of `send_message`'s result. */
    function Text(): string
    {
      if Answered? then reply else error
    }

    /** The second element of `send_message`'s result. */
    function Count(): nat
    {
      if Answered? then tokens else 0
    }
  }

  /**
   * The call a client makes for the history `sent` (which already ends with
   * the user's message) and what its `try` block makes of the outcome.
   */
  function Exchange(provider: string, model: string, temperature: real, maxTokens: int,
                    prompt: Option<string>, sent: seq<Message>,
                    callOpenai: OpenaiRequest -> Outcome<OpenaiResponse>,
                    callAnthropic: AnthropicRequest -> Outcome<AnthropicResponse>): (t: Turn)
    ensures t.Answered? ==> t.tokens >= 1
    ensures provider == Config.ANTHROPIC && t.Answered? ==> t.reply != ""
    ensures provider != Config.ANTHROPIC && t.Answered? ==> t.thinking.None?
    ensures t.Failed? ==> StartsWith(t.error, ErrorPrefix(provider))
    ensures t.Failed? && t.clearsThinking ==> provider != Config.ANTHROPIC
  {
    if provider == Config.ANTHROPIC then
      match callAnthropic(AnthropicRequestFor(model, maxTokens, prompt, sent))
      case Raised(detail) => Failed(ErrorText(provider, detail), false)
      case Returned(response) =>
        var reply := ReplyText(response.content);
        Answered(reply, ThinkingText(response.content), TokensFor(ReportedAnthropic(response.usage), reply))
    else
      match callOpenai(OpenaiRequestFor(model, temperature, maxTokens, prompt, sent))
      case Raised(detail) => Failed(ErrorText(provider, detail), false)
      case Returned(response) =>
        if |response.choices| == 0 then Failed(ErrorText(provider, INDEX_ERROR), true)
        else Answered(response.choices[0], None, TokensFor(ReportedOpenai(response.usage), response.choices[0]))
  }

  /** The history after a turn: the user's message and the reply appended, or the history as it was before the call. */
  function HistoryAfter(before: seq<Message>, message: string, turn: Turn): (r: seq<Message>)
    ensures turn.Answered? ==> |r| == |before| + 2 && r[..|before|] == before
    ensures turn.Answered? ==> r[|before|..] == [Message(USER, message), Message(ASSISTANT, turn.reply)]
    ensures turn.Failed? ==> r == before
  {
    if turn.Answered? then before + [Message(USER, message), Message(ASSISTANT, turn.reply)] else before
  }

  /** A turn never puts a system message into the history. */
  lemma HistoryAfterKeepsNoSystem(before: seq<Message>, message: string, turn: Turn)
    requires NoSystem(before)
    ensures NoSystem(HistoryAfter(before, message, turn))
  {
    assert USER[0] != SYSTEM[0] && ASSISTANT[0] != SYSTEM[0];
  }

  /** `last_thinking_text` after a turn. */
  function ThinkingAfter(before: Option<string>, turn: Turn): Option<string>
  {
    match turn
    case Answered(_, thinking, _) => thinking
    case Failed(_, clears) => if clears then None else before
  }

  /**
   * What a turn leaves in `last_thinking_text`: a flat-chat provider never
   * leaves thinking text behind after a call that returned, and a call that
   * raised keeps whatever the previous turn left.
   */
  lemma ThinkingAfterExchange(provider: string, model: string, temperature: real, maxTokens: int,
                              prompt: Option<string>, sent: seq<Message>,
                              callOpenai: OpenaiRequest -> Outcome<OpenaiResponse>,
                              callAnthropic: AnthropicRequest -> Outcome<AnthropicResponse>,
                              before: Option<string>)
    ensures var t := Exchange(provider, model, temperature, maxTokens, prompt, sent, callOpenai, callAnthropic);
      && (provider == Config.ANTHROPIC && t.Answered? ==> ThinkingAfter(before, t) == t.thinking)
      && (provider == Config.ANTHROPIC && t.Failed? ==> ThinkingAfter(before, t) == before)
      && (provider != Config.ANTHROPIC ==> ThinkingAfter(before, t).None? || (t.Failed? && ThinkingAfter(before, t) == before))
  {
  }

  /** A flat-chat turn that succeeds returns its first choice and at least one token; one with no choice fails. */
  lemma OpenaiTurn(model: string, temperature: real, maxTokens: int, prompt: Option<string>, sent: seq<Message>,
                   callOpenai: OpenaiRequest -> Outcome<OpenaiResponse>, callAnthropic: AnthropicRequest -> Outcome<AnthropicResponse>,
                   response: OpenaiResponse)
    requires callOpenai(OpenaiRequestFor(model, temperature, maxTokens, prompt, sent)) == Returned(response)
    ensures var t := Exchange(Config.OPENAI, model, temperature, maxTokens, prompt, sent, callOpenai, callAnthropic);
      && (|response.choices| == 0 ==> t == Failed(ErrorText(Config.OPENAI, INDEX_ERROR), true))
      && (|response.choices| > 0 ==> t.Answered? && t.reply == response.choices[0] && t.tokens >= 1)
      && (|response.choices| > 0 && ReportedOpenai(response.usage) != 0 ==> t.Count() == ReportedOpenai(response.usage))
  {
    assert Config.OPENAI != Config.ANTHROPIC by {
      assert Config.OPENAI[0] != Config.ANTHROPIC[0];
    }
  }

  class ProxyAPIClient {
    const provider: string
    const model: string
    const temperature: real
    const maxTokens: int
    var systemPrompt: Option<string>
    var messages: seq<Message>
    var lastThinkingText: Option<string>

    constructor (model: string, provider: string, temperature: real, maxTokens: int)
      ensures this.model == model && this.provider == provider
      ensures this.temperature == temperature && this.maxTokens == maxTokens
      ensures systemPrompt == None && messages == [] && lastThinkingText == None
    {
      this.provider := provider;
      this.model := model;
      this.temperature := temperature;
      this.maxTokens := maxTokens;
      systemPrompt := None;
      messages := [];
      lastThinkingText := None;
    }

    method AddMessage(role: string, content: string)
      modifies this
      ensures messages == old(messages) + [Message(role, content)]
      ensures systemPrompt == old(systemPrompt) && lastThinkingText == old(lastThinkingText)
    {
      messages := messages + [Message(role, content)];
    }

    method ClearHistory()
      modifies this
      ensures messages == []
      ensures systemPrompt == old(systemPrompt) && lastThinkingText == old(lastThinkingText)
    {
      messages := [];
    }

    /** A copy of the history: the same messages, and the client is unchanged. */
    method GetHistory() returns (history: seq<Message>)
      ensures history == messages
    {
      history := messages;
    }

    /** Stores the prompt and drops the system-role messages, keeping the rest in order. */
    method SetSystemPrompt(prompt: string)
      modifies this
      ensures systemPrompt == Some(prompt)
      ensures messages == WithoutSystem(old(messages))
      ensures lastThinkingText == old(lastThinkingText)
    {
      systemPrompt := Some(prompt);
      messages := WithoutSystem(messages);
    }

    /** The arguments of the flat-chat call (`_openai_messages` and `_send_openai`). */
    method OpenaiParams() returns (params: OpenaiRequest)
      ensures params == OpenaiRequestFor(model, temperature, maxTokens, systemPrompt, messages)
    {
      var msgs := messages;
      if Truthy(systemPrompt) {
        msgs := [Message(SYSTEM, systemPrompt.value)] + msgs;
      }
      params := OpenaiRequest(model, msgs, temperature, maxTokens);
    }

    /** The arguments of the block-content call (`_send_anthropic`). */
    method AnthropicParams() returns (params: AnthropicRequest)
      ensures params == AnthropicRequestFor(model, maxTokens, systemPrompt, messages)
    {
      var converted := ConvertHistory(messages);
      var system: Option<string> := None;
      if Truthy(systemPrompt) {
        system := systemPrompt;
      }
      var effective := maxTokens;
      var thinking: Option<ThinkingConfig> := None;
      if Contains(model, "sonnet-4-5") || Contains(model, "sonnet-4.5") {
        var budget;
        if maxTokens < 1536 {
          effective := 2048;
          budget := 1024;
        } else {
          budget := Min(1024, maxTokens * 66 / 100);
        }
        thinking := Some(ThinkingConfig(budget));
      }
      params := AnthropicRequest(model, effective, converted, system, thinking);
    }

    /**
     * `send_message`: adopts `prompt` only when no prompt is set yet, appends
     * the user's message, calls the provider, then appends the reply, or
     * removes the user's message again and returns the error text and 0.
     */
    method SendMessage(message: string, prompt: Option<string>,
                       callOpenai: OpenaiRequest -> Outcome<OpenaiResponse>,
                       callAnthropic: AnthropicRequest -> Outcome<AnthropicResponse>)
      returns (reply: string, tokens: nat)
      modifies this
      ensures var adopt := Truthy(prompt) && !Truthy(old(systemPrompt));
        var before := if adopt then WithoutSystem(old(messages)) else old(messages);
        var turn := Exchange(provider, model, temperature, maxTokens, systemPrompt, before + [Message(USER, message)], callOpenai, callAnthropic);
        && systemPrompt == (if adopt then prompt else old(systemPrompt))
        && messages == HistoryAfter(before, message, turn)
        && lastThinkingText == ThinkingAfter(old(lastThinkingText), turn)
        && reply == turn.Text() && tokens == turn.Count()
    {
      AdoptPrompt(prompt);
      reply, tokens := Converse(message, callOpenai, callAnthropic);
    }

    /** The start of `send_message`: `prompt` is adopted only when no prompt is set yet. */
    method AdoptPrompt(prompt: Option<string>)
      modifies this
      ensures var adopt := Truthy(prompt) && !Truthy(old(systemPrompt));
        && systemPrompt == (if adopt then prompt else old(systemPrompt))
        && messages == (if adopt then WithoutSystem(old(messages)) else old(messages))
        && lastThinkingText == old(lastThinkingText)
    {
      if Truthy(prompt) && !Truthy(systemPrompt) {
        SetSystemPrompt(prompt.value);
      }
    }

    /**
     * The rest of `send_message`: the user's message appended, the provider
     * called, then the reply appended, or the user's message removed again.
     */
    method Converse(message: string,
                    callOpenai: OpenaiRequest -> Outcome<OpenaiResponse>,
                    callAnthropic: AnthropicRequest -> Outcome<AnthropicResponse>)
      returns (reply: string, tokens: nat)
      modifies this
      ensures var turn := Exchange(provider, model, temperature, maxTokens, systemPrompt, old(messages) + [Message(USER, message)], callOpenai, callAnthropic);
        && systemPrompt == old(systemPrompt)
        && messages == HistoryAfter(old(messages), message, turn)
        && lastThinkingText == ThinkingAfter(old(lastThinkingText), turn)
        && reply == turn.Text() && tokens == turn.Count()
    {
      ghost var before := messages;
      AddMessage(USER, message);
      ghost var turn := Exchange(provider, model, temperature, maxTokens, systemPrompt, messages, callOpenai, callAnthropic);

      var failure, aiResponse, tokensUsed := CallProvider(callOpenai, callAnthropic);
      assert messages == before + [Message(USER, message)];
      if failure.None? {
        AddMessage(ASSISTANT, aiResponse);
        reply, tokens := aiResponse, Max(1, tokensUsed);
        assert HistoryAfter(before, message, turn) == before + [Message(USER, message), Message(ASSISTANT, aiResponse)] by {
          assert turn.Answered? && turn.reply == aiResponse;
        }
      } else {
        reply := ErrorText(provider, failure.value);
        if |messages| > 0 && messages[|messages| - 1].role == USER {
          messages := messages[..|messages| - 1];
        }
        tokens := 0;
        assert messages == before;
        assert HistoryAfter(before, message, turn) == before by {
          assert turn.Failed?;
        }
      }
    }

    /**
     * The provider branch of `send_message`'s `try` block for the current
     * history: the call, the parsed reply and token count, or the failure's
     * detail. Only the stored reasoning text changes.
     */
    method CallProvider(callOpenai: OpenaiRequest -> Outcome<OpenaiResponse>,
                        callAnthropic: AnthropicRequest -> Outcome<AnthropicResponse>)
      returns (failure: Option<string>, aiResponse: string, tokensUsed: nat)
      modifies this
      ensures var turn := Exchange(provider, model, temperature, maxTokens, systemPrompt, messages, callOpenai, callAnthropic);
        && (failure.None? ==> turn == Answered(aiResponse, lastThinkingText, tokensUsed))
        && (failure.Some? ==> turn.Failed? && turn.error == ErrorText(provider, failure.value))
        && lastThinkingText == ThinkingAfter(old(lastThinkingText), turn)
      ensures messages == old(messages) && systemPrompt == old(systemPrompt)
    {
      ghost var turn := Exchange(provider, model, temperature, maxTokens, systemPrompt, messages, callOpenai, callAnthropic);
      aiResponse, tokensUsed, failure := "", 0, None;
      if provider == Config.ANTHROPIC {
        var params := AnthropicParams();
        match callAnthropic(params)
        case Raised(detail) =>
          failure := Some(detail);
          assert turn == Failed(ErrorText(provider, detail), false);
        case Returned(response) =>
          lastThinkingText, aiResponse, tokensUsed := ParseAnthropic(response);
          assert turn == Answered(aiResponse, lastThinkingText, tokensUsed);
      } else {
        var params := OpenaiParams();
        match callOpenai(params)
        case Raised(detail) =>
          failure := Some(detail);
          assert turn == Failed(ErrorText(provider, detail), false);
        case Returned(response) =>
          lastThinkingText := None;
          if |response.choices| == 0 {
            failure := Some(INDEX_ERROR);
            assert turn == Failed(ErrorText(provider, INDEX_ERROR), true);
          } else {
            aiResponse, tokensUsed := ParseOpenai(response);
            assert turn == Answered(aiResponse, None, tokensUsed);
          }
      }
    }
  }

  /** The block-content branch of `send_message`'s `try`: reasoning, reply and token count of a response. */
  method ParseAnthropic(response: AnthropicResponse) returns (thinking: Option<string>, aiResponse: string, tokensUsed: nat)
    ensures thinking == ThinkingText(response.content)
    ensures aiResponse == ReplyText(response.content)
    ensures tokensUsed == TokensFor(ReportedAnthropic(response.usage), aiResponse)
  {
    thinking, aiResponse := ParseBlocks(response.content);
    var count: int := 0;
    if response.usage.Some? {
      var usage := response.usage.value;
      count := FirstNonZero(usage.outputTokens, usage.totalTokens, usage.inputTokens + usage.outputTokens);
    }
    if count == 0 && aiResponse != "" {
      count := Max(1, |aiResponse| / 4);
    } else if count == 0 {
      count := 1;
    }
    tokensUsed := count;
  }

  /** The flat-chat branch of `send_message`'s `try`, once `choices[0]` exists: reply and token count. */
  method ParseOpenai(response: OpenaiResponse) returns (aiResponse: string, tokensUsed: nat)
    requires |response.choices| > 0
    ensures aiResponse == response.choices[0]
    ensures tokensUsed == TokensFor(ReportedOpenai(response.usage), aiResponse)
  {
    aiResponse := response.choices[0];
    var count: int := 0;
    if response.usage.Some? {
      var usage := response.usage.value;
      count := FirstNonZero(usage.totalTokens, usage.completionTokens, usage.promptTokens + usage.completionTokens);
    }
    if count == 0 && aiResponse != "" {
      count := Max(1, |aiResponse| / 4);
    } else if count == 0 {
      count := 1;
    }
    tokensUsed := count;
  }

  /** `_anthropic_messages`: the loop that keeps the user and assistant messages, each as one text block. */
  method ConvertHistory(msgs: seq<Message>) returns (converted: seq<AnthropicMessage>)
    ensures converted == ToAnthropic(msgs)
  {
    converted := [];
    SystemIsNotDialogue();
    var i := 0;
    while i < |msgs|
      invariant 0 <= i <= |msgs|
      invariant converted == ToAnthropic(msgs[..i])
    {
      assert msgs[..i + 1][..i] == msgs[..i];
      var msg := msgs[i];
      if msg.role == SYSTEM {
      } else if msg.role != USER && msg.role != ASSISTANT {
      } else {
        converted := converted + [AnthropicMessage(msg.role, [TextBlock(msg.content)])];
      }
      i := i + 1;
    }
    assert msgs[..i] == msgs;
  }
}
