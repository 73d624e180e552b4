/**
 * What the two chat clients (proxyapi_client.py and its older twin
 * chat_ai.py) share: the message record, the shapes of the two providers'
 * requests and responses, the history transformations that build a request,
 * the parsing of a block-content response and the token-count fallback.
 * The providers' SDK calls are not modelled; a client receives them as
 * function parameters from a request to an `Outcome` (a response, or the
 * text of the exception the call raised).
 */
module Provider {
  import opened Wrappers
  import opened Text
  import Config

  const USER: string := "user"
  const ASSISTANT: string := "assistant"
  const SYSTEM: string := "system"

  /** `{"role": role, "content": content}` */
  datatype Message = Message(role: string, content: string)

  /** Python truthiness of an optional string: present and not empty. */
  predicate Truthy(s: Option<string>)
  {
    s.Some? && s.value != ""
  }

  predicate NoSystem(msgs: seq<Message>)
  {
    forall i :: 0 <= i < |msgs| ==> msgs[i].role != SYSTEM
  }

  // ----- set_system_prompt: drop the system-role messages -----

  /** `[msg for msg in messages if msg["role"] != "system"]` */
  function WithoutSystem(msgs: seq<Message>): (r: seq<Message>)
    ensures |r| <= |msgs|
    ensures NoSystem(r)
  {
    if msgs == [] then []
    else
      var last := msgs[|msgs| - 1];
      WithoutSystem(msgs[..|msgs| - 1]) + (if last.role == SYSTEM then [] else [last])
  }

  /** The filter works piecewise, so the kept messages stay in their original order. */
  lemma {:induction false} WithoutSystemAppend(a: seq<Message>, b: seq<Message>)
    ensures WithoutSystem(a + b) == WithoutSystem(a) + WithoutSystem(b)
    decreases |b|
  {
    if b == [] {
      assert a + b == a;
    } else {
      var b', last := b[..|b| - 1], b[|b| - 1];
      WithoutSystemAppend(a, b');
      var tail := if last.role == SYSTEM then [] else [last];
      assert (a + b)[..|a + b| - 1] == a + b';
      assert (a + b)[|a + b| - 1] == last;
      calc {
        WithoutSystem(a + b);
        WithoutSystem(a + b') + tail;
        (WithoutSystem(a) + WithoutSystem(b')) + tail;
        WithoutSystem(a) + (WithoutSystem(b') + tail);
        WithoutSystem(a) + WithoutSystem(b);
      }
    }
  }

  /** A history with no system message is left exactly as it is. */
  lemma {:induction false} WithoutSystemKeepsClean(msgs: seq<Message>)
    requires NoSystem(msgs)
    ensures WithoutSystem(msgs) == msgs
  {
    if msgs != [] {
      WithoutSystemKeepsClean(msgs[..|msgs| - 1]);
      assert msgs == msgs[..|msgs| - 1] + [msgs[|msgs| - 1]];
    }
  }

  // ----- _openai_messages: the flat chat-completions list -----

  /** `[{"role": "system", "content": prompt}] + messages` when the prompt is truthy, else the messages. */
  function WithSystemPrompt(prompt: Option<string>, msgs: seq<Message>): (r: seq<Message>)
    ensures |r| == |msgs| + (if Truthy(prompt) then 1 else 0)
    ensures r[|r| - |msgs|..] == msgs
    ensures Truthy(prompt) ==> r[0] == Message(SYSTEM, prompt.value)
  {
    if Truthy(prompt) then [Message(SYSTEM, prompt.value)] + msgs else msgs
  }

  // ----- _anthropic_messages: content blocks -----

  /** `{"type": "text", "text": text}` */
  datatype TextBlock = TextBlock(text: string)

  /** `{"role": role, "content": [blocks]}` */
  datatype AnthropicMessage = AnthropicMessage(role: string, content: seq<TextBlock>)

  predicate IsDialogueRole(role: string)
  {
    role == USER || role == ASSISTANT
  }

  lemma SystemIsNotDialogue()
    ensures !IsDialogueRole(SYSTEM)
  {
    assert SYSTEM[0] != USER[0] && SYSTEM[0] != ASSISTANT[0];
  }

  function Wrap(m: Message): AnthropicMessage
  {
    AnthropicMessage(m.role, [TextBlock(m.content)])
  }

  /**
   * The history as the block-content provider receives it: only user and
   * assistant messages, in order, each wrapped as one text block.
   */
  function ToAnthropic(msgs: seq<Message>): (r: seq<AnthropicMessage>)
    ensures |r| <= |msgs|
    ensures forall i :: 0 <= i < |r| ==> IsDialogueRole(r[i].role) && |r[i].content| == 1
    ensures (forall i :: 0 <= i < |msgs| ==> IsDialogueRole(msgs[i].role)) ==>
              |r| == |msgs| && forall i :: 0 <= i < |r| ==> r[i] == Wrap(msgs[i])
  {
    if msgs == [] then []
    else
      var last := msgs[|msgs| - 1];
      ToAnthropic(msgs[..|msgs| - 1]) + (if IsDialogueRole(last.role) then [Wrap(last)] else [])
  }

  /** Converting a history piecewise gives the same blocks in the same order. */
  lemma {:induction false} ToAnthropicAppend(a: seq<Message>, b: seq<Message>)
    ensures ToAnthropic(a + b) == ToAnthropic(a) + ToAnthropic(b)
    decreases |b|
  {
    if b == [] {
      assert a + b == a;
    } else {
      var b' := b[..|b| - 1];
      ToAnthropicAppend(a, b');
      assert (a + b)[..|a + b| - 1] == a + b';
    }
  }

  /** System messages are never sent as messages: stripping them first changes nothing. */
  lemma {:induction false} ToAnthropicIgnoresSystem(msgs: seq<Message>)
    ensures ToAnthropic(WithoutSystem(msgs)) == ToAnthropic(msgs)
  {
    if msgs != [] {
      var init, last := msgs[..|msgs| - 1], msgs[|msgs| - 1];
      ToAnthropicIgnoresSystem(init);
      var tail := if IsDialogueRole(last.role) then [Wrap(last)] else [];
      assert ToAnthropic(msgs) == ToAnthropic(init) + tail;
      if last.role == SYSTEM {
        SystemIsNotDialogue();
        assert tail == [];
        assert WithoutSystem(msgs) == WithoutSystem(init);
        assert ToAnthropic(msgs) == ToAnthropic(init);
      } else {
        var w := WithoutSystem(init) + [last];
        assert WithoutSystem(msgs) == w;
        assert w[..|w| - 1] == WithoutSystem(init);
        assert ToAnthropic(w) == ToAnthropic(WithoutSystem(init)) + tail;
      }
    }
  }

  // ----- requests -----

  /** `{"type": "enabled", "budget_tokens": budget}` */
  datatype ThinkingConfig = ThinkingConfig(budgetTokens: int)

  /** Arguments of `chat.completions.create`. */
  datatype OpenaiRequest = OpenaiRequest(model: string, messages: seq<Message>, temperature: real, maxCompletionTokens: int)

  /**
   * Arguments of `messages.create`. There is no temperature: the block-content
   * provider is never sent one. `system` and `thinking` are absent keys when `None`.
   */
  datatype AnthropicRequest = AnthropicRequest(
    model: string,
    maxTokens: int,
    messages: seq<AnthropicMessage>,
    system: Option<string>,
    thinking: Option<ThinkingConfig>)

  /**
   * Arguments of `chat.completions.create`: the client's settings, and the
   * history after one system message exactly when the prompt is non-empty.
   */
  function OpenaiRequestFor(model: string, temperature: real, maxTokens: int, prompt: Option<string>, history: seq<Message>): (r: OpenaiRequest)
    ensures r.model == model && r.temperature == temperature && r.maxCompletionTokens == maxTokens
    ensures |r.messages| == |history| + (if Truthy(prompt) then 1 else 0)
    ensures r.messages[|r.messages| - |history|..] == history
    ensures NoSystem(history) ==> (NoSystem(r.messages) <==> !Truthy(prompt))
  {
    OpenaiRequest(model, WithSystemPrompt(prompt, history), temperature, maxTokens)
  }

  /** The model names that get extended thinking. */
  predicate IsExtendedThinkingModel(model: string)
  {
    Contains(model, "sonnet-4-5") || Contains(model, "sonnet-4.5")
  }

  const THINKING_FLOOR: int := 1536
  const RAISED_MAX_TOKENS: int := 2048
  const MAX_THINKING_BUDGET: int := 1024
  /** The tokens left for the answer after the largest budget: THINKING_FLOOR is MAX_THINKING_BUDGET plus this. */
  const ANSWER_MARGIN: int := 512

  /**
   * The effective `max_tokens` and the thinking budget for an
   * extended-thinking request, as `(maxTokens, budget)`. `int(max_tokens * 0.66)`
   * is taken as `max_tokens * 66 / 100`: both are non-negative here and the
   * two agree on every `max_tokens >= 1536` that the cap at 1024 lets through.
   */
  function ThinkingBudget(maxTokens: int): (r: (int, int))
    ensures 0 < r.1 <= MAX_THINKING_BUDGET
    ensures r.1 < r.0
    ensures r.0 - r.1 >= ANSWER_MARGIN && r.0 >= THINKING_FLOOR
    ensures maxTokens < THINKING_FLOOR ==> r == (RAISED_MAX_TOKENS, MAX_THINKING_BUDGET)
    ensures maxTokens >= THINKING_FLOOR ==> r.0 == maxTokens && r.1 == Min(MAX_THINKING_BUDGET, maxTokens * 66 / 100)
  {
    if maxTokens < THINKING_FLOOR then (RAISED_MAX_TOKENS, MAX_THINKING_BUDGET)
    else (maxTokens, Min(MAX_THINKING_BUDGET, maxTokens * 66 / 100))
  }

  function Min(a: int, b: int): int
  {
    if a <= b then a else b
  }

  function Max(a: int, b: int): int
  {
    if a >= b then a else b
  }

  /** The block-content request the proxy client sends for a history (its `_send_anthropic`). */
  function AnthropicRequestFor(model: string, maxTokens: int, prompt: Option<string>, history: seq<Message>): (r: AnthropicRequest)
    ensures r.model == model && r.messages == ToAnthropic(history)
    ensures r.system.Some? <==> Truthy(prompt)
    ensures r.system.Some? ==> r.system == prompt
    ensures r.thinking.Some? <==> IsExtendedThinkingModel(model)
    ensures r.thinking.None? ==> r.maxTokens == maxTokens
    ensures r.thinking.Some? ==> 0 < r.thinking.value.budgetTokens <= MAX_THINKING_BUDGET && r.thinking.value.budgetTokens < r.maxTokens
    ensures r.thinking.Some? ==> (r.maxTokens, r.thinking.value.budgetTokens) == ThinkingBudget(maxTokens)
    ensures r.thinking.Some? ==> r.maxTokens - r.thinking.value.budgetTokens >= ANSWER_MARGIN
  {
    var system := if Truthy(prompt) then prompt else None;
    if IsExtendedThinkingModel(model) then
      var (effective, budget) := ThinkingBudget(maxTokens);
      AnthropicRequest(model, effective, ToAnthropic(history), system, Some(ThinkingConfig(budget)))
    else
      AnthropicRequest(model, maxTokens, ToAnthropic(history), system, None)
  }

  // ----- responses -----

  datatype Outcome<+T> = Returned(value: T) | Raised(detail: string)

  /** The usage fields read with `getattr(usage, name, 0)`: a missing field reads as 0. */
  datatype OpenaiUsage = OpenaiUsage(totalTokens: nat, completionTokens: nat, promptTokens: nat)
  datatype AnthropicUsage = AnthropicUsage(outputTokens: nat, totalTokens: nat, inputTokens: nat)

  /** `choices` holds the text of each choice's message, in order. */
  datatype OpenaiResponse = OpenaiResponse(choices: seq<string>, usage: Option<OpenaiUsage>)

  /** A typed content block; `OtherBlock` is any block whose type is neither, or that has no type. */
  datatype ContentBlock = TextContent(text: string) | ThinkingContent(thinking: string) | OtherBlock

  datatype AnthropicResponse = AnthropicResponse(content: seq<ContentBlock>, usage: Option<AnthropicUsage>)

  /** The message of the IndexError raised by `response.choices[0]` on an empty list. */
  const INDEX_ERROR: string := "list index out of range"

  /** The reply substituted when the text blocks are empty. */
  const EMPTY_REPLY: string := "⚠️ Получен пустой ответ от Claude"

  /** `f"Ошибка при обращении к API ({provider}): {e}"` */
  function ErrorText(provider: string, detail: string): string
  {
    ErrorPrefix(provider) + detail
  }

  function ErrorPrefix(provider: string): string
  {
    "Ошибка при обращении к API (" + provider + "): "
  }

  // ----- block parsing -----

  /** The texts of the text blocks, in order. */
  function TextParts(blocks: seq<ContentBlock>): (r: seq<string>)
    ensures |r| <= |blocks|
  {
    if blocks == [] then []
    else
      var last := blocks[|blocks| - 1];
      TextParts(blocks[..|blocks| - 1]) + (if last.TextContent? then [last.text] else [])
  }

  /** The texts of the thinking blocks, in order. */
  function ThinkingParts(blocks: seq<ContentBlock>): (r: seq<string>)
    ensures |r| <= |blocks|
  {
    if blocks == [] then []
    else
      var last := blocks[|blocks| - 1];
      ThinkingParts(blocks[..|blocks| - 1]) + (if last.ThinkingContent? then [last.thinking] else [])
  }

  /** A response with no text and no thinking block. */
  lemma {:induction false} NoTypedBlocks(blocks: seq<ContentBlock>)
    requires forall i :: 0 <= i < |blocks| ==> blocks[i].OtherBlock?
    ensures TextParts(blocks) == [] && ThinkingParts(blocks) == []
  {
    if blocks != [] {
      NoTypedBlocks(blocks[..|blocks| - 1]);
    }
  }

  /** The loop over `response.content` that sorts the blocks into thinking and text. */
  method CollectBlocks(blocks: seq<ContentBlock>) returns (thinkingBlocks: seq<string>, textBlocks: seq<string>)
    ensures thinkingBlocks == ThinkingParts(blocks)
    ensures textBlocks == TextParts(blocks)
  {
    thinkingBlocks, textBlocks := [], [];
    var i := 0;
    while i < |blocks|
      invariant 0 <= i <= |blocks|
      invariant thinkingBlocks == ThinkingParts(blocks[..i])
      invariant textBlocks == TextParts(blocks[..i])
    {
      assert blocks[..i + 1][..i] == blocks[..i];
      match blocks[i] {
        case ThinkingContent(t) => thinkingBlocks := thinkingBlocks + [t];
        case TextContent(t) => textBlocks := textBlocks + [t];
        case OtherBlock =>
      }
      i := i + 1;
    }
    assert blocks[..i] == blocks;
  }

  /** The reply: the text blocks joined, or the placeholder when that is empty. Never empty. */
  function ReplyText(blocks: seq<ContentBlock>): (r: string)
    ensures r != ""
    ensures Concat(TextParts(blocks)) != "" ==> r == Concat(TextParts(blocks))
  {
    var joined := Concat(TextParts(blocks));
    if joined == "" then EMPTY_REPLY else joined
  }

  /** The reasoning text: the thinking blocks joined by newlines, or `None` when there are none. */
  function ThinkingText(blocks: seq<ContentBlock>): (r: Option<string>)
    ensures r.None? <==> ThinkingParts(blocks) == []
  {
    var parts := ThinkingParts(blocks);
    if parts == [] then None else Some(Join("\n", parts))
  }

  /** The parsing both clients do on a block-content response: the reasoning and the reply. */
  method ParseBlocks(content: seq<ContentBlock>) returns (thinking: Option<string>, reply: string)
    ensures thinking == ThinkingText(content)
    ensures reply == ReplyText(content)
  {
    var thinkingBlocks, textBlocks := CollectBlocks(content);
    thinking := if thinkingBlocks != [] then Some(Join("\n", thinkingBlocks)) else None;
    reply := Concat(textBlocks);
    if reply == "" {
      reply := EMPTY_REPLY;
    }
  }

  // ----- token accounting -----

  /** Python's `a or b or c` on counts: the first that is not zero, else the last. */
  function FirstNonZero(a: nat, b: nat, c: nat): (r: nat)
    ensures r == a || r == b || r == c
    ensures r == 0 <==> a == 0 && b == 0 && c == 0
    ensures a != 0 ==> r == a
  {
    if a != 0 then a else if b != 0 then b else c
  }

  /** Tokens reported by the block-content provider: output, else total, else input + output. */
  function ReportedAnthropic(usage: Option<AnthropicUsage>): (r: nat)
    ensures r == 0 <==> usage.None? || (usage.value.outputTokens == 0 && usage.value.totalTokens == 0 && usage.value.inputTokens == 0)
    ensures usage.Some? && usage.value.outputTokens != 0 ==> r == usage.value.outputTokens
  {
    match usage
    case None => 0
    case Some(u) => FirstNonZero(u.outputTokens, u.totalTokens, u.inputTokens + u.outputTokens)
  }

  /** Tokens reported by the flat-chat provider: total, else completion, else prompt + completion. */
  function ReportedOpenai(usage: Option<OpenaiUsage>): (r: nat)
    ensures r == 0 <==> usage.None? || (usage.value.totalTokens == 0 && usage.value.completionTokens == 0 && usage.value.promptTokens == 0)
    ensures usage.Some? && usage.value.totalTokens != 0 ==> r == usage.value.totalTokens
  {
    match usage
    case None => 0
    case Some(u) => FirstNonZero(u.totalTokens, u.completionTokens, u.promptTokens + u.completionTokens)
  }

  /**
   * The count a successful call returns: the reported count when there is one,
   * otherwise one token per four characters of the reply, and never less than one.
   */
  function TokensFor(reported: nat, reply: string): (t: nat)
    ensures t >= 1
    ensures reported != 0 ==> t == reported
    ensures reported == 0 ==> t == Max(1, |reply| / 4)
  {
    var estimated := if reported == 0 && reply != "" then Max(1, |reply| / 4)
                     else if reported == 0 then 1
                     else reported;
    Max(1, estimated)
  }
}
