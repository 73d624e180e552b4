/**
 * The per-user session store of context_manager.py. A session ("context") is
 * a record; the store is a map from the numeric user id to it. The functions
 * below give the state each store operation leaves behind, the class
 * `ContextManager` performs the operations in place, and the lemmas state
 * what the operations keep: the history bound, the usage counters and the
 * other users' sessions.
 */
module ContextStore {
  import opened Wrappers
  import opened Text
  import opened Provider
  import opened Config

  /** One user's session, the dictionary stored under the user id. */
  datatype Context = Context(
    messages: seq<Message>,
    model: string,
    provider: string,
    systemPrompt: Option<string>,
    temperature: real,
    maxTokens: int,
    tokensUsed: map<string, int>)

  /** `{"openai": 0, "anthropic": 0}` */
  const ZERO_USAGE: map<string, int> := map[OPENAI := 0, ANTHROPIC := 0]

  /** The session `get_context` creates for a user it has never seen. */
  function DefaultContext(): Context
  {
    Context([], DEFAULT_MODEL_OPENAI, OPENAI, Some(DEFAULT_SYSTEM_PROMPT), DEFAULT_TEMPERATURE, DEFAULT_MAX_TOKENS, ZERO_USAGE)
  }

  /** `tokens_used.get(provider, 0)` */
  function Count(usage: map<string, int>, provider: string): int
  {
    if provider in usage then usage[provider] else 0
  }

  // ----- the store's state transitions -----

  /** The session a read returns: the stored one, or a fresh default. */
  function Lookup(contexts: map<int, Context>, user: int): Context
  {
    if user in contexts then contexts[user] else DefaultContext()
  }

  /** The store after a read: a missing user gets the default session; nothing else moves. */
  function Materialize(contexts: map<int, Context>, user: int): (r: map<int, Context>)
    ensures r == contexts[user := Lookup(contexts, user)]
  {
    if user in contexts then contexts else contexts[user := DefaultContext()]
  }

  /** The history kept by `update_context`: the last MAX_CONTEXT_LENGTH messages. */
  function Truncate(msgs: seq<Message>): (r: seq<Message>)
    ensures |r| == Min(|msgs|, MAX_CONTEXT_LENGTH)
    ensures r == msgs[|msgs| - |r|..]
  {
    if |msgs| > MAX_CONTEXT_LENGTH then msgs[|msgs| - MAX_CONTEXT_LENGTH..] else msgs
  }

  /** Truncation keeps every message of a history already within the bound. */
  lemma TruncateShort(msgs: seq<Message>)
    requires |msgs| <= MAX_CONTEXT_LENGTH
    ensures Truncate(msgs) == msgs
  {
  }

  function Update(contexts: map<int, Context>, user: int, msgs: seq<Message>, model: string, provider: string,
                  prompt: Option<string>, temperature: real, maxTokens: int): map<int, Context>
  {
    var usage := if user in contexts then contexts[user].tokensUsed else ZERO_USAGE;
    contexts[user := Context(Truncate(msgs), model, provider, prompt, temperature, maxTokens, usage)]
  }

  /** `tokens_used[provider] += tokens`, after creating the session and the key if missing. */
  function AddTokens(contexts: map<int, Context>, user: int, provider: string, tokens: int): map<int, Context>
  {
    var c := Lookup(contexts, user);
    contexts[user := c.(tokensUsed := c.tokensUsed[provider := Count(c.tokensUsed, provider) + tokens])]
  }

  /** `tokens_used[provider] = 0`, after creating the session if missing. */
  function ResetTokens(contexts: map<int, Context>, user: int, provider: string): map<int, Context>
  {
    var c := Lookup(contexts, user);
    contexts[user := c.(tokensUsed := c.tokensUsed[provider := 0])]
  }

  /** The counter a user's session holds for a provider, as `get_tokens_used` reads it. */
  function Usage(contexts: map<int, Context>, user: int, provider: string): int
  {
    Count(Lookup(contexts, user).tokensUsed, provider)
  }

  // ----- what each transition guarantees -----

  /** A first read yields exactly the default session; a later read yields the stored one. */
  lemma LookupDefault(contexts: map<int, Context>, user: int)
    ensures user !in contexts ==> Lookup(contexts, user) == DefaultContext()
    ensures user !in contexts ==> Lookup(contexts, user).messages == [] && Usage(contexts, user, OPENAI) == 0 && Usage(contexts, user, ANTHROPIC) == 0
    ensures user in contexts ==> Materialize(contexts, user) == contexts
  {
  }

  /**
   * `update_context` keeps the last MAX_CONTEXT_LENGTH messages in order,
   * stores the settings it is given, keeps the user's counters (zero for a
   * new user) and leaves every other user alone.
   */
  lemma UpdateGuarantees(contexts: map<int, Context>, user: int, msgs: seq<Message>, model: string, provider: string,
                         prompt: Option<string>, temperature: real, maxTokens: int)
    ensures var r := Update(contexts, user, msgs, model, provider, prompt, temperature, maxTokens);
      && user in r
      && |r[user].messages| <= MAX_CONTEXT_LENGTH
      && r[user].messages == msgs[|msgs| - |r[user].messages|..]
      && (|msgs| <= MAX_CONTEXT_LENGTH ==> r[user].messages == msgs)
      && (|msgs| > MAX_CONTEXT_LENGTH ==> |r[user].messages| == MAX_CONTEXT_LENGTH)
      && r[user].model == model && r[user].provider == provider && r[user].systemPrompt == prompt
      && r[user].temperature == temperature && r[user].maxTokens == maxTokens
      && r[user].tokensUsed == (if user in contexts then contexts[user].tokensUsed else ZERO_USAGE)
      && (forall p :: Usage(r, user, p) == Usage(contexts, user, p))
      && (forall v :: v != user ==> (v in r <==> v in contexts) && Lookup(r, v) == Lookup(contexts, v))
  {
  }

  /** `add_tokens_used` moves only the named counter, by exactly `tokens`. */
  lemma AddTokensGuarantees(contexts: map<int, Context>, user: int, provider: string, tokens: int)
    ensures var r := AddTokens(contexts, user, provider, tokens);
      && Usage(r, user, provider) == Usage(contexts, user, provider) + tokens
      && (forall p :: p != provider ==> Usage(r, user, p) == Usage(contexts, user, p))
      && Lookup(r, user).messages == Lookup(contexts, user).messages
      && Lookup(r, user) == Lookup(contexts, user).(tokensUsed := Lookup(r, user).tokensUsed)
      && (forall v :: v != user ==> (v in r <==> v in contexts) && Lookup(r, v) == Lookup(contexts, v))
  {
  }

  /** `reset_tokens_used` zeroes only the named counter. */
  lemma ResetTokensGuarantees(contexts: map<int, Context>, user: int, provider: string)
    ensures var r := ResetTokens(contexts, user, provider);
      && Usage(r, user, provider) == 0
      && (forall p :: p != provider ==> Usage(r, user, p) == Usage(contexts, user, p))
      && Lookup(r, user) == Lookup(contexts, user).(tokensUsed := Lookup(r, user).tokensUsed)
      && (forall v :: v != user ==> (v in r <==> v in contexts) && Lookup(r, v) == Lookup(contexts, v))
  {
  }

  /** `clear_context` drops the whole session, counters included; the next read starts over. */
  lemma ClearGuarantees(contexts: map<int, Context>, user: int)
    ensures var r := contexts - {user};
      && user !in r
      && Lookup(r, user) == DefaultContext()
      && (forall p :: Usage(r, user, p) == 0)
      && (forall v :: v != user ==> (v in r <==> v in contexts) && Lookup(r, v) == Lookup(contexts, v))
  {
  }

  // ----- sequences of operations -----

  /** One call into the store. */
  datatype StoreOp =
    | GetOp(user: int)
    | UpdateOp(user: int, msgs: seq<Message>, model: string, provider: string, prompt: Option<string>, temperature: real, maxTokens: int)
    | AddTokensOp(user: int, provider: string, tokens: int)
    | ResetTokensOp(user: int, provider: string)
    | ClearOp(user: int)

  function Apply(contexts: map<int, Context>, op: StoreOp): map<int, Context>
  {
    match op
    case GetOp(u) => Materialize(contexts, u)
    case UpdateOp(u, msgs, model, provider, prompt, temperature, maxTokens) => Update(contexts, u, msgs, model, provider, prompt, temperature, maxTokens)
    case AddTokensOp(u, provider, tokens) => AddTokens(contexts, u, provider, tokens)
    case ResetTokensOp(u, provider) => ResetTokens(contexts, u, provider)
    case ClearOp(u) => contexts - {u}
  }

  function Run(contexts: map<int, Context>, ops: seq<StoreOp>): map<int, Context>
    decreases |ops|
  {
    if ops == [] then contexts else Run(Apply(contexts, ops[0]), ops[1..])
  }

  /** An operation that cannot lower a counter: neither a reset, nor a clear, nor a negative addition. */
  predicate NeverLowers(op: StoreOp)
  {
    !op.ResetTokensOp? && !op.ClearOp? && (op.AddTokensOp? ==> op.tokens >= 0)
  }

  lemma ApplyKeepsUsage(contexts: map<int, Context>, op: StoreOp, user: int, provider: string)
    requires NeverLowers(op)
    ensures Usage(Apply(contexts, op), user, provider) >= Usage(contexts, user, provider)
  {
    match op
    case GetOp(u) =>
    case UpdateOp(u, msgs, model, p, prompt, temperature, maxTokens) =>
      UpdateGuarantees(contexts, u, msgs, model, p, prompt, temperature, maxTokens);
    case AddTokensOp(u, p, tokens) =>
      AddTokensGuarantees(contexts, u, p, tokens);
  }

  /** Usage counters never go down except through an explicit reset or clear. */
  lemma {:induction false} UsageMonotone(contexts: map<int, Context>, ops: seq<StoreOp>, user: int, provider: string)
    requires forall i :: 0 <= i < |ops| ==> NeverLowers(ops[i])
    ensures Usage(Run(contexts, ops), user, provider) >= Usage(contexts, user, provider)
    decreases |ops|
  {
    if ops != [] {
      ApplyKeepsUsage(contexts, ops[0], user, provider);
      UsageMonotone(Apply(contexts, ops[0]), ops[1..], user, provider);
    }
  }

  /** Every stored history is within the bound. */
  predicate Bounded(contexts: map<int, Context>)
  {
    forall u :: u in contexts ==> |contexts[u].messages| <= MAX_CONTEXT_LENGTH
  }

  /** Every store operation keeps every history within the bound. */
  lemma {:induction false} RunKeepsBounded(contexts: map<int, Context>, ops: seq<StoreOp>)
    requires Bounded(contexts)
    ensures Bounded(Run(contexts, ops))
    decreases |ops|
  {
    if ops != [] {
      var next := Apply(contexts, ops[0]);
      assert Bounded(next) by {
        forall u | u in next
          ensures |next[u].messages| <= MAX_CONTEXT_LENGTH
        {
          if u != ops[0].user {
            assert u in contexts && next[u] == contexts[u];
          }
        }
      }
      RunKeepsBounded(next, ops[1..]);
    }
  }

  // ----- loading the persisted file -----

  /**
   * `{int(k): v for k, v in data.items()}` over the items of the loaded JSON
   * object, in order; `None` stands for the ValueError of a key that is not a
   * number, which makes the loader start from an empty store.
   */
  function LoadEntries(entries: seq<(string, Context)>): (r: Option<map<int, Context>>)
    ensures r.Some? <==> forall i :: 0 <= i < |entries| ==> ParseInt(entries[i].0).Some?
    ensures r.Some? ==> forall i :: 0 <= i < |entries| ==> ParseInt(entries[i].0).value in r.value
  {
    if entries == [] then Some(map[])
    else
      match LoadEntries(entries[..|entries| - 1])
      case None => None
      case Some(m) =>
        var (key, value) := entries[|entries| - 1];
        match ParseInt(key)
        case None => None
        case Some(k) => Some(m[k := value])
  }

  /** `_load_contexts`: the persisted object, or `None` for a missing or unreadable file. */
  function LoadContexts(persisted: Option<seq<(string, Context)>>): (r: map<int, Context>)
    ensures persisted.None? ==> r == map[]
    ensures persisted.Some? && (exists i :: 0 <= i < |persisted.value| && ParseInt(persisted.value[i].0).None?) ==> r == map[]
    ensures persisted.Some? && (forall i :: 0 <= i < |persisted.value| ==> ParseInt(persisted.value[i].0).Some?) ==>
              forall i :: 0 <= i < |persisted.value| ==> ParseInt(persisted.value[i].0).value in r
  {
    match persisted
    case None => map[]
    case Some(entries) =>
      match LoadEntries(entries)
      case None => map[]
      case Some(m) => m
  }

  /** The store as a dictionary built entry by entry (a later entry for a key wins). */
  function Collect(entries: seq<(int, Context)>): map<int, Context>
  {
    if entries == [] then map[]
    else Collect(entries[..|entries| - 1])[entries[|entries| - 1].0 := entries[|entries| - 1].1]
  }

  /** What `json.dump` writes for the store: every numeric key as its decimal text. */
  function SavedEntries(entries: seq<(int, Context)>): (r: seq<(string, Context)>)
    ensures |r| == |entries|
  {
    seq(|entries|, i requires 0 <= i < |entries| => (IntToDecimal(entries[i].0), entries[i].1))
  }

  /** Saving the store and loading it back gives the same numeric keys and the same sessions. */
  lemma {:induction false} SaveLoadRoundTrip(entries: seq<(int, Context)>)
    ensures LoadEntries(SavedEntries(entries)) == Some(Collect(entries))
    ensures LoadContexts(Some(SavedEntries(entries))) == Collect(entries)
  {
    if entries != [] {
      var init := entries[..|entries| - 1];
      SaveLoadRoundTrip(init);
      var saved := SavedEntries(entries);
      assert saved[..|saved| - 1] == SavedEntries(init);
      DecimalRoundTrip(entries[|entries| - 1].0);
    }
  }

  // ----- the store object -----

  class ContextManager {
    var contexts: map<int, Context>

    /** Starts from the persisted sessions, or empty when there are none to load. */
    constructor (persisted: Option<seq<(string, Context)>>)
      ensures contexts == LoadContexts(persisted)
    {
      contexts := LoadContexts(persisted);
    }

    method GetContext(user: int) returns (c: Context)
      modifies this
      ensures contexts == Materialize(old(contexts), user)
      ensures c == Lookup(old(contexts), user) && c == contexts[user]
    {
      if user !in contexts {
        contexts := contexts[user := DefaultContext()];
      }
      c := contexts[user];
    }

    method UpdateContext(user: int, msgs: seq<Message>, model: string, provider: string,
                         prompt: Option<string>, temperature: real, maxTokens: int)
      modifies this
      ensures contexts == Update(old(contexts), user, msgs, model, provider, prompt, temperature, maxTokens)
    {
      var kept := msgs;
      if |kept| > MAX_CONTEXT_LENGTH {
        kept := kept[|kept| - MAX_CONTEXT_LENGTH..];
      }
      var existing := ZERO_USAGE;
      if user in contexts {
        existing := contexts[user].tokensUsed;
      }
      contexts := contexts[user := Context(kept, model, provider, prompt, temperature, maxTokens, existing)];
    }

    method ClearContext(user: int)
      modifies this
      ensures contexts == old(contexts) - {user}
    {
      if user in contexts {
        contexts := contexts - {user};
      }
    }

    method GetUserMessages(user: int) returns (msgs: seq<Message>)
      modifies this
      ensures contexts == Materialize(old(contexts), user)
      ensures msgs == Lookup(old(contexts), user).messages
    {
      var c := GetContext(user);
      msgs := c.messages;
    }

    method GetUserModel(user: int) returns (model: string)
      modifies this
      ensures contexts == Materialize(old(contexts), user)
      ensures model == Lookup(old(contexts), user).model
    {
      var c := GetContext(user);
      model := c.model;
    }

    method GetUserProvider(user: int) returns (provider: string)
      modifies this
      ensures contexts == Materialize(old(contexts), user)
      ensures provider == Lookup(old(contexts), user).provider
    {
      var c := GetContext(user);
      provider := c.provider;
    }

    method GetUserSystemPrompt(user: int) returns (prompt: Option<string>)
      modifies this
      ensures contexts == Materialize(old(contexts), user)
      ensures prompt == Lookup(old(contexts), user).systemPrompt
    {
      var c := GetContext(user);
      prompt := c.systemPrompt;
    }

    method GetUserTemperature(user: int) returns (temperature: real)
      modifies this
      ensures contexts == Materialize(old(contexts), user)
      ensures temperature == Lookup(old(contexts), user).temperature
    {
      var c := GetContext(user);
      temperature := c.temperature;
    }

    method GetUserMaxTokens(user: int) returns (maxTokens: int)
      modifies this
      ensures contexts == Materialize(old(contexts), user)
      ensures maxTokens == Lookup(old(contexts), user).maxTokens
    {
      var c := GetContext(user);
      maxTokens := c.maxTokens;
    }

    method AddTokensUsed(user: int, provider: string, tokens: int)
      modifies this
      ensures contexts == AddTokens(old(contexts), user, provider, tokens)
    {
      var c := GetContext(user);
      var current := if provider in c.tokensUsed then c.tokensUsed[provider] else 0;
      contexts := contexts[user := c.(tokensUsed := c.tokensUsed[provider := current + tokens])];
    }

    method GetTokensUsed(user: int, provider: string) returns (tokens: int)
      modifies this
      ensures contexts == Materialize(old(contexts), user)
      ensures tokens == Usage(old(contexts), user, provider)
    {
      var c := GetContext(user);
      tokens := if provider in c.tokensUsed then c.tokensUsed[provider] else 0;
    }

    method ResetTokensUsed(user: int, provider: string)
      modifies this
      ensures contexts == ResetTokens(old(contexts), user, provider)
    {
      var c := GetContext(user);
      contexts := contexts[user := c.(tokensUsed := c.tokensUsed[provider := 0])];
    }
  }
}
