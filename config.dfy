/**
 * Process-wide settings read once at start-up (config.py). The credentials,
 * base URLs and the environment checks are not modelled; only the constants
 * the session store and the adapters use appear here.
 */
module Config {

  /** Largest number of messages kept in a stored history. */
  const MAX_CONTEXT_LENGTH: nat := 50

  const DEFAULT_MODEL_OPENAI: string := "gpt-3.5-turbo"
  const DEFAULT_MODEL_ANTHROPIC: string := "claude-sonnet-4-5-20250929"

  /** Generation parameters used when a user has not chosen any. */
  const DEFAULT_TEMPERATURE: real := 0.7
  const DEFAULT_MAX_TOKENS: int := 1000
  const DEFAULT_SYSTEM_PROMPT: string := "По умолчанию."

  /** The two provider names the bot stores and compares against. */
  const OPENAI: string := "openai"
  const ANTHROPIC: string := "anthropic"
}
