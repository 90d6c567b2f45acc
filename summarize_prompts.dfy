/**
 * The wording of the two chat messages the summarize function sends. It is kept
 * apart from the handler so that reasoning about responses never expands the
 * prompt texts.
 */
module SummarizePrompts {
  import opened SummarizeFunction

  const SystemPrompt: string :=
    "You are a helpful assistant that summarizes text concisely. Keep summaries clear and brief, capturing the main points."
  const InstructionPrefix: string := "Please summarize the following text in 2-3 sentences:\n\n"

  /** The `role` field a message is serialised with. */
  function Role(m: ChatMessage): string {
    if m.SystemInstruction? then "system" else "user"
  }

  /** The `content` field a message is serialised with. */
  function Content(m: ChatMessage): string {
    match m
    case SystemInstruction => SystemPrompt
    case SummarizeAsk(text) => InstructionPrefix + text
  }

  /**
   * The provider is asked for `deepseek-chat` with at most 150 tokens, and the user
   * message is the fixed 2-3 sentence instruction followed by the content unchanged.
   */
  lemma ProviderRequestShape(content: string)
    ensures var q := ProviderRequest(content);
            && q.model == "deepseek-chat" && q.maxTokens == 150 && |q.messages| == 2
            && Role(q.messages[0]) == "system" && Content(q.messages[0]) == SystemPrompt
            && Role(q.messages[1]) == "user"
            && |Content(q.messages[1])| == |InstructionPrefix| + |content|
            && Content(q.messages[1])[..|InstructionPrefix|] == InstructionPrefix
            && Content(q.messages[1])[|InstructionPrefix|..] == content
  {
    var u := InstructionPrefix + content;
    assert u[..|InstructionPrefix|] == InstructionPrefix;
    assert u[|InstructionPrefix|..] == content;
  }

  /** Different contents give different provider requests. */
  lemma ProviderRequestInjective(c1: string, c2: string)
    requires ProviderRequest(c1) == ProviderRequest(c2)
    ensures c1 == c2
  {
    ProviderRequestShape(c1);
    ProviderRequestShape(c2);
  }

}
