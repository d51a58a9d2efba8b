/**
  How the editor extension names the agent behind a terminal or a shell
  command (vscode-extension/out/extension.js: `isClaudeCodeTerminal`,
  `isCodexTerminal`, `getTerminalSource`, `getExecutionSource`,
  `getSourceLabel`). The two `detect*` settings are parameters.
 */
module EditorSources {
  import opened Options
  import opened Strings
  import SourceNames

  /** Some needle occurs in the text. */
  predicate ContainsAny(text: string, needles: seq<string>) {
    exists k :: 0 <= k < |needles| && Contains(text, needles[k])
  }

  const ClaudeTerminalWords: seq<string> := ["claude", "anthropic", "claude code", "mcp", "task"]
  const CodexTerminalWords: seq<string> := ["codex", "openai", "gpt", "chatgpt"]
  const CodexCommandWords: seq<string> := ["codex", "openai", "chatgpt", "gpt"]
  const ClaudeCommandWords: seq<string> := ["claude", "anthropic", "claude-code"]

  /** `isClaudeCodeTerminal`: detection on and the lower-cased name mentions one of its words. */
  predicate IsClaudeCodeTerminal(name: string, detectClaudeCode: bool) {
    detectClaudeCode && ContainsAny(Lower(name), ClaudeTerminalWords)
  }

  /** `isCodexTerminal`: detection on and the lower-cased name mentions one of its words. */
  predicate IsCodexTerminal(name: string, detectCodex: bool) {
    detectCodex && ContainsAny(Lower(name), CodexTerminalWords)
  }

  /** `getTerminalSource`: Codex is tested first. */
  function TerminalSource(name: string, detectClaudeCode: bool, detectCodex: bool): (r: Option<string>)
    ensures r.Some? ==> r.value in SourceNames.CanonicalIds
  {
    if IsCodexTerminal(name, detectCodex) then Some("codex")
    else if IsClaudeCodeTerminal(name, detectClaudeCode) then Some("claude-code")
    else None
  }

  /** A terminal is classified exactly when it is an agent terminal; one that matches both is Codex. */
  lemma TerminalSourceChoice(name: string, detectClaudeCode: bool, detectCodex: bool)
    ensures var r := TerminalSource(name, detectClaudeCode, detectCodex);
      (r.None? <==> !IsCodexTerminal(name, detectCodex) && !IsClaudeCodeTerminal(name, detectClaudeCode))
      && (IsCodexTerminal(name, detectCodex) ==> r == Some("codex"))
      && (r == Some("claude-code") ==> !IsCodexTerminal(name, detectCodex))
  {
  }

  /**
    `getExecutionSource`: no command line (None or empty) gives None;
    Codex words are tested before Claude words.
   */
  function ExecutionSource(commandLine: Option<string>, detectClaudeCode: bool, detectCodex: bool): (r: Option<string>)
    ensures r.Some? ==> r.value in SourceNames.CanonicalIds
  {
    if commandLine.None? || commandLine.value == "" then None
    else
      var normalized := Lower(commandLine.value);
      if detectCodex && ContainsAny(normalized, CodexCommandWords) then Some("codex")
      else if detectClaudeCode && ContainsAny(normalized, ClaudeCommandWords) then Some("claude-code")
      else None
  }

  /** An empty command names no agent; a command mentioning both agents is Codex's when Codex detection is on. */
  lemma ExecutionSourceChoice(commandLine: Option<string>, detectClaudeCode: bool, detectCodex: bool)
    ensures commandLine == None || commandLine == Some("") ==> ExecutionSource(commandLine, detectClaudeCode, detectCodex).None?
    ensures commandLine.Some? && commandLine.value != "" && detectCodex
            && ContainsAny(Lower(commandLine.value), CodexCommandWords)
            ==> ExecutionSource(commandLine, detectClaudeCode, detectCodex) == Some("codex")
    ensures ExecutionSource(commandLine, detectClaudeCode, detectCodex) == Some("claude-code")
            ==> detectClaudeCode && !(detectCodex && ContainsAny(Lower(commandLine.value), CodexCommandWords))
  {
  }

  /** Whatever the extension names a source, the hub keeps it unchanged: it is already a canonical id. */
  lemma ClassifiedSourcesAreCanonical(name: string, commandLine: Option<string>, detectClaudeCode: bool, detectCodex: bool)
    ensures var t := TerminalSource(name, detectClaudeCode, detectCodex);
      t.Some? ==> SourceNames.NormalizeSource(t.value) == t.value
    ensures var e := ExecutionSource(commandLine, detectClaudeCode, detectCodex);
      e.Some? ==> SourceNames.NormalizeSource(e.value) == e.value
  {
    var t := TerminalSource(name, detectClaudeCode, detectCodex);
    if t.Some? {
      SourceNames.CanonicalIdsFixed(t.value);
    }
    var e := ExecutionSource(commandLine, detectClaudeCode, detectCodex);
    if e.Some? {
      SourceNames.CanonicalIdsFixed(e.value);
    }
  }

  /** `getSourceLabel`. */
  function SourceLabel(source: Option<string>): (name: string)
    ensures name == "Codex" <==> source == Some("codex")
    ensures name == "Codex" || name == "Claude Code"
  {
    if source == Some("codex") then "Codex" else "Claude Code"
  }
}
