/**
  Canonical source ids of the hub (server/index.js, `normalizeSource`): a fixed
  alias table maps hostnames and tool names to one id per assistant; any
  other name passes through lower-cased.
 */
module SourceNames {
  import opened Strings

  /** The alias table, keyed by lower-cased raw name. */
  const Aliases: map<string, string> := map[
    "claude" := "claude-ai",
    "claude.ai" := "claude-ai",
    "claudeai" := "claude-ai",
    "chatgpt" := "chatgpt",
    "chat.openai.com" := "chatgpt",
    "openai" := "chatgpt",
    "gemini" := "gemini",
    "gemini.google.com" := "gemini",
    "grok" := "grok",
    "grok.com" := "grok",
    "claude-code" := "claude-code",
    "claudecode" := "claude-code",
    "vscode" := "claude-code",
    "codex" := "codex",
    "openai-codex" := "codex"
  ]

  /** The ids the alias table produces. */
  const CanonicalIds: set<string> := {"claude-ai", "chatgpt", "gemini", "grok", "claude-code", "codex"}

  /** `normalizeSource`: the alias of the lower-cased name, or the lower-cased name itself. */
  function NormalizeSource(source: string): (id: string)
    ensures IsLowerCase(id)
    ensures id in CanonicalIds || id == Lower(source)
  {
    LowerIsLowerCase(source);
    var key := Lower(source);
    if key in Aliases then Aliases[key] else key
  }

  /** Every alias in the table, written in any ASCII case, maps to its canonical id. */
  lemma NormalizeSourceAlias(source: string)
    requires Lower(source) in Aliases
    ensures NormalizeSource(source) == Aliases[Lower(source)]
    ensures NormalizeSource(source) in CanonicalIds
  {
  }

  /** A name outside the table comes back lower-cased and otherwise unchanged. */
  lemma NormalizeSourceUnknown(source: string)
    requires Lower(source) !in Aliases
    ensures NormalizeSource(source) == Lower(source)
  {
  }

  /** Canonical ids are fixed points of the normalisation. */
  lemma CanonicalIdsFixed(id: string)
    requires id in CanonicalIds
    ensures NormalizeSource(id) == id
  {
    CanonicalIdFixed(id);
  }

  lemma CanonicalIdFixed(id: string)
    requires IsLowerCase(id)
    requires id !in Aliases || Aliases[id] == id
    ensures NormalizeSource(id) == id
  {
    LowerOfLowerCase(id);
  }

  /** Normalising twice is the same as normalising once. */
  lemma NormalizeSourceIdempotent(source: string)
    ensures NormalizeSource(NormalizeSource(source)) == NormalizeSource(source)
  {
    var key := Lower(source);
    if key in Aliases {
      CanonicalIdsFixed(Aliases[key]);
    } else {
      LowerIdempotent(source);
    }
  }

  // ------------------------------------------------------------------
  // The table is a plain object literal, and `mapping[key]` also finds the
  // members every object inherits from Object.prototype.

  /** Own property names of Object.prototype. */
  const ObjectPrototypeMembers: set<string> := {
    "constructor", "__proto__", "hasOwnProperty", "isPrototypeOf", "propertyIsEnumerable",
    "toLocaleString", "toString", "valueOf",
    "__defineGetter__", "__defineSetter__", "__lookupGetter__", "__lookupSetter__"
  }

  /** What `mapping[key] || key` yields: a string, or an inherited member (a function or an object). */
  datatype Lookup = Text(s: string) | Inherited(member: string)

  /** `normalizeSource` exactly as written, prototype chain included. */
  function NormalizeSourceAsWritten(source: string): (r: Lookup)
    ensures r.Inherited? <==> (Lower(source) !in Aliases && Lower(source) in ObjectPrototypeMembers)
  {
    var key := Lower(source);
    if key in Aliases then Text(Aliases[key])
    else if key in ObjectPrototypeMembers then Inherited(key)
    else Text(key)
  }

  /** The source name "Constructor" yields Object's constructor function, not an id. */
  lemma AsWrittenReturnsInheritedMember(source: string)
    requires source == "Constructor"
    ensures NormalizeSourceAsWritten(source) == Inherited("constructor")
    ensures NormalizeSource(source) == "constructor"
  {
    var tail := source[1..];
    assert source == ['C'] + tail;
    LowerOfLowerCase(tail);
    LowerCons('C', tail);
    assert LowerChar('C') == 'c';
    var key := Lower(source);
    assert key == ['c'] + tail;
    assert key == "constructor";
    assert key !in Aliases;
    assert key in ObjectPrototypeMembers;
  }

  /** On every other name the code as written agrees with the own-property lookup. */
  lemma AsWrittenAgreesElsewhere(source: string)
    requires Lower(source) !in ObjectPrototypeMembers
    ensures NormalizeSourceAsWritten(source) == Text(NormalizeSource(source))
  {
  }
}
