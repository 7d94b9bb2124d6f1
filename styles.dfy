/** The assistant-style presets: the options the sidebar offers and the
    table of system instructions they select. */
module Styles {

  /** The choices of the "Assistant style" select box, in display order. */
  const StyleOptions: seq<string> := ["Professional", "Friendly", "Teacher", "Concise"]

  /** The preset table: style name to system instruction (each instruction
      is written in the source as adjacent literals that Python joins). */
  const SystemPrompts: map<string, string> := map[
    "Professional" :=
      "You are a professional assistant. Be clear, structured, and practical. Ask a short follow-up question if needed.",
    "Friendly" :=
      "You are a friendly, helpful assistant. Use a warm tone, simple words, and short paragraphs.",
    "Teacher" :=
      "You are a patient teacher. Explain step-by-step with examples, and check understanding.",
    "Concise" :=
      "You are a concise assistant. Give short, direct answers with bullet points when useful."
  ]

  /** The outcome of indexing the table: the instruction, or the key error
      that direct dictionary indexing raises. */
  datatype PromptLookup = Found(prompt: string) | KeyError(key: string)

  /** Resolve a style name to its system instruction. There is no default:
      a name outside the closed set of four is an error. */
  function LookupPrompt(key: string): (r: PromptLookup)
    ensures r.Found? <==> key in StyleOptions
    ensures r.KeyError? ==> r.key == key
    ensures r.Found? ==> r.prompt in SystemPrompts.Values
  {
    if key in SystemPrompts then Found(SystemPrompts[key]) else KeyError(key)
  }

  /** Every option the select box offers resolves, so the lookup cannot fail
      for a style chosen through the sidebar. */
  lemma OptionsResolve(i: nat)
    requires i < |StyleOptions|
    ensures LookupPrompt(StyleOptions[i]).Found?
  {
  }

  /** Each of the four styles resolves to its own fixed instruction. */
  lemma PresetTexts()
    ensures LookupPrompt("Professional") == Found(
      "You are a professional assistant. Be clear, structured, and practical. Ask a short follow-up question if needed.")
    ensures LookupPrompt("Friendly") == Found(
      "You are a friendly, helpful assistant. Use a warm tone, simple words, and short paragraphs.")
    ensures LookupPrompt("Teacher") == Found(
      "You are a patient teacher. Explain step-by-step with examples, and check understanding.")
    ensures LookupPrompt("Concise") == Found(
      "You are a concise assistant. Give short, direct answers with bullet points when useful.")
  {
  }

  /** Two different styles never select the same instruction. */
  lemma PresetsDistinct(a: string, b: string)
    requires a in SystemPrompts && b in SystemPrompts && a != b
    ensures SystemPrompts[a] != SystemPrompts[b]
  {
    PresetTexts();
  }
}
