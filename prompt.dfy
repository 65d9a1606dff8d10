/** The system instruction handed to the generator (route.ts, lines 48-51). */
module Prompt {
  import opened Wrappers

  /** The fixed template text that precedes the context, its line breaks and indentation included. */
  const SystemPromptPrefix :=
    "You are a helpful assistant. Answer the user's question based ONLY on the context below.\n"
    + "    \n"
    + "    Context:\n"
    + "    "

  /** The template with the context spliced in at its end. */
  function SystemPrompt(context: string): string {
    SystemPromptPrefix + context
  }

  /** Reads the context back out of a system instruction, if it was built from the template. */
  function ContextOf(system: string): Option<string> {
    if |SystemPromptPrefix| <= |system| && system[..|SystemPromptPrefix|] == SystemPromptPrefix
    then Some(system[|SystemPromptPrefix|..])
    else None
  }

  /**
   * The instruction ends with, and contains, the exact context, and the
   * template ends with the `Context:` line and its indentation.
   */
  lemma SystemPromptEndsWithContext(context: string)
    ensures var s := SystemPrompt(context);
      |s| == |SystemPromptPrefix| + |context|
      && s[|s| - |context|..] == context
      && s[|SystemPromptPrefix| - 13..|SystemPromptPrefix|] == "Context:\n    "
  {
  }

  /** The context is recovered from the instruction built from it. */
  lemma ContextRoundTrip(context: string)
    ensures ContextOf(SystemPrompt(context)) == Some(context)
  {
  }

  /** Every instruction from which a context is read back is the template filled with it. */
  lemma ContextOfSound(system: string, context: string)
    requires ContextOf(system) == Some(context)
    ensures system == SystemPrompt(context)
  {
  }

  /** Different contexts give different instructions. */
  lemma SystemPromptInjective(c1: string, c2: string)
    requires SystemPrompt(c1) == SystemPrompt(c2)
    ensures c1 == c2
  {
    ContextRoundTrip(c1);
    ContextRoundTrip(c2);
  }
}
