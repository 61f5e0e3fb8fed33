// The Gemini-only gateway (services/geminiService.ts), the one the app calls: one prompt
// that carries the instructions and the user text together, sent to one fixed model, and
// the same fence clean-up as the provider gateway, without the diagram-block step.
module GeminiService {
  import opened Wrappers
  import opened Text
  import opened Fences
  import AiService

  /**
   * The instruction paragraphs of the prompt (services/geminiService.ts, lines 20-66),
   * from "You are an expert content formatter" to "a single block of valid HTML.".
   * Their wording is not modelled; they are some fixed text.
   */
  const Instructions: string

  /** Everything of the prompt before the user text. */
  const PromptHead: string := "\n" + Instructions + "\n\nHere is the user's text to convert:\n---\n"
  /** Everything of the prompt after the user text. */
  const PromptTail: string := "\n---\n"

  /** `getPrompt`: the fixed head, the text verbatim, the fixed tail. */
  function Prompt(text: string): (r: string)
    ensures |r| == |PromptHead| + |text| + |PromptTail|
    ensures StartsWith(r, PromptHead) && EndsWith(r, PromptTail)
    ensures r[|PromptHead|..|r| - |PromptTail|] == text
  {
    var r := PromptHead + text + PromptTail;
    assert r[|PromptHead|..|r| - |PromptTail|] == text;
    r
  }

  /** Reading the user text back out of a prompt; `None` when the head or tail is missing. */
  function PromptText(prompt: string): (r: Option<string>)
    ensures r.Some? <==> |PromptHead| + |PromptTail| <= |prompt|
                         && StartsWith(prompt, PromptHead) && EndsWith(prompt, PromptTail)
  {
    if |PromptHead| + |PromptTail| <= |prompt| && StartsWith(prompt, PromptHead) && EndsWith(prompt, PromptTail)
    then Some(prompt[|PromptHead|..|prompt| - |PromptTail|])
    else None
  }

  /** Building a prompt then reading it back gives the text. */
  lemma {:induction false} PromptTextOfPrompt(text: string)
    ensures PromptText(Prompt(text)) == Some(text)
  {
    var p := Prompt(text);
    assert |PromptHead| + |PromptTail| <= |p|;
  }

  /** Different texts give different prompts. */
  lemma {:induction false} PromptInjective(a: string, b: string)
    requires Prompt(a) == Prompt(b)
    ensures a == b
  {
    PromptTextOfPrompt(a);
    PromptTextOfPrompt(b);
  }

  /** Concatenation regrouped: the head split at its end, the tail split at its start. */
  lemma {:induction false} Regroup(x: string, h1: string, h2: string, t: string, m1: string, m2: string)
    ensures (x + (h1 + h2)) + t + (m1 + m2) == x + h1 + (h2 + t + m1) + m2
  {
  }

  /**
   * The prompt ends with the provider gateway's user message and one more newline: the
   * text is framed the same way in both gateways, after the instructions.
   */
  lemma {:induction false} PromptEndsWithUserMessage(text: string)
    ensures Prompt(text) == "\n" + Instructions + "\n\n" + AiService.UserMessage(text) + "\n"
  {
    var x := "\n" + Instructions;
    var h2 := AiService.MessageHead;
    var m1 := AiService.MessageTail;
    assert PromptHead == x + ("\n\n" + h2);
    assert PromptTail == m1 + "\n";
    Regroup(x, "\n\n", h2, text, m1, "\n");
  }

  /** The one call this gateway makes: the model and the whole prompt as contents. */
  datatype ContentRequest = ContentRequest(model: string, contents: string)

  /** `generateNotesHtml`'s request: the same fixed model the provider gateway's Gemini path uses. */
  function NotesRequest(text: string): (r: ContentRequest)
    ensures r.model == AiService.DefaultModel(AiService.Gemini)
    ensures PromptText(r.contents) == Some(text)
  {
    PromptTextOfPrompt(text);
    ContentRequest(AiService.GeminiModel, Prompt(text))
  }

  /** `generateNotesHtml`'s clean-up (lines 83-86): the fence chain only, no diagram-block step. */
  function NotesHtml(responseText: string): (r: string)
    ensures Trimmed(r) && |r| <= |responseText|
  {
    Trim(StripClosingFence(StripOpeningFence(responseText, HtmlFence)))
  }

  /** This gateway cleans a reply exactly as the provider gateway's Gemini path does. */
  lemma {:induction false} NotesHtmlIsGeminiHtml(responseText: string)
    ensures NotesHtml(responseText) == AiService.GeminiHtml(responseText)
  {
  }
}
