# format-ai in Dafny: reply clean-up, prompt framing and the preview pipeline

format-ai turns raw notes into a styled HTML article. It sends the notes to a language
model, cleans the HTML that comes back, and shows it in a preview panel. The app calls
the Gemini-only gateway `services/geminiService.ts` (App.tsx:56). A second gateway,
`services/aiService.ts`, adds OpenRouter and per-provider default models; no file of the
app calls it. Both gateways are modelled. The panel typesets math with KaTeX and draws diagrams
with Mermaid, and can copy the HTML or export it as a standalone page. This project
models the deterministic core of that flow and proves its properties:

- **Reply clean-up** (`text.dfy`, `fences.dfy`, `block_scan.dfy`, `mermaid_blocks.dfy`).
  - The fence chain `replace(/^```html\s*/, '')`, `replace(/```$/, '')`, `trim()` is
    written as prefix and suffix tests over one whitespace predicate. That predicate is
    the ECMAScript WhiteSpace and LineTerminator set that both `\s` and `trim()` use.
  - Without the `m` flag, `$` is the end of the text. So a reply ending in a fence and a
    newline keeps its fence; only the newline is trimmed.
  - The OpenRouter path's global lazy replacement of `<pre class="mermaid">…</pre>` blocks
    is a generic left-to-right scan (`BlockScan.ReplaceBlocks`). It is proved equal to
    "split the text the way the regular expression matches it, then replace each match's
    body". Such a split always exists.
- **Prompt framing and provider defaults** (`ai_service.dfy`, `gemini_service.dfy`).
  - Providers, their default models and the user message frame are modelled, each frame
    with its inverse.
  - The request each provider is sent, and the dispatch of `generateNotesHtml`, are values.
  - The Gemini-only gateway's prompt is shown to end with the same frame.
- **Preview panel** (`preview.dfy`).
  - `getFullHtmlPage`: the exported page's `<head>` is a list of items rendered line by
    line. The page is the head, the HTML verbatim, then the tail.
  - The settle step is a math pass, then a diagram pass, with both libraries as black
    boxes that may throw.
  - The `useEffect` is the class `PreviewPane`: the mount's content, the pending timer, a
    clock and the console log. Its methods are render, time passing, the timer firing and
    unmount.

Supersession rests on `clearTimeout` alone. The code has no version check, and the guard
at components/Preview.tsx:58 tests a captured constant, so it never fires.
`PreviewPane.Valid` keeps at most one pending step, and that step belongs to the latest
content.

## Model

| member | source | states |
|---|---|---|
| Text.IndexOf | services/aiService.ts:254 | the first occurrence of a pattern at or after a position, or -1 exactly when there is none |
| Text.TrimStart | services/aiService.ts:221 | removes the longest all-whitespace prefix: the result is a suffix of the input, what was cut is whitespace, and the result does not start with whitespace |
| Text.TrimEnd | services/aiService.ts:258 | removes the longest all-whitespace suffix: the result is a prefix, what was cut is whitespace, and the result does not end with whitespace |
| Text.Trim | services/aiService.ts:223 | `trim()`: the result has no whitespace at either end and is no longer than the input |
| Text.TrimStartAfterWhitespace | services/aiService.ts:221 | whitespace before a text that does not start with whitespace is removed exactly |
| Text.TrimEndBeforeWhitespace | services/aiService.ts:258 | whitespace after a text that does not end with whitespace is removed exactly |
| Text.TrimOfTrimmed | services/aiService.ts:223 | trimming a text without whitespace at its ends changes nothing |
| Text.TrimIdempotent | services/aiService.ts:223 | trimming twice is trimming once |
| Fences.StripOpeningFence | services/aiService.ts:221 | `/^```html\s*/`: when the text starts with the fence, the fence and all the whitespace after it are removed and nothing else; otherwise the text is unchanged |
| Fences.StripClosingFence | services/aiService.ts:222 | `/```$/`: a fence is removed only when it is the last three characters; otherwise the text is unchanged |
| Fences.StripClosingFenceAndSpace | services/aiService.ts:258 | `/```\s*$/`: either nothing changes, or what was removed is a fence followed only by whitespace up to the end |
| Fences.ClosingFenceAndSpaceRemoved | services/aiService.ts:258 | any text followed by a fence and trailing whitespace comes back exactly |
| Fences.CleanReply | services/aiService.ts:220-223 | the fence chain's result has no whitespace at either end and is no longer than the reply |
| Fences.UnfencedReplyIsOnlyTrimmed | services/aiService.ts:248-251 | a reply with neither fence is only trimmed |
| Fences.CleanReplyUnwrapsFence | services/geminiService.ts:83-86 | a trimmed document wrapped in an html fence, with any whitespace after the opening fence, comes back unchanged |
| Fences.FenceBeforeNewlineSurvives | services/aiService.ts:222 | a closing fence followed by a newline is not stripped; the trim removes only the newline |
| BlockScan.FindBlock | services/aiService.ts:254 | the leftmost start tag and the first end tag after it, or no block, and then no start tag has an end tag after it |
| BlockScan.FindBlockIs | services/aiService.ts:254 | the first block is unique: any position pair meeting the leftmost/lazy conditions is the one found |
| BlockScan.NoBlockFound | services/aiService.ts:254 | in a text where no start tag has a later end tag, the search finds no block, so the replacement keeps the text |
| BlockScan.ReplaceBlocks | services/aiService.ts:254-261 | the global replacement; a text too short to hold a start tag comes back unchanged. What it computes for every text is stated by `BlockScan.ReplaceFollowsSplit` with `BlockScan.RegexSplitExists` |
| BlockScan.NoBlockUnchanged | services/aiService.ts:254-261 | a text in which no start tag has a later end tag comes back unchanged |
| BlockScan.ReplaceFollowsSplit | services/aiService.ts:254-261 | for every split of a text into leftmost, lazy, non-overlapping blocks followed by a tail with no complete block, the replacement keeps every character outside the blocks and replaces each body by the callback |
| BlockScan.RegexSplitExists | services/aiService.ts:254 | every text has such a split, so the previous row describes every input |
| BlockScan.ReplaceKeepsEnds | services/aiService.ts:254-261 | when every replacement starts and ends like the tags, the replaced text starts and ends with the same characters as the original, and is empty only if the original is |
| MermaidBlocks.CleanBody | services/aiService.ts:255-259 | the body clean-up's result has no whitespace at either end and is no longer than the body |
| MermaidBlocks.UnfencedBodyIsOnlyTrimmed | services/aiService.ts:255-259 | a body that neither starts with a fence nor ends with a fence before trailing whitespace is only trimmed |
| MermaidBlocks.CleanBodyUnwrapsFence | services/aiService.ts:256-259 | a diagram wrapped in a ```mermaid fence, with any whitespace around, comes back exactly |
| MermaidBlocks.MermaidReplacement | services/aiService.ts:260 | the replacement is the start tag, the cleaned body, then the end tag |
| MermaidBlocks.CleanMermaidBlocks | services/aiService.ts:254-261 | a reply with no complete block comes back unchanged; otherwise the result is empty only if the reply is, and keeps its first and last characters. Each block's clean-up is stated by `MermaidBlocks.CleanMermaidBlocksSpec` |
| MermaidBlocks.CleanMermaidBlocksKeepsTrimmed | services/aiService.ts:254-261 | the diagram clean-up keeps a trimmed reply trimmed |
| MermaidBlocks.CleanMermaidBlocksSpec | services/aiService.ts:254-261 | for every split into regex matches, the result keeps each block's tags and the text around the blocks, and cleans each body |
| AiService.ProviderName | services/aiService.ts:8 | each provider is one of the two literals of the union type, and "gemini" is exactly the Gemini provider |
| AiService.ParseProvider | services/aiService.ts:8 | a name parses to a provider exactly when it is that provider's literal; any other name is none |
| AiService.ProviderNameRoundTrip | services/aiService.ts:8 | a provider's literal parses back to that provider |
| AiService.AvailableProviders | services/aiService.ts:285-287 | both providers are listed, each exactly once, gemini first |
| AiService.DefaultModel | services/aiService.ts:289-294 | gemini maps to gemini-2.5-flash and openrouter to anthropic/claude-3.5-sonnet, and only those providers map to those models |
| AiService.DefaultModelByName | services/aiService.ts:289-298 | a provider name gives its default model; any other string gives the error "Unknown provider: " followed by the string |
| AiService.UserMessage | services/aiService.ts:217 | the message is the fixed frame with the text inserted verbatim between its head and tail |
| AiService.UserText | services/aiService.ts:238 | the inverse of the frame: some text exactly when the message has the frame's head and tail |
| AiService.UserTextOfUserMessage | services/aiService.ts:217 | reading back a framed text gives the text |
| AiService.UserMessageOfUserText | services/aiService.ts:238 | a message that reads back as a text is that text framed |
| AiService.UserMessageInjective | services/aiService.ts:217 | different texts give different messages |
| AiService.GeminiRequest | services/aiService.ts:205-218 | the Gemini chat uses gemini-2.5-flash and the system instruction, and its message reads back as the user's text |
| AiService.OpenRouterRequest | services/aiService.ts:226-243 | the completion uses the configured model and the system instruction, and its user message reads back as the user's text |
| AiService.ProvidersSendSameMessage | services/aiService.ts:217-238 | both providers send the same user message and the same system instruction |
| AiService.PlanRequest | services/aiService.ts:266-283 | gemini sends the Gemini request whatever model is configured; openrouter sends the configured model; any other provider fails with the wrapped "Failed to generate HTML from … API" message |
| AiService.GeminiHtml | services/aiService.ts:220-223 | the Gemini reply after clean-up has no whitespace at either end |
| AiService.FirstContent | services/aiService.ts:245 | the first choice's content when present and non-empty, otherwise the empty text |
| AiService.OpenRouterHtml | services/aiService.ts:245-263 | the OpenRouter reply after both clean-ups has no whitespace at either end |
| AiService.MissingContentGivesEmptyHtml | services/aiService.ts:245-251 | a reply with no choice, no message or no content is not an error: the result is the empty text |
| AiService.OpenRouterWithoutDiagramsIsGemini | services/aiService.ts:248-261 | without diagram blocks, the OpenRouter clean-up equals the Gemini clean-up |
| GeminiService.Prompt | services/geminiService.ts:19-72 | the prompt is a fixed head ending in the frame's opening, the text verbatim, then "\n---\n" |
| GeminiService.PromptText | services/geminiService.ts:19-72 | the inverse of the prompt: some text exactly when the prompt has the head and tail |
| GeminiService.PromptTextOfPrompt | services/geminiService.ts:68-72 | reading back a prompt gives the text |
| GeminiService.PromptInjective | services/geminiService.ts:68-72 | different texts give different prompts |
| GeminiService.PromptEndsWithUserMessage | services/geminiService.ts:68-72 | the prompt is the instructions, a blank line, the provider gateway's user message, and one more newline |
| GeminiService.NotesRequest | services/geminiService.ts:76-80 | the request uses the same model as the provider gateway's Gemini path, and its contents read back as the text |
| GeminiService.NotesHtml | services/geminiService.ts:83-86 | the cleaned reply has no whitespace at either end |
| GeminiService.NotesHtmlIsGeminiHtml | services/geminiService.ts:83-86 | this gateway's chain (lines 83-86) cleans every reply exactly as the provider gateway's Gemini path (services/aiService.ts:220-223) does, with no diagram step |
| Preview.ShellMathMatchesLive | components/Preview.tsx:21-25 | the exported page's math options equal the live pass's options (lines 65-69): `$$` display before `$` inline, no delimiter shadowed by an earlier one, throwOnError false |
| Preview.MermaidConfigsDifferOnlyInStart | components/Preview.tsx:27 | both Mermaid set-ups use the dark theme; only the exported page starts on load (the live pass, line 80, does not) |
| Preview.FullHtmlPage | components/Preview.tsx:7-43 | the page is the fixed head, the HTML verbatim, then the fixed tail |
| Preview.PageBody | components/Preview.tsx:7-43 | the inverse of the page: some HTML exactly when the page has the head and tail |
| Preview.PageBodyOfFullHtmlPage | components/Preview.tsx:7-43 | reading back an exported page gives the HTML |
| Preview.FullHtmlPageInjective | components/Preview.tsx:7-43 | different HTML gives different pages |
| Preview.BodyBetweenBodyTags | components/Preview.tsx:39-41 | the HTML sits right after the `<body …>` line's indentation and right before the line holding `</body>` |
| Preview.ScriptSourcesAreScripts | components/Preview.tsx:13-17 | the listed sources are exactly the `src` attributes of the list's script items: each listed source belongs to a script item, and each script item's source is listed |
| Preview.ShellScriptSources | components/Preview.tsx:13-17 | the shell loads Tailwind, KaTeX, KaTeX auto-render and Mermaid, in that order |
| Preview.ShellLoadsEachLibraryOnce | components/Preview.tsx:15-17 | the KaTeX script and the Mermaid script are each loaded exactly once |
| Preview.ShellHandlerUsesLiveMathOptions | components/Preview.tsx:18-29 | the shell's load handler typesets with the live panel's math options |
| Preview.MathPass | components/Preview.tsx:60-74 | runs only when `renderMathInElement` exists, with the live options; a throw is caught and leaves the mount unchanged |
| Preview.DiagramPass | components/Preview.tsx:76-88 | runs only when Mermaid exists; renders only when initialising succeeded, the mount holds a `.mermaid` element and the run succeeded; a caught error is the one initialising threw, or, after a successful initialise with diagrams present, the one the run threw; a throw leaves the mount unchanged |
| Preview.Settle | components/Preview.tsx:57-89 | the math pass, then the diagram pass over what the math pass left |
| Preview.SettleLogsCaughtErrors | components/Preview.tsx:72-88 | only passes that threw are logged, each with its own error, math before diagrams |
| Preview.MathFailureDoesNotSkipDiagrams | components/Preview.tsx:60-88 | a failed math pass does not skip the diagram pass, which then works on the untouched mount |
| Preview.NoDiagramsMeansMathOnly | components/Preview.tsx:79-84 | without Mermaid or without diagram elements, the settle step's result is the math pass's |
| Preview.PreviewPane.constructor | components/Preview.tsx:50-57 | the first render mounts non-empty content and schedules one settle step 50 ms ahead; empty content mounts and schedules nothing |
| Preview.PreviewPane.CopyPayload | components/Preview.tsx:95-96 | the copy button writes the prop unmodified, not the rendered mount |
| Preview.PreviewPane.ExportedPage | components/Preview.tsx:102-103 | the exported page wraps exactly what the copy button writes |
| Preview.PreviewPane.CancelPending | components/Preview.tsx:91 | `clearTimeout`: nothing is pending afterwards, nothing else changes |
| Preview.PreviewPane.Render | components/Preview.tsx:50-93 | unchanged content does nothing. Otherwise the old step is cancelled; non-empty content is mounted exactly with one step due 50 ms later; empty content keeps the mount and schedules nothing. At most one step stays pending, for the latest content |
| Preview.PreviewPane.RunSettle | components/Preview.tsx:57-89 | the step that has just fired (nothing pending) runs the settle passes on the mount in place and appends their errors to the console; the pane stays well formed |
| Preview.PreviewPane.Advance | components/Preview.tsx:57-89 | time passes; a pending step that falls due fires exactly once and is no longer pending; otherwise nothing but the clock changes |
| Preview.PreviewPane.Teardown | components/Preview.tsx:91 | unmounting cancels the pending step, so nothing fires afterwards |
| Preview.SupersededContentNeverSettles | components/Preview.tsx:91-93 | content replaced before its step is due is never settled: at its due time the mount still holds the replacement as mounted; 50 ms after the replacement the mount is the replacement settled, and the console holds only that settle step's output |

## Left out

- SDK client construction and the module-level caches (services/aiService.ts:4-6, 187-203; services/geminiService.ts:3-16). These are lazy imports of vendor libraries.
- The cached Gemini chat (services/aiService.ts:208-215) keeps earlier turns across calls. `GeminiRequest` shows the chat's model, instruction and new message, not its history.
- The network calls, the OpenRouter base URL and API key, and the temperature (0.7) and token limit (4000). These are parameters of foreign I/O.
- Error handling around the network. A transport or SDK error is not a value here, so its logging and rewrapping (services/aiService.ts:279-282; services/geminiService.ts:89-92) are not modelled.
- Of the error paths, two are modelled. The unknown-provider branch of `generateNotesHtml` is modelled in `PlanRequest`, but not the console line it writes. The `Unknown provider: …` throw of `getDefaultModel` (services/aiService.ts:296) is modelled in `DefaultModelByName`.
- A reply whose `text` is undefined on the Gemini paths is not modelled: the reply text is always a string.
- The wording of the system instruction (services/aiService.ts:16-185) and of the prompt's instruction paragraphs (services/geminiService.ts:20-66). Both are fixed texts whose contents are not modelled: `AiService.SystemInstruction` and `GeminiService.Instructions`.
- KaTeX and Mermaid themselves are black boxes: functions from the mount's content to new content or an error.
- A pass that throws is taken to leave the mount unchanged. Changes it made before throwing are not modelled.
- `mermaid.run` returns a promise. Its rejection escapes both try/catch blocks, and its rendering may end after a later render; neither is modelled. The run is taken to finish within the settle step.
- The DOM is a string. `innerHTML` parsing and serialisation are not modelled, and `querySelectorAll('.mermaid')` is the window's `diagramCount`.
- While mounted, the panel's element is taken to exist, so the `previewRef.current` test at components/Preview.tsx:51 is not modelled.
- React's StrictMode double invocation of effects is not modelled.
- Blob, object URLs, `window.open`, `URL.revokeObjectURL`, the clipboard promise, the two-second `isCopied` reset and the JSX layout. These are browser I/O and UI feedback.
- App.tsx is not part of this model: upload, MIME check, loader, layout. It mounts the panel only for non-empty HTML.
- Text.Trim: states only that its result has no whitespace at either end and is no longer than its input. What it removes is stated by `Text.TrimStart` and `Text.TrimEnd`, which it composes.
- BlockScan.ReplaceBlocks: requires a non-empty end tag. With an empty one the scan would not advance. The one use has the end tag `</pre>`.
- BlockScan.ReplaceBlocks: its own contract states only the short-text case. Its full behaviour is stated by the lemmas `ReplaceFollowsSplit`, `RegexSplitExists` and `NoBlockUnchanged`.
- Characters are Unicode scalar values, not UTF-16 code units. The whitespace set lies inside the Basic Multilingual Plane, so the clean-up behaves the same.
