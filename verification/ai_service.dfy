// The provider gateway (services/aiService.ts): which providers exist and their
// default models, the request each provider is sent for a piece of user text, and
// the clean-up each provider's reply goes through before it is shown. The network
// calls themselves are not modelled: a request is a value, and a reply is the value
// the SDK hands back.
module AiService {
  import opened Wrappers
  import opened Text
  import opened Fences
  import opened BlockScan
  import opened MermaidBlocks

  /** The two providers of the `Provider` union type. */
  datatype Provider = Gemini | OpenRouter

  /** The string literal that stands for each provider. */
  function ProviderName(p: Provider): (r: string)
    ensures r == "gemini" || r == "openrouter"
    ensures r == "gemini" <==> p == Gemini
  {
    match p
    case Gemini => "gemini"
    case OpenRouter => "openrouter"
  }

  /** Reading a provider name back: exactly the two literals name a provider. */
  function ParseProvider(name: string): (r: Option<Provider>)
    ensures r.Some? ==> ProviderName(r.value) == name
    ensures r.None? ==> forall p: Provider :: ProviderName(p) != name
  {
    if name == "gemini" then Some(Gemini)
    else if name == "openrouter" then Some(OpenRouter)
    else None
  }

  /** Distinct providers have distinct names, so parsing a name gives back its provider. */
  lemma {:induction false} ProviderNameRoundTrip(p: Provider)
    ensures ParseProvider(ProviderName(p)) == Some(p)
  {
    match p
    case Gemini =>
    case OpenRouter =>
      assert ProviderName(p)[0] == 'o';
  }

  /** `getAvailableProviders`: every provider exactly once, gemini first. */
  function AvailableProviders(): (r: seq<Provider>)
    ensures |r| == 2 && r[0] == Gemini
    ensures Gemini in r && OpenRouter in r
    ensures forall i, j :: 0 <= i < j < |r| ==> r[i] != r[j]
  {
    [Gemini, OpenRouter]
  }

  /** The model the Gemini path always talks to, whatever model the caller configured. */
  const GeminiModel: string := "gemini-2.5-flash"
  const OpenRouterDefaultModel: string := "anthropic/claude-3.5-sonnet"

  /** `getDefaultModel`: a fixed model per provider; the Gemini default is the model the Gemini path uses. */
  function DefaultModel(p: Provider): (r: string)
    ensures p == Gemini <==> r == GeminiModel
    ensures p == OpenRouter <==> r == OpenRouterDefaultModel
  {
    match p
    case Gemini => GeminiModel
    case OpenRouter => OpenRouterDefaultModel
  }

  /**
   * `getDefaultModel` called with an arbitrary string (the `default` branch of its
   * switch): a provider name gives its default model, anything else the error
   * "Unknown provider: " followed by the name.
   */
  function DefaultModelByName(name: string): (r: Result<string, string>)
    ensures r.Success? <==> ParseProvider(name).Some?
    ensures r.Success? ==> r.value == DefaultModel(ParseProvider(name).value)
    ensures r.Failure? ==> r.error == "Unknown provider: " + name
  {
    match ParseProvider(name)
    case Some(p) => Success(DefaultModel(p))
    case None => Failure("Unknown provider: " + name)
  }

  const MessageHead: string := "Here is the user's text to convert:\n---\n"
  const MessageTail: string := "\n---"

  /** The user message both providers send: a fixed frame around the text, which is inserted verbatim. */
  function UserMessage(text: string): (r: string)
    ensures |r| == |MessageHead| + |text| + |MessageTail|
    ensures StartsWith(r, MessageHead) && EndsWith(r, MessageTail)
    ensures r[|MessageHead|..|r| - |MessageTail|] == text
  {
    var r := MessageHead + text + MessageTail;
    assert r[|MessageHead|..|r| - |MessageTail|] == text;
    r
  }

  /** Reading the text back out of a user message; `None` when the frame is missing. */
  function UserText(message: string): (r: Option<string>)
    ensures r.Some? <==> |MessageHead| + |MessageTail| <= |message|
                         && StartsWith(message, MessageHead) && EndsWith(message, MessageTail)
  {
    if |MessageHead| + |MessageTail| <= |message| && StartsWith(message, MessageHead) && EndsWith(message, MessageTail)
    then Some(message[|MessageHead|..|message| - |MessageTail|])
    else None
  }

  /** Framing then reading back gives the text. */
  lemma {:induction false} UserTextOfUserMessage(text: string)
    ensures UserText(UserMessage(text)) == Some(text)
  {
    var m := UserMessage(text);
    assert |MessageHead| + |MessageTail| <= |m|;
  }

  /** Every framed message is the frame around the text read from it: the frame is the whole of the message. */
  lemma {:induction false} UserMessageOfUserText(message: string, text: string)
    requires UserText(message) == Some(text)
    ensures UserMessage(text) == message
  {
    var m := UserMessage(text);
    assert m[..|MessageHead|] == message[..|MessageHead|];
    assert m[|MessageHead|..|m| - |MessageTail|] == message[|MessageHead|..|message| - |MessageTail|];
    assert m[|m| - |MessageTail|..] == message[|message| - |MessageTail|..];
    assert m == m[..|MessageHead|] + m[|MessageHead|..|m| - |MessageTail|] + m[|m| - |MessageTail|..];
    assert message == message[..|MessageHead|] + message[|MessageHead|..|message| - |MessageTail|]
                      + message[|message| - |MessageTail|..];
  }

  /** Different texts give different messages. */
  lemma {:induction false} UserMessageInjective(a: string, b: string)
    requires UserMessage(a) == UserMessage(b)
    ensures a == b
  {
    UserTextOfUserMessage(a);
    UserTextOfUserMessage(b);
  }

  /**
   * The system instruction both providers send (services/aiService.ts, lines 16-185).
   * Its wording is not modelled; it is some fixed text.
   */
  const SystemInstruction: string

  /** What a provider is asked: a model, the system instruction and one user message. */
  datatype ChatRequest = ChatRequest(model: string, system: string, user: string)

  /** The chat the Gemini path opens and the message it sends. */
  function GeminiRequest(text: string): (r: ChatRequest)
    ensures r.model == DefaultModel(Gemini) && r.system == SystemInstruction
    ensures UserText(r.user) == Some(text)
  {
    UserTextOfUserMessage(text);
    ChatRequest(GeminiModel, SystemInstruction, UserMessage(text))
  }

  /** The completion the OpenRouter path requests, with the configured model. */
  function OpenRouterRequest(text: string, model: string): (r: ChatRequest)
    ensures r.model == model && r.system == SystemInstruction
    ensures UserText(r.user) == Some(text)
  {
    UserTextOfUserMessage(text);
    ChatRequest(model, SystemInstruction, UserMessage(text))
  }

  /** Both providers frame the text the same way and send the same instruction; only the model may differ. */
  lemma {:induction false} ProvidersSendSameMessage(text: string, model: string)
    ensures GeminiRequest(text).user == OpenRouterRequest(text, model).user
    ensures GeminiRequest(text).system == OpenRouterRequest(text, model).system
  {
    UserMessageOfUserText(GeminiRequest(text).user, text);
    UserMessageOfUserText(OpenRouterRequest(text, model).user, text);
  }

  /** The provider settings the caller passes in; `provider` is whatever string the caller holds. */
  datatype ProviderConfig = ProviderConfig(provider: string, model: string, apiKey: string)

  /**
   * `generateNotesHtml`'s dispatch: the request it sends, or, for a provider it does not
   * know, the error it rethrows. The Gemini branch ignores the configured model.
   */
  function PlanRequest(text: string, config: ProviderConfig): (r: Result<ChatRequest, string>)
    ensures ParseProvider(config.provider) == Some(Gemini) ==> r == Success(GeminiRequest(text))
    ensures ParseProvider(config.provider) == Some(OpenRouter) ==> r == Success(OpenRouterRequest(text, config.model))
    ensures ParseProvider(config.provider).None? ==>
      r == Failure("Failed to generate HTML from " + config.provider + " API. Check console for details.")
  {
    match ParseProvider(config.provider)
    case Some(Gemini) => Success(GeminiRequest(text))
    case Some(OpenRouter) => Success(OpenRouterRequest(text, config.model))
    case None => Failure("Failed to generate HTML from " + config.provider + " API. Check console for details.")
  }

  /** The Gemini reply clean-up (lines 220-223): the fence chain only. */
  function GeminiHtml(responseText: string): (r: string)
    ensures Trimmed(r) && |r| <= |responseText|
  {
    CleanReply(responseText)
  }

  /** The part of the OpenRouter SDK reply the path reads: `choices[i].message.content`, each level optional. */
  datatype Message = Message(content: Option<string>)
  datatype Choice = Choice(message: Option<Message>)

  /** `response.choices[0]?.message?.content || ''`: any missing level, or an empty content, gives the empty text. */
  function FirstContent(choices: seq<Choice>): (r: string)
    ensures r != [] <==> choices != [] && choices[0].message.Some? && choices[0].message.value.content.Some?
                         && choices[0].message.value.content.value != []
    ensures r != [] ==> r == choices[0].message.value.content.value
  {
    if choices == [] then ""
    else match choices[0].message
      case None => ""
      case Some(m) => m.content.GetOr("")
  }

  /** The OpenRouter reply clean-up (lines 245-261): the fence chain, then the diagram blocks. */
  function OpenRouterHtml(choices: seq<Choice>): (r: string)
    ensures Trimmed(r)
  {
    var html := CleanReply(FirstContent(choices));
    CleanMermaidBlocksKeepsTrimmed(html);
    CleanMermaidBlocks(html)
  }

  /** A reply without content is not an error: it gives the empty page. */
  lemma {:induction false} MissingContentGivesEmptyHtml(choices: seq<Choice>)
    requires FirstContent(choices) == []
    ensures OpenRouterHtml(choices) == []
  {
    assert CleanReply([]) == [];
    assert FindBlock([], StartTag, EndTag) == NoBlock;
  }

  /** Without diagram blocks, both providers clean a reply text the same way. */
  lemma {:induction false} OpenRouterWithoutDiagramsIsGemini(choices: seq<Choice>)
    requires NoBlockIn(CleanReply(FirstContent(choices)), StartTag, EndTag)
    ensures OpenRouterHtml(choices) == GeminiHtml(FirstContent(choices))
  {
    NoBlockFound(CleanReply(FirstContent(choices)), StartTag, EndTag);
  }
}
