/**
 * Transcript cleanup by a chat model (src-tauri/src/llm.rs): the chat
 * request built from the configuration, the choice of the reply text, and
 * the unwrapping of XML-style tags the model may echo around its answer.
 * Sending the request is foreign: its outcome is a parameter.
 */
module Llm {
  import opened Wrappers
  import opened Errors
  import opened Strings
  import opened Http

  // ---------------------------------------------------------------------------
  // Unwrapping tags

  /** A char that ends a tag name: whitespace or '/'. */
  predicate EndsTagName(c: char) {
    IsWhitespace(c) || c == '/'
  }

  /** The first piece of `content` split at whitespace or '/': the tag name without its attributes. */
  function TagName(content: string): (name: string)
    ensures |name| <= |content| && name == content[..|name|]
    ensures forall i :: 0 <= i < |name| ==> !EndsTagName(name[i])
    ensures |name| < |content| ==> EndsTagName(content[|name|])
  {
    if content == [] || EndsTagName(content[0]) then []
    else [content[0]] + TagName(content[1..])
  }

  /**
   * The tag opened by the first '<' of `text`, if the extraction accepts it:
   * the index of the '>' that ends it and its name. The tag is refused when
   * no '>' follows, when it is empty or a closing tag, and when its name is empty.
   */
  function OpeningTag(text: string): (r: Option<(nat, string)>)
    ensures r.Some? ==> r.value.0 < |text| && r.value.1 != []
  {
    match FindChar(text, '<')
    case None => None
    case Some(openStart) =>
      match FindChar(text[openStart..], '>')
      case None => None
      case Some(relEnd) =>
        var startEnd := openStart + relEnd;
        var tagContent := text[openStart + 1..startEnd];
        if tagContent == [] || tagContent[0] == '/' then None
        else
          var tagName := TagName(tagContent);
          if tagName == [] then None else Some((startEnd, tagName))
  }

  /**
   * `extract_from_tags`: look at the first '<' only. If a tag opens there, with
   * a non-empty name, and its closing tag follows, return what lies between
   * them, trimmed; in every other case return the text unchanged.
   */
  function ExtractFromTags(text: string): (r: string)
    ensures |r| <= |text|
  {
    match OpeningTag(text)
    case None => text
    case Some((startEnd, name)) => FromClose(text, startEnd, name)
  }

  /** The extraction once the tag `name` ends at `startEnd`: the trimmed text up to its first closing tag. */
  function FromClose(text: string, startEnd: nat, name: string): (r: string)
    requires startEnd < |text|
    ensures |r| <= |text|
  {
    match Find(text[startEnd + 1..], "</" + name + ">")
    case None => text
    case Some(relClose) => Trim(text[startEnd + 1..startEnd + 1 + relClose])
  }

  /** Text without '<' is returned unchanged. */
  lemma NoTagUnchanged(text: string)
    requires '<' !in text
    ensures ExtractFromTags(text) == text
  {
    FindCharFirst(text, '<');
  }

  /**
   * Only the first '<' is looked at: when no '>' follows it (`close` is None),
   * or the tag there is empty, a closing tag or has an empty name, the text is
   * unchanged, whatever tags come later.
   */
  lemma RefusedTagUnchanged(text: string, openStart: nat, close: Option<nat>)
    requires FindChar(text, '<') == Some(openStart)
    requires FindChar(text[openStart..], '>') == close
    requires close.None? ||
      (close.value > 0 &&
       var content := text[openStart + 1..openStart + close.value];
       content == [] || content[0] == '/' || TagName(content) == [])
    ensures ExtractFromTags(text) == text
  {
    assert OpeningTag(text).None?;
  }

  /** An accepted opening tag whose closing tag never follows leaves the text unchanged. */
  lemma NoCloseUnchanged(text: string, startEnd: nat, name: string)
    requires OpeningTag(text) == Some((startEnd, name))
    requires Find(text[startEnd + 1..], "</" + name + ">").None?
    ensures ExtractFromTags(text) == text
  {
  }

  /** Once the opening tag is known, the extraction is the search for its closing tag. */
  lemma {:induction false} ExtractAfterTag(text: string, startEnd: nat, name: string)
    requires OpeningTag(text) == Some((startEnd, name))
    ensures ExtractFromTags(text) == FromClose(text, startEnd, name)
  {
  }

  /** What `FromClose` returns is the whole text or a trimmed slice of it. */
  lemma {:induction false} ClosedSlice(text: string, startEnd: nat, name: string) returns (i: nat, j: nat)
    requires startEnd < |text|
    ensures FromClose(text, startEnd, name) == text || (i <= j <= |text| && FromClose(text, startEnd, name) == Trim(text[i..j]))
  {
    var found := Find(text[startEnd + 1..], "</" + name + ">");
    if found.Some? {
      i, j := startEnd + 1, startEnd + 1 + found.value;
    } else {
      i, j := 0, 0;
    }
  }

  /** The result is the whole input or a trimmed slice of it. */
  lemma {:induction false} ExtractIsSlice(text: string) returns (i: nat, j: nat)
    ensures ExtractFromTags(text) == text || (i <= j <= |text| && ExtractFromTags(text) == Trim(text[i..j]))
  {
    var tag := OpeningTag(text);
    if tag.Some? {
      ExtractAfterTag(text, tag.value.0, tag.value.1);
      i, j := ClosedSlice(text, tag.value.0, tag.value.1);
    } else {
      i, j := 0, 0;
    }
  }

  /** A tag name the extraction recognises in full: non-empty, and free of whitespace, '/', '>' and '<'. */
  predicate IsPlainTagName(name: string) {
    name != [] && forall i :: 0 <= i < |name| ==> !EndsTagName(name[i]) && name[i] != '>' && name[i] != '<'
  }

  /** The opening tag `<name>`. */
  function OpenTag(name: string): string {
    "<" + name + ">"
  }

  /** The closing tag `</name>` the extraction looks for. */
  function CloseTag(name: string): string {
    "</" + name + ">"
  }

  /** A plain tag name is its own tag name. */
  lemma TagNameWhole(name: string)
    requires IsPlainTagName(name)
    ensures TagName(name) == name
  {
    assert name[..|TagName(name)|] == TagName(name);
  }

  /** The first '>' after an opening tag is the one that closes it. */
  lemma OpenTagEnds(name: string, rest: string)
    requires IsPlainTagName(name)
    ensures FindChar(OpenTag(name) + rest, '>') == Some(|name| + 1)
  {
    var s := OpenTag(name) + rest;
    assert s[..|name| + 1] == "<" + name;
    FindCharAt(s, '>', |name| + 1);
  }

  /** Text without '<' cannot hold a closing tag, so the first one is right after it. */
  lemma CloseTagFirst(inner: string, name: string, post: string)
    requires '<' !in inner
    ensures Find(inner + CloseTag(name) + post, CloseTag(name)) == Some(|inner|)
  {
    var rest := inner + CloseTag(name) + post;
    var closeTag := CloseTag(name);
    assert rest[|inner|..|inner| + |closeTag|] == closeTag;
    assert OccursAt(rest, closeTag, |inner|);
    assert closeTag[0] == '<';
    forall j | 0 <= j < |inner| ensures !OccursAt(rest, closeTag, j) {
      assert rest[j] == inner[j];
      assert inner[j] in inner;
      assert j + |closeTag| > |rest| || rest[j..j + |closeTag|][0] == rest[j];
    }
    FindFirst(rest, closeTag);
  }

  /**
   * A reply wrapped in a tag pair, after text with no '<', gives back exactly
   * its inner text, trimmed, whatever follows the closing tag.
   */
  lemma ExtractWrapped(text: string, pre: string, name: string, inner: string, post: string)
    requires text == pre + OpenTag(name) + inner + CloseTag(name) + post
    requires '<' !in pre && '<' !in inner
    requires IsPlainTagName(name)
    ensures ExtractFromTags(text) == Trim(inner)
  {
    var rest := inner + CloseTag(name) + post;
    assert text == pre + OpenTag(name) + rest;
    OpeningTagWrapped(text, pre, name, rest);
    var startEnd := |pre| + |name| + 1;
    assert text[startEnd + 1..] == rest;
    ExtractAfterTag(text, startEnd, name);
    ClosedWrapped(text, startEnd, inner, name, post);
  }

  /** Text with no '<' followed by a closing tag is extracted up to that closing tag. */
  lemma ClosedWrapped(text: string, startEnd: nat, inner: string, name: string, post: string)
    requires startEnd < |text| && text[startEnd + 1..] == inner + CloseTag(name) + post
    requires '<' !in inner
    ensures FromClose(text, startEnd, name) == Trim(inner)
  {
    var rest := text[startEnd + 1..];
    CloseTagFirst(inner, name, post);
    ClosedIn(text, startEnd, name, rest, |inner|);
    assert rest[..|inner|] == inner;
  }

  /** `ClosedAt`, with the text after the opening tag named `rest`. */
  lemma ClosedIn(text: string, startEnd: nat, name: string, rest: string, k: nat)
    requires startEnd < |text| && rest == text[startEnd + 1..]
    requires Find(rest, CloseTag(name)) == Some(k)
    ensures k <= |rest| && FromClose(text, startEnd, name) == Trim(rest[..k])
  {
    ClosedAt(text, startEnd, name, k);
    assert rest[..k] == text[startEnd + 1..startEnd + 1 + k];
  }

  /** A closing tag found `k` chars after the opening tag ends the extracted text. */
  lemma {:induction false} ClosedAt(text: string, startEnd: nat, name: string, k: nat)
    requires startEnd < |text|
    requires Find(text[startEnd + 1..], "</" + name + ">") == Some(k)
    ensures startEnd + 1 + k <= |text| && FromClose(text, startEnd, name) == Trim(text[startEnd + 1..startEnd + 1 + k])
  {
  }

  /** After text with no '<', a plain opening tag is the tag the extraction takes. */
  lemma OpeningTagWrapped(text: string, pre: string, name: string, rest: string)
    requires text == pre + OpenTag(name) + rest
    requires '<' !in pre && IsPlainTagName(name)
    ensures OpeningTag(text) == Some((|pre| + |name| + 1, name))
  {
    var openStart := |pre|;
    assert text[..openStart] == pre;
    assert text[openStart] == '<';
    FindCharAt(text, '<', openStart);
    assert text[openStart..] == OpenTag(name) + rest;
    OpenTagEnds(name, rest);
    assert text[openStart + 1..openStart + |name| + 1] == name;
    TagNameWhole(name);
  }

  // ---------------------------------------------------------------------------
  // The chat request

  datatype ApiType = Ollama | OpenAI

  datatype FewShotExample = FewShotExample(input: string, output: string)

  /** The cleanup configuration: where to send, which model, the prompt, the API flavour and the examples. */
  datatype LlmConfig = LlmConfig(
    endpoint: string, model: string, systemPrompt: string, apiType: ApiType, fewShotExamples: seq<FewShotExample>)

  /**
   * The default configuration: a local Ollama server running "mistral". The
   * prompt and the examples are data, passed in.
   */
  function DefaultLlmConfig(systemPrompt: string, examples: seq<FewShotExample>): (c: LlmConfig)
    ensures c.endpoint == "http://localhost:11434" && c.model == "mistral"
    ensures c.apiType == Ollama && c.systemPrompt == systemPrompt && c.fewShotExamples == examples
    ensures ChatUrl(c) == "http://localhost:11434/api/chat"
  {
    LlmConfig("http://localhost:11434", "mistral", systemPrompt, Ollama, examples)
  }

  datatype ChatMessage = ChatMessage(role: string, content: string)

  /** A transcription as the model is shown it: inside `<transcription>` tags. */
  function Wrapped(text: string): string {
    OpenTag("transcription") + text + CloseTag("transcription")
  }

  /** A model that echoes the tag format back has it taken off again. */
  lemma WrappedUnwraps(text: string)
    requires '<' !in text
    ensures ExtractFromTags(Wrapped(text)) == Trim(text)
  {
    TranscriptionTagPlain();
    ExtractWrapped(Wrapped(text), [], "transcription", text, []);
  }

  /** "transcription" is a plain tag name. */
  lemma TranscriptionTagPlain()
    ensures IsPlainTagName("transcription")
  {
    var name := "transcription";
    forall i | 0 <= i < |name| ensures !EndsTagName(name[i]) && name[i] != '>' && name[i] != '<' {
      assert 'a' <= name[i] <= 'z';
    }
  }

  /** The user/assistant pair every example contributes, in example order. */
  function ExampleMessages(examples: seq<FewShotExample>): seq<ChatMessage> {
    if examples == [] then []
    else
      var last := examples[|examples| - 1];
      ExampleMessages(examples[..|examples| - 1]) +
        [ChatMessage("user", Wrapped(last.input)), ChatMessage("assistant", last.output)]
  }

  /** The messages of a cleanup request: the prompt, the examples, then the transcription. */
  function ChatMessages(config: LlmConfig, rawText: string): seq<ChatMessage> {
    [ChatMessage("system", config.systemPrompt)] + ExampleMessages(config.fewShotExamples) +
      [ChatMessage("user", Wrapped(rawText))]
  }

  /** Example `i` sits at positions 2i and 2i+1 of the example messages. */
  lemma {:induction false} ExampleMessagesLayout(examples: seq<FewShotExample>)
    ensures |ExampleMessages(examples)| == 2 * |examples|
    ensures forall i :: 0 <= i < |examples| ==>
      ExampleMessages(examples)[2 * i] == ChatMessage("user", Wrapped(examples[i].input)) &&
      ExampleMessages(examples)[2 * i + 1] == ChatMessage("assistant", examples[i].output)
  {
    if examples != [] {
      ExampleMessagesLayout(examples[..|examples| - 1]);
    }
  }

  /**
   * With k examples there are 2k+2 messages: the system prompt first, each
   * example's user and assistant messages in order, the transcription last.
   */
  lemma ChatMessagesLayout(config: LlmConfig, rawText: string)
    ensures var m, ex := ChatMessages(config, rawText), config.fewShotExamples;
      |m| == 2 * |ex| + 2 &&
      m[0] == ChatMessage("system", config.systemPrompt) &&
      (forall i :: 0 <= i < |ex| ==>
        m[2 * i + 1] == ChatMessage("user", Wrapped(ex[i].input)) &&
        m[2 * i + 2] == ChatMessage("assistant", ex[i].output)) &&
      m[|m| - 1] == ChatMessage("user", Wrapped(rawText))
  {
    var ex := config.fewShotExamples;
    ExampleMessagesLayout(ex);
    var m := ChatMessages(config, rawText);
    forall i | 0 <= i < |ex|
      ensures m[2 * i + 1] == ChatMessage("user", Wrapped(ex[i].input))
      ensures m[2 * i + 2] == ChatMessage("assistant", ex[i].output)
    {
      assert m[2 * i + 1] == ExampleMessages(ex)[2 * i];
      assert m[2 * i + 2] == ExampleMessages(ex)[2 * i + 1];
    }
  }

  /** The message loop of `cleanup_text`. */
  method BuildMessages(config: LlmConfig, rawText: string) returns (messages: seq<ChatMessage>)
    ensures messages == ChatMessages(config, rawText)
  {
    messages := [ChatMessage("system", config.systemPrompt)];
    var examples := config.fewShotExamples;
    for k := 0 to |examples|
      invariant messages == [ChatMessage("system", config.systemPrompt)] + ExampleMessages(examples[..k])
    {
      assert examples[..k + 1][..k] == examples[..k];
      messages := messages + [ChatMessage("user", Wrapped(examples[k].input))];
      messages := messages + [ChatMessage("assistant", examples[k].output)];
    }
    assert examples[..|examples|] == examples;
    messages := messages + [ChatMessage("user", Wrapped(rawText))];
  }

  /** The chat endpoint for the configured API flavour. */
  function ChatUrl(config: LlmConfig): (url: string)
    ensures config.apiType == Ollama ==> url == EndpointUrl(config.endpoint, "/api/chat")
    ensures config.apiType == OpenAI ==> url == EndpointUrl(config.endpoint, "/v1/chat/completions")
  {
    match config.apiType
    case Ollama => EndpointUrl(config.endpoint, "/api/chat")
    case OpenAI => EndpointUrl(config.endpoint, "/v1/chat/completions")
  }

  /** Slashes at the end of the configured endpoint never reach the URL. */
  lemma ChatUrlIgnoresTrailingSlash(config: LlmConfig)
    ensures ChatUrl(config.(endpoint := config.endpoint + "/")) == ChatUrl(config)
  {
    EndpointSlashIgnored(config.endpoint, "/api/chat");
    EndpointSlashIgnored(config.endpoint, "/v1/chat/completions");
  }

  /** The JSON body of a chat request; Ollama's also says `stream: false`. */
  datatype ChatRequest = ChatRequest(url: string, model: string, messages: seq<ChatMessage>, stream: Option<bool>)

  // ---------------------------------------------------------------------------
  // The reply

  /**
   * A chat reply parsed into the shape the API flavour expects: Ollama's one
   * message, or OpenAI's list of choices (their message contents, in order).
   */
  datatype ParsedReply = OllamaMessage(content: string) | OpenAIChoices(contents: seq<string>)

  /** A parsed reply has the shape of the flavour it was parsed for. */
  predicate MatchesApi(apiType: ApiType, reply: Reply<ParsedReply>) {
    reply.Replied? && reply.json.Ok? ==> (reply.json.value.OllamaMessage? <==> apiType == Ollama)
  }

  /** The name an API error is reported under. */
  function ApiName(apiType: ApiType): string {
    match apiType
    case Ollama => "Ollama"
    case OpenAI => "OpenAI"
  }

  /**
   * What `cleanup_text` makes of the reply: an error for a failed send, a
   * non-success status, a body that does not parse or an OpenAI reply without
   * choices; otherwise the (first) content, trimmed, with its tags taken off.
   */
  function CleanupResult(apiType: ApiType, reply: Reply<ParsedReply>): (r: Res<string>)
    requires MatchesApi(apiType, reply)
    ensures reply.SendFailed? ==> r == Err(Llm("Request failed: " + reply.reason))
    ensures reply.Replied? && !IsSuccess(reply.status) ==>
      r == Err(Llm(ApiName(apiType) + " error " + StatusText(reply.status) + ": " + BodyOrEmpty(reply.text)))
    ensures reply.Replied? && IsSuccess(reply.status) && reply.json.Err? ==> r == Err(Llm("Parse error: " + reply.json.error))
    ensures r.Ok? <==> (reply.Replied? && IsSuccess(reply.status) && reply.json.Ok? &&
      (reply.json.value.OpenAIChoices? ==> reply.json.value.contents != []))
    ensures r.Ok? && reply.json.value.OllamaMessage? ==> r.value == ExtractFromTags(Trim(reply.json.value.content))
    ensures r.Ok? && reply.json.value.OpenAIChoices? ==> r.value == ExtractFromTags(Trim(reply.json.value.contents[0]))
    ensures r.Err? ==> r.error.Llm?
  {
    match reply
    case SendFailed(reason) => Err(Llm("Request failed: " + reason))
    case Replied(status, text, json) =>
      if !IsSuccess(status) then Err(Llm(ApiName(apiType) + " error " + StatusText(status) + ": " + BodyOrEmpty(text)))
      else if json.Err? then Err(Llm("Parse error: " + json.error))
      else
        match json.value
        case OllamaMessage(content) => Ok(ExtractFromTags(Trim(content)))
        case OpenAIChoices(contents) =>
          if contents == [] then Err(Llm("No response from LLM"))
          else Ok(ExtractFromTags(Trim(contents[0])))
  }

  /** An OpenAI reply that parses but holds no choices is the one "No response" error. */
  lemma NoChoicesIsNoResponse(status: nat, text: Option<string>)
    requires IsSuccess(status)
    ensures CleanupResult(OpenAI, Replied(status, text, Ok(OpenAIChoices([])))) == Err(Llm("No response from LLM"))
  {
  }

  /**
   * `cleanup_text`: builds the request for the configuration and the raw
   * transcript, and turns the reply it gets (an input) into the cleaned text.
   */
  method CleanupText(config: LlmConfig, rawText: string, reply: Reply<ParsedReply>) returns (request: ChatRequest, r: Res<string>)
    requires MatchesApi(config.apiType, reply)
    ensures request.url == ChatUrl(config) && request.model == config.model
    ensures request.messages == ChatMessages(config, rawText)
    ensures request.stream == (if config.apiType == Ollama then Some(false) else None)
    ensures r == CleanupResult(config.apiType, reply)
  {
    var messages := BuildMessages(config, rawText);
    match config.apiType {
      case Ollama =>
        request := ChatRequest(EndpointUrl(config.endpoint, "/api/chat"), config.model, messages, Some(false));
      case OpenAI =>
        request := ChatRequest(EndpointUrl(config.endpoint, "/v1/chat/completions"), config.model, messages, None);
    }
    r := CleanupResult(config.apiType, reply);
  }
}
