/**
 * The requests youtube_samenvatting.py sends to a language-model provider: the fixed
 * prompts, the transcript truncation, and the conversation context a chat question carries.
 * Requests are values here; sending them is the gateway's business.
 */
module Prompts {
  import opened Wrappers
  import opened Text
  import opened Budget

  /** The summarisation instruction (`SUMMARY_PROMPT`), section by section. */
  function SummaryPrompt(): string {
    SummaryOpening
    + SummaryThesis
    + SummaryComponents
    + SummaryApplications
    + SummaryMechanics
    + SummaryImplications
    + SummaryConstraints
  }

  /** Of the summarisation instruction: language, role and the rule on specificity. */
  const SummaryOpening: string :=
    "BELANGRIJK: Schrijf de VOLLEDIGE samenvatting in het NEDERLANDS.\n"
    + "\n"
    + "Rol: Treed op als een Senior Technical Lead en Systeemarchitect. Je doel is om een samenvatting te maken die maximale informatiedichtheid combineert met technische precisie.\n"
    + "\n"
    + "Gouden Regel voor Specificiteit:\n"
    + "Vermijd vage generalisaties (zoals \"men bespreekt AI-modellen\" of \"er is vooruitgang\"). Gebruik in plaats daarvan de exacte eigennamen, versienummers, tools, bibliotheken en wetenschappelijke parameters die in de video worden genoemd. Als er wordt gesproken over \"Claude Code in VS Code om een agent te bouwen\", noteer dan exact die combinatie.\n"
    + "\n"
    + "Hanteer deze structuur:\n"
    + "\n"

  /** Of the summarisation instruction: the requested section on the core thesis. */
  const SummaryThesis: string :=
    "## Core Thesis (Het Fundament)\n"
    + "De essentie van de video in \U{00E9}\U{00E9}n technische stelling.\n"
    + "\n"

  /** Of the summarisation instruction: the requested section on components and tool stack. */
  const SummaryComponents: string :=
    "## Technische Componenten & Toolstack\n"
    + "Maak een lijst van alle specifieke tools, modellen, API's of wetenschappelijke ontdekkingen die zijn genoemd (bijv. AlphaFold 3, PyTorch, GPT-4o, GNoME-database). Beschrijf kort hun specifieke rol.\n"
    + "\n"

  /** Of the summarisation instruction: the requested section on concrete applications. */
  const SummaryApplications: string :=
    "## Concrete Toepassingen (The 'How-To')\n"
    + "Beschrijf de exacte workflows of implementaties die zijn besproken.\n"
    + "- Slecht voorbeeld: \"Ze bouwen apps met AI.\"\n"
    + "- Goed voorbeeld: \"Gebruik van Claude Code CLI binnen een VS Code-omgeving voor autonoom refactoren van legacy Python-code.\"\n"
    + "\n"

  /** Of the summarisation instruction: the requested section on the underlying mechanics. */
  const SummaryMechanics: string :=
    "## Mechanische Diepgang\n"
    + "Leg de onderliggende logica uit. Hoe werkt het proces precies? Wat zijn de beperkingen of 'bottlenecks' die zijn genoemd?\n"
    + "\n"

  /** Of the summarisation instruction: the requested section on implications and next steps. */
  const SummaryImplications: string :=
    "## Toekomstige Implicaties & 'Next Steps'\n"
    + "Wat zijn de directe gevolgen voor het vakgebied? Welke concrete voorspellingen worden er gedaan voor de komende 6-12 maanden?\n"
    + "\n"

  /** Of the summarisation instruction: what the summary must not do. */
  const SummaryConstraints: string :=
    "---\n"
    + "Negatieve Constraints (Wat NIET te doen):\n"
    + "- Geen grappen, bantering of introductiepraatjes opnemen\n"
    + "- Geen vage werkwoorden zoals \"bespreken\", \"onderzoeken\" of \"vinden\" zonder direct object\n"
    + "- Geen metaforen tenzij ze essentieel zijn voor de technische uitleg\n"

  /** The chat system prompt up to its `{transcript}` placeholder, which ends it. */
  function ChatPromptHead(): string {
    ChatRole + ChatRules
  }

  /** Of the chat system prompt: who answers, and from what. */
  const ChatRole: string :=
    "Je bent een Nederlandstalige assistent die vragen beantwoordt over een YouTube video.\n"
    + "Je hebt ALLEEN toegang tot het transcript hieronder.\n"
    + "\n"

  /** Of the chat system prompt: the rules the answer must keep, and the transcript heading. */
  const ChatRules: string :=
    "STRIKTE REGELS:\n"
    + "- Antwoord ALTIJD in het Nederlands\n"
    + "- Baseer je antwoord UITSLUITEND op het transcript\n"
    + "- Als het antwoord niet in het transcript staat, zeg: \"Dit staat niet in de video.\"\n"
    + "- Citeer relevante passages uit het transcript waar mogelijk\n"
    + "- Verzin NOOIT informatie die niet in het transcript staat\n"
    + "- Als je onzeker bent, geef dat aan\n"
    + "\n"
    + "TRANSCRIPT:\n"

  lemma PromptLengths()
    ensures |SummaryPrompt()| == 1824 && |ChatPromptHead()| == 496
  {
    SummarySectionLengths();
    ChatSectionLengths();
  }

  lemma SummarySectionLengths()
    ensures |SummaryOpening| == 645 && |SummaryThesis| == 85 && |SummaryComponents| == 237
    ensures |SummaryApplications| == 279 && |SummaryMechanics| == 147
    ensures |SummaryImplications| == 169 && |SummaryConstraints| == 262
  {
  }

  lemma ChatSectionLengths()
    ensures |ChatRole| == 140 && |ChatRules| == 356
  {
  }

  /** The text placed between the summary instruction and the transcript. */
  const TranscriptMarker: string := "\n\n---\nTRANSCRIPTIE:\n"

  const LocalModelTimeoutSummary: nat := 300
  const LocalModelTimeoutChat: nat := 180
  const OpenAIModel: string := "gpt-4o-mini"
  const AnthropicModel: string := "claude-sonnet-4-20250514"
  /** The sampling temperature 0.3, in tenths. */
  const TemperatureTenths: nat := 3
  /** How many earlier chat turns a question carries (`chat_history[-10:]`). */
  const ContextTurns: nat := 10

  datatype Message = Message(role: string, content: string)

  /** One call to a provider: Ollama's `/api/generate`, OpenAI's chat completion, or
      Anthropic's messages call. The keyed variants carry the API key the client is built with. */
  datatype Request =
    | Generate(model: string, prompt: string, temperatureTenths: nat, numPredict: nat, timeout: nat)
    | ChatCompletion(apiKey: string, model: string, messages: seq<Message>, temperatureTenths: nat, maxTokens: nat)
    | MessagesCall(apiKey: string, model: string, maxTokens: nat, system: Option<string>, messages: seq<Message>)

  /** How many transcript characters a summary request keeps. */
  function SummaryLimit(provider: Provider, model: string): (n: int)
    ensures n == BaseLimit(provider, model, Summary) - PromptOverhead - |SummaryPrompt()|
  {
    BaseLimitAboveFloor(provider, model, Summary, |SummaryPrompt()|);
    EffectiveLimit(BaseLimit(provider, model, Summary), |SummaryPrompt()|)
  }

  /** How many transcript characters a chat system prompt keeps; the chat history is not counted. */
  function ChatLimit(provider: Provider, model: string): (n: int)
    ensures n == BaseLimit(provider, model, Chat) - PromptOverhead - |ChatPromptHead()|
  {
    BaseLimitAboveFloor(provider, model, Chat, |ChatPromptHead()|);
    EffectiveLimit(BaseLimit(provider, model, Chat), |ChatPromptHead()|)
  }

  /** `text[:limit]`: the transcript as a request carries it. */
  function Excerpt(text: string, limit: int): (r: string)
    requires limit >= 0
    ensures |r| <= |text| && r == text[..|r|]
    ensures |text| <= limit ==> r == text
    ensures |text| > limit ==> |r| == limit
  {
    Prefix(text, limit)
  }

  /** The summary request each provider is sent (`summarize_with_ollama`, `_openai`, `_anthropic`). */
  function SummaryRequest(provider: Provider, apiKey: string, model: string, text: string): Request {
    SummaryCall(provider, apiKey, model, SummaryPrompt(), Excerpt(text, SummaryLimit(provider, model)))
  }

  /** How each provider's summary request frames an instruction and a transcript excerpt. */
  function SummaryCall(provider: Provider, apiKey: string, model: string, instruction: string, excerpt: string): (r: Request)
    ensures r.Generate? <==> provider == Ollama
    ensures r.ChatCompletion? <==> provider == OpenAI
    ensures r.Generate? ==> r.model == model && StartsWith(r.prompt, instruction) && EndsWith(r.prompt, excerpt + "\n")
    ensures r.ChatCompletion? ==>
      && r.apiKey == apiKey && r.model == OpenAIModel && r.maxTokens == 4000
      && |r.messages| == 2 && r.messages[0] == Message("system", instruction) && EndsWith(r.messages[1].content, excerpt)
    ensures r.MessagesCall? ==>
      && r.apiKey == apiKey && r.model == AnthropicModel && r.maxTokens == 4000 && r.system.None?
      && |r.messages| == 1 && StartsWith(r.messages[0].content, instruction) && EndsWith(r.messages[0].content, excerpt)
  {
    match provider
    case Ollama =>
      Generate(model, instruction + TranscriptMarker + excerpt + "\n", TemperatureTenths, 2000, LocalModelTimeoutSummary)
    case OpenAI =>
      ChatCompletion(apiKey, OpenAIModel,
        [Message("system", instruction), Message("user", "TRANSCRIPTIE:\n" + excerpt)], TemperatureTenths, 4000)
    case Anthropic =>
      MessagesCall(apiKey, AnthropicModel, 4000, None, [Message("user", instruction + TranscriptMarker + excerpt)])
  }

  /** Total characters of the text fields a request carries. */
  function ContentSize(messages: seq<Message>): nat {
    if messages == [] then 0 else ContentSize(messages[..|messages| - 1]) + |messages[|messages| - 1].content|
  }

  function RequestSize(r: Request): nat {
    match r
    case Generate(_, prompt, _, _, _) => |prompt|
    case ChatCompletion(_, _, messages, _, _) => ContentSize(messages)
    case MessagesCall(_, _, _, system, messages) => |system.GetOr("")| + ContentSize(messages)
  }

  /** The characters a summary request adds around the instruction and the transcript. */
  function Framing(provider: Provider): nat {
    match provider
    case Ollama => |TranscriptMarker| + 1
    case OpenAI => |"TRANSCRIPTIE:\n"|
    case Anthropic => |TranscriptMarker|
  }

  lemma ContentSizeOfPair(m: Message, n: Message)
    ensures ContentSize([m, n]) == |m.content| + |n.content|
  {
    assert [m, n][..1] == [m];
    ContentSizeOfSingle(m);
  }

  lemma ContentSizeOfSingle(m: Message)
    ensures ContentSize([m]) == |m.content|
  {
    assert [m][..0] == [];
  }

  /** Each provider's summary request carries the instruction, the excerpt and its framing. */
  lemma SummaryCallSize(provider: Provider, apiKey: string, model: string, instruction: string, excerpt: string)
    ensures RequestSize(SummaryCall(provider, apiKey, model, instruction, excerpt))
        == |instruction| + |excerpt| + Framing(provider)
  {
    match provider
    case Ollama =>
    case OpenAI =>
      ContentSizeOfPair(Message("system", instruction), Message("user", "TRANSCRIPTIE:\n" + excerpt));
    case Anthropic =>
      ContentSizeOfSingle(Message("user", instruction + TranscriptMarker + excerpt));
  }

  /** A summary request carries the instruction, a prefix of the transcript that fits the
      provider's limit, and a few characters of framing. */
  lemma SummaryRequestSize(provider: Provider, apiKey: string, model: string, text: string)
    ensures RequestSize(SummaryRequest(provider, apiKey, model, text))
        == |SummaryPrompt()| + |Excerpt(text, SummaryLimit(provider, model))| + Framing(provider)
  {
    var instruction, excerpt := SummaryPrompt(), Excerpt(text, SummaryLimit(provider, model));
    assert SummaryRequest(provider, apiKey, model, text) == SummaryCall(provider, apiKey, model, instruction, excerpt);
    SummaryCallSize(provider, apiKey, model, instruction, excerpt);
  }

  /** As a whole a summary request stays below the provider's total context limit by the
      output buffer, less the framing. */
  lemma SummaryRequestFits(provider: Provider, apiKey: string, model: string, text: string)
    ensures RequestSize(SummaryRequest(provider, apiKey, model, text))
        <= BaseLimit(provider, model, Summary) - PromptOverhead + Framing(provider)
  {
    var limit := SummaryLimit(provider, model);
    SummaryRequestSize(provider, apiKey, model, text);
    assert |Excerpt(text, limit)| <= limit;
  }

  /** `chat_history[-10:]`: the most recent turns, in order. */
  function Window(history: seq<Message>): (r: seq<Message>)
    ensures |r| == if |history| <= ContextTurns then |history| else ContextTurns
    ensures r == history[|history| - |r|..]
  {
    if |history| <= ContextTurns then history else history[|history| - ContextTurns..]
  }

  /** The speaker label of the local-model transcript format. */
  function Label(role: string): string {
    if role == "user" then "Gebruiker" else "Assistent"
  }

  function Turn(m: Message): string {
    Label(m.role) + ": " + m.content + "\n\n"
  }

  /** The earlier turns rendered one after the other. */
  function Dialogue(turns: seq<Message>): string {
    if turns == [] then "" else Dialogue(turns[..|turns| - 1]) + Turn(turns[|turns| - 1])
  }

  /** Rendering distributes over concatenation of turn lists. */
  lemma {:induction false} DialogueAppend(a: seq<Message>, b: seq<Message>)
    ensures Dialogue(a + b) == Dialogue(a) + Dialogue(b)
    decreases |b|
  {
    if b == [] {
      assert a + b == a;
    } else {
      var front, last := b[..|b| - 1], b[|b| - 1];
      assert (a + b)[..|a + b| - 1] == a + front;
      assert (a + b)[|a + b| - 1] == last;
      DialogueAppend(a, front);
      assert Dialogue(b) == Dialogue(front) + Turn(last);
      AppendAssociative(Dialogue(a), Dialogue(front), Turn(last));
    }
  }

  /** `CHAT_SYSTEM_PROMPT.format(transcript=transcript[:limit])`. */
  function ChatSystemPrompt(provider: Provider, model: string, transcript: string): string {
    ChatPromptHead() + Excerpt(transcript, ChatLimit(provider, model))
  }

  /** The single prompt a local chat question is sent as. */
  function LocalChatText(system: string, history: seq<Message>, question: string): string {
    system + "\n\n" + Dialogue(Window(history)) + ("Gebruiker: " + question + "\n\nAssistent:")
  }

  /** The turns a hosted chat question replays: the window, then the question as a user turn. */
  function ReplayedTurns(history: seq<Message>, question: string): seq<Message> {
    Window(history) + [Message("user", question)]
  }

  /** `chat_with_ollama`'s prompt-building loop. */
  method BuildLocalChatText(system: string, history: seq<Message>, question: string) returns (text: string)
    ensures text == LocalChatText(system, history, question)
  {
    var window := if |history| <= ContextTurns then history else history[|history| - ContextTurns..];
    assert window == Window(history);
    var prelude := system + "\n\n";
    text := prelude;
    var i := 0;
    while i < |window|
      invariant 0 <= i <= |window|
      invariant text == prelude + Dialogue(window[..i])
    {
      var role := if window[i].role == "user" then "Gebruiker" else "Assistent";
      var line := role + ": " + window[i].content + "\n\n";
      assert window[..i + 1][..i] == window[..i];
      assert Dialogue(window[..i + 1]) == Dialogue(window[..i]) + line;
      AppendAssociative(prelude, Dialogue(window[..i]), line);
      text := text + line;
      i := i + 1;
    }
    assert window[..i] == window;
    text := text + ("Gebruiker: " + question + "\n\nAssistent:");
  }

  /** The message-list loop shared by `chat_with_openai` and `chat_with_anthropic`. */
  method BuildReplayedTurns(history: seq<Message>, question: string) returns (messages: seq<Message>)
    ensures messages == ReplayedTurns(history, question)
  {
    var start := if |history| <= ContextTurns then 0 else |history| - ContextTurns;
    messages := [];
    var i := start;
    while i < |history|
      invariant start <= i <= |history|
      invariant messages == history[start..i]
    {
      messages := messages + [Message(history[i].role, history[i].content)];
      i := i + 1;
    }
    messages := messages + [Message("user", question)];
  }

  /** The chat request each provider is sent. */
  function ChatRequest(provider: Provider, apiKey: string, model: string, transcript: string,
                       question: string, history: seq<Message>): Request
  {
    ChatCall(provider, apiKey, model, ChatSystemPrompt(provider, model, transcript), question, history)
  }

  /** How each provider's chat request frames a system prompt, the earlier turns and the question. */
  function ChatCall(provider: Provider, apiKey: string, model: string, system: string,
                    question: string, history: seq<Message>): (r: Request)
    ensures r.Generate? <==> provider == Ollama
    ensures r.ChatCompletion? <==> provider == OpenAI
    ensures r.Generate? ==> r.model == model && r.numPredict == 1500
    ensures r.ChatCompletion? ==> r.apiKey == apiKey && r.model == OpenAIModel && r.maxTokens == 1500
    ensures r.MessagesCall? ==> r.apiKey == apiKey && r.model == AnthropicModel && r.maxTokens == 1500
  {
    match provider
    case Ollama =>
      Generate(model, LocalChatText(system, history, question), TemperatureTenths, 1500, LocalModelTimeoutChat)
    case OpenAI =>
      ChatCompletion(apiKey, OpenAIModel, [Message("system", system)] + ReplayedTurns(history, question), TemperatureTenths, 1500)
    case Anthropic =>
      MessagesCall(apiKey, AnthropicModel, 1500, Some(system), ReplayedTurns(history, question))
  }

  /** The chat system prompt starts with the fixed head and carries the transcript cut to the
      chat limit, the whole transcript when it fits. */
  lemma ChatSystemPromptShape(provider: Provider, model: string, transcript: string)
    ensures StartsWith(ChatSystemPrompt(provider, model, transcript), ChatPromptHead())
    ensures |transcript| <= ChatLimit(provider, model)
        ==> ChatSystemPrompt(provider, model, transcript) == ChatPromptHead() + transcript
    ensures |ChatSystemPrompt(provider, model, transcript)| <= BaseLimit(provider, model, Chat) - PromptOverhead
  {
    var head, excerpt := ChatPromptHead(), Excerpt(transcript, ChatLimit(provider, model));
    assert (head + excerpt)[..|head|] == head;
  }

  /** A chat request carries at most the ten latest earlier turns in their order, and the
      question as the last user turn; the hosted requests put the system prompt first, the
      local one opens its single prompt with it. */
  lemma ChatCallShape(provider: Provider, apiKey: string, model: string, system: string,
                      question: string, history: seq<Message>)
    ensures var r := ChatCall(provider, apiKey, model, system, question, history);
      && (r.ChatCompletion? ==>
            && 2 <= |r.messages| <= ContextTurns + 2
            && r.messages[0] == Message("system", system)
            && r.messages[1..|r.messages| - 1] == Window(history)
            && r.messages[|r.messages| - 1] == Message("user", question))
      && (r.MessagesCall? ==>
            && r.system == Some(system)
            && 1 <= |r.messages| <= ContextTurns + 1
            && r.messages[..|r.messages| - 1] == Window(history)
            && r.messages[|r.messages| - 1] == Message("user", question))
      && (r.Generate? ==>
            && StartsWith(r.prompt, system)
            && EndsWith(r.prompt, "Gebruiker: " + question + "\n\nAssistent:"))
  {
    match provider
    case Ollama => LocalChatTextShape(system, history, question);
    case OpenAI =>
      var turns := ReplayedTurns(history, question);
      ReplayedTurnsShape(history, question);
      var messages := [Message("system", system)] + turns;
      assert messages[1..|messages| - 1] == turns[..|turns| - 1];
    case Anthropic => ReplayedTurnsShape(history, question);
  }

  /** The replayed turns are the window of the history followed by the question. */
  lemma ReplayedTurnsShape(history: seq<Message>, question: string)
    ensures 1 <= |ReplayedTurns(history, question)| <= ContextTurns + 1
    ensures ReplayedTurns(history, question)[..|ReplayedTurns(history, question)| - 1] == Window(history)
    ensures ReplayedTurns(history, question)[|ReplayedTurns(history, question)| - 1] == Message("user", question)
  {
    var turns := ReplayedTurns(history, question);
    assert turns[..|turns| - 1] == Window(history);
  }

  /** The local chat prompt opens with the system prompt and ends by asking for the answer. */
  lemma LocalChatTextShape(system: string, history: seq<Message>, question: string)
    ensures StartsWith(LocalChatText(system, history, question), system)
    ensures EndsWith(LocalChatText(system, history, question), "Gebruiker: " + question + "\n\nAssistent:")
  {
    var text := LocalChatText(system, history, question);
    var tail := "Gebruiker: " + question + "\n\nAssistent:";
    var front := system + "\n\n" + Dialogue(Window(history));
    assert text == front + tail;
    assert text[..|system|] == system;
    assert text[|text| - |tail|..] == tail;
  }

  /** The local prompt written out for a two-turn history. */
  lemma LocalChatTextExample(system: string, q1: string, a1: string, q2: string)
    ensures LocalChatText(system, [Message("user", q1), Message("assistant", a1)], q2)
      == system + "\n\n" + ("Gebruiker: " + q1 + "\n\n") + ("Assistent: " + a1 + "\n\n")
         + ("Gebruiker: " + q2 + "\n\nAssistent:")
  {
    var h := [Message("user", q1), Message("assistant", a1)];
    assert h[..1] == [h[0]] && [h[0]][..0] == [];
    assert Dialogue([h[0]]) == Turn(h[0]);
    assert Dialogue(h) == Turn(h[0]) + Turn(h[1]);
    assert Turn(h[1]) == "Assistent: " + a1 + "\n\n";
  }
}
