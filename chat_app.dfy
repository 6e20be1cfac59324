/**
 * The chat-session state of the desktop window in gui_app.py, without its widgets: which
 * tab is shown, the provider, model and key remembered from the last started summary, the
 * transcript reloaded from the transcript file, and the chat history replayed to the provider.
 */
module ChatApp {
  import opened Wrappers
  import opened Text
  import opened Prompts
  import opened Gateway
  import opened Pipeline

  /** The chat history keeps at most this many messages. */
  const HistoryCap: nat := 50

  /** The last fifty messages of `h`: `h[-50:]` when it is longer. */
  function Retain(h: seq<Message>): (r: seq<Message>)
    ensures |r| == if |h| <= HistoryCap then |h| else HistoryCap
    ensures r == h[|h| - |r|..]
  {
    if |h| > HistoryCap then h[|h| - HistoryCap..] else h
  }

  /** Trimming twice is trimming once: cutting the history before more messages arrive keeps
      the same last fifty as cutting only at the end. */
  lemma RetainAfterRetain(a: seq<Message>, b: seq<Message>)
    ensures Retain(Retain(a) + b) == Retain(a + b)
  {
    var ra := Retain(a);
    var d := |a| - |ra|;
    assert a == a[..d] + ra;
    assert a + b == a[..d] + (ra + b);
    var x := Retain(ra + b);
    var y := Retain(a + b);
    assert |x| == |y|;
    forall k | 0 <= k < |x| ensures x[k] == y[k] {
      assert x[k] == (ra + b)[|ra + b| - |x| + k];
      assert y[k] == (a + b)[|a + b| - |y| + k];
    }
  }

  /** The ten turns replayed to the provider are the same whether or not the history was trimmed. */
  lemma WindowOfRetain(h: seq<Message>)
    ensures Window(Retain(h)) == Window(h)
  {
  }

  /** Messages come in question-and-answer pairs: user at the even places, assistant at the odd ones. */
  predicate Paired(h: seq<Message>) {
    && |h| % 2 == 0
    && forall k :: 0 <= k < |h| ==> h[k].role == (if k % 2 == 0 then "user" else "assistant")
  }

  /** A completed answer extends a paired history by one pair, and trimming keeps the pairing. */
  lemma RetainKeepsPairs(h: seq<Message>, question: string, response: string)
    requires Paired(h)
    ensures Paired(Retain(h + [Message("user", question), Message("assistant", response)]))
  {
    var g := h + [Message("user", question), Message("assistant", response)];
    AppendPairPaired(h, question, response);
    var r := Retain(g);
    SuffixPaired(g, |g| - |r|);
  }

  lemma AppendPairPaired(h: seq<Message>, question: string, response: string)
    requires Paired(h)
    ensures Paired(h + [Message("user", question), Message("assistant", response)])
  {
    var g := h + [Message("user", question), Message("assistant", response)];
    forall k | 0 <= k < |g| ensures g[k].role == (if k % 2 == 0 then "user" else "assistant") {
      if k < |h| {
        assert g[k] == h[k];
      } else if k == |h| {
        assert g[k].role == "user";
      } else {
        assert g[k].role == "assistant";
      }
    }
  }

  /** Dropping an even number of leading messages keeps the pairing. */
  lemma SuffixPaired(g: seq<Message>, d: nat)
    requires Paired(g) && d <= |g| && d % 2 == 0
    ensures Paired(g[d..])
  {
    var r := g[d..];
    forall k | 0 <= k < |r| ensures r[k].role == (if k % 2 == 0 then "user" else "assistant") {
      assert r[k] == g[d + k];
      assert (d + k) % 2 == k % 2;
    }
  }

  /** While the history is short the pair is simply appended: nothing earlier moves. */
  lemma ShortHistoryGrows(h: seq<Message>, question: string, response: string)
    requires |h| <= HistoryCap - 2
    ensures var r := Retain(h + [Message("user", question), Message("assistant", response)]);
      && |r| == |h| + 2
      && r[..|h|] == h
      && r[|h|] == Message("user", question)
      && r[|h| + 1] == Message("assistant", response)
  {
  }

  /** Text after the first run of fifty `=`, stripped; the whole text when there is no such run. */
  function StripHeader(content: string): (r: string)
    ensures !Contains(content, Separator) ==> r == content
    ensures Contains(content, Separator) ==> Trimmed(r) && |r| <= |content| - |Separator|
  {
    match IndexOf(content, Separator, 0)
    case None => content
    case Some(k) => Strip(content[k + |Separator|..])
  }

  /** The leftmost occurrence is the one with none before it. */
  lemma FirstOccurrence(s: string, p: string, i: nat)
    requires OccursAt(s, p, i)
    requires forall k :: 0 <= k < i ==> !OccursAt(s, p, k)
    ensures IndexOf(s, p, 0) == Some(i)
  {
  }

  /** After a line-terminated header without a run of fifty `=`, the separator that follows
      is the first one. */
  lemma SeparatorAfterHeader(header: string, rest: string)
    requires |header| > 0 && header[|header| - 1] == '\n'
    requires !Contains(header, Separator)
    ensures IndexOf(header + Separator + rest, Separator, 0) == Some(|header|)
  {
    var content := header + Separator + rest;
    var n := |header|;
    assert content[n - 1] == '\n';
    assert content[n..n + 50] == Separator;
    ContainsIff(header, Separator);
    forall k | 0 <= k < n ensures !OccursAt(content, Separator, k) {
      if k + 50 <= n {
        assert content[k..k + 50] == header[k..k + 50];
        assert !OccursAt(header, Separator, k);
      } else if k + 50 <= |content| {
        assert content[k..k + 50][n - 1 - k] == content[n - 1];
        assert Separator[n - 1 - k] == '=';
      }
    }
    FirstOccurrence(content, Separator, n);
  }

  /** Reading back a transcript file gives the transcript, stripped, when the header lines
      themselves hold no run of fifty `=`. */
  lemma HeaderRoundTrip(title: string, videoId: string, language: string, date: string, transcript: string)
    requires !Contains(TranscriptHeader(title, videoId, language, date), Separator)
    ensures StripHeader(TranscriptFile(title, videoId, language, date, transcript)) == Strip(transcript)
  {
    var header := TranscriptHeader(title, videoId, language, date);
    var content := TranscriptFile(title, videoId, language, date, transcript);
    var rest := "\n\n" + transcript;
    assert content == header + Separator + rest;
    SeparatorAfterHeader(header, rest);
    assert content[|header| + 50..] == rest;
    StripAfterSpaces("\n\n", transcript);
  }

  /** The radio-button value mapped to the provider and model handed on: the two local choices
      become `ollama` with their model, every other value is passed on without a model. */
  function ProviderAndModel(choice: string): (r: (string, Option<string>))
    ensures r.0 == "ollama" <==> choice == "ollama" || choice == "ollama_gemma"
    ensures r.1.Some? <==> r.0 == "ollama"
    ensures r.0 != "ollama" ==> r.0 == choice
    ensures choice == "ollama_gemma" ==> r.1 == Some("gemma2:9b")
    ensures choice == "ollama" ==> r.1 == Some(DefaultLocalModel)
  {
    if choice == "ollama_gemma" then ("ollama", Some("gemma2:9b"))
    else if choice == "ollama" then ("ollama", Some("gpt-oss:20b"))
    else (choice, None)
  }

  /** The outcome of pressing "Verwerk" with the given link, choice and key fields. */
  function StartFor(urlInput: string, choice: string, openaiKey: string, anthropicKey: string): (outcome: StartOutcome)
    ensures outcome.NoUrl? <==> Strip(urlInput) == ""
    ensures outcome.KeyMissing? <==>
      (Strip(urlInput) != "" && ((choice == "openai" && openaiKey == "") || (choice == "anthropic" && anthropicKey == "")))
    ensures outcome.KeyMissing? ==> outcome.provider == choice
    ensures outcome.Started? ==>
      && outcome.url == Strip(urlInput)
      && (outcome.provider, outcome.model) == ProviderAndModel(choice)
      && outcome.apiKey == (if choice == "openai" then Some(openaiKey)
                            else if choice == "anthropic" then Some(anthropicKey) else None)
  {
    ChoicesDistinct();
    var mapped := ProviderAndModel(choice);
    if Strip(urlInput) == "" then NoUrl
    else if mapped.0 == "openai" && openaiKey == "" then KeyMissing(mapped.0)
    else if mapped.0 == "anthropic" && anthropicKey == "" then KeyMissing(mapped.0)
    else if mapped.0 == "openai" then Started(Strip(urlInput), mapped.0, Some(openaiKey), mapped.1)
    else if mapped.0 == "anthropic" then Started(Strip(urlInput), mapped.0, Some(anthropicKey), mapped.1)
    else Started(Strip(urlInput), mapped.0, None, mapped.1)
  }

  /** The provider choices are told apart by their names. */
  lemma ChoicesDistinct()
    ensures "ollama" != "openai" && "ollama" != "anthropic" && "openai" != "anthropic"
    ensures "ollama_gemma" != "ollama" && "ollama_gemma" != "openai" && "ollama_gemma" != "anthropic"
  {
    assert "ollama"[1] != "openai"[1] && "ollama"[0] != "anthropic"[0] && "openai"[0] != "anthropic"[0];
    assert |"ollama_gemma"| != |"ollama"| && "ollama_gemma"[1] != "openai"[1];
    assert "ollama_gemma"[0] != "anthropic"[0];
  }

  /** `start_processing`'s handling of the local variants. */
  method MapChoice(choice: string) returns (provider: string, model: Option<string>)
    ensures (provider, model) == ProviderAndModel(choice)
  {
    provider := choice;
    model := None;
    if provider == "ollama_gemma" {
      provider := "ollama";
      model := Some("gemma2:9b");
    } else if provider == "ollama" {
      model := Some("gpt-oss:20b");
    }
  }

  /** `start_processing`'s key lookup: a hosted provider takes the key of its own field, and an
      empty one is missing. A key that is not missing satisfies the dispatcher's check. */
  method KeyFor(provider: string, openaiKey: string, anthropicKey: string) returns (apiKey: Option<string>, missing: bool)
    ensures apiKey == (if provider == "openai" then Some(openaiKey)
                       else if provider == "anthropic" then Some(anthropicKey) else None)
    ensures missing <==> (provider == "openai" && openaiKey == "") || (provider == "anthropic" && anthropicKey == "")
    ensures !missing && ParseProvider(provider).Some? ==> forall m :: RouteFor(provider, apiKey, m).Success?
  {
    ChoicesDistinct();
    apiKey := None;
    missing := false;
    if provider == "openai" {
      apiKey := Some(openaiKey);
      missing := openaiKey == "";
    } else if provider == "anthropic" {
      apiKey := Some(anthropicKey);
      missing := anthropicKey == "";
    }
  }

  /** What pressing "Verwerk" leads to: a warning for a blank link or a missing hosted key,
      otherwise a worker started with the stripped link and the mapped provider. */
  datatype StartOutcome =
    | NoUrl
    | KeyMissing(provider: string)
    | Started(url: string, provider: string, apiKey: Option<string>, model: Option<string>)

  /** What pressing "Verstuur" leads to: nothing for a blank question, a warning without a
      transcript, otherwise the question sent on. */
  datatype SendOutcome = Ignored | NoTranscript | Dispatched(question: string)

  datatype Tab = SummaryTab | ChatTab

  /** `switch_tab` as written: both tabs are hidden before the check on the chat tab, so a
      refused switch leaves no tab shown. */
  function SwitchTabAsWritten(index: int, enabled: bool): Option<Tab> {
    if index == 0 then Some(SummaryTab)
    else if index == 1 && enabled then Some(ChatTab)
    else None
  }

  /** `switch_tab` with the check on the chat tab made before anything is hidden. */
  function ShownAfter(shown: Option<Tab>, index: int, enabled: bool): Option<Tab> {
    if index == 1 && !enabled then shown else SwitchTabAsWritten(index, enabled)
  }

  /** Asking for the disabled chat tab from the summary tab leaves nothing shown as written. */
  lemma RefusedSwitchHidesEverything()
    ensures SwitchTabAsWritten(1, false) == None
    ensures ShownAfter(Some(SummaryTab), 1, false) == Some(SummaryTab)
  {
  }

  /** The chat tab is shown only once chat is enabled, a refused switch changes nothing, and
      every switch that is not refused behaves as written. */
  lemma SwitchTabGated(shown: Option<Tab>, index: int, enabled: bool)
    ensures ShownAfter(shown, index, enabled) == Some(ChatTab) ==> enabled || shown == Some(ChatTab)
    ensures index == 1 && !enabled ==> ShownAfter(shown, index, enabled) == shown
    ensures index != 1 || enabled ==> ShownAfter(shown, index, enabled) == SwitchTabAsWritten(index, enabled)
    ensures index == 0 ==> ShownAfter(shown, index, enabled) == Some(SummaryTab)
  {
  }

  class ChatSession {
    var chatHistory: seq<Message>
    var chatEnabled: bool
    var currentTranscript: Option<string>
    var currentProvider: Option<string>
    var currentModel: Option<string>
    var currentApiKey: Option<string>
    var shownTab: Option<Tab>
    /** The send button and the question field are disabled while an answer is awaited. */
    var awaitingAnswer: bool

    /** The history is capped and paired, the chat tab is shown only when enabled, a loaded
        transcript always has the provider it was summarised with, and a remembered known
        provider passes the dispatcher's key check. */
    predicate Valid()
      reads this
    {
      && |chatHistory| <= HistoryCap
      && Paired(chatHistory)
      && (chatEnabled ==> currentTranscript.Some?)
      && (currentTranscript.Some? ==> currentProvider.Some?)
      && (shownTab == Some(ChatTab) ==> chatEnabled)
      && (currentProvider.Some? && ParseProvider(currentProvider.value).Some? ==>
            RouteFor(currentProvider.value, currentApiKey, currentModel).Success?)
    }

    /** The window starts on the summary tab with chat disabled and nothing remembered. */
    constructor()
      ensures Valid()
      ensures chatHistory == [] && !chatEnabled && !awaitingAnswer
      ensures currentTranscript.None? && currentProvider.None? && currentModel.None? && currentApiKey.None?
      ensures shownTab == Some(SummaryTab)
    {
      chatHistory := [];
      chatEnabled := false;
      currentTranscript := None;
      currentProvider := None;
      currentModel := None;
      currentApiKey := None;
      awaitingAnswer := false;
      shownTab := Some(SummaryTab);
    }

    /** `switch_tab(index)`: both tabs are hidden first, then the requested one is shown,
        unless it is the chat tab while chat is disabled. */
    method SwitchTab(index: int)
      requires Valid()
      modifies this
      ensures Valid()
      ensures shownTab == SwitchTabAsWritten(index, chatEnabled)
      ensures index == 1 && !chatEnabled ==> shownTab.None?
      ensures chatHistory == old(chatHistory) && chatEnabled == old(chatEnabled) && awaitingAnswer == old(awaitingAnswer)
      ensures currentTranscript == old(currentTranscript) && currentProvider == old(currentProvider)
      ensures currentModel == old(currentModel) && currentApiKey == old(currentApiKey)
    {
      shownTab := None;
      if index == 0 {
        shownTab := Some(SummaryTab);
      } else if index == 1 {
        if !chatEnabled {
          return;
        }
        shownTab := Some(ChatTab);
      }
    }

    /** `start_processing`: the link and the choice are checked before anything is remembered. */
    method StartProcessing(urlInput: string, choice: string, openaiKey: string, anthropicKey: string)
      returns (outcome: StartOutcome)
      requires Valid()
      modifies this
      ensures Valid()
      ensures outcome == StartFor(urlInput, choice, openaiKey, anthropicKey)
      ensures outcome.Started? ==>
        && currentProvider == Some(outcome.provider)
        && currentModel == outcome.model
        && currentApiKey == outcome.apiKey
      ensures !outcome.Started? ==>
        currentProvider == old(currentProvider) && currentModel == old(currentModel) && currentApiKey == old(currentApiKey)
      ensures chatHistory == old(chatHistory) && chatEnabled == old(chatEnabled) && awaitingAnswer == old(awaitingAnswer)
      ensures currentTranscript == old(currentTranscript) && shownTab == old(shownTab)
    {
      ChoicesDistinct();
      var url := Strip(urlInput);
      if url == "" {
        return NoUrl;
      }
      var provider, model := MapChoice(choice);
      var apiKey, missing := KeyFor(provider, openaiKey, anthropicKey);
      if missing {
        return KeyMissing(provider);
      }
      currentProvider := Some(provider);
      currentModel := model;
      currentApiKey := apiKey;
      return Started(url, provider, apiKey, model);
    }

    /** `processing_complete`: the transcript file's text, or `None` when it cannot be read.
        Only a worker started by `StartProcessing` reports back, so a provider is remembered. */
    method ProcessingComplete(content: Option<string>)
      requires Valid() && currentProvider.Some?
      modifies this
      ensures Valid()
      ensures content.Some? ==>
        && currentTranscript == Some(StripHeader(content.value))
        && chatHistory == []
        && chatEnabled
      ensures content.None? ==>
        && currentTranscript == old(currentTranscript)
        && chatHistory == old(chatHistory)
        && chatEnabled == old(chatEnabled)
      ensures currentProvider == old(currentProvider) && currentModel == old(currentModel)
      ensures currentApiKey == old(currentApiKey) && shownTab == old(shownTab) && awaitingAnswer == old(awaitingAnswer)
    {
      if content.None? {
        return;
      }
      currentTranscript := Some(StripHeader(content.value));
      chatHistory := [];
      ClearChat();
      chatEnabled := true;
    }

    /** `send_chat_message`: a blank question is dropped silently; without a transcript a
        warning is shown; otherwise the question goes out and input waits for the answer. */
    method SendChatMessage(input: string) returns (outcome: SendOutcome)
      requires Valid()
      modifies this
      ensures Valid()
      ensures outcome.Ignored? <==> Strip(input) == ""
      ensures outcome.NoTranscript? <==> Strip(input) != "" && (currentTranscript.None? || currentTranscript.value == "")
      ensures outcome.Dispatched? ==> outcome.question == Strip(input) && awaitingAnswer
      ensures !outcome.Dispatched? ==> awaitingAnswer == old(awaitingAnswer)
      ensures chatHistory == old(chatHistory) && chatEnabled == old(chatEnabled) && shownTab == old(shownTab)
      ensures currentTranscript == old(currentTranscript) && currentProvider == old(currentProvider)
      ensures currentModel == old(currentModel) && currentApiKey == old(currentApiKey)
    {
      var question := Strip(input);
      if question == "" {
        return Ignored;
      }
      if currentTranscript.None? || currentTranscript.value == "" {
        return NoTranscript;
      }
      awaitingAnswer := true;
      return Dispatched(question);
    }

    /** `chat_thread`: the answer to a dispatched question, asked with the remembered provider,
        model and key about the loaded transcript and the history so far. Once the GUI has let
        a question through, the dispatcher's own checks never refuse it: only the provider
        can make it fail, and its answer comes back unchanged. */
    method AnswerFor(question: string, backend: Request -> Reply) returns (r: Result<string, GatewayError>)
      requires Valid() && currentTranscript.Some?
      ensures ParseProvider(currentProvider.value).None? ==> r == Failure(UnknownProvider(currentProvider.value))
      ensures ParseProvider(currentProvider.value).Some? ==>
        && RouteFor(currentProvider.value, currentApiKey, currentModel).Success?
        && (r.Success? <==>
              backend(ChatRequest(RouteFor(currentProvider.value, currentApiKey, currentModel).value.provider,
                                  RouteFor(currentProvider.value, currentApiKey, currentModel).value.apiKey,
                                  RouteFor(currentProvider.value, currentApiKey, currentModel).value.model,
                                  currentTranscript.value, question, chatHistory)).Answer?)
        && (r.Success? ==>
              r.value == backend(ChatRequest(RouteFor(currentProvider.value, currentApiKey, currentModel).value.provider,
                                             RouteFor(currentProvider.value, currentApiKey, currentModel).value.apiKey,
                                             RouteFor(currentProvider.value, currentApiKey, currentModel).value.model,
                                             currentTranscript.value, question, chatHistory)).text)
        && (r.Failure? ==> ProviderError(r.error))
    {
      var historyCopy := chatHistory;
      r := ChatWithTranscript(currentTranscript.value, question, historyCopy,
                              currentProvider.value, currentApiKey, currentModel, backend);
    }

    /** `chat_response_complete`: the question and the answer are appended, then only the last
        fifty messages are kept. */
    method ChatResponseComplete(question: string, response: string)
      requires Valid()
      modifies this
      ensures Valid()
      ensures chatHistory == Retain(old(chatHistory) + [Message("user", question), Message("assistant", response)])
      ensures !awaitingAnswer
      ensures chatEnabled == old(chatEnabled) && shownTab == old(shownTab) && currentTranscript == old(currentTranscript)
      ensures currentProvider == old(currentProvider) && currentModel == old(currentModel) && currentApiKey == old(currentApiKey)
    {
      var grown := chatHistory + [Message("user", question), Message("assistant", response)];
      RetainKeepsPairs(chatHistory, question, response);
      chatHistory := chatHistory + [Message("user", question)];
      chatHistory := chatHistory + [Message("assistant", response)];
      assert chatHistory == grown;
      if |chatHistory| > HistoryCap {
        chatHistory := chatHistory[|chatHistory| - HistoryCap..];
      }
      assert chatHistory == Retain(grown);
      awaitingAnswer := false;
    }

    /** `chat_response_error`: the failure is shown, the history is left as it was. */
    method ChatResponseError()
      requires Valid()
      modifies this
      ensures Valid()
      ensures chatHistory == old(chatHistory) && !awaitingAnswer
      ensures chatEnabled == old(chatEnabled) && shownTab == old(shownTab) && currentTranscript == old(currentTranscript)
      ensures currentProvider == old(currentProvider) && currentModel == old(currentModel) && currentApiKey == old(currentApiKey)
    {
      awaitingAnswer := false;
    }

    /** `clear_chat`: the history is emptied, nothing else changes. */
    method ClearChat()
      requires Valid()
      modifies this
      ensures Valid()
      ensures chatHistory == []
      ensures chatEnabled == old(chatEnabled) && shownTab == old(shownTab) && currentTranscript == old(currentTranscript)
      ensures currentProvider == old(currentProvider) && currentModel == old(currentModel)
      ensures currentApiKey == old(currentApiKey) && awaitingAnswer == old(awaitingAnswer)
    {
      chatHistory := [];
    }
  }

  /** A summary that was started with a known provider is routed for chat without a key
      complaint: the GUI's own key check matches the gateway's. */
  lemma StartedRouteAccepted(url: string, provider: string, apiKey: Option<string>, model: Option<string>,
                             choice: string, openaiKey: string, anthropicKey: string)
    requires (provider, model) == ProviderAndModel(choice)
    requires apiKey == (if choice == "openai" then Some(openaiKey) else if choice == "anthropic" then Some(anthropicKey) else None)
    requires choice == "openai" ==> openaiKey != ""
    requires choice == "anthropic" ==> anthropicKey != ""
    requires ParseProvider(provider).Some?
    ensures RouteFor(provider, apiKey, model).Success?
    ensures provider == "ollama" ==> RouteFor(provider, apiKey, model).value.model == model.value
  {
  }
}
