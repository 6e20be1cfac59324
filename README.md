# YouTube-samenvatting in Dafny

This project models the core of *youtube-samenvatting*, a desktop tool that summarises
YouTube videos in Dutch. The user enters a video link. The tool:

1. extracts the eleven-character video reference from the link;
2. fetches a transcript from YouTube, preferring Dutch, then English, then the first track listed;
3. writes the transcript to a text file under a four-line header;
4. asks one of three language-model providers for a structured summary: a local Ollama
   model, OpenAI's `gpt-4o-mini` or Anthropic's Claude;
5. turns the Markdown-like answer into a Word document.

A graphical front end (`gui_app.py`) then lets the user ask questions about the same
transcript. It keeps a capped chat history and replays the last ten messages to the
provider with each question.

The modules follow the program's structure:

- `Wrappers`: `Option` and `Result`.
- `Text`: the string primitives the source uses, namely Python's `str.strip()` (with
  Python's set of white-space characters), `startswith`/`endswith`, substring search,
  ASCII lower-casing, `str.join` and `str.split` on a single character. It also proves
  that split and join are inverses.
- `Budget`: the transcript budget table `TRANSCRIPT_LIMITS`. Also `get_effective_limit`
  (the base limit minus `PROMPT_OVERHEAD` minus the prompt, never below 1000) and the
  inline choice of table key by provider, model family and mode.
- `VideoId`: `extract_video_id`. The first pattern finds a `watch?v=`, `youtu.be/` or
  `/embed/` link anywhere in the text; the second accepts a bare reference.
- `Transcripts`: track selection over the language codes of the listed tracks, the
  newline join of the fetched segments, and the four ways acquisition can fail, with
  their messages.
- `Prompts`:
  - the summary prompt and the chat system prompt;
  - the truncation of the transcript to the effective limit;
  - the request each provider receives for a summary and for a chat turn: Ollama's
    single prompt text with the dialogue written out, OpenAI's system-plus-messages list,
    and Anthropic's `system` field plus messages;
  - the ten-message context window.
- `Gateway`: the `summarize` and `chat_with_transcript` dispatchers. It covers provider
  parsing, the key checks, Ollama's default model and how each provider's failure is
  reported. The provider itself is a function `backend: Request -> Reply`.
- `Document`: `create_word_document`. It builds the header block, then classifies each
  stripped summary line as a heading of level 1 or 2, a bullet, a numbered item, a
  horizontal rule or a paragraph. Paragraphs are split into bold and plain runs around
  `**…**` spans. A document is a sequence of `Block` values.
- `Pipeline`: `process_video`. The title scrape (`titleOf`), the transcript service, the
  two clock readings and the provider are inputs.
- `ChatApp`: the chat state of `gui_app.py`'s `YouTubeSamenvattingApp`. It is a class
  `ChatSession` with the transcript, provider, model, key, history, chat-enabled flag and
  shown tab, and one method per handler that changes them. Its invariant ties the remembered provider to the dispatcher: a known provider that was remembered always passes the key check. Beside it are the pure
  history cap, the provider-choice mapping and the parsing of the transcript file's header.

Points where the code's behaviour is easy to misread, as the model follows it:

- The effective limit equals `base - 3000 - prompt` exactly when `base >= 4000 + prompt`.
  Below that it is the floor of 1000.
- The chat budget subtracts only the chat prompt, not the history.
- Anthropic's summary request carries the prompt inside the user message (no `system`
  field), with `max_tokens` 4000.
- An empty track list raises inside the `try` block, so it reaches the caller re-wrapped
  by the generic handler, as an `Exception` failure.
- Python's `$` also matches before a final newline, so `"<id>\n"` is accepted as a bare
  reference.

## Model

| member | source | states |
|---|---|---|
| Budget.EffectiveLimit | youtube_samenvatting.py:58-61 | never below 1000; at least base minus overhead minus prompt; equal to exactly one of the two; the subtraction wins iff base >= 4000 + prompt length |
| Budget.EffectiveLimitMonotonic | youtube_samenvatting.py:58-61 | a larger base or a shorter prompt never lowers the effective limit |
| Budget.VariantOfModels | youtube_samenvatting.py:179-182 | the model family test ignores case; `gemma2:9b` uses the Gemma rows and the default model the gpt-oss rows |
| Budget.LimitKeyFor | youtube_samenvatting.py:43-52 | the chosen key is always a row of the table, for the requested provider and mode, and names the Gemma variant iff the provider is Ollama and the lower-cased model contains "gemma" |
| Budget.BaseLimit | youtube_samenvatting.py:43-52 | every budget lies between 12000 and 150000; a Gemma model gets at most 20000 and a hosted provider at least 80000 |
| Budget.BaseLimitAboveFloor | youtube_samenvatting.py:43-61 | for every table row and any prompt up to 8000 characters the floor never applies |
| VideoId.FindLink | youtube_samenvatting.py:100-106 | the result is a link match at some position; none iff no position matches; it is the leftmost match |
| VideoId.LinkAt | youtube_samenvatting.py:101 | a match at a position yields eleven id characters, and needs at least the shortest prefix and the id after that position |
| VideoId.ExtractVideoId | youtube_samenvatting.py:98-108 | a result is always eleven id characters; None iff no link matches anywhere and the text is not a bare reference; the leftmost link wins over the bare form; a bare reference yields itself |
| VideoId.PrefixesExclusive | youtube_samenvatting.py:101 | no two of the three link prefixes can start at the same position |
| VideoId.LinkAtPrefix | youtube_samenvatting.py:101 | whichever prefix matches at a position decides the reference found there |
| VideoId.NoLinkWithoutY | youtube_samenvatting.py:101 | a link can only start at a `y` |
| VideoId.NoLinkWithoutDot | youtube_samenvatting.py:101 | text without a dot contains no link |
| VideoId.BareIdIsItself | youtube_samenvatting.py:102 | a bare reference, with or without one trailing newline, extracts to itself |
| VideoId.EmbeddedIdIsFound | youtube_samenvatting.py:100-106 | a reference after any link prefix is found whatever follows it, when no `y` comes before the prefix |
| VideoId.UrlShapesAgree | youtube_samenvatting.py:98-108 | the watch, short, embed and bare forms of one reference all extract to that reference |
| Transcripts.FirstWithPrefix | youtube_samenvatting.py:147-151 | the first track whose code starts with the language, and no earlier track matches |
| Transcripts.PreferredFrom | youtube_samenvatting.py:141-153 | the first language in priority order that any track has, and the first track with that language; None iff no track has any of them |
| Transcripts.SelectedTrack | youtube_samenvatting.py:141-158 | the chosen track is a preferred-language match as above, or the first track when none matches |
| Transcripts.SelectTrack | youtube_samenvatting.py:135-158 | the loop over priorities and tracks finds the same track as SelectedTrack; an empty listing fails with the no-transcripts error |
| Transcripts.GetTranscript | youtube_samenvatting.py:126-173 | computes exactly the acquisition function, including every failure |
| Transcripts.Acquire | youtube_samenvatting.py:126-173 | a failed listing is reported as that failure; with a non-empty listing the acquisition succeeds exactly when the selected track can be fetched, and otherwise fails with the fetch's error |
| Transcripts.AcquireSpec | youtube_samenvatting.py:133-173 | an empty listing fails; a success comes from a non-empty listing; its language is the selected track; its text is the newline join of that track's segments, and splitting it recovers segments without newlines |
| Transcripts.SelectionExamples | youtube_samenvatting.py:141-158 | English without Dutch is chosen; with neither the first track is; `nl-BE` beats an earlier `en`; a regional `en-GB` is taken by prefix |
| Prompts.PromptLengths | youtube_samenvatting.py:64-95 | the summary prompt has 1824 characters and the chat prompt before the transcript 496 |
| Prompts.SummaryLimit | youtube_samenvatting.py:179-184 | the summary budget is the table row minus the overhead minus the summary prompt |
| Prompts.ChatLimit | youtube_samenvatting.py:304-313 | the chat budget is the table row minus the overhead minus the chat prompt head |
| Prompts.Excerpt | youtube_samenvatting.py:184-185 | the excerpt is a prefix of the transcript; all of it when it fits, otherwise exactly `limit` characters |
| Prompts.SummaryCallSize | youtube_samenvatting.py:187-262 | every summary request carries the prompt, the excerpt and the provider's fixed framing, and nothing else |
| Prompts.SummaryCall | youtube_samenvatting.py:187-262 | Ollama gets a generate call with its model whose prompt starts with the instruction and ends with the excerpt and a newline; OpenAI gets `gpt-4o-mini` with the instruction as system message and the excerpt last, 4000 tokens; Anthropic gets Claude with no system field and one user message from instruction to excerpt, 4000 tokens |
| Prompts.SummaryRequestSize | youtube_samenvatting.py:187-267 | a summary request's size is the prompt plus the truncated transcript plus framing |
| Prompts.SummaryRequestFits | youtube_samenvatting.py:183-267 | every summary request stays within the table budget minus the overhead, plus framing, whatever the transcript's length |
| Prompts.Window | youtube_samenvatting.py:317 | the context window is the last ten messages of the history, or all of them when fewer |
| Prompts.DialogueAppend | youtube_samenvatting.py:316-320 | writing out the dialogue distributes over concatenation of histories |
| Prompts.BuildLocalChatText | youtube_samenvatting.py:316-320 | the loop that writes out the last ten turns builds exactly the local chat text |
| Prompts.BuildReplayedTurns | youtube_samenvatting.py:385-388 | the loop that replays the last ten turns builds exactly the hosted message list |
| Prompts.ChatSystemPromptShape | youtube_samenvatting.py:287-313 | the chat system prompt starts with the fixed head; it is head plus transcript when the transcript fits; it never exceeds the chat budget minus the overhead |
| Prompts.ChatCallShape | youtube_samenvatting.py:316-396 | OpenAI gets the system message, the window and the question, in order; Anthropic gets the system field, the window and the question; Ollama's prompt starts with the system text and ends with the question and the assistant cue |
| Prompts.ChatCall | youtube_samenvatting.py:322-396 | each provider gets its own call kind: Ollama with the chosen model and 1500 tokens to predict, OpenAI `gpt-4o-mini` and Anthropic Claude with the key and 1500 tokens |
| Prompts.ReplayedTurnsShape | youtube_samenvatting.py:385-388 | the replayed list is the window followed by the question, so at most eleven messages |
| Prompts.LocalChatTextShape | youtube_samenvatting.py:316-320 | the local chat text starts with the system text and ends with the question and the assistant cue |
| Prompts.LocalChatTextExample | youtube_samenvatting.py:316-320 | one earlier exchange is written out as user and assistant turns between the system text and the new question |
| Gateway.ParseProvider | youtube_samenvatting.py:270-284 | exactly the three provider names are recognised, each as its own provider |
| Gateway.ModelOrDefault | youtube_samenvatting.py:272 | a missing or empty model becomes `gpt-oss:20b`, any other is kept |
| Gateway.RouteFor | youtube_samenvatting.py:270-284 | an unknown name fails with its name; a hosted provider without a key fails with the key message; success iff local or keyed; a hosted route carries the given key, a local one the model or its default |
| Gateway.Interpret | youtube_samenvatting.py:210-218 | a reply succeeds iff the provider answered, with the answer unchanged; a hosted provider's exception keeps its type and message; for the local model a connection failure, a timeout (with the mode and model) and any other exception each get their own error; every failure is a provider error |
| Gateway.LocalFailureMessages | youtube_samenvatting.py:210-218 | the local model's connection failure reads "Kan geen verbinding maken met Ollama. Is Ollama actief?" and any other exception "Ollama fout: type: message", in either mode |
| Gateway.HostedFailureMessage | youtube_samenvatting.py:229-267 | every exception of the provider call inside the `try` reads "OpenAI fout: type: message" or "Anthropic fout: type: message", whatever kind of failure it is |
| Gateway.Summarize | youtube_samenvatting.py:270-283 | a refused route is the result, before any provider use; with an accepted route the summary succeeds exactly when the provider answers the route's summary request, its value is the provider's text unchanged, and it fails only with a provider error |
| Gateway.ChatWithTranscript | youtube_samenvatting.py:459-473 | the same two outcomes for a chat question: the routing error, or the provider's verdict on the route's chat request with the given history: its text unchanged when it answers, a provider error when it does not |
| Gateway.RejectedBeforeAnyCall | youtube_samenvatting.py:270-284 | without a usable route both dispatchers return the same result whatever the provider would answer; the unknown-provider and key messages are the source's |
| Gateway.RefusedRoute | youtube_samenvatting.py:459-473 | when routing fails both dispatchers fail with that routing error |
| Gateway.KeyRequiredMessage | youtube_samenvatting.py:276-282 | the missing-key message names the hosted provider |
| Gateway.AnswerPassesThrough | youtube_samenvatting.py:270-284 | with a usable route, the provider's answer is the summary |
| Gateway.LocalDefaultModel | youtube_samenvatting.py:176-185 | the local provider without a model runs `gpt-oss:20b` with its 50000-character budget |
| Gateway.DefaultModelBudget | youtube_samenvatting.py:43-61 | the default local model's summary row is 50000, leaving 45176 characters of transcript |
| Gateway.LocalTimeoutMessages | youtube_samenvatting.py:213-215 | a local timeout names the model and five minutes for a summary, three minutes for chat |
| Document.StarFrom | youtube_samenvatting.py:449 | the first `*` at or after a position, or the end |
| Document.BoldEndAt | youtube_samenvatting.py:449 | where a `**…**` span starting at a position ends, and None iff no span starts there |
| Document.SpanShape | youtube_samenvatting.py:449 | a span is two stars, a non-empty run without stars, and two stars |
| Document.FindBold | youtube_samenvatting.py:449 | the leftmost position at which a bold span starts |
| Document.SplitBoldFrom | youtube_samenvatting.py:449 | the split always has an odd number of parts (that the parts alternate between text and spans is SplitBoldParts) |
| Document.SplitBold | youtube_samenvatting.py:449 | the parts of a line alternate and join back to the line |
| Document.PlainBetween | youtube_samenvatting.py:449 | the text between two spans contains no span start |
| Document.SplitBoldJoin | youtube_samenvatting.py:449 | the parts of the split joined together give the line back |
| Document.SplitBoldParts | youtube_samenvatting.py:449-451 | odd-indexed parts are bold spans and even-indexed parts contain none, as `re.split` with a capture group yields them |
| Document.BoldSpanRun | youtube_samenvatting.py:451-452 | a bold span becomes a bold run of its non-empty, star-free inner text, and writing it back gives the span |
| Document.DigitsEnd | youtube_samenvatting.py:439 | the end of the run of digits starting at a position |
| Document.NumberPrefix | youtube_samenvatting.py:439-441 | a numbered-list prefix is one or more digits, a dot and a space; None iff the line has no such prefix |
| Document.ClassifyLine | youtube_samenvatting.py:429-454 | a line starting with "## " is a level-1 heading of line[3:], "### " a level-2 heading of line[4:], "- " a bullet of line[2:], a `^\d+\. ` match a numbered item of the rest, "---" (followed by anything) the rule; any other line is a Normal paragraph of the runs of its bold split; a line is a heading iff it starts with "## " or "### " |
| Document.ClassifyExamples | youtube_samenvatting.py:439-444 | "12. x" becomes the numbered item "x", and "--- x" becomes the rule, as `re.sub(r'^\d+\. ', '', line)` and `startswith('---')` make them |
| Document.RulesExclusive | youtube_samenvatting.py:429-446 | no line starts with two of the five markers, so the order of the `elif` chain never decides between them |
| Document.ClassifyMarkup | youtube_samenvatting.py:430-454 | classifying the Markdown of a heading, bullet, numbered item or rule gives that block back |
| Document.ParagraphMarkup | youtube_samenvatting.py:448-454 | the runs of a split paragraph written back give the joined parts |
| Document.RunMarkup | youtube_samenvatting.py:450-454 | RunOf turns every part except the degenerate `**` and `***` into a run that writes back as the part |
| Document.ParagraphKeepsText | youtube_samenvatting.py:446-454 | a paragraph's runs keep its text, and its bold runs are non-empty and star-free |
| Document.Header | youtube_samenvatting.py:405-420 | three blocks: the title heading, the metadata paragraph and an empty paragraph; the metadata has six runs, bold labels "Video: ", "Datum: " and "Model: " alternating with plain values: the watch link and the date, each ending in a newline, then the provider, followed by " (model)" only when a non-empty model is given |
| Document.CreateWordDocument | youtube_samenvatting.py:403-456 | the document is the header followed by the blocks of the summary's lines |
| Document.AddLines | youtube_samenvatting.py:423-454 | the loop over lines yields, in order, a classified block for each non-blank stripped line |
| Document.BlocksOf | youtube_samenvatting.py:423-427 | never more blocks than lines |
| Document.BlocksOfAppend | youtube_samenvatting.py:423-454 | the body of concatenated line lists is the concatenation of their bodies |
| Document.BlocksOfLine | youtube_samenvatting.py:425-427 | a blank line adds nothing; leading white space does not change a line's block |
| Document.MarkupDocument | youtube_samenvatting.py:423-454 | writing canonical blocks as Markdown lines and converting back gives the same blocks |
| Document.MarkupLines | youtube_samenvatting.py:423-454 | one Markdown line per block |
| Document.MarkupLinesNoNewline | youtube_samenvatting.py:423 | no Markdown line of a canonical block contains a newline |
| Document.MarkupLinesBlocks | youtube_samenvatting.py:423-454 | converting the Markdown lines of canonical blocks gives the blocks back |
| Document.CanonicalLine | youtube_samenvatting.py:425-454 | a canonical block's Markdown line is already stripped, non-empty and classifies back to the block |
| Pipeline.InvalidUrlStopsRun | youtube_samenvatting.py:487-489 | a link with no video reference stops the run with the invalid-URL message, before any title, transcript or provider use |
| Pipeline.ProcessVideoSucceeds | youtube_samenvatting.py:476-526 | a run succeeds iff the reference is found, the transcript is acquired and the summary is produced |
| Pipeline.ProcessVideoOutputs | youtube_samenvatting.py:502-523 | the transcript file is the header (dated by the first clock read), separator and transcript, ending with the transcript; the summary is the dispatcher's; the document is the summary's document under a header dated by the second clock read |
| Pipeline.ProcessVideo | youtube_samenvatting.py:476-526 | the run fails as an invalid link exactly when no reference is found; a summary failure happens only after the reference was found and the transcript acquired |
| Pipeline.TranscriptFile | youtube_samenvatting.py:508-514 | the file starts with the four header lines, the separator and a blank line, and ends with the transcript |
| Pipeline.ExampleLink | youtube_samenvatting.py:98-108 | a short link yields its reference |
| Pipeline.ExampleTranscript | youtube_samenvatting.py:126-163 | a single English track's one segment becomes the transcript, marked English |
| Pipeline.ShortLinkRun | youtube_samenvatting.py:476-526 | a short link with the local provider runs to the end, with the provider's answer as summary |
| ChatApp.Retain | gui_app.py:508-509 | the capped history is the last fifty messages, or all when fewer |
| ChatApp.RetainAfterRetain | gui_app.py:501-509 | capping after every exchange equals capping once at the end |
| ChatApp.WindowOfRetain | gui_app.py:508-509 | the cap never changes the ten messages sent as context |
| ChatApp.RetainKeepsPairs | gui_app.py:501-509 | the history stays a sequence of user–assistant pairs after each exchange and cap |
| ChatApp.AppendPairPaired | gui_app.py:504-505 | appending one exchange keeps the history paired |
| ChatApp.SuffixPaired | gui_app.py:508-509 | dropping an even number of leading messages keeps the history paired |
| ChatApp.ShortHistoryGrows | gui_app.py:504-509 | below the cap an exchange is appended intact |
| ChatApp.FirstOccurrence | gui_app.py:427-428 | the search finds the first occurrence of the separator |
| ChatApp.SeparatorAfterHeader | gui_app.py:427-428 | in a written transcript file the first separator is the one after the header |
| ChatApp.HeaderRoundTrip | gui_app.py:423-430 | the body taken from the text of a transcript file as the pipeline writes it is the stripped transcript, when the header holds no separator |
| ChatApp.ProviderAndModel | gui_app.py:352-360 | both local choices become provider `ollama`, with `gemma2:9b` or `gpt-oss:20b`; the hosted choices are kept, with no model |
| ChatApp.StripHeader | gui_app.py:427-430 | without a separator the text is kept whole; with one the result is stripped and shorter than the text by at least the separator |
| ChatApp.StartFor | gui_app.py:346-377 | a blank link is refused; a hosted choice with an empty key is refused; otherwise the stripped link starts with the mapped provider, model and key |
| ChatApp.MapChoice | gui_app.py:355-360 | the branches map the choice to the same provider and model as ProviderAndModel |
| ChatApp.KeyFor | gui_app.py:362-372 | a hosted provider takes the key of its own field and an empty one is missing; a key that is not missing satisfies the dispatcher's check for any model |
| ChatApp.RefusedSwitchHidesEverything | gui_app.py:117-129 | as written, asking for the chat tab while chat is disabled leaves no tab shown, while the gated switch keeps the summary tab |
| ChatApp.SwitchTabGated | gui_app.py:117-133 | the chat tab only appears when chat is enabled; a refused switch changes nothing; otherwise it acts as written; tab 0 always shows the summary |
| ChatApp.ChatSession.constructor | gui_app.py:46-50 | a new session has no transcript, provider, model, key or history, with chat disabled and the summary tab shown |
| ChatApp.ChatSession.SwitchTab | gui_app.py:117-133 | the shown tab is the as-written switch: tab 0 shows the summary, tab 1 the chat when enabled, and a tab 1 request while chat is disabled leaves no tab shown; nothing else changes |
| ChatApp.ChatSession.StartProcessing | gui_app.py:346-377 | the outcome is StartFor's; a start stores its provider, model and key and a refusal stores nothing |
| ChatApp.ChatSession.ProcessingComplete | gui_app.py:409-439 | a readable transcript file replaces the transcript with its stripped body, clears the history and enables chat; an unreadable one changes nothing |
| ChatApp.ChatSession.SendChatMessage | gui_app.py:447-477 | a blank question is ignored; without a transcript the question is refused; otherwise the stripped question is sent and the session waits; the history is untouched |
| ChatApp.ChatSession.AnswerFor | gui_app.py:479-499 | an unknown remembered provider fails as unknown; for a known one the route is accepted, so the answer succeeds exactly when the provider answers the chat request with the loaded transcript and the history, its value is then the provider's text unchanged, and any failure is a provider error, never a key or provider complaint |
| ChatApp.ChatSession.ChatResponseComplete | gui_app.py:501-515 | the exchange is appended and the history capped at fifty; waiting ends |
| ChatApp.ChatSession.ChatResponseError | gui_app.py:517-522 | an error ends the wait and leaves the history as it was |
| ChatApp.ChatSession.ClearChat | gui_app.py:538-545 | the history is emptied and nothing else changes |
| ChatApp.StartedRouteAccepted | gui_app.py:346-388 | whatever start_processing lets through passes the dispatcher's key checks, and a local model is used as chosen |
| Text.Strip | youtube_samenvatting.py:425 | the stripped text is a slice that neither starts nor ends with white space and drops only white space |
| Text.JoinSplit | youtube_samenvatting.py:162 | splitting the newline join of segments without newlines gives the segments back |
| Text.SplitJoin | youtube_samenvatting.py:423 | joining the split pieces gives the text back |

## Left out

- **Provider calls.** The HTTP call to Ollama and the OpenAI and Anthropic SDK calls are
  the `backend` parameter. The model covers the request each receives and the reply each
  gives, not the network.
- **Transcript service.** The track listing and the fetch by language code are
  parameters. Only the language codes and the segment texts of the tracks are modelled.
- **Title scrape.** `get_video_title`, an HTML scrape, is the `titleOf` parameter.
- **Other I/O.** The configuration file (`load_config`/`save_config`), environment
  variables, logging and the output directory are not modelled. File contents are
  modelled as strings.
- **Clock.** `datetime.now()` is read twice: for the transcript file (youtube_samenvatting.py:512), before the summary is asked for, and for the document (youtube_samenvatting.py:416), after it. `ProcessVideo` takes the two readings as separate inputs, `fileDate` and `docDate`, and promises nothing about how they relate.
- **File names.** The file-name timestamp and the title sanitisation in `process_video`
  are not modelled, because they only name files.
- ChatApp.HeaderRoundTrip: the file is read back in text mode, which turns "\r" and "\r\n" into "\n"; the lemma is about the text as written, so it matches the file read back only when the transcript holds no "\r".
- **Transcript file on failure.** When summarising fails, the transcript file stays on
  disk. The model returns only the failure.
- **Word document details.** The python-docx objects, centring and style names are
  plain values of `Block` and `Style`. The document's text read back for display in
  `process_video_thread` is not modelled.
- **Widgets and threads.** Tk widgets, the background threads and `root.after`,
  message boxes and status texts are not modelled. `on_provider_change`,
  `processing_error`, `open_output_folder` and `add_chat_message` only change the display.
- **Hosted client set-up.** The `import` of the OpenAI or Anthropic SDK and the client
  construction come before the `try` in `summarize_with_openai`/`summarize_with_anthropic`
  and their chat counterparts, so an exception there is not wrapped as "… fout: …". The
  model has no such step: a hosted failure is always a failure of the call itself.
- **Temperature.** Floating point is represented as the constant `TemperatureTenths` (3).
- Document.NumberPrefix: `\d` in the numbered-list pattern is modelled as ASCII digits,
  while Python's `re` also accepts other Unicode digits.
- Budget.VariantOfModels: `.lower()` is modelled as ASCII lower-casing.
- **Prompt text.** The summary prompt and chat prompt are written as sections joined
  together; their lengths are proved.
- **Missing dependencies.** The import-error fallbacks and `build_app.py`, a packaging
  script, are not part of this model.

## Findings

| source | as written | input that shows it | evidently intended | confidence | as-written member | corrected member |
|---|---|---|---|---|---|---|
| gui_app.py:117-130 | `switch_tab` hides both tabs before checking `chat_enabled`, then returns early | `switch_tab(1)` while chat is disabled, with the summary tab shown | a refused switch leaves the current tab visible | not executed; unreachable through the disabled chat button | ChatApp.RefusedSwitchHidesEverything | ChatApp.SwitchTabGated |
