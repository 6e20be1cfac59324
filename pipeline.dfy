/**
 * `process_video` of youtube_samenvatting.py: extract the video reference, acquire the
 * transcript, write the transcript file, summarise, and build the summary document.
 * The title scrape, the transcript service, the provider and the clock are inputs; the clock
 * is read twice, once for the transcript file before the summary is asked for and once for
 * the document after it, so the two dates are separate inputs. The file system is not
 * modelled, so the outputs are the file's text and the document's blocks.
 */
module Pipeline {
  import opened Wrappers
  import opened Text
  import opened VideoId
  import opened Transcripts
  import opened Gateway
  import opened Document
  import opened Prompts

  /** The line of fifty `=` that ends the transcript file's header. */
  const Separator: string := Repeat('=', 50)

  /** The text of the transcript file: four header lines, the separator, a blank line, the transcript. */
  function TranscriptHeader(title: string, videoId: string, language: string, date: string): string {
    "Video: " + title + "\n"
    + "URL: https://youtube.com/watch?v=" + videoId + "\n"
    + "Taal transcriptie: " + language + "\n"
    + "Datum: " + date + "\n"
  }

  function TranscriptFile(title: string, videoId: string, language: string, date: string, transcript: string): (file: string)
    ensures StartsWith(file, TranscriptHeader(title, videoId, language, date) + Separator + "\n\n")
    ensures EndsWith(file, transcript)
  {
    TranscriptHeader(title, videoId, language, date) + Separator + "\n\n" + transcript
  }

  datatype PipelineError =
    | InvalidUrl
    | TranscriptFailed(cause: TranscriptError)
    | SummaryFailed(reason: GatewayError)

  /** The message of the exception `process_video` lets through. */
  function PipelineMessage(e: PipelineError): string {
    match e
    case InvalidUrl => "Ongeldige YouTube URL. Controleer de link en probeer opnieuw."
    case TranscriptFailed(cause) => Transcripts.ErrorMessage(cause)
    case SummaryFailed(reason) => Gateway.ErrorMessage(reason)
  }

  /** What a successful run leaves behind. */
  datatype Outputs = Outputs(transcriptFile: string, summary: string, document: seq<Block>)

  /** The transcript service for one video: its track listing and the fetch of a language. */
  datatype Service = Service(
    listing: string -> Result<seq<string>, ApiError>,
    fetch: string -> string -> Result<seq<string>, ApiError>)

  function ProcessVideo(url: string, provider: string, apiKey: Option<string>, model: Option<string>,
                        titleOf: string -> string, service: Service, fileDate: string, docDate: string,
                        backend: Request -> Reply): (r: Result<Outputs, PipelineError>)
    ensures r == Failure(InvalidUrl) <==> ExtractVideoId(url).None?
    ensures r.Failure? && r.error.SummaryFailed? ==>
      && ExtractVideoId(url).Some?
      && Acquire(service.listing(ExtractVideoId(url).value), service.fetch(ExtractVideoId(url).value)).Success?
  {
    match ExtractVideoId(url)
    case None => Failure(InvalidUrl)
    case Some(videoId) =>
      var title := titleOf(videoId);
      match Acquire(service.listing(videoId), service.fetch(videoId))
      case Failure(cause) => Failure(TranscriptFailed(cause))
      case Success(t) =>
        var file := TranscriptFile(title, videoId, t.language, fileDate, t.text);
        match Summarize(t.text, provider, apiKey, model, backend)
        case Failure(reason) => Failure(SummaryFailed(reason))
        case Success(summary) =>
          Success(Outputs(file, summary,
            Header(title, videoId, provider, model, docDate) + BlocksOf(Split(summary, '\n'))))
  }

  /** A link that names no video stops the run before anything is fetched. */
  lemma InvalidUrlStopsRun(url: string, provider: string, apiKey: Option<string>, model: Option<string>,
                           titleOf: string -> string, service: Service, fileDate: string, docDate: string, backend: Request -> Reply)
    requires ExtractVideoId(url).None?
    ensures ProcessVideo(url, provider, apiKey, model, titleOf, service, fileDate, docDate, backend) == Failure(InvalidUrl)
    ensures PipelineMessage(InvalidUrl) == "Ongeldige YouTube URL. Controleer de link en probeer opnieuw."
  {
  }

  /** A run succeeds exactly when the link names a video, its transcript is acquired and the
      provider answers. */
  lemma ProcessVideoSucceeds(url: string, provider: string, apiKey: Option<string>, model: Option<string>,
                             titleOf: string -> string, service: Service, fileDate: string, docDate: string, backend: Request -> Reply)
    ensures ProcessVideo(url, provider, apiKey, model, titleOf, service, fileDate, docDate, backend).Success? <==>
      && ExtractVideoId(url).Some?
      && Acquire(service.listing(ExtractVideoId(url).value), service.fetch(ExtractVideoId(url).value)).Success?
      && Summarize(Acquire(service.listing(ExtractVideoId(url).value), service.fetch(ExtractVideoId(url).value)).value.text,
                   provider, apiKey, model, backend).Success?
  {
  }

  /** After a successful run the file records the video and ends with the transcript, and the
      document is the provider's answer laid out under the header. */
  lemma ProcessVideoOutputs(url: string, provider: string, apiKey: Option<string>, model: Option<string>,
                            titleOf: string -> string, service: Service, fileDate: string, docDate: string, backend: Request -> Reply)
    requires ProcessVideo(url, provider, apiKey, model, titleOf, service, fileDate, docDate, backend).Success?
    ensures var id := ExtractVideoId(url).value;
      var t := Acquire(service.listing(id), service.fetch(id)).value;
      var out := ProcessVideo(url, provider, apiKey, model, titleOf, service, fileDate, docDate, backend).value;
      && out.transcriptFile == TranscriptFile(titleOf(id), id, t.language, fileDate, t.text)
      && EndsWith(out.transcriptFile, t.text)
      && Success(out.summary) == Summarize(t.text, provider, apiKey, model, backend)
      && out.document == Header(titleOf(id), id, provider, model, docDate) + BlocksOf(Split(out.summary, '\n'))
  {
    var id := ExtractVideoId(url).value;
    var t := Acquire(service.listing(id), service.fetch(id)).value;
    var file := TranscriptFile(titleOf(id), id, t.language, fileDate, t.text);
    var front := TranscriptHeader(titleOf(id), id, t.language, fileDate) + Separator + "\n\n";
    assert file == front + t.text;
    assert file[|file| - |t.text|..] == t.text;
  }

  /** The short link of the example names the video `dQw4w9WgXcQ`. */
  lemma ExampleLink()
    ensures ExtractVideoId("https://youtu.be/" + "dQw4w9WgXcQ") == Some("dQw4w9WgXcQ")
  {
    var id := "dQw4w9WgXcQ";
    assert IsVideoId(id) by {
      forall k | 0 <= k < |id| ensures IsIdChar(id[k]) {
      }
    }
    ShortUrlIsFound(id);
  }

  /** A video whose only track is English, with one segment, yields that segment in English. */
  lemma ExampleTranscript(listing: Result<seq<string>, ApiError>, fetch: string -> Result<seq<string>, ApiError>)
    requires listing == Success(["en"])
    requires fetch("en") == Success(["hello world"])
    ensures Acquire(listing, fetch) == Success(Transcript("hello world", "en"))
  {
    assert SelectedTrack(["en"]) == 0;
    assert Join(["hello world"], "\n") == "hello world";
  }

  /** A short link to a video whose only track is English, summarised locally: the provider's
      answer is the summary, and the file records the English transcript. */
  lemma ShortLinkRun(titleOf: string -> string, service: Service, fileDate: string, docDate: string, backend: Request -> Reply, answer: string)
    requires forall v :: service.listing(v) == Success(["en"])
    requires forall v :: service.fetch(v)("en") == Success(["hello world"])
    requires forall q :: backend(q) == Answer(answer)
    ensures var r := ProcessVideo("https://youtu.be/" + "dQw4w9WgXcQ", "ollama", None, None, titleOf, service, fileDate, docDate, backend);
      && r.Success?
      && r.value.summary == answer
      && r.value.transcriptFile == TranscriptFile(titleOf("dQw4w9WgXcQ"), "dQw4w9WgXcQ", "en", fileDate, "hello world")
  {
    var id := "dQw4w9WgXcQ";
    var url := "https://youtu.be/" + id;
    ExampleLink();
    ExampleTranscript(service.listing(id), service.fetch(id));
    AnswerPassesThrough("hello world", "ollama", None, None, backend, answer);
    ProcessVideoSucceeds(url, "ollama", None, None, titleOf, service, fileDate, docDate, backend);
    ProcessVideoOutputs(url, "ollama", None, None, titleOf, service, fileDate, docDate, backend);
  }
}
