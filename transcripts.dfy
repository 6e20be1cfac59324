/**
 * The transcript acquirer of youtube_samenvatting.py (`get_transcript`): pick a
 * track by language priority, fetch it and join its segment texts.
 * The transcript service is foreign: its track listing and its fetch are inputs.
 */
module Transcripts {
  import opened Wrappers
  import opened Text

  /** Language prefixes in order of preference. */
  const LanguagePriority: seq<string> := ["nl", "en"]

  /** What the transcript service's `list` and `fetch` calls can raise. */
  datatype ApiError =
    | TranscriptsDisabled
    | NoTranscriptFound
    | Raised(kind: string, message: string)

  /** The failures `get_transcript` reports; every other exception is wrapped with its type name. */
  datatype TranscriptError =
    | Disabled
    | NotFound
    | FetchFailed(kind: string, message: string)

  /** An empty track list raises inside the `try`, so the catch-all wraps it like any other exception. */
  const NoTracks: TranscriptError := FetchFailed("Exception", "Geen transcripties beschikbaar voor deze video.")

  function FromApi(e: ApiError): TranscriptError {
    match e
    case TranscriptsDisabled => Disabled
    case NoTranscriptFound => NotFound
    case Raised(kind, message) => FetchFailed(kind, message)
  }

  /** The message of the exception `get_transcript` raises. */
  function ErrorMessage(e: TranscriptError): string {
    match e
    case Disabled => "Transcripties zijn uitgeschakeld voor deze video."
    case NotFound => "Geen transcriptie gevonden voor deze video."
    case FetchFailed(kind, message) => "Fout bij ophalen transcriptie: " + kind + ": " + message
  }

  /** The acquired transcript: the joined text and the language code of its track. */
  datatype Transcript = Transcript(text: string, language: string)

  /** The earliest track at or after `from` whose code starts with `prefix` (the inner scan). */
  function FirstWithPrefix(codes: seq<string>, prefix: string, from: nat): (r: Option<nat>)
    requires from <= |codes|
    ensures r.Some? ==> from <= r.value < |codes| && StartsWith(codes[r.value], prefix)
    ensures forall j :: from <= j < |codes| && (r.None? || j < r.value) ==> !StartsWith(codes[j], prefix)
    decreases |codes| - from
  {
    if from == |codes| then None
    else if StartsWith(codes[from], prefix) then Some(from)
    else FirstWithPrefix(codes, prefix, from + 1)
  }

  /** The outer scan from priority index `t` on: the first prefix any track matches wins, and
      the earliest such track is taken. */
  function PreferredFrom(codes: seq<string>, priority: seq<string>, t: nat): (r: Option<nat>)
    requires t <= |priority|
    ensures r.None? <==> forall u, j :: t <= u < |priority| && 0 <= j < |codes| ==> !StartsWith(codes[j], priority[u])
    ensures r.Some? ==> r.value < |codes|
    ensures r.Some? ==>
      exists u :: t <= u < |priority| && StartsWith(codes[r.value], priority[u])
        && (forall j :: 0 <= j < r.value ==> !StartsWith(codes[j], priority[u]))
        && (forall v, j :: t <= v < u && 0 <= j < |codes| ==> !StartsWith(codes[j], priority[v]))
    decreases |priority| - t
  {
    if t == |priority| then None
    else
      var k := FirstWithPrefix(codes, priority[t], 0);
      if k.Some? then k else PreferredFrom(codes, priority, t + 1)
  }

  /** The track `get_transcript` settles on. The first priority prefix that any track code
      starts with wins and the earliest such track is chosen; with no match, the first track. */
  function SelectedTrack(codes: seq<string>): (k: nat)
    requires |codes| > 0
    ensures k < |codes|
    ensures
      || (exists u :: 0 <= u < |LanguagePriority| && StartsWith(codes[k], LanguagePriority[u])
            && (forall j :: 0 <= j < k ==> !StartsWith(codes[j], LanguagePriority[u]))
            && (forall v, j :: 0 <= v < u && 0 <= j < |codes| ==> !StartsWith(codes[j], LanguagePriority[v])))
      || (k == 0 && forall u, j :: 0 <= u < |LanguagePriority| && 0 <= j < |codes| ==> !StartsWith(codes[j], LanguagePriority[u]))
  {
    PreferredFrom(codes, LanguagePriority, 0).GetOr(0)
  }

  /** The selection loop of `get_transcript`, with its early `break`s. */
  method SelectTrack(codes: seq<string>) returns (r: Result<nat, TranscriptError>)
    ensures |codes| == 0 ==> r == Failure(NoTracks)
    ensures |codes| > 0 ==> r == Success(SelectedTrack(codes))
  {
    if |codes| == 0 {
      return Failure(NoTracks);
    }
    var selected: Option<nat> := None;
    var p := 0;
    while p < |LanguagePriority|
      invariant 0 <= p <= |LanguagePriority|
      invariant selected.None?
      invariant PreferredFrom(codes, LanguagePriority, 0) == PreferredFrom(codes, LanguagePriority, p)
    {
      var t := 0;
      while t < |codes|
        invariant 0 <= t <= |codes| && selected.None?
        invariant FirstWithPrefix(codes, LanguagePriority[p], 0) == FirstWithPrefix(codes, LanguagePriority[p], t)
      {
        if StartsWith(codes[t], LanguagePriority[p]) {
          selected := Some(t);
          break;
        }
        t := t + 1;
      }
      if selected.Some? {
        break;
      }
      p := p + 1;
    }
    r := Success(selected.GetOr(0));
  }

  /** `get_transcript` as a value: list, select, fetch the selected language, join with "\n". */
  function Acquire(listing: Result<seq<string>, ApiError>, fetch: string -> Result<seq<string>, ApiError>)
    : (r: Result<Transcript, TranscriptError>)
    ensures listing.Failure? ==> r == Failure(FromApi(listing.error))
    ensures listing.Success? && |listing.value| > 0 ==>
      && (r.Success? <==> fetch(listing.value[SelectedTrack(listing.value)]).Success?)
      && (r.Failure? ==> r == Failure(FromApi(fetch(listing.value[SelectedTrack(listing.value)]).error)))
  {
    if listing.Failure? then Failure(FromApi(listing.error))
    else if |listing.value| == 0 then Failure(NoTracks)
    else
      var lang := listing.value[SelectedTrack(listing.value)];
      var data := fetch(lang);
      if data.Failure? then Failure(FromApi(data.error))
      else Success(Transcript(Join(data.value, "\n"), lang))
  }

  /** `get_transcript(video_id)`, the service calls given as `listing` and `fetch`. */
  method GetTranscript(listing: Result<seq<string>, ApiError>, fetch: string -> Result<seq<string>, ApiError>)
    returns (r: Result<Transcript, TranscriptError>)
    ensures r == Acquire(listing, fetch)
  {
    if listing.Failure? {
      return Failure(FromApi(listing.error));
    }
    var codes := listing.value;
    var selection := SelectTrack(codes);
    if selection.Failure? {
      return Failure(selection.error);
    }
    var lang := codes[selection.value];
    var data := fetch(lang);
    if data.Failure? {
      return Failure(FromApi(data.error));
    }
    r := Success(Transcript(Join(data.value, "\n"), lang));
  }

  /** What a successful acquisition returns: the selected track's language code, and a text
      that splits back into exactly the fetched segments when none of them holds a newline. */
  lemma AcquireSpec(listing: Result<seq<string>, ApiError>, fetch: string -> Result<seq<string>, ApiError>)
    ensures listing.Success? && |listing.value| == 0 ==> Acquire(listing, fetch) == Failure(NoTracks)
    ensures Acquire(listing, fetch).Success? ==>
      var t := Acquire(listing, fetch).value;
      && listing.Success? && |listing.value| > 0
      && t.language == listing.value[SelectedTrack(listing.value)]
      && fetch(t.language).Success?
      && t.text == Join(fetch(t.language).value, "\n")
      && ((forall k :: 0 <= k < |fetch(t.language).value| ==> '\n' !in fetch(t.language).value[k])
            && |fetch(t.language).value| > 0
          ==> Split(t.text, '\n') == fetch(t.language).value)
  {
    var r := Acquire(listing, fetch);
    if r.Success? {
      var segments := fetch(r.value.language).value;
      if (forall k :: 0 <= k < |segments| ==> '\n' !in segments[k]) && |segments| > 0 {
        SplitJoin(segments, '\n');
      }
    }
  }

  /** The language rule on concrete track lists. */
  lemma SelectionExamples()
    ensures SelectedTrack(["en", "fr"]) == 0
    ensures SelectedTrack(["fr", "de"]) == 0
    ensures SelectedTrack(["en", "nl-BE"]) == 1
    ensures SelectedTrack(["fr", "en-GB", "en"]) == 1
  {
    assert StartsWith("nl-BE", "nl");
    assert StartsWith("en-GB", "en");
    FirstCharMismatch("fr", "en");
    FirstCharMismatch("fr", "nl");
    FirstCharMismatch("en-GB", "nl");
    FirstCharMismatch("en", "nl");
    FirstCharMismatch("de", "en");
    FirstCharMismatch("de", "nl");
  }
}
