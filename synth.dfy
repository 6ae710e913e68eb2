/**
 * The plugin object of `main.ts`: the "Read Selected Text" command, which sends
 * the editor's selection to the speech endpoint and then saves, plays and
 * records the result.
 *
 * The host's answers (what `fetch` resolves or rejects with, how playback
 * ends) are parameters, and everything the command does to the outside world
 * is appended, in order, to the plugin's effect trace.
 */
module Synth {
  import opened Options
  import opened Strings
  import opened SpeechSettings

  /** The request body `JSON.stringify` builds: a field whose setting is
      missing (`undefined`) is left out of the JSON, so it is optional here. */
  datatype RequestBody = RequestBody(model: Option<Value>, input: string, voice: Option<Value>)

  datatype HttpRequest = HttpRequest(
    url: string,
    httpMethod: string,
    authorization: string,
    contentType: string,
    body: RequestBody)

  /** What `response.json()` gives for an error response: nothing when the body
      is not JSON (the `.catch(() => null)`), otherwise the parsed value, of which
      the message needs its truthiness and its `JSON.stringify` text. */
  datatype ErrorBody = NotJson | Json(truthy: bool, text: string)

  /** An HTTP response; `ok` is a status in 200..299, as the Fetch standard
      defines it. */
  datatype Response = Response(status: nat, statusText: string, errorBody: ErrorBody) {
    predicate Ok() { 200 <= status <= 299 }
  }

  /** How the `fetch` call settles: a rejection (transport failure) or a response. */
  datatype FetchResult = NetworkError(message: string) | Responded(response: Response)

  /** How playback settles: the audio ends, the element's `onerror` fires with
      an event, or `play()` itself rejects with an error. */
  datatype Playback = Ended | MediaError | PlayRejected(message: string)

  /** What is thrown: an `Error` with a message, or the media error event. */
  datatype Thrown = ErrorObject(message: string) | EventObject

  datatype Outcome = Completed | Threw(error: Thrown)

  /** The steps of a run that reach beyond the plugin, in the order they happen:
      a notice shown, `fetch` called with a request (whether or not the host
      then sends it), and the calls of the two stub methods `saveAudioFile` and
      `createNewFile` (`SaveAudio`, `CreateFile`), which only log, and of
      `playAudio` (`Play`). */
  datatype Effect =
    | Notice(text: string)
    | Request(request: HttpRequest)
    | SaveAudio
    | Play
    | CreateFile(text: string)

  /** Effects and outcome of one `synthesizeSpeech` call. */
  datatype Run = Run(effects: seq<Effect>, outcome: Outcome)

  const NoTextSelected := "No text selected"
  const ErrorNoticePrefix := "Error synthesizing speech: "
  const ApiFailurePrefix := "API request failed: "

  /** `error.message` in a template literal: an event has no `message`, so it
      renders as "undefined". */
  function MessageText(t: Thrown): string
  {
    match t
    case ErrorObject(m) => m
    case EventObject => "undefined"
  }

  /** The request `synthesizeSpeech` sends for `text`. */
  function BuildRequest(settings: Record, text: string): HttpRequest
  {
    HttpRequest(
      OpenAiSpeechEndpoint,
      "POST",
      "Bearer " + Rendered(Lookup(settings, ApiKey)),
      "application/json",
      RequestBody(Lookup(settings, Model), text, Lookup(settings, Voice)))
  }

  /** The status part of the failure message. */
  function StatusLine(r: Response): string
  {
    ApiFailurePrefix + NatToString(r.status) + " " + r.statusText
  }

  /** The message of the error thrown for a response that is not ok. */
  function ApiErrorMessage(r: Response): string
  {
    StatusLine(r) + (if r.errorBody.Json? && r.errorBody.truthy then " - " + r.errorBody.text else "")
  }

  /** `synthesizeSpeech(text)` against the host's answers `fetched` and `played`. */
  function Synthesis(settings: Record, text: string, fetched: FetchResult, played: Playback): Run
  {
    var sent := [Request(BuildRequest(settings, text))];
    match fetched
    case NetworkError(m) => Run(sent, Threw(ErrorObject(m)))
    case Responded(response) =>
      if !response.Ok() then
        Run(sent, Threw(ErrorObject(ApiErrorMessage(response))))
      else
        var saved := if Truthy(Lookup(settings, SaveAudioFile)) then [SaveAudio] else [];
        match played
        case MediaError => Run(sent + saved + [Play], Threw(EventObject))
        case PlayRejected(m) => Run(sent + saved + [Play], Threw(ErrorObject(m)))
        case Ended =>
          var created := if Truthy(Lookup(settings, CreateNewFileAfterRecording)) then [CreateFile(text)] else [];
          Run(sent + saved + [Play] + created, Completed)
  }

  /** The effects of the command on the selection `selection`. */
  function ReadSelectionEffects(settings: Record, selection: string, fetched: FetchResult, played: Playback): seq<Effect>
  {
    if selection == "" then [Notice(NoTextSelected)]
    else
      var run := Synthesis(settings, selection, fetched, played);
      match run.outcome
      case Completed => run.effects
      case Threw(e) => run.effects + [Notice(ErrorNoticePrefix + MessageText(e))]
  }

  class SpeechSynth {
    /** The settings in memory, shared with the settings form. */
    var settings: Record
    /** What the host's `loadData` returns: the last record saved, if any. */
    var stored: Option<Record>
    /** Everything the plugin did to the outside world, oldest first. */
    var effects: seq<Effect>

    constructor(stored: Option<Record>)
      ensures this.stored == stored && settings == map[] && effects == []
    {
      this.stored := stored;
      settings := map[];
      effects := [];
    }

    /** The settings part of `onload`. */
    method OnLoad()
      modifies this`settings
      ensures settings == LoadSettings(stored)
      ensures HasDefaultFields(settings)
    {
      settings := LoadSettings(stored);
      DefaultValues();
      assert HasDefaultFields(settings);
    }

    /** `synthesizeSpeech`: send the request, fail on a transport error or a
        response that is not ok, otherwise save if asked to, play, and record
        the text in a new file if asked to. */
    method SynthesizeSpeech(text: string, fetched: FetchResult, played: Playback) returns (outcome: Outcome)
      modifies this`effects
      ensures effects == old(effects) + Synthesis(settings, text, fetched, played).effects
      ensures outcome == Synthesis(settings, text, fetched, played).outcome
    {
      effects := effects + [Request(BuildRequest(settings, text))];
      if fetched.NetworkError? {
        return Threw(ErrorObject(fetched.message));
      }
      var response := fetched.response;
      if !response.Ok() {
        return Threw(ErrorObject(ApiErrorMessage(response)));
      }
      if Truthy(Lookup(settings, SaveAudioFile)) {
        effects := effects + [SaveAudio];
      }
      effects := effects + [Play];
      if played.MediaError? {
        return Threw(EventObject);
      }
      if played.PlayRejected? {
        return Threw(ErrorObject(played.message));
      }
      if Truthy(Lookup(settings, CreateNewFileAfterRecording)) {
        effects := effects + [CreateFile(text)];
      }
      outcome := Completed;
    }

    /** `readSelection`: refuse an empty selection with a notice, otherwise
        synthesize it and turn any error into a notice; nothing is rethrown. */
    method ReadSelection(selection: string, fetched: FetchResult, played: Playback)
      modifies this`effects
      ensures effects == old(effects) + ReadSelectionEffects(settings, selection, fetched, played)
    {
      if selection == "" {
        effects := effects + [Notice(NoTextSelected)];
        return;
      }
      var outcome := SynthesizeSpeech(selection, fetched, played);
      if outcome.Threw? {
        effects := effects + [Notice(ErrorNoticePrefix + MessageText(outcome.error))];
      }
    }
  }

  // ---------------------------------------------------------------------------
  // Properties of the command

  /** The position of each kind of effect in the fixed order of a run. */
  function Stage(e: Effect): nat
  {
    match e
    case Request(_) => 0
    case SaveAudio => 1
    case Play => 2
    case CreateFile(_) => 3
    case Notice(_) => 4
  }

  /** Every run starts with the request, and its effects come in the fixed order
      request, save, play, create-file, each at most once. */
  lemma EffectOrder(settings: Record, text: string, fetched: FetchResult, played: Playback)
    ensures var effects := Synthesis(settings, text, fetched, played).effects;
      && effects != [] && effects[0] == Request(BuildRequest(settings, text))
      && forall i, j :: 0 <= i < j < |effects| ==> Stage(effects[i]) < Stage(effects[j])
  {
  }

  /** Which effects happen: saving exactly when the response is ok and
      `saveAudioFile` is truthy; playing exactly when the response is ok;
      creating the file exactly when, besides, playback ends normally and
      `createNewFileAfterRecording` is truthy. The run completes exactly when
      the response is ok and playback ends normally. */
  lemma EffectsUnderFlags(settings: Record, text: string, fetched: FetchResult, played: Playback)
    ensures var run := Synthesis(settings, text, fetched, played);
      var ok := fetched.Responded? && fetched.response.Ok();
      && (SaveAudio in run.effects <==> ok && Truthy(Lookup(settings, SaveAudioFile)))
      && (Play in run.effects <==> ok)
      && (CreateFile(text) in run.effects <==> ok && played == Ended && Truthy(Lookup(settings, CreateNewFileAfterRecording)))
      && (run.outcome == Completed <==> ok && played == Ended)
  {
    var run := Synthesis(settings, text, fetched, played);
    var ok := fetched.Responded? && fetched.response.Ok();
    assert run.effects[0].Request?;
    if !ok {
      assert run.effects == [run.effects[0]];
    }
  }

  /** A response that is not ok stops the run right after the request, with
      the failure message as the error. */
  lemma FailedResponseStops(settings: Record, text: string, response: Response, played: Playback)
    requires !response.Ok()
    ensures Synthesis(settings, text, Responded(response), played)
         == Run([Request(BuildRequest(settings, text))], Threw(ErrorObject(ApiErrorMessage(response))))
  {
  }

  /** The failure message starts with the status line, whose number is the
      status in decimal, and goes on with " - " and the error body's JSON text
      exactly when the body parsed to a truthy value. */
  lemma ApiErrorMessageParts(r: Response)
    ensures var m := ApiErrorMessage(r);
      && |StatusLine(r)| <= |m| && m[..|StatusLine(r)|] == StatusLine(r)
      && StatusLine(r) == ApiFailurePrefix + NatToString(r.status) + " " + r.statusText
      && DecimalValue(NatToString(r.status)) == r.status
      && (|m| > |StatusLine(r)| <==> r.errorBody.Json? && r.errorBody.truthy)
      && (|m| > |StatusLine(r)| ==> m[|StatusLine(r)|..] == " - " + r.errorBody.text)
  {
  }

  /** An unauthorised request with a JSON error body. */
  lemma UnauthorizedMessage()
    ensures ApiErrorMessage(Response(401, "Unauthorized", Json(true, "{\"error\":\"invalid_api_key\"}")))
         == "API request failed: 401 Unauthorized" + " - " + "{\"error\":\"invalid_api_key\"}"
  {
    var r := Response(401, "Unauthorized", Json(true, "{\"error\":\"invalid_api_key\"}"));
    assert NatToString(4) == "4";
    assert NatToString(40) == "40";
    assert NatToString(401) == "401";
    assert StatusLine(r) == "API request failed: 401 Unauthorized";
  }

  /** The request depends on the settings only through `apiKey`, `model` and
      `voice`: the `apiUrl` setting, speed, pitch, volume, language and every
      other field are not sent. */
  lemma RequestUsesOnlyKeyModelVoice(s1: Record, s2: Record, text: string)
    requires Lookup(s1, ApiKey) == Lookup(s2, ApiKey)
    requires Lookup(s1, Model) == Lookup(s2, Model)
    requires Lookup(s1, Voice) == Lookup(s2, Voice)
    ensures BuildRequest(s1, text) == BuildRequest(s2, text)
  {
  }

  /** The request goes to the fixed endpoint, whatever `apiUrl` says, with the
      key as a bearer token and the selection unchanged as the input. */
  lemma RequestShape(settings: Record, text: string)
    ensures var r := BuildRequest(settings, text);
      && r.url == "https://api.openai.com/v1/audio/speech"
      && r.httpMethod == "POST"
      && r.authorization[..7] == "Bearer " && r.authorization[7..] == Rendered(Lookup(settings, ApiKey))
      && r.body.input == text
      && r.body.model == Lookup(settings, Model) && r.body.voice == Lookup(settings, Voice)
  {
  }

  /** An empty selection only shows "No text selected": no request is made. */
  lemma EmptySelectionIsRefused(settings: Record, fetched: FetchResult, played: Playback)
    ensures ReadSelectionEffects(settings, "", fetched, played) == [Notice(NoTextSelected)]
  {
  }

  /** Any other selection, white space included, is sent as it is. */
  lemma NonEmptySelectionIsSent(settings: Record, selection: string, fetched: FetchResult, played: Playback)
    requires selection != ""
    ensures var effects := ReadSelectionEffects(settings, selection, fetched, played);
      effects != [] && effects[0] == Request(BuildRequest(settings, selection))
  {
    EffectOrder(settings, selection, fetched, played);
  }

  /** The command never fails: a run that throws ends with the error notice,
      and a run that completes shows no notice at all. */
  lemma ErrorsBecomeNotices(settings: Record, selection: string, fetched: FetchResult, played: Playback)
    requires selection != ""
    ensures var run := Synthesis(settings, selection, fetched, played);
      var effects := ReadSelectionEffects(settings, selection, fetched, played);
      && (run.outcome.Threw? ==> effects == run.effects + [Notice(ErrorNoticePrefix + MessageText(run.outcome.error))])
      && (run.outcome.Completed? ==> forall i :: 0 <= i < |effects| ==> !effects[i].Notice?)
  {
    EffectOrder(settings, selection, fetched, played);
  }

  /** When the audio element reports an error, the notice says "undefined",
      since the event it rejects with has no message. */
  lemma MediaErrorNotice(settings: Record, selection: string, response: Response)
    requires selection != "" && response.Ok()
    ensures var effects := ReadSelectionEffects(settings, selection, Responded(response), MediaError);
      effects[|effects| - 1] == Notice("Error synthesizing speech: undefined")
  {
  }
}
