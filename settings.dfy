/**
 * The settings store of `src/SettingsManager.ts`: the default record, loading
 * (a shallow merge of the stored data over the defaults into a fresh object)
 * and saving (the record is handed to the host's persistence as it is).
 *
 * A settings record is a map from field name to an opaque value, so that stored
 * data with fields the defaults do not know about is represented too.
 */
module SpeechSettings {
  import opened Options

  /** A field value: a string, a boolean, a number (kept as the text JavaScript's
      `String(n)` gives for it), or the pronunciation dictionary. */
  datatype Value =
    | Str(s: string)
    | Bool(b: bool)
    | Num(token: string)
    | Dict(entries: map<string, string>)

  type Record = map<string, Value>

  const ApiKey := "apiKey"
  const ApiUrl := "apiUrl"
  const Model := "model"
  const Prompt := "prompt"
  const Voice := "voice"
  const Language := "language"
  const SaveAudioFile := "saveAudioFile"
  const SaveAudioFilePath := "saveAudioFilePath"
  const DebugMode := "debugMode"
  const CreateNewFileAfterRecording := "createNewFileAfterRecording"
  const CreateNewFileAfterRecordingPath := "createNewFileAfterRecordingPath"
  const Speed := "speed"
  const Pitch := "pitch"
  const Volume := "volume"
  const PronunciationDictionary := "pronunciationDictionary"
  const BatchProcessingEnabled := "batchProcessingEnabled"
  const ExperimentalFeaturesEnabled := "experimentalFeaturesEnabled"
  const AdvancedSettingVisibility := "AdvancedSettingVisibility"

  const OpenAiSpeechEndpoint := "https://api.openai.com/v1/audio/speech"

  /** `DEFAULT_SETTINGS`. */
  const DefaultSettings: Record := map[
    ApiKey := Str(""),
    ApiUrl := Str(OpenAiSpeechEndpoint),
    Model := Str("tts-1"),
    Prompt := Str(""),
    Voice := Str("alloy"),
    Language := Str("en"),
    SaveAudioFile := Bool(true),
    SaveAudioFilePath := Str(""),
    DebugMode := Bool(false),
    CreateNewFileAfterRecording := Bool(true),
    CreateNewFileAfterRecordingPath := Str(""),
    Speed := Num("1"),
    Pitch := Num("1"),
    Volume := Num("1"),
    PronunciationDictionary := Dict(map[]),
    BatchProcessingEnabled := Bool(false),
    ExperimentalFeaturesEnabled := Bool(false),
    AdvancedSettingVisibility := Bool(false)
  ]

  /** Reading a property: `undefined` when the record has no such field. */
  function Lookup(r: Record, field: string): Option<Value>
  {
    if field in r then Some(r[field]) else None
  }

  /** JavaScript truthiness of a property value: `undefined`, `false`, `""`,
      `0`, `-0` and `NaN` are falsy (both zeros print as "0"), objects are truthy. */
  predicate Truthy(v: Option<Value>)
  {
    match v
    case None => false
    case Some(Str(s)) => s != ""
    case Some(Bool(b)) => b
    case Some(Num(t)) => t != "0" && t != "NaN"
    case Some(Dict(_)) => true
  }

  /** How a template literal `${...}` renders a property value. */
  function Rendered(v: Option<Value>): string
  {
    match v
    case None => "undefined"
    case Some(Str(s)) => s
    case Some(Bool(b)) => if b then "true" else "false"
    case Some(Num(t)) => t
    case Some(Dict(_)) => "[object Object]"
  }

  /** `loadSettings`: `Object.assign({}, DEFAULT_SETTINGS, stored)`. The host
      gives `null`/`undefined` (here `None`) when nothing was ever saved, and
      `Object.assign` skips such a source. */
  function LoadSettings(stored: Option<Record>): (r: Record)
    ensures stored.None? ==> r == DefaultSettings
    ensures stored.Some? ==> r.Keys == DefaultSettings.Keys + stored.value.Keys
    ensures forall k :: stored.Some? && k in stored.value ==> k in r && r[k] == stored.value[k]
    ensures forall k :: k in DefaultSettings && (stored.None? || k !in stored.value) ==> k in r && r[k] == DefaultSettings[k]
  {
    var target: Record := map[];
    match stored
    case None => target + DefaultSettings
    case Some(data) => target + DefaultSettings + data
  }

  /** `saveSettings`: what the host persists is the record as given. */
  function SaveSettings(settings: Record): Option<Record>
  {
    Some(settings)
  }

  /** A loaded record always has every default field. */
  predicate HasDefaultFields(r: Record)
  {
    DefaultSettings.Keys <= r.Keys
  }

  /** The defaults the rest of the plugin relies on. */
  lemma DefaultValues()
    ensures DefaultSettings[SaveAudioFile] == Bool(true)
    ensures DefaultSettings[BatchProcessingEnabled] == Bool(false)
    ensures DefaultSettings[Voice] == Str("alloy")
    ensures DefaultSettings[Model] == Str("tts-1")
    ensures DefaultSettings[PronunciationDictionary] == Dict(map[])
    ensures HasDefaultFields(LoadSettings(None))
  {
  }

  /** Loading right after saving a record that has every default field gives that
      record back. */
  lemma LoadAfterSave(settings: Record)
    requires HasDefaultFields(settings)
    ensures LoadSettings(SaveSettings(settings)) == settings
  {
    var r := LoadSettings(SaveSettings(settings));
    assert r.Keys == settings.Keys;
  }

  /** Saving what was loaded and loading again changes nothing. */
  lemma SaveLoadIdempotent(stored: Option<Record>)
    ensures HasDefaultFields(LoadSettings(stored))
    ensures LoadSettings(SaveSettings(LoadSettings(stored))) == LoadSettings(stored)
  {
    LoadAfterSave(LoadSettings(stored));
  }
}
