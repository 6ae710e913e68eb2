# Speech synthesizer plugin for Obsidian — a Dafny model

The plugin sends the text selected in the editor to a text-to-speech HTTP
endpoint, plays the audio it gets back, and offers a settings form. This
project models the plugin's three source files that hold its logic and proves what
they promise:

- **Settings store** (`src/SettingsManager.ts`, module `SpeechSettings`): the
  default record, `loadSettings` as a shallow merge of the stored data over the
  defaults into a fresh object, and `saveSettings`, which persists the record as
  it is. A settings record is a map from field name to an opaque value (string,
  boolean, number kept as its printed text, or the pronunciation dictionary),
  so stored fields the defaults do not know pass through as they do in the
  source. Values are immutable, so loading cannot change the defaults.
- **Settings form** (`src/SpeechSynthSettingsTab.ts`, modules `SettingsTab` and
  `Pronunciation`): the class `SpeechSynthSettingsTab` holds the plugin object
  and each `onChange` handler is a method that rewrites one field of the shared
  record in place and saves it. The "Save recording" toggle empties the save
  path when switched off. The pronunciation text area's codec serialises
  entries as `word=pronunciation` lines and parses the text back with a loop
  over the lines. `GetUniqueFolders` collects the folders that hold notes.
- **Read Selected Text** (`main.ts`, module `Synth`): the class `SpeechSynth`
  with its settings, what the host has stored, and a trace of effects.
  `ReadSelection` and `SynthesizeSpeech` append the request, the save, the
  playback, the new-file step and the notices to that trace, in order, given
  the host's answers (how `fetch` settles, how playback ends) as parameters.
  Each method is proved equal to a function (`Synthesis`,
  `ReadSelectionEffects`), and the lemmas state the properties of those
  functions.

JavaScript's own behaviour is written out where the outcome depends on it:
truthiness (`SpeechSettings.Truthy`), template-literal rendering (`Rendered`,
`NatToString`, `Synth.MessageText`), `split` on one character (`Strings.Split`),
`trim` with JavaScript's set of white-space characters (`Strings.Trim`), and
the inherited `__proto__` setter, which makes the parser's assignment of the
word `__proto__` store nothing (`Pronunciation.Assign`).

The model follows the code where it behaves other than a reader of the
settings form or the source might expect:

- The request always goes to `https://api.openai.com/v1/audio/speech`
  (`main.ts:50`). The `apiUrl` setting, described in the form as "the endpoint
  that will be used to make requests to" (`src/SpeechSynthSettingsTab.ts:85`),
  is never read.
- Only `model`, `input` and `voice` are sent (`main.ts:56-60`). Speed, pitch,
  volume and language have their own settings in the form but are not sent.
- A selection made only of white space is sent (`main.ts:30`). Only the empty
  string is refused.
- A pronunciation line whose word is `__proto__` passes the parser's test but
  is not stored (`src/SpeechSynthSettingsTab.ts:260`), so it disappears from
  the text area on the next display.
- The error body is appended to the failure message when `response.json()`
  gives a truthy value. A body that parses to `null`, `false`, `0` or `""`
  adds nothing, just as a body that is not JSON adds nothing.
- Saving and playback are not independent. A playback failure skips the
  new-file step, and every failure ends the run.
- When the audio element reports an error, it rejects with an event. Events
  have no `message`, so the notice reads "Error synthesizing speech: undefined".

## Model

| member | source | states |
|---|---|---|
| SpeechSettings.LoadSettings | src/SettingsManager.ts:54-60 | with nothing stored the result is exactly the defaults; otherwise its fields are the defaults' plus the stored ones; every stored field keeps its stored value whole (shallow: a stored dictionary replaces the default `{}`, unknown fields pass through); every default field absent from storage keeps its default |
| SpeechSettings.DefaultValues | src/SettingsManager.ts:25-45 | `saveAudioFile` true, `batchProcessingEnabled` false, voice "alloy", model "tts-1", empty dictionary; loading with nothing stored has every default field |
| SpeechSettings.LoadAfterSave | src/SettingsManager.ts:54-64 | loading right after saving a record that has every default field returns that record |
| SpeechSettings.SaveLoadIdempotent | src/SettingsManager.ts:54-64 | a loaded record has every default field, and saving it and loading again gives the same record |
| Strings.Trim | src/SpeechSynthSettingsTab.ts:260 | `trim` returns the slice of the string between a white-space prefix and a white-space suffix, with white space at neither of its ends; a trimmed string is unchanged, and the result is "" exactly for an all-white-space string |
| Strings.JoinSplit | src/SpeechSynthSettingsTab.ts:257-258 | joining the pieces of `split` gives back the string, and no piece contains the separator |
| Strings.SplitJoin | src/SpeechSynthSettingsTab.ts:254-257 | splitting joined lines on the separator gives back the lines, when no line contains it |
| Strings.NatToString | main.ts:65 | the status renders as decimal digits with no leading zero, denoting the status |
| Pronunciation.ParseDictionary | src/SpeechSynthSettingsTab.ts:256-262 | the loop over the lines builds exactly `Parse(text)`, the dictionary the kept lines define, where assigning the word `__proto__` stores nothing |
| Pronunciation.Serialize | src/SpeechSynthSettingsTab.ts:254 | no entries give ""; otherwise, when no word or pronunciation holds a newline, the text splits on newlines into one `word=pronunciation` line per entry |
| Pronunciation.ParseLineShape | src/SpeechSynthSettingsTab.ts:258-260 | a line `w=p` followed by nothing or a second `=` is kept exactly when `w` and `p` are non-empty before trimming, storing `trim(w)` → `trim(p)` |
| Pronunciation.LineWithoutEqualsIsSkipped | src/SpeechSynthSettingsTab.ts:258-259 | a line with no `=`, the empty line included, adds nothing |
| Pronunciation.BlankPiecesAreKept | src/SpeechSynthSettingsTab.ts:259-260 | a non-empty word or pronunciation made only of white space passes the truthiness test and that piece is stored as "" |
| Pronunciation.ProtoLineIsDropped | src/SpeechSynthSettingsTab.ts:256-260 | a line `__proto__=p` with a non-empty pronunciation passes the test, yet the parsed dictionary is empty |
| Pronunciation.SecondEqualsEndsPronunciation | src/SpeechSynthSettingsTab.ts:258 | in `a=b=c` only `b` becomes the pronunciation |
| Pronunciation.EntryLineParses | src/SpeechSynthSettingsTab.ts:254-260 | the line shown for an entry whose word and pronunciation are plain parses back to that entry |
| Pronunciation.ParsedWords | src/SpeechSynthSettingsTab.ts:256-262 | a word is in the parsed dictionary exactly when it is not `__proto__` and some kept line has it as its trimmed word |
| Pronunciation.LastLineWins | src/SpeechSynthSettingsTab.ts:256-262 | the last kept line for a word other than `__proto__` gives its pronunciation |
| Pronunciation.ParsedEntriesAreTrimmed | src/SpeechSynthSettingsTab.ts:260 | every stored word and pronunciation is trimmed |
| Pronunciation.EmptyTextIsEmptyDictionary | src/SpeechSynthSettingsTab.ts:256-263 | clearing the text area gives the empty dictionary |
| Pronunciation.RoundTrip | src/SpeechSynthSettingsTab.ts:254-262 | showing a dictionary whose words and pronunciations are non-empty, trimmed and free of `=` and newlines, with no word `__proto__`, in any entry order, and parsing the text gives the same dictionary |
| SettingsTab.GetUniqueFolders | src/SpeechSynthSettingsTab.ts:33-45 | the result holds only folders, holds every folder that is some note's parent, holds nothing that is not one, and holds no folder twice |
| SettingsTab.SpeechSynthSettingsTab.SetApiKey | src/SpeechSynthSettingsTab.ts:75-78 | only `apiKey` changes, the whole record is saved, the save-path rule is kept |
| SettingsTab.SpeechSynthSettingsTab.SetApiUrl | src/SpeechSynthSettingsTab.ts:88-91 | only `apiUrl` changes, the whole record is saved, the save-path rule is kept |
| SettingsTab.SpeechSynthSettingsTab.SetModel | src/SpeechSynthSettingsTab.ts:101-104 | only `model` changes, the whole record is saved, the save-path rule is kept |
| SettingsTab.SpeechSynthSettingsTab.SetVoice | src/SpeechSynthSettingsTab.ts:123-126 | only `voice` changes, the whole record is saved, the save-path rule is kept |
| SettingsTab.SpeechSynthSettingsTab.SetLanguage | src/SpeechSynthSettingsTab.ts:136-139 | only `language` changes, the whole record is saved, the save-path rule is kept |
| SettingsTab.SpeechSynthSettingsTab.SetSaveAudioFile | src/SpeechSynthSettingsTab.ts:152-159 | sets `saveAudioFile`; switching off also sets the path to "", switching on leaves it; nothing else changes; the save-path rule holds afterwards |
| SettingsTab.SpeechSynthSettingsTab.SetSaveAudioFilePath | src/SpeechSynthSettingsTab.ts:175-179 | only the path changes; the save-path rule holds afterwards exactly when saving was on or the new path is empty |
| SettingsTab.SpeechSynthSettingsTab.SetDebugMode | src/SpeechSynthSettingsTab.ts:194-198 | only `debugMode` changes, the whole record is saved, the save-path rule is kept |
| SettingsTab.SpeechSynthSettingsTab.SetSpeed | src/SpeechSynthSettingsTab.ts:211-214 | only `speed` changes, the whole record is saved, the save-path rule is kept |
| SettingsTab.SpeechSynthSettingsTab.SetPitch | src/SpeechSynthSettingsTab.ts:226-229 | only `pitch` changes, the whole record is saved, the save-path rule is kept |
| SettingsTab.SpeechSynthSettingsTab.SetVolume | src/SpeechSynthSettingsTab.ts:241-244 | only `volume` changes, the whole record is saved, the save-path rule is kept |
| SettingsTab.SpeechSynthSettingsTab.SetPronunciationDictionary | src/SpeechSynthSettingsTab.ts:255-264 | the parsed dictionary replaces the old one wholesale; nothing else changes; the record is saved |
| SettingsTab.SpeechSynthSettingsTab.SetBatchProcessingEnabled | src/SpeechSynthSettingsTab.ts:275-278 | only `batchProcessingEnabled` changes, the whole record is saved, the save-path rule is kept |
| SettingsTab.SpeechSynthSettingsTab.SetExperimentalFeaturesEnabled | src/SpeechSynthSettingsTab.ts:302-305 | only `experimentalFeaturesEnabled` changes, the whole record is saved, the save-path rule is kept |
| Synth.SpeechSynth.OnLoad | main.ts:12-13 | the settings in memory are the stored data merged over the defaults, with every default field present |
| Synth.SpeechSynth.SynthesizeSpeech | main.ts:43-83 | appends exactly the effects of `Synthesis` and returns its outcome |
| Synth.SpeechSynth.ReadSelection | main.ts:28-41 | appends exactly the effects of `ReadSelectionEffects`; nothing is thrown |
| Synth.EffectOrder | main.ts:49-78 | a run starts with the request, and its effects come in the order request, save, play, create-file, each at most once |
| Synth.EffectsUnderFlags | main.ts:63-78 | save happens iff the response is ok and `saveAudioFile` is truthy; play iff ok; create-file iff ok, playback ended and `createNewFileAfterRecording` is truthy; the run completes iff ok and playback ended |
| Synth.FailedResponseStops | main.ts:63-66 | a response that is not ok leaves only the request as an effect and throws the failure message |
| Synth.ApiErrorMessageParts | main.ts:65 | the message is "API request failed: ", the decimal status, a space and the status text, then " - " and the body's JSON text exactly when the body parsed to a truthy value |
| Synth.UnauthorizedMessage | main.ts:63-66 | a 401 with a JSON error body gives "API request failed: 401 Unauthorized - " and the body |
| Synth.RequestUsesOnlyKeyModelVoice | main.ts:50-61 | two settings records that agree on `apiKey`, `model` and `voice` give the same request: `apiUrl`, speed, pitch, volume and language play no part |
| Synth.RequestShape | main.ts:50-61 | POST to the fixed OpenAI endpoint, `Authorization` "Bearer " and the key, body `model`, `input` (the selection unchanged) and `voice` |
| Synth.EmptySelectionIsRefused | main.ts:29-33 | an empty selection shows only "No text selected", with no request |
| Synth.NonEmptySelectionIsSent | main.ts:29-36 | any other selection, white space included, is sent as it is |
| Synth.ErrorsBecomeNotices | main.ts:35-40 | a run that throws is followed by the notice "Error synthesizing speech: " and the message; a run that completes shows no notice |
| Synth.MediaErrorNotice | main.ts:91-105 | a media error during playback ends in the notice "Error synthesizing speech: undefined" |

## Left out

- The widget toolkit: headers, `Setting` construction, placeholders, slider limits, `setDisabled`. Only what each `onChange` does to the settings is modelled.
- Speed, pitch and volume are opaque values (the number's printed text). The sliders enforce their ranges, and they are floating point.
- The network call, `Blob`, `response.blob()` (assumed to succeed for an ok response), `Audio` and object URLs. They appear only as the host's answers (`FetchResult`, `Playback`) and as effects.
- `saveAudioFile` and `createNewFile` in `main.ts` only log. They are the effects `SaveAudio` and `CreateFile`.
- Console logging, including the debug dump of the settings.
- Plugin lifecycle beyond loading the settings (`addCommand`, `addSettingTab`, `onunload`), and the internals of `loadData`/`saveData`. The stored data is a settings record or nothing; stored data that is not an object is not modelled, and neither is a stored field value other than a string, a boolean, a number or a string-to-string map (`null` or an array, say, possible only in a hand-edited data file, with their own truthiness and rendering such as "Bearer null").
- `saveSettings` is awaited but its failure is not modelled: saving always stores the record.
- The exact text `JSON.stringify` gives for an error body is opaque (`ErrorBody.text`), as is a thrown error's message.
- The order in which `Object.entries` lists the dictionary. `Serialize` takes the entries in whatever order the host gives, and the round trip is stated for every order.
- Word substitution with the dictionary and batch processing over folders. None of the three modelled source files implements them.
- SpeechSettings.LoadSettings: stored data is a map, so a stored own field named `__proto__` (possible only in a hand-edited data file) is treated as an ordinary field, whereas `Object.assign` hands it to the inherited setter and does not copy it.
- Several commands running at once: each run is modelled as one uninterrupted sequence. In particular `synthesizeSpeech` reads `saveAudioFile` and `createNewFileAfterRecording` only after `fetch` and `blob()` settle (`main.ts:68-78`), so a toggle changed while the request is pending is seen by the source, whereas `Synthesis` reads the settings once, when the run starts.
- SettingsTab.GetUniqueFolders: the contract does not state that the folders come in the order first met (the order of `Array.from` over a `Set`), though the loop keeps that order.
