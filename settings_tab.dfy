/**
 * The settings form of `src/SpeechSynthSettingsTab.ts`. Every widget's
 * `onChange` rewrites one field of the plugin's settings record in place and
 * then saves the whole record; the form also lists the folders that hold
 * notes. The widgets themselves are not modelled.
 */
module SettingsTab {
  import opened Options
  import opened SpeechSettings
  import Pronunciation
  import opened Synth

  /** A vault item that can be a note's parent: a folder or not. */
  datatype Node = Folder(path: string) | NotFolder(path: string)

  /** A markdown file of the vault and its parent, if it has one. */
  datatype MarkdownFile = MarkdownFile(path: string, parent: Option<Node>)

  /** `getUniqueFolders`: the folders that are the parent of some markdown
      file, each once, collected in a `Set` in the order first met. */
  method GetUniqueFolders(files: seq<MarkdownFile>) returns (folders: seq<Node>)
    ensures forall f :: f in folders ==> f.Folder?
    ensures forall i :: 0 <= i < |files| && files[i].parent.Some? && files[i].parent.value.Folder? ==> files[i].parent.value in folders
    ensures forall f :: f in folders ==> exists i :: 0 <= i < |files| && files[i].parent == Some(f)
    ensures forall i, j :: 0 <= i < j < |folders| ==> folders[i] != folders[j]
  {
    folders := [];
    for k := 0 to |files|
      invariant forall f :: f in folders ==> f.Folder?
      invariant forall i :: 0 <= i < k && files[i].parent.Some? && files[i].parent.value.Folder? ==> files[i].parent.value in folders
      invariant forall f :: f in folders ==> exists i :: 0 <= i < k && files[i].parent == Some(f)
      invariant forall i, j :: 0 <= i < j < |folders| ==> folders[i] != folders[j]
    {
      var parentFolder := files[k].parent;
      if parentFolder.Some? && parentFolder.value.Folder? && parentFolder.value !in folders {
        folders := folders + [parentFolder.value];
      }
    }
  }

  /** The rule the save toggle keeps: with saving off, the save path is empty. */
  predicate SavePathCleared(r: Record)
  {
    !Truthy(Lookup(r, SaveAudioFile)) ==> Lookup(r, SaveAudioFilePath) == Some(Str(""))
  }

  class SpeechSynthSettingsTab {
    const plugin: SpeechSynth

    constructor(plugin: SpeechSynth)
      ensures this.plugin == plugin
    {
      this.plugin := plugin;
    }

    /** Rewrites one field of the shared record and saves the whole record. */
    method SetField(field: string, value: Value)
      modifies plugin`settings, plugin`stored
      ensures plugin.settings == old(plugin.settings)[field := value]
      ensures plugin.stored == SaveSettings(plugin.settings)
    {
      plugin.settings := plugin.settings[field := value];
      plugin.stored := SaveSettings(plugin.settings);
    }

    method SetApiKey(value: string)
      modifies plugin`settings, plugin`stored
      ensures plugin.settings == old(plugin.settings)[ApiKey := Str(value)]
      ensures plugin.stored == SaveSettings(plugin.settings)
      ensures SavePathCleared(old(plugin.settings)) ==> SavePathCleared(plugin.settings)
    {
      SetField(ApiKey, Str(value));
    }

    method SetApiUrl(value: string)
      modifies plugin`settings, plugin`stored
      ensures plugin.settings == old(plugin.settings)[ApiUrl := Str(value)]
      ensures plugin.stored == SaveSettings(plugin.settings)
      ensures SavePathCleared(old(plugin.settings)) ==> SavePathCleared(plugin.settings)
    {
      SetField(ApiUrl, Str(value));
    }

    method SetModel(value: string)
      modifies plugin`settings, plugin`stored
      ensures plugin.settings == old(plugin.settings)[Model := Str(value)]
      ensures plugin.stored == SaveSettings(plugin.settings)
      ensures SavePathCleared(old(plugin.settings)) ==> SavePathCleared(plugin.settings)
    {
      SetField(Model, Str(value));
    }

    method SetVoice(value: string)
      modifies plugin`settings, plugin`stored
      ensures plugin.settings == old(plugin.settings)[Voice := Str(value)]
      ensures plugin.stored == SaveSettings(plugin.settings)
      ensures SavePathCleared(old(plugin.settings)) ==> SavePathCleared(plugin.settings)
    {
      SetField(Voice, Str(value));
    }

    method SetLanguage(value: string)
      modifies plugin`settings, plugin`stored
      ensures plugin.settings == old(plugin.settings)[Language := Str(value)]
      ensures plugin.stored == SaveSettings(plugin.settings)
      ensures SavePathCleared(old(plugin.settings)) ==> SavePathCleared(plugin.settings)
    {
      SetField(Language, Str(value));
    }

    /** The "Save recording" toggle: switching it off also empties the save
        path, switching it on leaves the path alone; either way the rule
        `SavePathCleared` holds afterwards. */
    method SetSaveAudioFile(value: bool)
      modifies plugin`settings, plugin`stored
      ensures value ==> plugin.settings == old(plugin.settings)[SaveAudioFile := Bool(true)]
      ensures !value ==> plugin.settings == old(plugin.settings)[SaveAudioFile := Bool(false)][SaveAudioFilePath := Str("")]
      ensures plugin.stored == SaveSettings(plugin.settings)
      ensures SavePathCleared(plugin.settings)
    {
      plugin.settings := plugin.settings[SaveAudioFile := Bool(value)];
      if !value {
        plugin.settings := plugin.settings[SaveAudioFilePath := Str("")];
      }
      plugin.stored := SaveSettings(plugin.settings);
    }

    /** The save path field. The form disables it while saving is off; the
        handler itself does not check, so the rule holds afterwards exactly when
        saving is on or the new path is empty. */
    method SetSaveAudioFilePath(value: string)
      modifies plugin`settings, plugin`stored
      ensures plugin.settings == old(plugin.settings)[SaveAudioFilePath := Str(value)]
      ensures plugin.stored == SaveSettings(plugin.settings)
      ensures SavePathCleared(plugin.settings) <==> Truthy(Lookup(old(plugin.settings), SaveAudioFile)) || value == ""
    {
      SetField(SaveAudioFilePath, Str(value));
    }

    method SetDebugMode(value: bool)
      modifies plugin`settings, plugin`stored
      ensures plugin.settings == old(plugin.settings)[DebugMode := Bool(value)]
      ensures plugin.stored == SaveSettings(plugin.settings)
      ensures SavePathCleared(old(plugin.settings)) ==> SavePathCleared(plugin.settings)
    {
      SetField(DebugMode, Bool(value));
    }

    /** The speed slider; `value` is the number as `String(n)` prints it. */
    method SetSpeed(value: string)
      modifies plugin`settings, plugin`stored
      ensures plugin.settings == old(plugin.settings)[Speed := Num(value)]
      ensures plugin.stored == SaveSettings(plugin.settings)
      ensures SavePathCleared(old(plugin.settings)) ==> SavePathCleared(plugin.settings)
    {
      SetField(Speed, Num(value));
    }

    method SetPitch(value: string)
      modifies plugin`settings, plugin`stored
      ensures plugin.settings == old(plugin.settings)[Pitch := Num(value)]
      ensures plugin.stored == SaveSettings(plugin.settings)
      ensures SavePathCleared(old(plugin.settings)) ==> SavePathCleared(plugin.settings)
    {
      SetField(Pitch, Num(value));
    }

    method SetVolume(value: string)
      modifies plugin`settings, plugin`stored
      ensures plugin.settings == old(plugin.settings)[Volume := Num(value)]
      ensures plugin.stored == SaveSettings(plugin.settings)
      ensures SavePathCleared(old(plugin.settings)) ==> SavePathCleared(plugin.settings)
    {
      SetField(Volume, Num(value));
    }

    /** The pronunciation text area: the whole text is parsed into a new
        dictionary, which replaces the previous one. */
    method SetPronunciationDictionary(text: string)
      modifies plugin`settings, plugin`stored
      ensures plugin.settings == old(plugin.settings)[PronunciationDictionary := Dict(Pronunciation.Parse(text))]
      ensures plugin.stored == SaveSettings(plugin.settings)
      ensures SavePathCleared(old(plugin.settings)) ==> SavePathCleared(plugin.settings)
    {
      var dictionary := Pronunciation.ParseDictionary(text);
      SetField(PronunciationDictionary, Dict(dictionary));
    }

    method SetBatchProcessingEnabled(value: bool)
      modifies plugin`settings, plugin`stored
      ensures plugin.settings == old(plugin.settings)[BatchProcessingEnabled := Bool(value)]
      ensures plugin.stored == SaveSettings(plugin.settings)
      ensures SavePathCleared(old(plugin.settings)) ==> SavePathCleared(plugin.settings)
    {
      SetField(BatchProcessingEnabled, Bool(value));
    }

    method SetExperimentalFeaturesEnabled(value: bool)
      modifies plugin`settings, plugin`stored
      ensures plugin.settings == old(plugin.settings)[ExperimentalFeaturesEnabled := Bool(value)]
      ensures plugin.stored == SaveSettings(plugin.settings)
      ensures SavePathCleared(old(plugin.settings)) ==> SavePathCleared(plugin.settings)
    {
      SetField(ExperimentalFeaturesEnabled, Bool(value));
    }
  }
}
