/** The application's fixed configuration (class `AppConfig` of core/config.py): the accepted
    model, language and task names, the defaults, the audio-file check and the options handed
    to the speech model. Every member is a pure function of its arguments; the constructor's
    creation of the default output folder is not modelled. */
module AppConfig {
  import Text
  import Paths

  const WhisperModels: seq<string> := ["tiny", "base", "small", "medium", "large", "turbo"]
  const Languages: seq<string> :=
    ["auto", "Spanish", "English", "French", "German", "Portuguese", "Chinese", "Japanese"]
  const Tasks: seq<string> := ["transcribe", "translate"]
  const AudioExtensions: seq<string> := [".mp3", ".wav", ".flac", ".m4a", ".ogg", ".wma"]

  const DefaultModel := "turbo"
  const DefaultLanguage := "auto"
  const DefaultTask := "transcribe"

  /** `validate_model`. */
  predicate ValidateModel(model: string) {
    model in WhisperModels
  }

  /** `validate_language`. */
  predicate ValidateLanguage(language: string) {
    language in Languages
  }

  /** `validate_task`. */
  predicate ValidateTask(task: string) {
    task in Tasks
  }

  /** The validators accept exactly the listed names, compared case-sensitively: six models,
      eight languages and two tasks. */
  lemma AcceptedNames()
    ensures forall m :: ValidateModel(m) <==> m in {"tiny", "base", "small", "medium", "large", "turbo"}
    ensures forall l :: ValidateLanguage(l) <==>
      l in {"auto", "Spanish", "English", "French", "German", "Portuguese", "Chinese", "Japanese"}
    ensures forall t :: ValidateTask(t) <==> t in {"transcribe", "translate"}
  {
  }

  /** Every default passes its own validator. */
  lemma DefaultsAreValid()
    ensures ValidateModel(DefaultModel)
    ensures ValidateLanguage(DefaultLanguage)
    ensures ValidateTask(DefaultTask)
  {
  }

  /** The validators compare case-sensitively. */
  lemma ValidatorsAreCaseSensitive()
    ensures !ValidateModel("Turbo") && !ValidateLanguage("spanish") && !ValidateTask("Translate")
  {
  }

  /** `name` ends, ignoring ASCII case, with `ext`, and has at least one character before it. */
  predicate EndsWithIgnoringCase(name: string, ext: string) {
    |name| > |ext| && Text.Lower(name[|name| - |ext|..]) == ext
  }

  /** The file name carries one of the audio extensions, in any case, after a non-empty base. */
  predicate HasAudioExtension(name: string) {
    exists k :: 0 <= k < |AudioExtensions| && EndsWithIgnoringCase(name, AudioExtensions[k])
  }

  /** An extension as listed: a dot, then at least one character, none of them a dot. */
  predicate WellFormedExtension(ext: string) {
    |ext| >= 2 && ext[0] == '.' && forall j :: 0 < j < |ext| ==> ext[j] != '.'
  }

  lemma AudioExtensionsWellFormed()
    ensures forall k :: 0 <= k < |AudioExtensions| ==> WellFormedExtension(AudioExtensions[k])
  {
    assert WellFormedExtension(".mp3");
    assert WellFormedExtension(".wav");
    assert WellFormedExtension(".flac");
    assert WellFormedExtension(".m4a");
    assert WellFormedExtension(".ogg");
    assert WellFormedExtension(".wma");
  }

  /** Looking up the lower-cased pathlib suffix in the list is the same as asking whether the
      name ends with a listed extension in any case, after at least one character. */
  lemma AudioSuffixIff(name: string)
    ensures Text.Lower(Paths.NameSuffix(name)) in AudioExtensions <==> HasAudioExtension(name)
  {
    AudioExtensionsWellFormed();
    var s := Paths.NameSuffix(name);
    var i := Paths.LastDot(name);
    if Text.Lower(s) in AudioExtensions {
      var k :| 0 <= k < |AudioExtensions| && AudioExtensions[k] == Text.Lower(s);
      assert s != "" by { assert Text.Lower("") == ""; }
      assert Paths.HasSuffix(name) && s == name[i..];
      assert name[|name| - |AudioExtensions[k]|..] == s;
      assert EndsWithIgnoringCase(name, AudioExtensions[k]);
    }
    if HasAudioExtension(name) {
      var k :| 0 <= k < |AudioExtensions| && EndsWithIgnoringCase(name, AudioExtensions[k]);
      var ext := AudioExtensions[k];
      var i0 := |name| - |ext|;
      var tail := name[i0..];
      assert Text.Lower(tail) == ext;
      assert name[i0] == '.' by { assert Text.LowerChar(tail[0]) == ext[0]; }
      assert forall j :: i0 < j < |name| ==> name[j] != '.' by {
        forall j | i0 < j < |name| ensures name[j] != '.' {
          assert Text.LowerChar(tail[j - i0]) == ext[j - i0];
        }
      }
      assert i == i0;
      assert s == tail;
    }
  }

  /** `validate_audio_file`: the path must be non-empty, must exist, and its lower-cased final
      suffix must be one of the six audio extensions. `pathExists` stands for `os.path.exists`. */
  function ValidateAudioFile(pathExists: string -> bool, filePath: string): (ok: bool)
    ensures filePath == "" ==> !ok
    ensures !pathExists(filePath) ==> !ok
  {
    if filePath == "" then false
    else if !pathExists(filePath) then false
    else Text.Lower(Paths.Suffix(filePath)) in AudioExtensions
  }

  /** For a path that exists, the check accepts exactly the names that end with a listed
      extension in any case, after at least one character. */
  lemma ValidateAudioFileIff(pathExists: string -> bool, filePath: string)
    requires filePath != "" && pathExists(filePath)
    ensures ValidateAudioFile(pathExists, filePath) <==> HasAudioExtension(Paths.Name(filePath))
  {
    AudioSuffixIff(Paths.Name(filePath));
  }

  /** An existing file whose name ends in ".MP3" is accepted: the extension is compared in lower
      case. */
  lemma UpperCaseExtensionAccepted(pathExists: string -> bool, filePath: string)
    requires pathExists(filePath)
    requires var n := Paths.Name(filePath); |n| > 4 && n[|n| - 4..] == ".MP3"
    ensures ValidateAudioFile(pathExists, filePath)
  {
    var n := Paths.Name(filePath);
    Paths.NameOfEmpty();
    assert filePath != "";
    assert HasAudioExtension(n) by {
      UpperCaseMp3(n);
      assert EndsWithIgnoringCase(n, AudioExtensions[0]);
    }
    ValidateAudioFileIff(pathExists, filePath);
  }

  /** A name ending in ".MP3" ends, ignoring case, with ".mp3". */
  lemma UpperCaseMp3(n: string)
    requires |n| > 4 && n[|n| - 4..] == ".MP3"
    ensures EndsWithIgnoringCase(n, ".mp3")
  {
    assert Text.Lower(".MP3") == ".mp3";
  }

  /** A file whose name is a dot followed by dot-free text (".mp3", say) has no suffix for
      pathlib, so it is rejected even when it exists. */
  lemma DotFileRejected(pathExists: string -> bool, filePath: string)
    requires var n := Paths.Name(filePath); |n| > 0 && n[0] == '.' && forall j :: 0 < j < |n| ==> n[j] != '.'
    ensures !ValidateAudioFile(pathExists, filePath)
  {
    var n := Paths.Name(filePath);
    if filePath != "" && pathExists(filePath) {
      ValidateAudioFileIff(pathExists, filePath);
      AudioExtensionsWellFormed();
      forall k | 0 <= k < |AudioExtensions| ensures !EndsWithIgnoringCase(n, AudioExtensions[k]) {
        var ext := AudioExtensions[k];
        if |n| > |ext| {
          var tail := n[|n| - |ext|..];
          assert Text.Lower(tail)[0] != '.' by { assert tail[0] == n[|n| - |ext|]; }
          assert Text.Lower(tail) != ext by { assert ext[0] == '.'; }
        }
      }
    }
  }

  /** `get_transcription_options`: a "language" entry unless the language is "auto", and a
      "task" entry only for "translate"; nothing else. */
  function TranscriptionOptions(language: string, task: string): (options: map<string, string>)
    ensures "language" in options <==> language != "auto"
    ensures "language" in options ==> options["language"] == language
    ensures "task" in options <==> task == "translate"
    ensures "task" in options ==> options["task"] == "translate"
    ensures options.Keys <= {"language", "task"}
  {
    var withLanguage: map<string, string> := if language != "auto" then map["language" := language] else map[];
    if task == "translate" then withLanguage["task" := "translate"] else withLanguage
  }

  /** The default language and task ask the model for nothing special. */
  lemma DefaultOptionsAreEmpty()
    ensures TranscriptionOptions(DefaultLanguage, DefaultTask) == map[]
  {
  }
}
