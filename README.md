# A verified model of the transcription core of whisper-transcription-gui

whisper-transcription-gui is a desktop front end for OpenAI's Whisper speech recogniser. The user picks
an audio file, a model size, a language and a task. The application then:

- checks those choices;
- loads the model, caching it between runs;
- transcribes the audio;
- writes a report file named after the audio file and the current time;
- sends progress messages to the window along the way.

This project models the deterministic rules around the opaque speech-recognition call, and proves
what they guarantee:

- **`AppConfig`** (config.dfy): the accepted model, language and task names, and the defaults. Also the
  audio-file check (non-empty, existing, one of six extensions in any case) and the options map handed
  to the model.
- **`WhisperModel`** (whisper_model.dfy): the model cache, a two-field state machine. It reloads only when
  nothing is loaded or another name is asked for, and it refuses to transcribe while unloaded.
- **`Files`** (file_manager.dfy): the output folder and the output path. The path is the folder joined
  with `<stem>_transcripcion_<timestamp>.txt`. Saving returns that path.
- **`Transcription`** (transcription.dfy): `validate_inputs`, whose first failing check wins, and
  `transcribe_audio` with its steps:
  - validate, then load, transcribe and save, with a progress message before each and one at the end
    (`RunTrace` states this order of messages and calls exactly);
  - a rejected request raises a `ValueError` before anything happens;
  - any later failure becomes a `RuntimeError` with a fixed prefix.
- **Support modules:**
  - `Paths` (paths.dfy): `pathlib`'s `name`, `suffix` and `stem`, and POSIX `os.path.join`.
  - `Text` (text.dfy): ASCII lower-casing and decimal numerals.
  - `Effects` (effects.dfy): the outside world.
  - `Wrappers` (wrappers.dfy): `Option` and `Result`.

**The outside world** is an `Env` of function values:

- `pathExists` for `os.path.exists`;
- `load` for `whisper.load_model`;
- `run` for the model's `transcribe`;
- `write` for writing the report.

A `World` object carries one `Env` and a ghost trace of every call made into it, in order. The four
kinds of call are a progress message, a model load, a transcription and a report write. The clock
reading `int(time.time())` is a `timestamp` argument. Whether a progress callback was given is a
boolean `withProgress`.

**State and specification.** The objects whose fields the program updates are classes:
`WhisperModelManager`, `FileManager` and `TranscriptionService`. Each method is proved against a
specification function:

- `LoadModelStep` and `TranscribeStep` for the manager;
- `SaveStep` for the file manager;
- `Run` for a whole `transcribe_audio` call.

The lemmas state what those functions promise.

**How the `Run` lemmas apply.** `Run` is `RunChecked` applied to the verdict of `ValidateInputs`.
The lemmas about a run are stated over `RunChecked` for any verdict, so they hold for `Run` in
particular.

## Model

| member | source | states |
|---|---|---|
| AppConfig.ValidateModel | core/config.py:35-37 | `validate_model`: membership in the model list; AcceptedNames states the accepted names |
| AppConfig.ValidateLanguage | core/config.py:39-41 | `validate_language`: membership in the language list; AcceptedNames states the accepted names |
| AppConfig.ValidateTask | core/config.py:43-45 | `validate_task`: membership in the list of tasks; AcceptedNames states the accepted names |
| AppConfig.AcceptedNames | core/config.py:9-45 | each validator accepts exactly its listed names, case-sensitively: six models, eight languages, two tasks |
| AppConfig.DefaultsAreValid | core/config.py:28-30 | "turbo", "auto" and "transcribe" pass their own validators |
| AppConfig.ValidatorsAreCaseSensitive | core/config.py:35-45 | "Turbo", "spanish" and "Translate" are rejected |
| AppConfig.AudioExtensionsWellFormed | core/config.py:56 | every listed extension is a dot followed by at least one dot-free character |
| AppConfig.AudioSuffixIff | core/config.py:56-58 | the lower-cased pathlib suffix is in the list iff the name ends, ignoring case, with a listed extension after at least one character |
| AppConfig.ValidateAudioFile | core/config.py:47-58 | an empty path and a path that does not exist are rejected, whatever their extension |
| AppConfig.ValidateAudioFileIff | core/config.py:52-58 | for an existing non-empty path, accepted iff its final name ends, ignoring case, with a listed extension after at least one character |
| AppConfig.UpperCaseExtensionAccepted | core/config.py:57-58 | an existing file whose name ends in ".MP3" after some text is accepted |
| AppConfig.UpperCaseMp3 | core/config.py:57 | a name ending in ".MP3" after some text ends, ignoring case, with ".mp3" |
| AppConfig.DotFileRejected | core/config.py:57-58 | a file named only by a dot and dot-free text (".mp3") has no suffix and is rejected even when it exists |
| AppConfig.TranscriptionOptions | core/config.py:60-70 | key "language" iff the language is not "auto", with that language as value; key "task" iff the task is "translate", with value "translate"; no other key |
| AppConfig.DefaultOptionsAreEmpty | core/config.py:62-70 | ("auto", "transcribe") gives the empty map |
| Text.LowerChar | core/config.py:57 | only 'A'..'Z' change; a dot stays the only character mapped to a dot |
| Text.LowerCharOfCapital | core/config.py:57 | a capital becomes the small letter at the same place in the alphabet, which lower-casing then keeps |
| Text.Lower | core/config.py:57 | same length, every character lower-cased |
| Text.Decimal | core/file_manager.py:23-24 | a non-empty string of digits without a leading zero unless the number is 0 |
| Text.DecimalRoundTrip | core/file_manager.py:23-24 | reading the numeral back gives the number |
| Text.DecimalInjective | core/file_manager.py:23-24 | distinct numbers have distinct numerals |
| Paths.Split | core/file_manager.py:22 | at least one part, none holding a '/' |
| Paths.Components | core/file_manager.py:22 | every component pathlib keeps is non-empty, not "." and holds no '/' |
| Paths.Name | core/file_manager.py:22 | the final name is empty or a single component |
| Paths.LastDot | core/config.py:57 | the index of the last dot, or -1 when there is none |
| Paths.NameSuffix | core/config.py:57 | pathlib's suffix of a final name; SuffixAndStemShape states its shape |
| Paths.NameStem | core/file_manager.py:22 | pathlib's stem of a final name; SuffixAndStemShape states its shape |
| Paths.SuffixAndStemShape | core/config.py:57 | the suffix is empty iff the name has none; otherwise it is a trailing dot and at least one dot-free character, shorter than the name; the stem is the whole name iff there is no suffix; stem then suffix is the name |
| Paths.Suffix | core/config.py:57 | the suffix of a path's final name; NameIgnoresDirectory and StemAndSuffixMakeName state what it keeps |
| Paths.Stem | core/file_manager.py:22 | the stem holds no '/' |
| Paths.StemAndSuffixMakeName | core/file_manager.py:22 | stem followed by suffix is the final name |
| Paths.Join | core/file_manager.py:25 | joining a relative name keeps the folder as a prefix |
| Paths.JoinRelative | core/file_manager.py:25 | a relative name is appended after a '/' unless the folder is empty or ends in one |
| Paths.NameOfComponent | core/file_manager.py:22 | a single component is its own name |
| Paths.NameOfEmpty | core/config.py:57 | the empty path has no name |
| Paths.ComponentsAfterSlash | core/file_manager.py:22 | appending '/' and a component adds exactly that component and makes it the name |
| Paths.NameIgnoresDirectory | core/file_manager.py:22 | the directory part does not change name, suffix or stem |
| Paths.JoinAfterTrailingSlash | core/file_manager.py:25 | a folder ending in '/' gets the component appended with no extra '/', one component more, and the component as its name |
| Paths.JoinComponent | core/file_manager.py:25 | a folder joined with a component has exactly one more component, that component, and the folder as prefix |
| Effects.World.Notify | core/transcription.py:73-74 | a progress message is appended to the trace |
| Effects.World.LoadModel | models/whisper_model.py:22 | the loader's answer is returned and the load call appended to the trace |
| Effects.World.RunModel | models/whisper_model.py:30 | the model's answer is returned and the transcription call appended to the trace |
| Effects.World.WriteReport | core/file_manager.py:37-56 | the write's error, if any, is returned and the write appended to the trace |
| WhisperModel.Unloaded | models/whisper_model.py:15-17 | nothing loaded, no name recorded |
| WhisperModel.LoadModelStep | models/whisper_model.py:19-23 | the loader is called, once, iff nothing is loaded or another name is; on success the model is loaded under that name; on failure both fields are unchanged and the loader's error is raised; without a call nothing changes |
| WhisperModel.LoadTwiceLoadsOnce | models/whisper_model.py:21 | after a successful load, loading the same name calls nothing and changes nothing |
| WhisperModel.TranscribeStep | models/whisper_model.py:25-30 | unloaded: the "not loaded" error and no call; loaded: one call to the loaded model with the options unchanged, and its answer |
| WhisperModel.WhisperModelManager.constructor | models/whisper_model.py:15-17 | a fresh manager is unloaded |
| WhisperModel.WhisperModelManager.LoadModel | models/whisper_model.py:19-23 | new fields, error and trace are those of LoadModelStep; fields stay consistent |
| WhisperModel.WhisperModelManager.Transcribe | models/whisper_model.py:25-30 | result and trace are those of TranscribeStep |
| WhisperModel.WhisperModelManager.IsLoaded | models/whisper_model.py:32-34 | true iff a model name is recorded |
| WhisperModel.WhisperModelManager.GetCurrentModel | models/whisper_model.py:36-38 | the recorded name |
| WhisperModel.LoadSameModelTwice | models/whisper_model.py:19-23 | two loads of one name whose first succeeds make at most one library call, and the second succeeds |
| Files.OutputName | core/file_manager.py:22-24 | the transcript name is a single path component |
| Files.OutputPath | core/file_manager.py:20-25 | the generated path starts with the output folder |
| Files.OutputPathComponents | core/file_manager.py:25 | the generated path is the folder's components plus the transcript name, which is its name |
| Files.OutputPathShape | core/file_manager.py:22-25 | the path is folder, separator, stem, "_transcripcion_", timestamp and ".txt" |
| Files.OutputNameIgnoresDirectory | core/file_manager.py:22 | the audio file's directory does not change the transcript name |
| Files.DistinctTimestampsGiveDistinctPaths | core/file_manager.py:23-25 | different clock readings give different paths |
| Files.SaveStep | core/file_manager.py:27-58 | one write to the generated path; on success that path is returned, on failure the write's error |
| Files.FileManager.constructor | core/file_manager.py:11-13 | the folder is the one given |
| Files.FileManager.SetOutputFolder | core/file_manager.py:15-18 | the folder becomes exactly the one given |
| Files.FileManager.GenerateOutputFilename | core/file_manager.py:20-25 | the path for the current folder, which it starts with |
| Files.FileManager.SaveTranscription | core/file_manager.py:27-58 | result and trace are those of SaveStep; the returned path is the generated one |
| Files.SetFolderThenGenerate | core/file_manager.py:15-25 | after setting a folder the next path lies under it, one component deeper |
| Transcription.FirstFailingIsFirst | core/transcription.py:29-44 | nothing is found iff every check passes; otherwise the found check fails and every check before it passes |
| Transcription.FirstFailingInOrder | core/transcription.py:29-42 | the checks are tried as empty path, invalid file, model, language, task |
| Transcription.ValidateInputs | core/transcription.py:18-44 | accepted iff the path is non-empty and every validator passes; accepted means an empty message |
| Transcription.VerdictInOrder | core/transcription.py:29-44 | for any set of failing checks, the verdict is the message of the first failing one in the order empty path, invalid file, model, language, task, or (true, "") |
| Transcription.ValidateInputsReportsFirstFailure | core/transcription.py:29-44 | the verdict is the message of the first failing check in order, or (true, "") |
| Transcription.EmptyPathAsksToSelectFile | core/transcription.py:29-33 | an empty path would fail the file check too, yet gets the "select a file" message |
| Transcription.RunChecked | core/transcription.py:66-111 | a rejected verdict raises ValueError with its message and changes nothing; an accepted one leaves the manager in the state the load step gives, whatever the later steps do; manager consistency is kept |
| Transcription.Run | core/transcription.py:46-111 | an invalid request raises ValueError with the validation message, with no call and no state change; consistency is kept |
| Transcription.Wrap | core/transcription.py:109-111 | the `RuntimeError` raised is the fixed prefix followed by exactly the step's error message |
| Transcription.SaveStage | core/transcription.py:89-107 | the saving step of a run; SaveStageViews states its notices and call, SaveStageResult its result |
| Transcription.TranscribeStage | core/transcription.py:79-111 | the steps after loading; TranscribeStageViews states their notices and calls, TranscribeStageResult their result |
| Transcription.SaveStageViews | core/transcription.py:89-100 | saving makes one write; the "saving" notice, then the "completed" one naming the path when the write succeeded |
| Transcription.SaveStageResult | core/transcription.py:93-111 | a successful write returns the library's text, its segments or [] when absent, the saved path and the raw result; a failed write raises the prefixed write error |
| Transcription.TranscribeStageResult | core/transcription.py:86-111 | a failed transcription raises the prefixed model error; otherwise the result is that of saving the library's answer: the transcript on a successful write, the prefixed write error on a failed one |
| Transcription.TranscribeStageViews | core/transcription.py:79-100 | after loading: the transcription call, then the write only when it succeeded, with the matching notices |
| Transcription.SaveTrace | core/transcription.py:89-100 | with a callback, in order: the "saving" notice, the write, then the "completed" notice naming the path only when the write succeeded |
| Transcription.TranscribeTrace | core/transcription.py:79-100 | with a callback, in order: the "processing" notice, the transcription call, then the save trace only when the library gave a result |
| Transcription.RunTrace | core/transcription.py:71-111 | with a callback, the exact ordered trace of an accepted run: each notice just before the call it announces, the "completed" notice after the write, and nothing after the step that fails |
| Transcription.RunViews | core/transcription.py:71-111 | for each way a run can end, the exact progress messages and the exact calls |
| Transcription.RunProgress | core/transcription.py:72-100 | the messages are a prefix of loading, processing, saving, completed-with-path; all four on success; none without a callback or for an invalid request |
| Transcription.RunEffects | core/transcription.py:66-96 | calls are a prefix of load (only when needed), transcribe with the built options, write to the generated path; the whole plan on success; none for an invalid request |
| Transcription.RunCallNeedsLoad | core/transcription.py:76-87 | a transcription call is made only when the model load succeeded |
| Transcription.WriteCallNeedsTranscription | core/transcription.py:76-96 | the report write is made only when the load and the transcription both succeeded |
| Transcription.RunErrors | core/transcription.py:76-111 | for an accepted request: a failed load raises the prefixed loader error; else a failed transcription raises the prefixed model error; else a failed write raises the prefixed write error; when all three succeed, the transcript of the library's answer and the saved path is returned |
| Transcription.RunResult | core/transcription.py:102-107 | on success: the library's text, its segments or [] when absent, the saved path, the raw result; the asked-for model is loaded |
| Transcription.LoadedRunKeepsModel | core/transcription.py:76-77 | a run with the model already loaded makes no load call and leaves the manager unchanged |
| Transcription.SecondRunReusesModel | core/transcription.py:76-77 | after a successful run, a run with the same model name makes no load call, whatever its other inputs |
| Transcription.TranscriptionService.constructor | core/transcription.py:9-12 | an unloaded manager and the given output folder |
| Transcription.TranscriptionService.SetOutputFolder | core/transcription.py:14-16 | the file manager's folder becomes the one given |
| Transcription.TranscriptionService.Report | core/transcription.py:73-74 | the message reaches the trace exactly when a callback was given |
| Transcription.TranscriptionService.Save | core/transcription.py:89-100 | result and trace are those of SaveStage |
| Transcription.TranscriptionService.TranscribeLoaded | core/transcription.py:79-107 | result and trace are those of TranscribeStage |
| Transcription.TranscriptionService.LoadAndTranscribe | core/transcription.py:71-111 | result, manager state and trace are those of RunChecked for an accepted request |
| Transcription.TranscriptionService.TranscribeAudio | core/transcription.py:46-111 | result, manager state and trace are exactly those of Run |

## Left out

- utils/threading_utils.py, gui/main_window.py and main.py: thread dispatch, Tk widgets, dialogs and the
  event loop are not part of this model.
- Report contents: the header, the `strftime` date and the segment times formatted to two decimals written by
  `save_transcription`. Saving is one write to the generated path, which may fail.
- `os.makedirs` in the constructors and in `set_output_folder`: creating folders is file-system I/O.
- `open_file`, `open_folder`, `open_transcription_file` and `open_output_folder`: these hand a path to
  the operating system.
- The Whisper library itself and its install at import time. `load` and `transcribe` are opaque
  functions that may fail.
- `os.getcwd()` and the default output folder under it: the folder is always an argument.
- `time.time()`: the clock reading is the `timestamp` argument.
- `AUDIO_FORMATS`: the file-dialog filter of the window.
- `AppConfig` and whole configuration objects are not constructed: the validators are functions of
  fixed constants.
- Paths.Split: only POSIX separators are modelled, not Windows backslashes or drive letters.
- Paths.NameSuffix: follows Python up to 3.13; Python 3.14 also treats a final dot as a suffix.
- Text.LowerChar: ASCII only. For the extension check this gives the same verdict as Python's Unicode
  `lower()`, since no other character lowers to a character of a listed extension.
- The library's answer always carries "text" (the `WhisperResult` datatype). A missing key would raise a
  `KeyError`, which becomes the prefixed `RuntimeError`, and is not modelled.
- Transcription.TranscriptionService.Report: the progress callback never raises. A raising callback
  would end the run with the prefixed `RuntimeError`.
- Transcription.RunProgress: the callback's truthiness is the boolean `withProgress`.
- Output paths are unique only across different clock readings. Two saves of one audio file within the
  same second produce the same path; Files.DistinctTimestampsGiveDistinctPaths states the distinct case.
