/** The transcription service of core/transcription.py (`TranscriptionService`): input validation
    with the first failing check reported, then load, transcribe and save, with progress messages
    at fixed points. `Run` states what one `transcribe_audio` call does to the model cache and to
    the outside world and what it returns or raises; `TranscriptionService.TranscribeAudio` is
    proved to do exactly that, and the lemmas below state what `Run` promises. */
module Transcription {
  import opened Wrappers
  import opened Effects
  import AppConfig
  import WhisperModel
  import Files

  const SelectFileMessage := "Por favor selecciona un archivo de audio"
  const InvalidFileMessage := "El archivo de audio no existe o no es válido"
  const InvalidModelPrefix := "Modelo inválido: "
  const InvalidLanguagePrefix := "Idioma inválido: "
  const InvalidTaskPrefix := "Tarea inválida: "

  const LoadingMessage := "Cargando modelo Whisper..."
  const ProcessingMessage := "Procesando audio..."
  const SavingMessage := "Guardando transcripción..."
  const CompletedPrefix := "Transcripción completada. Archivo guardado en: "
  const ErrorPrefix := "Error durante la transcripción: "

  // ---------------------------------------------------------------- validation

  /** The user's choices for one transcription. */
  datatype Request = Request(audioFile: string, model: string, language: string, task: string)

  /** The checks of `validate_inputs`, and the order in which it makes them. */
  datatype Check = AudioMissing | AudioInvalid | ModelInvalid | LanguageInvalid | TaskInvalid

  const CheckOrder: seq<Check> := [AudioMissing, AudioInvalid, ModelInvalid, LanguageInvalid, TaskInvalid]

  predicate Fails(pathExists: string -> bool, req: Request, check: Check) {
    match check
    case AudioMissing => req.audioFile == ""
    case AudioInvalid => !AppConfig.ValidateAudioFile(pathExists, req.audioFile)
    case ModelInvalid => !AppConfig.ValidateModel(req.model)
    case LanguageInvalid => !AppConfig.ValidateLanguage(req.language)
    case TaskInvalid => !AppConfig.ValidateTask(req.task)
  }

  function Message(req: Request, check: Check): string {
    match check
    case AudioMissing => SelectFileMessage
    case AudioInvalid => InvalidFileMessage
    case ModelInvalid => InvalidModelPrefix + req.model
    case LanguageInvalid => InvalidLanguagePrefix + req.language
    case TaskInvalid => InvalidTaskPrefix + req.task
  }

  /** The first check of `checks` that fails, if any, for the verdicts `fails` gives. */
  function FirstFailing(fails: Check -> bool, checks: seq<Check>): Option<Check> {
    if checks == [] then None
    else if fails(checks[0]) then Some(checks[0])
    else FirstFailing(fails, checks[1..])
  }

  /** `FirstFailing` finds nothing exactly when every check passes, and otherwise finds a failing
      check before which every check passes. */
  lemma {:induction false} FirstFailingIsFirst(fails: Check -> bool, checks: seq<Check>)
    ensures FirstFailing(fails, checks).None? <==> forall k :: 0 <= k < |checks| ==> !fails(checks[k])
    ensures FirstFailing(fails, checks).Some? ==>
      exists k :: 0 <= k < |checks| && checks[k] == FirstFailing(fails, checks).value &&
        fails(checks[k]) && forall j :: 0 <= j < k ==> !fails(checks[j])
  {
    if checks != [] && !fails(checks[0]) {
      var rest := checks[1..];
      FirstFailingIsFirst(fails, rest);
      assert forall k :: 0 < k < |checks| ==> checks[k] == rest[k - 1];
      if FirstFailing(fails, rest).Some? {
        var k :| 0 <= k < |rest| && rest[k] == FirstFailing(fails, rest).value &&
          fails(rest[k]) && forall j :: 0 <= j < k ==> !fails(rest[j]);
        assert checks[k + 1] == rest[k];
      }
    } else if checks != [] {
      assert checks[0] == FirstFailing(fails, checks).value;
    }
  }

  /** `FirstFailing` over `CheckOrder`, one check after the other. */
  lemma FirstFailingInOrder(fails: Check -> bool)
    ensures FirstFailing(fails, CheckOrder) ==
      if fails(AudioMissing) then Some(AudioMissing)
      else if fails(AudioInvalid) then Some(AudioInvalid)
      else if fails(ModelInvalid) then Some(ModelInvalid)
      else if fails(LanguageInvalid) then Some(LanguageInvalid)
      else if fails(TaskInvalid) then Some(TaskInvalid)
      else None
  {
    var order := CheckOrder;
    assert order[1..] == [AudioInvalid, ModelInvalid, LanguageInvalid, TaskInvalid];
    assert order[1..][1..] == [ModelInvalid, LanguageInvalid, TaskInvalid];
    assert order[1..][1..][1..] == [LanguageInvalid, TaskInvalid];
    assert order[1..][1..][1..][1..] == [TaskInvalid];
  }

  /** The pair `validate_inputs` returns for the outcome of the checks. */
  function Verdict(req: Request, failing: Option<Check>): (bool, string) {
    match failing
    case None => (true, "")
    case Some(check) => (false, Message(req, check))
  }

  /** `validate_inputs`: `(True, "")` when every check passes, otherwise `False` with the message
      of the first check, in `CheckOrder`, that fails. */
  function ValidateInputs(pathExists: string -> bool, audioFile: string, model: string, language: string,
                          task: string): (r: (bool, string))
    ensures r.0 <==>
      audioFile != "" && AppConfig.ValidateAudioFile(pathExists, audioFile) && AppConfig.ValidateModel(model) &&
      AppConfig.ValidateLanguage(language) && AppConfig.ValidateTask(task)
    ensures r.0 ==> r.1 == ""
  {
    if audioFile == "" then (false, SelectFileMessage)
    else if !AppConfig.ValidateAudioFile(pathExists, audioFile) then (false, InvalidFileMessage)
    else if !AppConfig.ValidateModel(model) then (false, InvalidModelPrefix + model)
    else if !AppConfig.ValidateLanguage(language) then (false, InvalidLanguagePrefix + language)
    else if !AppConfig.ValidateTask(task) then (false, InvalidTaskPrefix + task)
    else (true, "")
  }

  /** The verdict for the first failing check, spelled out check by check. */
  lemma VerdictInOrder(req: Request, fails: Check -> bool)
    ensures Verdict(req, FirstFailing(fails, CheckOrder)) ==
      if fails(AudioMissing) then (false, SelectFileMessage)
      else if fails(AudioInvalid) then (false, InvalidFileMessage)
      else if fails(ModelInvalid) then (false, InvalidModelPrefix + req.model)
      else if fails(LanguageInvalid) then (false, InvalidLanguagePrefix + req.language)
      else if fails(TaskInvalid) then (false, InvalidTaskPrefix + req.task)
      else (true, "")
  {
    FirstFailingInOrder(fails);
  }

  /** `validate_inputs` reports the first failing check, in `CheckOrder`. */
  lemma ValidateInputsReportsFirstFailure(pathExists: string -> bool, audioFile: string, model: string,
                                          language: string, task: string)
    ensures var req := Request(audioFile, model, language, task);
      ValidateInputs(pathExists, audioFile, model, language, task) ==
        Verdict(req, FirstFailing(c => Fails(pathExists, req, c), CheckOrder))
  {
    var req := Request(audioFile, model, language, task);
    var fails := c => Fails(pathExists, req, c);
    VerdictInOrder(req, fails);
    assert fails(AudioMissing) == (audioFile == "");
    assert fails(AudioInvalid) == !AppConfig.ValidateAudioFile(pathExists, audioFile);
    assert fails(ModelInvalid) == !AppConfig.ValidateModel(model);
    assert fails(LanguageInvalid) == !AppConfig.ValidateLanguage(language);
    assert fails(TaskInvalid) == !AppConfig.ValidateTask(task);
  }

  /** An empty path fails the audio-file check too, but the message is the "select a file" one. */
  lemma EmptyPathAsksToSelectFile(pathExists: string -> bool, model: string, language: string, task: string)
    ensures Fails(pathExists, Request("", model, language, task), AudioInvalid)
    ensures ValidateInputs(pathExists, "", model, language, task) == (false, SelectFileMessage)
  {
  }

  // ---------------------------------------------------------------- the pipeline

  /** The two kinds of exception `transcribe_audio` raises, with their messages. */
  datatype Error = ValueError(message: string) | RuntimeError(message: string)

  /** The dictionary `transcribe_audio` returns. */
  datatype Transcript = Transcript(transcription: string, segments: seq<Segment>, outputFile: string,
                                   fullResult: WhisperResult)

  /** What one `transcribe_audio` call does: the manager's new state, the calls made into the
      outside world in order, and the result or exception. */
  datatype RunOutcome = RunOutcome(state: WhisperModel.ManagerState, events: seq<Event>,
                                   out: Result<Transcript, Error>)

  /** What the stages after loading add to a run: their events and the run's result. */
  datatype Tail = Tail(events: seq<Event>, out: Result<Transcript, Error>)

  /** A progress message, when a callback was given. */
  function Notice(withProgress: bool, message: string): seq<Event> {
    if withProgress then [Progress(message)] else []
  }

  /** The `RuntimeError` a failure after validation becomes. */
  function Wrap(error: string): (e: Error)
    ensures e.RuntimeError? && ErrorPrefix <= e.message && e.message[|ErrorPrefix|..] == error
  {
    RuntimeError(ErrorPrefix + error)
  }

  /** Saving: the "saving" notice and the report write; when the write succeeds, the "completed"
      notice naming the file and the result built from the library's answer and the path. */
  function SaveStage(write: string -> Option<string>, outputFolder: string, audioFile: string, withProgress: bool,
                     timestamp: nat, result: WhisperResult): Tail
  {
    var saving := Notice(withProgress, SavingMessage);
    var save := Files.SaveStep(write, outputFolder, audioFile, timestamp);
    match save.result
    case Failure(e) => Tail(saving + save.events, Failure(Wrap(e)))
    case Success(path) =>
      Tail(saving + save.events + Notice(withProgress, CompletedPrefix + path),
           Success(Transcript(result.text, result.segments.GetOr([]), path, result)))
  }

  /** Transcribing with the options built from the language and task; saving when the library
      gave a result. */
  function TranscribeStage(s: WhisperModel.ManagerState, env: Env, outputFolder: string, audioFile: string,
                           language: string, task: string, withProgress: bool, timestamp: nat): Tail
  {
    var processing := Notice(withProgress, ProcessingMessage);
    var options := AppConfig.TranscriptionOptions(language, task);
    var transcribed := WhisperModel.TranscribeStep(s, env.run, audioFile, options);
    match transcribed.result
    case Failure(e) => Tail(processing + transcribed.events, Failure(Wrap(e)))
    case Success(result) =>
      var rest := SaveStage(env.write, outputFolder, audioFile, withProgress, timestamp, result);
      Tail(processing + transcribed.events + rest.events, rest.out)
  }

  /** What `transcribe_audio` does once `validate_inputs` has given `verdict`: nothing but the
      `ValueError` for a rejected request; otherwise the "loading" notice and the load, then the
      later stages when the model loaded. */
  function RunChecked(s: WhisperModel.ManagerState, env: Env, verdict: (bool, string), outputFolder: string,
                      audioFile: string, model: string, language: string, task: string, withProgress: bool,
                      timestamp: nat): (r: RunOutcome)
    ensures !verdict.0 ==> r == RunOutcome(s, [], Failure(ValueError(verdict.1)))
    ensures verdict.0 ==> r.state == WhisperModel.LoadModelStep(s, env.load, model).state
    ensures WhisperModel.Consistent(s) ==> WhisperModel.Consistent(r.state)
  {
    if !verdict.0 then RunOutcome(s, [], Failure(ValueError(verdict.1)))
    else
      var loading := Notice(withProgress, LoadingMessage);
      var load := WhisperModel.LoadModelStep(s, env.load, model);
      match load.error
      case Some(e) => RunOutcome(load.state, loading + load.events, Failure(Wrap(e)))
      case None =>
        var rest := TranscribeStage(load.state, env, outputFolder, audioFile, language, task, withProgress, timestamp);
        RunOutcome(load.state, loading + load.events + rest.events, rest.out)
  }

  /** One `transcribe_audio` call from manager state `s`: validation, then the stages. */
  function Run(s: WhisperModel.ManagerState, env: Env, outputFolder: string, audioFile: string, model: string,
               language: string, task: string, withProgress: bool, timestamp: nat): (r: RunOutcome)
    ensures var verdict := ValidateInputs(env.pathExists, audioFile, model, language, task);
      !verdict.0 ==> r == RunOutcome(s, [], Failure(ValueError(verdict.1)))
    ensures WhisperModel.Consistent(s) ==> WhisperModel.Consistent(r.state)
  {
    RunChecked(s, env, ValidateInputs(env.pathExists, audioFile, model, language, task), outputFolder, audioFile,
               model, language, task, withProgress, timestamp)
  }

  // ---------------------------------------------------------------- views of a trace

  /** The messages the progress callback received, in order. */
  function ProgressOf(events: seq<Event>): seq<string> {
    if events == [] then []
    else
      var last := events[|events| - 1];
      ProgressOf(events[..|events| - 1]) + (if last.Progress? then [last.message] else [])
  }

  /** The calls into the library and the file system, in order. */
  function EffectsOf(events: seq<Event>): seq<Event> {
    if events == [] then []
    else
      var last := events[|events| - 1];
      EffectsOf(events[..|events| - 1]) + (if last.Progress? then [] else [last])
  }

  lemma {:induction false} ProgressOfAppend(a: seq<Event>, b: seq<Event>)
    ensures ProgressOf(a + b) == ProgressOf(a) + ProgressOf(b)
    decreases |b|
  {
    if b == [] {
      assert a + b == a;
    } else {
      assert (a + b)[..|a + b| - 1] == a + b[..|b| - 1];
      ProgressOfAppend(a, b[..|b| - 1]);
    }
  }

  lemma {:induction false} EffectsOfAppend(a: seq<Event>, b: seq<Event>)
    ensures EffectsOf(a + b) == EffectsOf(a) + EffectsOf(b)
    decreases |b|
  {
    if b == [] {
      assert a + b == a;
    } else {
      assert (a + b)[..|a + b| - 1] == a + b[..|b| - 1];
      EffectsOfAppend(a, b[..|b| - 1]);
    }
  }

  lemma ViewsOfAppend(a: seq<Event>, b: seq<Event>)
    ensures ProgressOf(a + b) == ProgressOf(a) + ProgressOf(b)
    ensures EffectsOf(a + b) == EffectsOf(a) + EffectsOf(b)
  {
    ProgressOfAppend(a, b);
    EffectsOfAppend(a, b);
  }

  /** The messages a callback receives, if one was given. */
  function Shown(withProgress: bool, messages: seq<string>): seq<string> {
    if withProgress then messages else []
  }

  lemma ShownCons(withProgress: bool, m: string, ms: seq<string>)
    ensures Shown(withProgress, [m]) + Shown(withProgress, ms) == Shown(withProgress, [m] + ms)
  {
  }

  /** A stage's events: an optional progress notice, then at most one call into the outside world. */
  lemma StageViews(withProgress: bool, message: string, calls: seq<Event>)
    requires calls == [] || (|calls| == 1 && !calls[0].Progress?)
    ensures ProgressOf(Notice(withProgress, message) + calls) == Shown(withProgress, [message])
    ensures EffectsOf(Notice(withProgress, message) + calls) == calls
  {
    var notice := Notice(withProgress, message);
    assert ProgressOf(notice) == Shown(withProgress, [message]) && EffectsOf(notice) == [] by {
      if withProgress {
        assert notice[..0] == [];
      }
    }
    assert ProgressOf(calls) == [] && EffectsOf(calls) == calls by {
      if calls != [] {
        assert calls[..0] == [];
      }
    }
    ViewsOfAppend(notice, calls);
  }

  lemma ConsOne<T>(x: T, y: T)
    ensures [x] + [y] == [x, y]
  {
  }

  lemma ConsTwo<T>(x: T, y: T, z: T)
    ensures [x] + [y, z] == [x, y, z]
  {
  }

  lemma ConsThree<T>(x: T, y: T, z: T, w: T)
    ensures [x] + [y, z, w] == [x, y, z, w]
  {
  }

  /** The views of the save stage: one write, the "saving" notice, and the "completed" notice
      when the write succeeded. */
  lemma SaveStageViews(write: string -> Option<string>, outputFolder: string, audioFile: string,
                       withProgress: bool, timestamp: nat, result: WhisperResult)
    ensures var t := SaveStage(write, outputFolder, audioFile, withProgress, timestamp, result);
      var path := Files.OutputPath(outputFolder, audioFile, timestamp);
      EffectsOf(t.events) == [WriteCall(path)] &&
      ProgressOf(t.events) ==
        Shown(withProgress, if write(path).None? then [SavingMessage, CompletedPrefix + path] else [SavingMessage])
  {
    var path := Files.OutputPath(outputFolder, audioFile, timestamp);
    var save := Files.SaveStep(write, outputFolder, audioFile, timestamp);
    var saved := Notice(withProgress, SavingMessage) + save.events;
    StageViews(withProgress, SavingMessage, save.events);
    if save.result.Success? {
      var done := Notice(withProgress, CompletedPrefix + path);
      StageViews(withProgress, CompletedPrefix + path, []);
      assert done + [] == done;
      ViewsOfAppend(saved, done);
      ShownCons(withProgress, SavingMessage, [CompletedPrefix + path]);
      ConsOne(SavingMessage, CompletedPrefix + path);
      assert [WriteCall(path)] + [] == [WriteCall(path)];
    }
  }

  /** The views of the stages after a successful load: the transcription call and, when it gave a
      result, the write. */
  lemma TranscribeStageViews(s: WhisperModel.ManagerState, env: Env, outputFolder: string, audioFile: string,
                             language: string, task: string, withProgress: bool, timestamp: nat)
    requires WhisperModel.IsLoaded(s)
    ensures var t := TranscribeStage(s, env, outputFolder, audioFile, language, task, withProgress, timestamp);
      var h := s.model.value;
      var options := AppConfig.TranscriptionOptions(language, task);
      var path := Files.OutputPath(outputFolder, audioFile, timestamp);
      if env.run(h, audioFile, options).Failure? then
        ProgressOf(t.events) == Shown(withProgress, [ProcessingMessage]) &&
        EffectsOf(t.events) == [RunCall(h, audioFile, options)]
      else
        ProgressOf(t.events) == Shown(withProgress, if env.write(path).None?
          then [ProcessingMessage, SavingMessage, CompletedPrefix + path]
          else [ProcessingMessage, SavingMessage]) &&
        EffectsOf(t.events) == [RunCall(h, audioFile, options), WriteCall(path)]
  {
    var h := s.model.value;
    var options := AppConfig.TranscriptionOptions(language, task);
    var path := Files.OutputPath(outputFolder, audioFile, timestamp);
    var transcribed := WhisperModel.TranscribeStep(s, env.run, audioFile, options);
    var processed := Notice(withProgress, ProcessingMessage) + transcribed.events;
    StageViews(withProgress, ProcessingMessage, transcribed.events);
    if transcribed.result.Success? {
      var result := transcribed.result.value;
      SaveStageViews(env.write, outputFolder, audioFile, withProgress, timestamp, result);
      ViewsOfAppend(processed, SaveStage(env.write, outputFolder, audioFile, withProgress, timestamp, result).events);
      ConsOne(RunCall(h, audioFile, options), WriteCall(path));
      if env.write(path).None? {
        ShownCons(withProgress, ProcessingMessage, [SavingMessage, CompletedPrefix + path]);
        ConsTwo(ProcessingMessage, SavingMessage, CompletedPrefix + path);
      } else {
        ShownCons(withProgress, ProcessingMessage, [SavingMessage]);
        ConsOne(ProcessingMessage, SavingMessage);
      }
    }
  }

  /** The result of the save stage: the transcript of the library's answer with the saved path
      when the write succeeded, otherwise the write's error with the fixed prefix. */
  lemma SaveStageResult(write: string -> Option<string>, outputFolder: string, audioFile: string,
                        withProgress: bool, timestamp: nat, result: WhisperResult)
    ensures var t := SaveStage(write, outputFolder, audioFile, withProgress, timestamp, result);
      var path := Files.OutputPath(outputFolder, audioFile, timestamp);
      t.out == if write(path).None? then Success(Transcript(result.text, result.segments.GetOr([]), path, result))
               else Failure(Wrap(write(path).value))
  {
  }

  /** The result of the stages after a successful load: the prefixed transcription error, else
      the result of saving the library's answer. */
  lemma TranscribeStageResult(s: WhisperModel.ManagerState, env: Env, outputFolder: string, audioFile: string,
                              language: string, task: string, withProgress: bool, timestamp: nat)
    requires WhisperModel.IsLoaded(s)
    ensures var t := TranscribeStage(s, env, outputFolder, audioFile, language, task, withProgress, timestamp);
      var raw := env.run(s.model.value, audioFile, AppConfig.TranscriptionOptions(language, task));
      var path := Files.OutputPath(outputFolder, audioFile, timestamp);
      t.out == if raw.Failure? then Failure(Wrap(raw.error))
               else if env.write(path).None?
               then Success(Transcript(raw.value.text, raw.value.segments.GetOr([]), path, raw.value))
               else Failure(Wrap(env.write(path).value))
  {
    var raw := env.run(s.model.value, audioFile, AppConfig.TranscriptionOptions(language, task));
    if raw.Success? {
      SaveStageResult(env.write, outputFolder, audioFile, withProgress, timestamp, raw.value);
    }
  }

  /** With a callback, the save stage's trace in order: the "saving" notice, then the write, then
      the "completed" notice naming the path when the write succeeded. */
  lemma SaveTrace(write: string -> Option<string>, outputFolder: string, audioFile: string, timestamp: nat,
                  result: WhisperResult)
    ensures var path := Files.OutputPath(outputFolder, audioFile, timestamp);
      SaveStage(write, outputFolder, audioFile, true, timestamp, result).events ==
        [Progress(SavingMessage), WriteCall(path)] + (if write(path).None? then [Progress(CompletedPrefix + path)] else [])
  {
    var path := Files.OutputPath(outputFolder, audioFile, timestamp);
    ConsOne(Progress(SavingMessage), WriteCall(path));
    if write(path).Some? {
      assert [Progress(SavingMessage), WriteCall(path)] + [] == [Progress(SavingMessage), WriteCall(path)];
    }
  }

  /** With a callback, the trace of the stages after a successful load in order: the "processing"
      notice, then the transcription call, then, when it gave a result, the save stage's trace. */
  lemma TranscribeTrace(s: WhisperModel.ManagerState, env: Env, outputFolder: string, audioFile: string,
                        language: string, task: string, timestamp: nat)
    requires WhisperModel.IsLoaded(s)
    ensures var h := s.model.value;
      var options := AppConfig.TranscriptionOptions(language, task);
      var path := Files.OutputPath(outputFolder, audioFile, timestamp);
      TranscribeStage(s, env, outputFolder, audioFile, language, task, true, timestamp).events ==
        [Progress(ProcessingMessage), RunCall(h, audioFile, options)] +
        (if env.run(h, audioFile, options).Failure? then []
         else [Progress(SavingMessage), WriteCall(path)] +
              (if env.write(path).None? then [Progress(CompletedPrefix + path)] else []))
  {
    var h := s.model.value;
    var options := AppConfig.TranscriptionOptions(language, task);
    ConsOne(Progress(ProcessingMessage), RunCall(h, audioFile, options));
    var raw := env.run(h, audioFile, options);
    if raw.Failure? {
      assert [Progress(ProcessingMessage), RunCall(h, audioFile, options)] + [] ==
        [Progress(ProcessingMessage), RunCall(h, audioFile, options)];
    } else {
      SaveTrace(env.write, outputFolder, audioFile, timestamp, raw.value);
    }
  }

  /** With a callback, the whole trace of an accepted run in order: the "loading" notice, then the
      load call when one is needed; after a successful load, the "processing" notice and the
      transcription call; after a result, the "saving" notice and the write; after a successful
      write, the "completed" notice. A failing step ends the trace. */
  lemma RunTrace(s: WhisperModel.ManagerState, env: Env, verdict: (bool, string), outputFolder: string,
                 audioFile: string, model: string, language: string, task: string, timestamp: nat)
    requires verdict.0
    ensures var load := WhisperModel.LoadModelStep(s, env.load, model);
      var options := AppConfig.TranscriptionOptions(language, task);
      var path := Files.OutputPath(outputFolder, audioFile, timestamp);
      RunChecked(s, env, verdict, outputFolder, audioFile, model, language, task, true, timestamp).events ==
        [Progress(LoadingMessage)] + (if WhisperModel.NeedsLoad(s, model) then [LoadCall(model)] else []) +
        (if load.error.Some? then []
         else var h := load.state.model.value;
           [Progress(ProcessingMessage), RunCall(h, audioFile, options)] +
           (if env.run(h, audioFile, options).Failure? then []
            else [Progress(SavingMessage), WriteCall(path)] +
                 (if env.write(path).None? then [Progress(CompletedPrefix + path)] else [])))
  {
    var load := WhisperModel.LoadModelStep(s, env.load, model);
    if load.error.None? {
      TranscribeTrace(load.state, env, outputFolder, audioFile, language, task, timestamp);
    } else {
      assert [Progress(LoadingMessage)] + load.events + [] == [Progress(LoadingMessage)] + load.events;
    }
  }

  // ---------------------------------------------------------------- what Run promises

  /** The progress messages `transcribe_audio` promises on success. */
  function ProgressPlan(withProgress: bool, outputFile: string): seq<string> {
    Shown(withProgress, [LoadingMessage, ProcessingMessage, SavingMessage, CompletedPrefix + outputFile])
  }

  /** The library and file-system calls of a successful run, in order, for the model object `h`. */
  function EffectPlan(loadNeeded: bool, model: string, h: Handle, audioFile: string, options: Options,
                      outputFile: string): seq<Event> {
    (if loadNeeded then [LoadCall(model)] else []) + [RunCall(h, audioFile, options), WriteCall(outputFile)]
  }

  /** Splits the events of a run into its progress messages and its effects, stage by stage. */
  lemma RunViews(s: WhisperModel.ManagerState, env: Env, verdict: (bool, string), outputFolder: string,
                 audioFile: string, model: string, language: string, task: string, withProgress: bool,
                 timestamp: nat)
    requires verdict.0
    ensures var r := RunChecked(s, env, verdict, outputFolder, audioFile, model, language, task, withProgress,
                                timestamp);
      var load := WhisperModel.LoadModelStep(s, env.load, model);
      var options := AppConfig.TranscriptionOptions(language, task);
      var path := Files.OutputPath(outputFolder, audioFile, timestamp);
      var loadCalls := if WhisperModel.NeedsLoad(s, model) then [LoadCall(model)] else [];
      if load.error.Some? then
        ProgressOf(r.events) == Shown(withProgress, [LoadingMessage]) && EffectsOf(r.events) == [LoadCall(model)]
      else
        var h := load.state.model.value;
        var runResult := env.run(h, audioFile, options);
        if runResult.Failure? then
          ProgressOf(r.events) == Shown(withProgress, [LoadingMessage, ProcessingMessage]) &&
          EffectsOf(r.events) == loadCalls + [RunCall(h, audioFile, options)]
        else
          (env.write(path).Some? ==>
            ProgressOf(r.events) == Shown(withProgress, [LoadingMessage, ProcessingMessage, SavingMessage])) &&
          (env.write(path).None? ==> ProgressOf(r.events) == ProgressPlan(withProgress, path)) &&
          EffectsOf(r.events) == loadCalls + [RunCall(h, audioFile, options), WriteCall(path)]
  {
    var load := WhisperModel.LoadModelStep(s, env.load, model);
    var loaded := Notice(withProgress, LoadingMessage) + load.events;
    StageViews(withProgress, LoadingMessage, load.events);
    if load.error.None? {
      var options := AppConfig.TranscriptionOptions(language, task);
      var path := Files.OutputPath(outputFolder, audioFile, timestamp);
      var h := load.state.model.value;
      TranscribeStageViews(load.state, env, outputFolder, audioFile, language, task, withProgress, timestamp);
      ViewsOfAppend(loaded,
                    TranscribeStage(load.state, env, outputFolder, audioFile, language, task, withProgress,
                                    timestamp).events);
      if env.run(h, audioFile, options).Failure? {
        ShownCons(withProgress, LoadingMessage, [ProcessingMessage]);
        ConsOne(LoadingMessage, ProcessingMessage);
      } else if env.write(path).None? {
        ShownCons(withProgress, LoadingMessage, [ProcessingMessage, SavingMessage, CompletedPrefix + path]);
        ConsThree(LoadingMessage, ProcessingMessage, SavingMessage, CompletedPrefix + path);
      } else {
        ShownCons(withProgress, LoadingMessage, [ProcessingMessage, SavingMessage]);
        ConsTwo(LoadingMessage, ProcessingMessage, SavingMessage);
      }
    }
  }

  /** The notices of a run stopped at loading, processing or saving come first in the plan. */
  lemma PlanPrefixes(withProgress: bool, outputFile: string)
    ensures Shown(withProgress, [LoadingMessage]) <= ProgressPlan(withProgress, outputFile)
    ensures Shown(withProgress, [LoadingMessage, ProcessingMessage]) <= ProgressPlan(withProgress, outputFile)
    ensures Shown(withProgress, [LoadingMessage, ProcessingMessage, SavingMessage]) <=
      ProgressPlan(withProgress, outputFile)
  {
  }

  /** With a callback, the messages received are the first ones of loading, processing, saving and
      completed (naming the output file), and all four of them on success; without one, none. An
      invalid request receives none. */
  lemma RunProgress(s: WhisperModel.ManagerState, env: Env, verdict: (bool, string), outputFolder: string,
                    audioFile: string, model: string, language: string, task: string, withProgress: bool,
                    timestamp: nat)
    ensures var r := RunChecked(s, env, verdict, outputFolder, audioFile, model, language, task, withProgress,
                                timestamp);
      ProgressOf(r.events) <= ProgressPlan(withProgress, Files.OutputPath(outputFolder, audioFile, timestamp)) &&
      (r.out.Success? ==> ProgressOf(r.events) == ProgressPlan(withProgress, r.out.value.outputFile)) &&
      (!withProgress ==> ProgressOf(r.events) == []) &&
      (r.out.Failure? && r.out.error.ValueError? ==> ProgressOf(r.events) == [])
  {
    if verdict.0 {
      RunViews(s, env, verdict, outputFolder, audioFile, model, language, task, withProgress, timestamp);
      RunResult(s, env, verdict, outputFolder, audioFile, model, language, task, withProgress, timestamp);
      PlanPrefixes(withProgress, Files.OutputPath(outputFolder, audioFile, timestamp));
    }
  }

  lemma AppendPair<T>(xs: seq<T>, x: T, y: T)
    ensures xs + [x] + [y] == xs + [x, y]
  {
  }

  lemma AppendPrefix<T>(xs: seq<T>, ys: seq<T>)
    ensures xs <= xs + ys
  {
  }

  /** The model is loaded (only when needed), then the transcription is made with the options built
      from the language and task, then the report is written, in that order and each only when the
      one before it succeeded; an invalid request makes no call at all. */
  lemma RunEffects(s: WhisperModel.ManagerState, env: Env, verdict: (bool, string), outputFolder: string,
                   audioFile: string, model: string, language: string, task: string, withProgress: bool,
                   timestamp: nat)
    ensures var r := RunChecked(s, env, verdict, outputFolder, audioFile, model, language, task, withProgress,
                                timestamp);
      var options := AppConfig.TranscriptionOptions(language, task);
      var path := Files.OutputPath(outputFolder, audioFile, timestamp);
      var loadNeeded := WhisperModel.NeedsLoad(s, model);
      (r.out.Failure? && r.out.error.ValueError? ==> r.events == [] && r.state == s) &&
      (r.state.model.None? ==> EffectsOf(r.events) <= [LoadCall(model)]) &&
      (r.state.model.Some? ==>
        EffectsOf(r.events) <= EffectPlan(loadNeeded, model, r.state.model.value, audioFile, options, path)) &&
      (r.out.Success? ==>
        r.state.model.Some? &&
        EffectsOf(r.events) == EffectPlan(loadNeeded, model, r.state.model.value, audioFile, options, path))
  {
    if verdict.0 {
      RunViews(s, env, verdict, outputFolder, audioFile, model, language, task, withProgress, timestamp);
      RunResult(s, env, verdict, outputFolder, audioFile, model, language, task, withProgress, timestamp);
      var load := WhisperModel.LoadModelStep(s, env.load, model);
      var options := AppConfig.TranscriptionOptions(language, task);
      var path := Files.OutputPath(outputFolder, audioFile, timestamp);
      var loadCalls := if WhisperModel.NeedsLoad(s, model) then [LoadCall(model)] else [];
      if load.error.Some? {
        if s.model.Some? {
          AppendPrefix([LoadCall(model)], [RunCall(s.model.value, audioFile, options), WriteCall(path)]);
        }
      } else {
        var h := load.state.model.value;
        AppendPair(loadCalls, RunCall(h, audioFile, options), WriteCall(path));
        AppendPrefix(loadCalls + [RunCall(h, audioFile, options)], [WriteCall(path)]);
      }
    }
  }

  /** The transcription is asked for only after the model loaded. */
  lemma RunCallNeedsLoad(s: WhisperModel.ManagerState, env: Env, verdict: (bool, string), outputFolder: string,
                         audioFile: string, model: string, language: string, task: string, withProgress: bool,
                         timestamp: nat)
    ensures var r := RunChecked(s, env, verdict, outputFolder, audioFile, model, language, task, withProgress,
                                timestamp);
      forall e :: e in EffectsOf(r.events) && e.RunCall? ==>
        WhisperModel.LoadModelStep(s, env.load, model).error.None?
  {
    var r := RunChecked(s, env, verdict, outputFolder, audioFile, model, language, task, withProgress, timestamp);
    var load := WhisperModel.LoadModelStep(s, env.load, model);
    if !verdict.0 {
      assert EffectsOf(r.events) == [];
    } else if load.error.Some? {
      assert EffectsOf(r.events) == [LoadCall(model)] by {
        RunViews(s, env, verdict, outputFolder, audioFile, model, language, task, withProgress, timestamp);
      }
    }
  }

  /** The report is written only after the model loaded and the transcription succeeded. */
  lemma WriteCallNeedsTranscription(s: WhisperModel.ManagerState, env: Env, verdict: (bool, string),
                                    outputFolder: string, audioFile: string, model: string, language: string,
                                    task: string, withProgress: bool, timestamp: nat)
    ensures var r := RunChecked(s, env, verdict, outputFolder, audioFile, model, language, task, withProgress,
                                timestamp);
      var options := AppConfig.TranscriptionOptions(language, task);
      var load := WhisperModel.LoadModelStep(s, env.load, model);
      forall e :: e in EffectsOf(r.events) && e.WriteCall? ==>
        load.error.None? && env.run(load.state.model.value, audioFile, options).Success?
  {
    var r := RunChecked(s, env, verdict, outputFolder, audioFile, model, language, task, withProgress, timestamp);
    var load := WhisperModel.LoadModelStep(s, env.load, model);
    var options := AppConfig.TranscriptionOptions(language, task);
    if !verdict.0 {
      assert EffectsOf(r.events) == [];
    } else if load.error.Some? {
      assert EffectsOf(r.events) == [LoadCall(model)] by {
        RunViews(s, env, verdict, outputFolder, audioFile, model, language, task, withProgress, timestamp);
      }
    } else if env.run(load.state.model.value, audioFile, options).Failure? {
      var h := load.state.model.value;
      if WhisperModel.NeedsLoad(s, model) {
        assert EffectsOf(r.events) == [LoadCall(model), RunCall(h, audioFile, options)] by {
          RunViews(s, env, verdict, outputFolder, audioFile, model, language, task, withProgress, timestamp);
        }
      } else {
        assert EffectsOf(r.events) == [RunCall(h, audioFile, options)] by {
          RunViews(s, env, verdict, outputFolder, audioFile, model, language, task, withProgress, timestamp);
        }
      }
    }
  }

  /** Every exception after validation is a `RuntimeError` whose message is the fixed prefix followed
      by the error of the step that failed: the model loader, else the transcription, else the report
      write. When none of them fails, the run returns the transcript. */
  lemma RunErrors(s: WhisperModel.ManagerState, env: Env, verdict: (bool, string), outputFolder: string,
                  audioFile: string, model: string, language: string, task: string, withProgress: bool,
                  timestamp: nat)
    requires verdict.0
    ensures var r := RunChecked(s, env, verdict, outputFolder, audioFile, model, language, task, withProgress,
                                timestamp);
      var load := WhisperModel.LoadModelStep(s, env.load, model);
      var options := AppConfig.TranscriptionOptions(language, task);
      var path := Files.OutputPath(outputFolder, audioFile, timestamp);
      (load.error.Some? ==> r.out == Failure(Wrap(load.error.value))) &&
      (load.error.None? ==>
        var raw := env.run(load.state.model.value, audioFile, options);
        (raw.Failure? ==> r.out == Failure(Wrap(raw.error))) &&
        (raw.Success? && env.write(path).Some? ==> r.out == Failure(Wrap(env.write(path).value))) &&
        (raw.Success? && env.write(path).None? ==>
          r.out == Success(Transcript(raw.value.text, raw.value.segments.GetOr([]), path, raw.value))))
  {
    var load := WhisperModel.LoadModelStep(s, env.load, model);
    if load.error.None? {
      TranscribeStageResult(load.state, env, outputFolder, audioFile, language, task, withProgress, timestamp);
    }
  }

  /** On success the result holds the library's text, its segments (none when it gave no segment
      list), the path the report was saved to, and the library's whole result; the model asked for
      is then the loaded one. */
  lemma RunResult(s: WhisperModel.ManagerState, env: Env, verdict: (bool, string), outputFolder: string,
                  audioFile: string, model: string, language: string, task: string, withProgress: bool,
                  timestamp: nat)
    ensures var r := RunChecked(s, env, verdict, outputFolder, audioFile, model, language, task, withProgress,
                                timestamp);
      r.out.Success? ==>
        r.state.model.Some? && r.state.currentModelName == Some(model) &&
        var raw := env.run(r.state.model.value, audioFile, AppConfig.TranscriptionOptions(language, task));
        raw.Success? &&
        r.out.value == Transcript(raw.value.text, raw.value.segments.GetOr([]),
                                  Files.OutputPath(outputFolder, audioFile, timestamp), raw.value)
  {
  }

  /** A run with the model that is already loaded loads nothing and leaves the manager as it is. */
  lemma LoadedRunKeepsModel(s: WhisperModel.ManagerState, env: Env, verdict: (bool, string), outputFolder: string,
                            audioFile: string, model: string, language: string, task: string, withProgress: bool,
                            timestamp: nat)
    requires s.model.Some? && s.currentModelName == Some(model)
    ensures var r := RunChecked(s, env, verdict, outputFolder, audioFile, model, language, task, withProgress,
                                timestamp);
      LoadCall(model) !in EffectsOf(r.events) && r.state == s
  {
    if verdict.0 {
      RunViews(s, env, verdict, outputFolder, audioFile, model, language, task, withProgress, timestamp);
      var h := s.model.value;
      var options := AppConfig.TranscriptionOptions(language, task);
      var path := Files.OutputPath(outputFolder, audioFile, timestamp);
      var r := RunChecked(s, env, verdict, outputFolder, audioFile, model, language, task, withProgress, timestamp);
      assert !WhisperModel.NeedsLoad(s, model);
      NoLoadCall(model, RunCall(h, audioFile, options), WriteCall(path));
      if env.run(h, audioFile, options).Failure? {
        EmptyAppend([RunCall(h, audioFile, options)]);
        assert EffectsOf(r.events) == [RunCall(h, audioFile, options)];
      } else {
        EmptyAppend([RunCall(h, audioFile, options), WriteCall(path)]);
        assert EffectsOf(r.events) == [RunCall(h, audioFile, options), WriteCall(path)];
      }
    }
  }

  lemma NoLoadCall(model: string, run: Event, write: Event)
    requires !run.LoadCall? && !write.LoadCall?
    ensures LoadCall(model) !in [run] && LoadCall(model) !in [run, write]
  {
  }

  /** After a successful run, another run with the same model name does not load it again,
      whatever the other inputs and whatever validation says of them. */
  lemma SecondRunReusesModel(s: WhisperModel.ManagerState, env: Env, verdict: (bool, string), outputFolder: string,
                             audioFile: string, model: string, language: string, task: string, withProgress: bool,
                             timestamp: nat, verdict': (bool, string), outputFolder': string, audioFile': string,
                             language': string, task': string, withProgress': bool, timestamp': nat)
    requires RunChecked(s, env, verdict, outputFolder, audioFile, model, language, task, withProgress,
                        timestamp).out.Success?
    ensures var first := RunChecked(s, env, verdict, outputFolder, audioFile, model, language, task, withProgress,
                                    timestamp);
      var second := RunChecked(first.state, env, verdict', outputFolder', audioFile', model, language', task',
                               withProgress', timestamp');
      LoadCall(model) !in EffectsOf(second.events) && second.state == first.state
  {
    var first := RunChecked(s, env, verdict, outputFolder, audioFile, model, language, task, withProgress, timestamp);
    RunResult(s, env, verdict, outputFolder, audioFile, model, language, task, withProgress, timestamp);
    LoadedRunKeepsModel(first.state, env, verdict', outputFolder', audioFile', model, language', task', withProgress',
                        timestamp');
  }

  lemma EmptyAppend<T>(xs: seq<T>)
    ensures [] + xs == xs
  {
  }

  lemma AppendAssociates<T>(xs: seq<T>, ys: seq<T>, zs: seq<T>)
    ensures xs + ys + zs == xs + (ys + zs)
  {
  }

  // ---------------------------------------------------------------- the service object

  class TranscriptionService {
    const whisperManager: WhisperModel.WhisperModelManager
    const fileManager: Files.FileManager

    ghost predicate Valid()
      reads this, whisperManager
    {
      whisperManager.Valid()
    }

    constructor (outputFolder: string)
      ensures Valid() && fresh(whisperManager) && fresh(fileManager)
      ensures whisperManager.State() == WhisperModel.Unloaded()
      ensures fileManager.outputFolder == outputFolder
    {
      whisperManager := new WhisperModel.WhisperModelManager();
      fileManager := new Files.FileManager(outputFolder);
    }

    /** `set_output_folder`: hands the folder to the file manager. */
    method SetOutputFolder(folderPath: string)
      modifies fileManager
      ensures fileManager.outputFolder == folderPath
    {
      fileManager.SetOutputFolder(folderPath);
    }

    /** Calls the progress callback with `message`, if there is one. */
    method Report(world: World, withProgress: bool, message: string)
      modifies world
      ensures world.trace == old(world.trace) + Notice(withProgress, message)
    {
      if withProgress {
        world.Notify(message);
      } else {
        assert world.trace + [] == world.trace;
      }
    }

    /** The save stage of `transcribe_audio`. */
    method Save(world: World, result: WhisperResult, audioFile: string, model: string, language: string,
                task: string, withProgress: bool, timestamp: nat) returns (out: Result<Transcript, Error>)
      modifies world
      ensures var t := SaveStage(world.env.write, fileManager.outputFolder, audioFile, withProgress, timestamp, result);
        out == t.out && world.trace == old(world.trace) + t.events
    {
      Report(world, withProgress, SavingMessage);
      var saved := fileManager.SaveTranscription(world, result, audioFile, model, language, task, timestamp);
      ghost var step := Files.SaveStep(world.env.write, fileManager.outputFolder, audioFile, timestamp);
      AppendAssociates(old(world.trace), Notice(withProgress, SavingMessage), step.events);
      if saved.Failure? {
        out := Failure(Wrap(saved.error));
        return;
      }
      Report(world, withProgress, CompletedPrefix + saved.value);
      AppendAssociates(old(world.trace), Notice(withProgress, SavingMessage) + step.events,
                       Notice(withProgress, CompletedPrefix + saved.value));
      out := Success(Transcript(result.text, result.segments.GetOr([]), saved.value, result));
    }

    /** The stages of `transcribe_audio` after the model loaded. */
    method TranscribeLoaded(world: World, audioFile: string, model: string, language: string, task: string,
                            withProgress: bool, timestamp: nat) returns (out: Result<Transcript, Error>)
      modifies world
      ensures var t := TranscribeStage(whisperManager.State(), world.env, fileManager.outputFolder, audioFile,
                                       language, task, withProgress, timestamp);
        out == t.out && world.trace == old(world.trace) + t.events
    {
      Report(world, withProgress, ProcessingMessage);
      var options := AppConfig.TranscriptionOptions(language, task);
      var result := whisperManager.Transcribe(world, audioFile, options);
      ghost var step := WhisperModel.TranscribeStep(whisperManager.State(), world.env.run, audioFile, options);
      AppendAssociates(old(world.trace), Notice(withProgress, ProcessingMessage), step.events);
      if result.Failure? {
        out := Failure(Wrap(result.error));
        return;
      }
      ghost var before := world.trace;
      out := Save(world, result.value, audioFile, model, language, task, withProgress, timestamp);
      AppendAssociates(old(world.trace), Notice(withProgress, ProcessingMessage) + step.events,
                       SaveStage(world.env.write, fileManager.outputFolder, audioFile, withProgress, timestamp,
                                 result.value).events);
    }

    /** The stages of `transcribe_audio` after `validate_inputs` accepted the request. */
    method LoadAndTranscribe(world: World, audioFile: string, model: string, language: string, task: string,
                             withProgress: bool, timestamp: nat) returns (out: Result<Transcript, Error>)
      requires Valid()
      modifies whisperManager, world
      ensures Valid()
      ensures var spec := RunChecked(old(whisperManager.State()), world.env, (true, ""), fileManager.outputFolder,
                                     audioFile, model, language, task, withProgress, timestamp);
        out == spec.out && whisperManager.State() == spec.state && world.trace == old(world.trace) + spec.events
    {
      Report(world, withProgress, LoadingMessage);
      var loadError := whisperManager.LoadModel(world, model);
      ghost var load := WhisperModel.LoadModelStep(old(whisperManager.State()), world.env.load, model);
      AppendAssociates(old(world.trace), Notice(withProgress, LoadingMessage), load.events);
      if loadError.Some? {
        out := Failure(Wrap(loadError.value));
        return;
      }
      out := TranscribeLoaded(world, audioFile, model, language, task, withProgress, timestamp);
      AppendAssociates(old(world.trace), Notice(withProgress, LoadingMessage) + load.events,
                       TranscribeStage(whisperManager.State(), world.env, fileManager.outputFolder, audioFile,
                                       language, task, withProgress, timestamp).events);
    }

    /** `transcribe_audio`; `withProgress` says whether a progress callback was given, and
        `timestamp` is the clock reading taken when the output name is generated. */
    method TranscribeAudio(world: World, audioFile: string, model: string, language: string, task: string,
                           withProgress: bool, timestamp: nat) returns (out: Result<Transcript, Error>)
      requires Valid()
      modifies whisperManager, world
      ensures Valid()
      ensures var spec := Run(old(whisperManager.State()), world.env, fileManager.outputFolder, audioFile, model,
                              language, task, withProgress, timestamp);
        out == spec.out && whisperManager.State() == spec.state && world.trace == old(world.trace) + spec.events
    {
      var check := ValidateInputs(world.env.pathExists, audioFile, model, language, task);
      if !check.0 {
        out := Failure(ValueError(check.1));
        return;
      }
      out := LoadAndTranscribe(world, audioFile, model, language, task, withProgress, timestamp);
    }
  }
}
