/** The load-once model cache of models/whisper_model.py (`WhisperModelManager`). Its state is the
    loaded model object and the name it was loaded under; `LoadModelStep` and `TranscribeStep`
    give the effect of each operation on that state, and the class's methods are proved to
    behave exactly so. */
module WhisperModel {
  import opened Wrappers
  import opened Effects

  const NotLoadedMessage := "Modelo no cargado. Llama a load_model() primero."

  /** The manager's two fields, `model` and `current_model_name`. */
  datatype ManagerState = ManagerState(model: Option<Handle>, currentModelName: Option<string>)

  /** The fields are set together: a model is held exactly when a name is recorded. */
  predicate Consistent(s: ManagerState) {
    s.model.None? <==> s.currentModelName.None?
  }

  predicate IsLoaded(s: ManagerState) {
    s.model.Some?
  }

  /** The state of a freshly constructed manager. */
  function Unloaded(): (s: ManagerState)
    ensures !IsLoaded(s) && s.currentModelName == None && Consistent(s)
  {
    ManagerState(None, None)
  }

  /** The condition under which `load_model(name)` calls the library. */
  predicate NeedsLoad(s: ManagerState, name: string) {
    s.model.None? || s.currentModelName != Some(name)
  }

  /** What one `load_model` call does: the new state, the library calls it makes, and the error
      it raises, if any. */
  datatype LoadOutcome = LoadOutcome(state: ManagerState, events: seq<Event>, error: Option<string>)

  function LoadModelStep(s: ManagerState, load: string -> Result<Handle, string>, name: string): (r: LoadOutcome)
    ensures r.events != [] <==> !IsLoaded(s) || s.currentModelName != Some(name)
    ensures r.events != [] ==> r.events == [LoadCall(name)]
    ensures r.error.None? ==> IsLoaded(r.state) && r.state.currentModelName == Some(name)
    ensures r.error.None? && r.events != [] ==> load(name) == Success(r.state.model.value)
    ensures r.error.Some? ==> r.state == s && r.events != [] && load(name) == Failure(r.error.value)
    ensures r.events == [] ==> r.state == s && r.error.None?
    ensures Consistent(s) ==> Consistent(r.state)
  {
    if s.model.None? || s.currentModelName != Some(name) then
      match load(name)
      case Success(h) => LoadOutcome(ManagerState(Some(h), Some(name)), [LoadCall(name)], None)
      case Failure(e) => LoadOutcome(s, [LoadCall(name)], Some(e))
    else LoadOutcome(s, [], None)
  }

  /** A second `load_model` with the same name, after one that succeeded, calls nothing and
      changes nothing. */
  lemma LoadTwiceLoadsOnce(s: ManagerState, load: string -> Result<Handle, string>, name: string)
    requires LoadModelStep(s, load, name).error.None?
    ensures var first := LoadModelStep(s, load, name);
      LoadModelStep(first.state, load, name) == LoadOutcome(first.state, [], None)
  {
  }

  /** What one `transcribe` call does: the library calls it makes and its result or error. */
  datatype TranscribeOutcome = TranscribeOutcome(events: seq<Event>, result: Result<WhisperResult, string>)

  function TranscribeStep(s: ManagerState, run: (Handle, string, Options) -> Result<WhisperResult, string>,
                          audioPath: string, options: Options): (r: TranscribeOutcome)
    ensures !IsLoaded(s) ==> r.events == [] && r.result == Failure(NotLoadedMessage)
    ensures IsLoaded(s) ==>
      r.events == [RunCall(s.model.value, audioPath, options)] &&
      r.result == run(s.model.value, audioPath, options)
  {
    match s.model
    case None => TranscribeOutcome([], Failure(NotLoadedMessage))
    case Some(m) => TranscribeOutcome([RunCall(m, audioPath, options)], run(m, audioPath, options))
  }

  class WhisperModelManager {
    var model: Option<Handle>
    var currentModelName: Option<string>

    function State(): ManagerState
      reads this
    {
      ManagerState(model, currentModelName)
    }

    ghost predicate Valid()
      reads this
    {
      Consistent(State())
    }

    constructor ()
      ensures Valid() && State() == Unloaded()
    {
      model := None;
      currentModelName := None;
    }

    /** `load_model`: calls the library only when nothing is loaded or another name is; a library
        failure is returned and leaves both fields as they were. */
    method LoadModel(world: World, modelName: string) returns (error: Option<string>)
      requires Valid()
      modifies this, world
      ensures Valid()
      ensures var step := LoadModelStep(old(State()), world.env.load, modelName);
        State() == step.state && error == step.error && world.trace == old(world.trace) + step.events
    {
      if model.None? || currentModelName != Some(modelName) {
        var loaded := world.LoadModel(modelName);
        match loaded
        case Success(h) =>
          model := Some(h);
          currentModelName := Some(modelName);
          error := None;
        case Failure(e) =>
          error := Some(e);
      } else {
        error := None;
      }
    }

    /** `transcribe`: refuses while unloaded; otherwise hands the options to the loaded model
        unchanged and returns its result. */
    method Transcribe(world: World, audioPath: string, options: Options) returns (result: Result<WhisperResult, string>)
      modifies world
      ensures var step := TranscribeStep(State(), world.env.run, audioPath, options);
        result == step.result && world.trace == old(world.trace) + step.events
    {
      if model.None? {
        result := Failure(NotLoadedMessage);
      } else {
        result := world.RunModel(model.value, audioPath, options);
      }
    }

    /** `is_loaded`. */
    function IsLoaded(): (loaded: bool)
      reads this
      requires Valid()
      ensures loaded <==> GetCurrentModel().Some?
    {
      model.Some?
    }

    /** `get_current_model`. */
    function GetCurrentModel(): (name: Option<string>)
      reads this
      ensures name == State().currentModelName
    {
      currentModelName
    }
  }

  /** A caller's view: loading the same name twice calls the library at most once when the first
      call succeeds, and the second call then succeeds too. */
  method LoadSameModelTwice(world: World, manager: WhisperModelManager, modelName: string)
    returns (firstError: Option<string>, secondError: Option<string>)
    requires manager.Valid()
    modifies world, manager
    ensures manager.Valid()
    ensures firstError.None? ==>
      secondError.None? && |world.trace| <= |old(world.trace)| + 1 &&
      manager.GetCurrentModel() == Some(modelName)
  {
    firstError := manager.LoadModel(world, modelName);
    secondError := manager.LoadModel(world, modelName);
  }
}
