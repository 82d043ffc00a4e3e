/** The outside world as the application sees it: the speech-model library, the file system and
    the progress callback. Their behaviour is opaque, so it is given as the function values of an
    `Env`; a `World` carries one fixed `Env` and records, as a ghost trace, every call the
    application makes into it, in order. */
module Effects {
  import opened Wrappers

  /** Keyword arguments handed to the library's `transcribe` (all values here are strings). */
  type Options = map<string, string>

  /** A model object returned by the library's `load_model`; only its identity matters. */
  datatype Handle = Handle(id: nat)

  /** One timed segment of a transcription; the times are carried along unchanged. */
  datatype Segment = Segment(start: real, end: real, text: string)

  /** The dictionary returned by the library's `transcribe`: the full text, and the segment list
      when the library supplies the "segments" key. */
  datatype WhisperResult = WhisperResult(text: string, segments: Option<seq<Segment>>)

  /** What the outside world does in answer to each call; an error is given by its text. */
  datatype Env = Env(
    pathExists: string -> bool,                                          // os.path.exists
    load: string -> Result<Handle, string>,                              // whisper.load_model
    run: (Handle, string, Options) -> Result<WhisperResult, string>,     // model.transcribe
    write: string -> Option<string>)                                     // writing the report file

  /** One observable call into the outside world. */
  datatype Event =
    | Progress(message: string)                                  // progress_callback(message)
    | LoadCall(modelName: string)                                // whisper.load_model(name)
    | RunCall(model: Handle, audioPath: string, options: Options) // model.transcribe(path, **options)
    | WriteCall(path: string)                                    // the report written to path

  class World {
    const env: Env
    ghost var trace: seq<Event>

    constructor (env: Env)
      ensures this.env == env && trace == []
    {
      this.env := env;
      trace := [];
    }

    /** The caller's progress callback receives `message`. */
    method Notify(message: string)
      modifies this
      ensures trace == old(trace) + [Progress(message)]
    {
      trace := trace + [Progress(message)];
    }

    method LoadModel(name: string) returns (r: Result<Handle, string>)
      modifies this
      ensures r == env.load(name)
      ensures trace == old(trace) + [LoadCall(name)]
    {
      r := env.load(name);
      trace := trace + [LoadCall(name)];
    }

    method RunModel(model: Handle, audioPath: string, options: Options) returns (r: Result<WhisperResult, string>)
      modifies this
      ensures r == env.run(model, audioPath, options)
      ensures trace == old(trace) + [RunCall(model, audioPath, options)]
    {
      r := env.run(model, audioPath, options);
      trace := trace + [RunCall(model, audioPath, options)];
    }

    /** Opens `path` for writing and writes the report; `error` is the failure, if any. */
    method WriteReport(path: string) returns (error: Option<string>)
      modifies this
      ensures error == env.write(path)
      ensures trace == old(trace) + [WriteCall(path)]
    {
      error := env.write(path);
      trace := trace + [WriteCall(path)];
    }
  }
}
