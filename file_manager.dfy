/** Output naming and saving of core/file_manager.py (`FileManager`). The report's contents are
    not modelled: saving is one write to the generated path, which may fail. The clock reading
    `int(time.time())` is the `timestamp` argument. */
module Files {
  import opened Wrappers
  import opened Effects
  import Text
  import Paths

  const TranscriptInfix := "_transcripcion_"
  const TranscriptExtension := ".txt"

  /** The file name of a transcript: the audio file's stem, "_transcripcion_", the timestamp in
      decimal and ".txt". It is always a single path component. */
  function OutputName(audioFilePath: string, timestamp: nat): (name: string)
    ensures Paths.IsComponent(name)
  {
    var stem, digits := Paths.Stem(audioFilePath), Text.Decimal(timestamp);
    NoSeparatorInDigits(digits);
    NoSeparatorInFixedParts();
    NoSeparatorInConcat(stem, TranscriptInfix, digits);
    var head := stem + TranscriptInfix + digits;
    NoSeparatorInConcat(head, TranscriptExtension, "");
    assert head + TranscriptExtension + "" == head + TranscriptExtension;
    head + TranscriptExtension
  }

  lemma NoSeparatorInDigits(digits: string)
    requires Text.IsDigits(digits)
    ensures '/' !in digits
  {
    forall k | 0 <= k < |digits| ensures digits[k] != '/' {
      assert '0' <= digits[k] <= '9';
    }
  }

  lemma NoSeparatorInFixedParts()
    ensures '/' !in TranscriptInfix && '/' !in TranscriptExtension
  {
  }

  lemma NoSeparatorInConcat(a: string, b: string, c: string)
    requires '/' !in a && '/' !in b && '/' !in c
    ensures '/' !in a + b + c
  {
  }

  /** `generate_output_filename` for a given output folder: the folder joined with the transcript
      name. */
  function OutputPath(outputFolder: string, audioFilePath: string, timestamp: nat): (path: string)
    ensures outputFolder <= path
  {
    Paths.JoinComponent(outputFolder, OutputName(audioFilePath, timestamp));
    Paths.Join(outputFolder, OutputName(audioFilePath, timestamp))
  }

  /** The generated path lies under the output folder, with exactly one more component, and
      that component is the transcript name. */
  lemma OutputPathComponents(outputFolder: string, audioFilePath: string, timestamp: nat)
    ensures Paths.Components(OutputPath(outputFolder, audioFilePath, timestamp))
         == Paths.Components(outputFolder) + [OutputName(audioFilePath, timestamp)]
    ensures Paths.Name(OutputPath(outputFolder, audioFilePath, timestamp)) == OutputName(audioFilePath, timestamp)
  {
    Paths.JoinComponent(outputFolder, OutputName(audioFilePath, timestamp));
  }

  /** Only the final component of the audio path matters to the transcript name. */
  lemma OutputNameIgnoresDirectory(dir: string, file: string, timestamp: nat)
    requires Paths.IsComponent(file)
    ensures OutputName(dir + "/" + file, timestamp) == OutputName(file, timestamp)
  {
    Paths.NameIgnoresDirectory(dir, file);
  }

  /** Two clock readings that differ give two different paths for the same audio file. */
  lemma DistinctTimestampsGiveDistinctPaths(outputFolder: string, audioFilePath: string, t1: nat, t2: nat)
    requires t1 != t2
    ensures OutputPath(outputFolder, audioFilePath, t1) != OutputPath(outputFolder, audioFilePath, t2)
  {
    var q := OutputPathPrefix(outputFolder, audioFilePath);
    OutputPathShape(outputFolder, audioFilePath, t1);
    OutputPathShape(outputFolder, audioFilePath, t2);
    if OutputPath(outputFolder, audioFilePath, t1) == OutputPath(outputFolder, audioFilePath, t2) {
      CancelAround(q, Text.Decimal(t1), Text.Decimal(t2), TranscriptExtension);
      Text.DecimalInjective(t1, t2);
    }
  }

  /** Everything of a generated path before the timestamp. */
  function OutputPathPrefix(outputFolder: string, audioFilePath: string): string {
    outputFolder + Paths.Separator(outputFolder) + Paths.Stem(audioFilePath) + TranscriptInfix
  }

  lemma OutputPathShape(outputFolder: string, audioFilePath: string, timestamp: nat)
    ensures OutputPath(outputFolder, audioFilePath, timestamp)
         == OutputPathPrefix(outputFolder, audioFilePath) + Text.Decimal(timestamp) + TranscriptExtension
  {
    var name := OutputName(audioFilePath, timestamp);
    assert name[0] != '/' by { assert name[0] in name; }
    Paths.JoinRelative(outputFolder, name);
    Associate(outputFolder + Paths.Separator(outputFolder), Paths.Stem(audioFilePath), TranscriptInfix,
              Text.Decimal(timestamp), TranscriptExtension);
  }

  lemma Associate(a: string, b: string, c: string, d: string, e: string)
    ensures a + (b + c + d + e) == a + b + c + d + e
  {
  }

  lemma CancelAround(q: string, d1: string, d2: string, e: string)
    requires q + d1 + e == q + d2 + e
    ensures d1 == d2
  {
    var p := q + d1 + e;
    assert |d1| == |d2|;
    assert d1 == p[|q|..|q| + |d1|];
    assert d2 == (q + d2 + e)[|q|..|q| + |d2|];
  }

  /** What one `save_transcription` call does: the write it attempts and the path it returns or
      the error it raises. */
  datatype SaveOutcome = SaveOutcome(events: seq<Event>, result: Result<string, string>)

  function SaveStep(write: string -> Option<string>, outputFolder: string, audioFilePath: string,
                    timestamp: nat): (r: SaveOutcome)
    ensures r.events == [WriteCall(OutputPath(outputFolder, audioFilePath, timestamp))]
    ensures r.result.Success? <==> write(OutputPath(outputFolder, audioFilePath, timestamp)).None?
    ensures r.result.Success? ==> r.result.value == OutputPath(outputFolder, audioFilePath, timestamp)
    ensures r.result.Failure? ==> Some(r.result.error) == write(OutputPath(outputFolder, audioFilePath, timestamp))
  {
    var path := OutputPath(outputFolder, audioFilePath, timestamp);
    match write(path)
    case None => SaveOutcome([WriteCall(path)], Success(path))
    case Some(e) => SaveOutcome([WriteCall(path)], Failure(e))
  }

  class FileManager {
    var outputFolder: string

    constructor (outputFolder: string)
      ensures this.outputFolder == outputFolder
    {
      this.outputFolder := outputFolder;
    }

    /** `set_output_folder`. */
    method SetOutputFolder(folderPath: string)
      modifies this
      ensures outputFolder == folderPath
    {
      outputFolder := folderPath;
    }

    /** `generate_output_filename`, given the clock reading. */
    function GenerateOutputFilename(audioFilePath: string, timestamp: nat): (path: string)
      reads this
      ensures outputFolder <= path
      ensures path == OutputPath(outputFolder, audioFilePath, timestamp)
    {
      OutputPath(outputFolder, audioFilePath, timestamp)
    }

    /** `save_transcription`: writes the report to the generated path and returns that path.
        The result, model, language and task only shape the report's text. */
    method SaveTranscription(world: World, result: WhisperResult, audioFilePath: string, modelName: string,
                             language: string, task: string, timestamp: nat) returns (saved: Result<string, string>)
      modifies world
      ensures var step := SaveStep(world.env.write, outputFolder, audioFilePath, timestamp);
        saved == step.result && world.trace == old(world.trace) + step.events
      ensures saved.Success? ==> saved.value == GenerateOutputFilename(audioFilePath, timestamp)
    {
      var path := GenerateOutputFilename(audioFilePath, timestamp);
      var error := world.WriteReport(path);
      if error.None? {
        saved := Success(path);
      } else {
        saved := Failure(error.value);
      }
    }
  }

  /** A caller's view: after `set_output_folder(p)`, the next generated path lies under `p`. */
  method SetFolderThenGenerate(manager: FileManager, folderPath: string, audioFilePath: string, timestamp: nat)
    returns (path: string)
    modifies manager
    ensures folderPath <= path
    ensures Paths.Components(path) == Paths.Components(folderPath) + [OutputName(audioFilePath, timestamp)]
  {
    manager.SetOutputFolder(folderPath);
    path := manager.GenerateOutputFilename(audioFilePath, timestamp);
    OutputPathComponents(folderPath, audioFilePath, timestamp);
  }
}
