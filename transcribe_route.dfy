/**
 * The `POST /api/transcribe` handler: parse the multipart form, pick the
 * audio file and the language, transcode the staged upload to WAV, send the
 * WAV file to the speech recognizer, delete both temporary files and answer
 * with the text. Any exception thrown on the way ends in one fixed 500 answer.
 *
 * The form parser, the transcoder, the recognizer and `unlinkSync` are not
 * run: each appears as the outcome it reports (`Collaborators`). The disk is
 * the set of temporary paths that exist, and every outbound call is recorded
 * in order in a call log.
 */
module TranscribeRoute {

  datatype Option<T> = None | Some(value: T)

  const DefaultLanguage: string := "en"
  const ModelId: string := "mansa_v1"
  const FailureMessage: string := "Failed to process audio."
  const WavSuffix: string := ".wav"

  // ---------------------------------------------------------------------
  // Requests, collaborators and responses
  // ---------------------------------------------------------------------

  /** An uploaded file as the form parser reports it: where it staged the bytes. */
  datatype UploadedFile = UploadedFile(filepath: string)

  /**
   * The parsed form: each field and each file entry is an array when it was
   * sent and absent (`undefined`) when it was not.
   */
  datatype Form = Form(language: Option<seq<string>>, audio: Option<seq<UploadedFile>>)

  /** What awaiting `parseForm(req)` gives. */
  datatype ParseOutcome = ParseFailed | Parsed(form: Form)

  /**
   * How the transcoder's run ends: its `error` event (after which the output
   * file may or may not have been written) or its `end` event.
   */
  datatype TranscodeOutcome = TranscodeError(wroteOutput: bool) | TranscodeEnd

  /** What awaiting the recognizer gives. */
  datatype RecognizeOutcome = RecognizeFailed | Recognized(text: string)

  /**
   * The outcomes of every collaborator for one request. `unlinkRefused` holds
   * the paths whose deletion the operating system refuses although they exist.
   */
  datatype Collaborators = Collaborators(
    parse: ParseOutcome,
    transcode: TranscodeOutcome,
    recognize: RecognizeOutcome,
    unlinkRefused: set<string>)

  /** An outbound call, as recorded in the call log. */
  datatype Call =
    | Transcode(input: string, output: string)
    | Recognize(input: string, language: string, model: string)
    | Unlink(path: string)

  /** The JSON answer: `{text}` with status 200, or `{error}` with status 500. */
  datatype Response = Ok(text: string) | Error(error: string) {
    function Status(): int {
      if Ok? then 200 else 500
    }
  }

  const Failure: Response := Error(FailureMessage)

  /** The audio path and the effective language picked from a parsed form. */
  datatype Upload = Upload(path: string, language: string)

  // ---------------------------------------------------------------------
  // The pure steps
  // ---------------------------------------------------------------------

  /**
   * `fields.language[0] || 'en'`: `None` when the field is absent (indexing
   * `undefined` throws), the default when the first value is missing or empty
   * (both falsy), the first value otherwise.
   */
  function EffectiveLanguage(language: Option<seq<string>>): (r: Option<string>)
    ensures r.None? <==> language.None?
    ensures r.Some? ==> r.value != ""
    ensures r.Some? && |language.value| > 0 && language.value[0] != "" ==> r.value == language.value[0]
    ensures r.Some? && (|language.value| == 0 || language.value[0] == "") ==> r.value == DefaultLanguage
  {
    match language
    case None => None
    case Some(values) =>
      if |values| == 0 || values[0] == "" then Some(DefaultLanguage) else Some(values[0])
  }

  /** `` `${originalPath}.wav` ``. */
  function ConvertedPath(staged: string): (r: string)
    ensures r != staged
    ensures staged <= r && |r| == |staged| + |WavSuffix|
  {
    staged + WavSuffix
  }

  /** Different staged paths give different converted paths. */
  lemma ConvertedPathInjective(a: string, b: string)
    requires ConvertedPath(a) == ConvertedPath(b)
    ensures a == b
  {
  }

  /**
   * `files.audio[0]`, the language, then `audioFile.filepath`.
   * `None` when any of them throws: no `audio` entry, no `language` field, or
   * an empty `audio` array (its element 0 is `undefined`).
   */
  function ReadUpload(form: Form): (r: Option<Upload>)
    ensures r.Some? <==> form.audio.Some? && |form.audio.value| > 0 && form.language.Some?
    ensures r.Some? ==> r.value.path == form.audio.value[0].filepath
    ensures r.Some? ==> Some(r.value.language) == EffectiveLanguage(form.language)
  {
    match form.audio
    case None => None
    case Some(files) =>
      match EffectiveLanguage(form.language)
      case None => None
      case Some(language) =>
        if |files| == 0 then None else Some(Upload(files[0].filepath, language))
  }

  /** The paths at which the form parser staged the uploaded audio files. */
  function StagedPaths(form: Form): (r: set<string>)
    ensures form.audio.None? ==> r == {}
    ensures form.audio.Some? ==> forall k | 0 <= k < |form.audio.value| :: form.audio.value[k].filepath in r
    ensures form.audio.Some? ==> forall p | p in r :: exists k | 0 <= k < |form.audio.value| ::
      form.audio.value[k].filepath == p
  {
    match form.audio
    case None => {}
    case Some(files) => set k | 0 <= k < |files| :: files[k].filepath
  }

  /** `unlinkSync(path)` returns normally: the path exists and the system lets it go. */
  predicate UnlinkSucceeds(path: string, disk: set<string>, refused: set<string>) {
    path in disk && path !in refused
  }

  // ---------------------------------------------------------------------
  // The specification of one request
  // ---------------------------------------------------------------------

  /** What one request leaves behind: the answer, the disk, and the calls it made. */
  datatype Run = Run(response: Response, after: set<string>, calls: seq<Call>)

  /**
   * One request, stage by stage: parsed, staged, transcoded, recognized,
   * cleaned up. Every stage that fails ends the run with the 500 answer and
   * leaves the disk as that stage left it.
   */
  function Handle(env: Collaborators, before: set<string>): (r: Run)
    ensures r.response == Failure || (env.recognize.Recognized? && r.response == Ok(env.recognize.text))
  {
    match env.parse
    case ParseFailed => Run(Failure, before, [])
    case Parsed(form) =>
      var staged := before + StagedPaths(form);
      match ReadUpload(form)
      case None => Run(Failure, staged, [])
      case Some(upload) =>
        var converted := ConvertedPath(upload.path);
        var transcode := [Transcode(upload.path, converted)];
        match env.transcode
        case TranscodeError(wrote) =>
          Run(Failure, if wrote then staged + {converted} else staged, transcode)
        case TranscodeEnd =>
          var recognize := transcode + [Recognize(converted, upload.language, ModelId)];
          match env.recognize
          case RecognizeFailed => Run(Failure, staged + {converted}, recognize)
          case Recognized(text) =>
            Cleanup(text, upload.path, converted, staged + {converted}, recognize, env.unlinkRefused)
  }

  /** The cleanup and answer: delete the staged file, then the converted one, then answer with the text. */
  function Cleanup(text: string, staged: string, converted: string, disk: set<string>,
                   calls: seq<Call>, refused: set<string>): Run
  {
    if !UnlinkSucceeds(staged, disk, refused) then
      Run(Failure, disk, calls + [Unlink(staged)])
    else if !UnlinkSucceeds(converted, disk - {staged}, refused) then
      Run(Failure, disk - {staged}, calls + [Unlink(staged), Unlink(converted)])
    else
      Run(Ok(text), disk - {staged} - {converted}, calls + [Unlink(staged), Unlink(converted)])
  }

  /** The request gets through every stage. */
  predicate Succeeds(env: Collaborators, before: set<string>) {
    && env.parse.Parsed?
    && ReadUpload(env.parse.form).Some?
    && env.transcode.TranscodeEnd?
    && env.recognize.Recognized?
    && var path := ReadUpload(env.parse.form).value.path;
       && UnlinkSucceeds(path, before + StagedPaths(env.parse.form), env.unlinkRefused)
       && ConvertedPath(path) !in env.unlinkRefused
  }

  // ---------------------------------------------------------------------
  // The handler, as the route runs it
  // ---------------------------------------------------------------------

  class Route {
    /** The temporary paths that exist on disk. */
    var disk: set<string>
    /** Every outbound call made so far, oldest first. */
    var calls: seq<Call>

    constructor (existing: set<string>)
      ensures disk == existing && calls == []
    {
      disk := existing;
      calls := [];
    }

    /** `fs.unlinkSync(path)`: returns normally and deletes the path, or throws and deletes nothing. */
    method UnlinkSync(path: string, refused: set<string>) returns (ok: bool)
      modifies this
      ensures ok == UnlinkSucceeds(path, old(disk), refused)
      ensures disk == if ok then old(disk) - {path} else old(disk)
      ensures calls == old(calls) + [Unlink(path)]
    {
      calls := calls + [Unlink(path)];
      ok := path in disk && path !in refused;
      if ok {
        disk := disk - {path};
      }
    }

    /** `POST(req)`: every `throw` inside the `try` is an early return of the 500 answer. */
    method Post(env: Collaborators) returns (response: Response)
      modifies this
      ensures var r := Handle(env, old(disk));
        response == r.response && disk == r.after && calls == old(calls) + r.calls
    {
      // 1. Parse the upload; the parser stages the audio files on disk.
      if env.parse.ParseFailed? {
        return Failure;
      }
      var form := env.parse.form;
      disk := disk + StagedPaths(form);
      var upload := ReadUpload(form);
      if upload.None? {
        return Failure;
      }
      var originalPath := upload.value.path;
      var language := upload.value.language;
      var convertedPath := ConvertedPath(originalPath);

      // 2. Convert to WAV.
      calls := calls + [Transcode(originalPath, convertedPath)];
      if env.transcode.TranscodeError? {
        if env.transcode.wroteOutput {
          disk := disk + {convertedPath};
        }
        return Failure;
      }
      disk := disk + {convertedPath};

      // 3. Transcribe.
      calls := calls + [Recognize(convertedPath, language, ModelId)];
      if env.recognize.RecognizeFailed? {
        return Failure;
      }
      var text := env.recognize.text;

      // 4. Clean up.
      var ok := UnlinkSync(originalPath, env.unlinkRefused);
      if !ok {
        return Failure;
      }
      ok := UnlinkSync(convertedPath, env.unlinkRefused);
      if !ok {
        return Failure;
      }

      // 5. Answer with the text.
      response := Ok(text);
    }
  }

  // ---------------------------------------------------------------------
  // Properties of a request
  // ---------------------------------------------------------------------

  /** Every failure gives the same status and body, with no detail of what failed. */
  lemma FailureIsGeneric(env: Collaborators, before: set<string>)
    ensures var r := Handle(env, before);
      r.response.Status() == 500 ==> r.response == Error("Failed to process audio.")
    ensures var r := Handle(env, before);
      r.response.Status() == 200 || r.response.Status() == 500
  {
  }

  /** The answer is 200 exactly when every stage, both deletions included, succeeds. */
  lemma SuccessIff(env: Collaborators, before: set<string>)
    ensures Handle(env, before).response.Ok? <==> Succeeds(env, before)
  {
  }

  /**
   * On success the answer carries the recognizer's text; the calls were the
   * transcoding of the staged file into its `.wav` path, the recognition of
   * that file with the effective language and model `mansa_v1`, and the two
   * deletions; and neither temporary file remains.
   */
  lemma SuccessEffects(env: Collaborators, before: set<string>)
    requires Succeeds(env, before)
    ensures var r := Handle(env, before);
      var upload := ReadUpload(env.parse.form).value;
      var converted := upload.path + ".wav";
      && r.response == Ok(env.recognize.text)
      && r.calls == [Transcode(upload.path, converted),
                     Recognize(converted, upload.language, "mansa_v1"),
                     Unlink(upload.path), Unlink(converted)]
      && upload.path !in r.after && converted !in r.after
      && r.after == before + StagedPaths(env.parse.form) - {upload.path, converted}
  {
  }

  /** Without an `audio` entry (or with an empty one) the request fails before any outbound call. */
  lemma MissingAudioMakesNoCalls(env: Collaborators, before: set<string>)
    requires env.parse.Parsed?
    requires env.parse.form.audio.None? || env.parse.form.audio.value == []
    ensures Handle(env, before) == Run(Failure, before, [])
  {
  }

  /**
   * Without a `language` field the request fails before any outbound call,
   * though the audio file stays staged. The search and profile pages send
   * only `audio`, so each of their requests ends here.
   */
  lemma MissingLanguageMakesNoCalls(env: Collaborators, before: set<string>)
    requires env.parse.Parsed? && env.parse.form.language.None?
    ensures var r := Handle(env, before);
      r.response == Failure && r.calls == [] && r.after == before + StagedPaths(env.parse.form)
  {
  }

  /**
   * The stages run strictly in order: the recognizer is called only as the
   * second call, right after a transcoding that reported `end`; and after an
   * `error` from the transcoder no other call follows.
   */
  lemma StagesInOrder(env: Collaborators, before: set<string>)
    ensures var r := Handle(env, before);
      forall k | 0 <= k < |r.calls| && r.calls[k].Recognize? ::
        k == 1 && r.calls[0].Transcode? && env.transcode.TranscodeEnd?
    ensures var r := Handle(env, before);
      env.transcode.TranscodeError? ==> |r.calls| <= 1
  {
  }

  /**
   * Deletion is attempted only when the recognizer returned text; when the
   * transcoder or the recognizer fails, the staged file stays on disk, and so
   * does the converted file whenever it was written.
   */
  lemma NoCleanupOnFailure(env: Collaborators, before: set<string>)
    ensures var r := Handle(env, before);
      (exists k | 0 <= k < |r.calls| :: r.calls[k].Unlink?) ==>
        env.transcode.TranscodeEnd? && env.recognize.Recognized?
    ensures var r := Handle(env, before);
      env.parse.Parsed? && ReadUpload(env.parse.form).Some? &&
      (env.transcode.TranscodeError? || env.recognize.RecognizeFailed?) ==>
        var path := ReadUpload(env.parse.form).value.path;
        && path in r.after
        && (path + ".wav" in r.after <==>
              path + ".wav" in before || path + ".wav" in StagedPaths(env.parse.form) ||
              env.transcode.TranscodeEnd? || env.transcode.wroteOutput)
  {
  }

  /**
   * When deleting the staged file throws, the converted file is not even
   * attempted: it stays on disk and the answer is the 500 one.
   */
  lemma FirstUnlinkFailureStopsCleanup(env: Collaborators, before: set<string>)
    requires env.parse.Parsed? && ReadUpload(env.parse.form).Some?
    requires env.transcode.TranscodeEnd? && env.recognize.Recognized?
    requires !UnlinkSucceeds(ReadUpload(env.parse.form).value.path,
                             before + StagedPaths(env.parse.form), env.unlinkRefused)
    ensures var r := Handle(env, before);
      var path := ReadUpload(env.parse.form).value.path;
      && r.response == Failure
      && r.calls[|r.calls| - 1] == Unlink(path)
      && Unlink(path + ".wav") !in r.calls
      && path + ".wav" in r.after
  {
  }

  /**
   * A request touches only its own files: it adds no path but the staged
   * uploads and the converted file, and removes no path but the staged audio
   * file and the converted file.
   */
  lemma OnlyOwnFilesTouched(env: Collaborators, before: set<string>)
    ensures var r := Handle(env, before);
      r.after <= before + WrittenPaths(env)
    ensures var r := Handle(env, before);
      before - DeletablePaths(env) <= r.after
  {
  }

  /** The paths a request may create: the staged uploads and the converted file. */
  function WrittenPaths(env: Collaborators): set<string> {
    match env.parse
    case ParseFailed => {}
    case Parsed(form) =>
      StagedPaths(form) +
        (if ReadUpload(form).Some? then {ConvertedPath(ReadUpload(form).value.path)} else {})
  }

  /** The paths a request may delete: the staged audio file and the converted file. */
  function DeletablePaths(env: Collaborators): set<string> {
    if env.parse.Parsed? && ReadUpload(env.parse.form).Some? then
      var path := ReadUpload(env.parse.form).value.path;
      {path, ConvertedPath(path)}
    else {}
  }
}
