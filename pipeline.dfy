/** The request handler `transcribe_audio` (POST /api/transcribe): validate the
    upload, stage it in a temporary `.wav` file, fetch the "small" model from
    the cache, transcribe, normalise, and remove the temporary file in a
    `finally` block whose own failure is swallowed.

    The foreign steps (creating the temporary file, `file.save`,
    `whisper.load_model`, `model.transcribe`, `os.remove`) are not modelled;
    a `World` value says what each of them does when it is called. */
module Transcribe {
  import opened Wrappers
  import opened Normalizer
  import opened ModelCache

  /** An uploaded file; only its declared filename is read by the handler. */
  datatype Upload = Upload(filename: string)

  /** The parts of the request the handler could read: uploaded files and
      form fields, by field name. */
  datatype Request = Request(files: map<string, Upload>, form: map<string, string>)

  /** A foreign call that either returns or raises with a message. */
  datatype Outcome = Done | Failed(message: string)

  /** What each foreign call does if the handler makes it. */
  datatype World = World(
    create: Outcome,                // tempfile.NamedTemporaryFile(delete=False, suffix=".wav")
    save: Outcome,                  // file.save(tmp.name)
    load: LoadOutcome,              // whisper.load_model(name), reached only on a cache miss
    transcribe: Result<RawResult>,  // model.transcribe(tmp_path, task="transcribe")
    remove: Outcome)                // os.remove(tmp_path)

  datatype Body = ErrorBody(error: string) | TranscriptBody(transcript: Transcript)

  /** An HTTP status and a JSON body. */
  datatype Reply = Reply(status: int, body: Body)

  /** Which effects a request had: whether the temporary file was created,
      which model name was asked of the cache, whether the model was run, and
      whether `os.remove` was called on the temporary file. */
  datatype Effects = Effects(staged: bool, modelRequested: Option<string>, transcribeCalled: bool, removeCalled: bool)

  datatype Run = Run(reply: Reply, effects: Effects)

  const FileField: string := "file"
  /** The handler always asks for this model, whatever the request says. */
  const ModelName: string := "small"
  const NoEffects: Effects := Effects(false, None, false, false)

  /** The request passes both validation checks. */
  predicate ValidRequest(req: Request) {
    FileField in req.files && req.files[FileField].filename != ""
  }

  /** What `get_whisper_model(ModelName)` does given the cache contents and
      the behaviour of the loader. */
  function Resolution(models: map<string, WhisperModel>, load: LoadOutcome): (o: Outcome)
    ensures ModelName in models ==> o == Done
    ensures ModelName !in models ==> (o.Done? <==> load.Loaded?)
    ensures ModelName !in models && load.LoadFailed? ==> o == Failed(load.message)
  {
    if ModelName in models then Done
    else match load
      case Loaded(_) => Done
      case LoadFailed(m) => Failed(m)
  }

  /** The steps of the `try` block in the order they run, each as an outcome:
      create the file, save the upload, get the model, transcribe, normalise.
      A step after a failing one is never reached, so its entry is irrelevant. */
  function Steps(w: World, resolve: Outcome): seq<Outcome> {
    var transcribed := if w.transcribe.Err? then Failed(w.transcribe.message) else Done;
    var normalised :=
      if w.transcribe.Ok? && NormalizeResult(w.transcribe.value).Err?
      then Failed(NormalizeResult(w.transcribe.value).message) else Done;
    [w.create, w.save, resolve, transcribed, normalised]
  }

  /** The message of the first failing outcome, if any. */
  function FirstFailure(steps: seq<Outcome>): (m: Option<string>)
    ensures m.None? <==> forall k :: 0 <= k < |steps| ==> steps[k].Done?
    ensures m.Some? ==> exists k :: 0 <= k < |steps| && steps[k] == Failed(m.value)
                                    && forall j :: 0 <= j < k ==> steps[j].Done?
  {
    if steps == [] then None
    else if steps[0].Failed? then Some(steps[0].message)
    else
      var m := FirstFailure(steps[1..]);
      if m.Some? then
        var k :| 0 <= k < |steps[1..]| && steps[1..][k] == Failed(m.value)
                 && forall j :: 0 <= j < k ==> steps[1..][j].Done?;
        assert steps[k + 1] == Failed(m.value) && forall j :: 0 <= j < k + 1 ==> steps[j].Done?;
        m
      else m
  }

  /** `transcribe_audio` as written, given the outcome `resolve` of the cache
      lookup. `tmp_path` is assigned only after `file.save` returns, so a
      failing save leaves the `finally` block without a path to remove. */
  function Pipeline(req: Request, w: World, resolve: Outcome): (run: Run)
    ensures FileField !in req.files ==> run == Run(Reply(400, ErrorBody("No file uploaded")), NoEffects)
    ensures FileField in req.files && req.files[FileField].filename == "" ==>
      run == Run(Reply(400, ErrorBody("Empty filename")), NoEffects)
    ensures ValidRequest(req) ==>
      (run.reply.status == 200 <==> FirstFailure(Steps(w, resolve)).None?)
    ensures ValidRequest(req) && run.reply.status != 200 ==>
      run.reply == Reply(500, ErrorBody(FirstFailure(Steps(w, resolve)).value))
    ensures run.reply.status == 200 ==>
      w.transcribe.Ok? && NormalizeResult(w.transcribe.value).Ok? && run.reply.body == TranscriptBody(NormalizeResult(w.transcribe.value).value)
    ensures run.effects.staged <==> ValidRequest(req) && w.create.Done?
    ensures run.effects.modelRequested.Some? ==> run.effects.modelRequested.value == ModelName
    ensures run.effects.removeCalled <==> run.effects.staged && w.save.Done?
    ensures run.effects.modelRequested.Some? <==> run.effects.staged && w.save.Done?
  {
    if FileField !in req.files then Run(Reply(400, ErrorBody("No file uploaded")), NoEffects)
    else if req.files[FileField].filename == "" then Run(Reply(400, ErrorBody("Empty filename")), NoEffects)
    else if w.create.Failed? then Run(Reply(500, ErrorBody(w.create.message)), NoEffects)
    else if w.save.Failed? then Run(Reply(500, ErrorBody(w.save.message)), NoEffects.(staged := true))
    else
      assert FirstFailure(Steps(w, resolve)) == FirstFailure(Steps(w, resolve)[2..]);
      var staged := Effects(true, Some(ModelName), false, true);
      if resolve.Failed? then Run(Reply(500, ErrorBody(resolve.message)), staged)
      else
        var ran := staged.(transcribeCalled := true);
        match w.transcribe
        case Err(m) => Run(Reply(500, ErrorBody(m)), ran)
        case Ok(raw) =>
          assert FirstFailure(Steps(w, resolve)[2..]) == FirstFailure(Steps(w, resolve)[4..]);
          match NormalizeResult(raw)
          case Err(m) => Run(Reply(500, ErrorBody(m)), ran)
          case Ok(t) => Run(Reply(200, TranscriptBody(t)), ran)
  }

  /** The temporary file is still on disk after the request. */
  predicate TempFileLeft(run: Run, w: World) {
    run.effects.staged && !(run.effects.removeCalled && w.remove.Done?)
  }

  /** The handler as written: a `try` block whose exceptions become 500
      replies, and a `finally` block that removes the temporary file when
      `tmp_path` is bound and ignores a failing removal. It is proved to behave
      as `Pipeline`, with the cache changed exactly as `get_whisper_model`
      changes it. */
  method TranscribeAudio(cache: Cache, req: Request, w: World) returns (reply: Reply, ghost effects: Effects)
    requires cache.Valid()
    modifies cache
    ensures cache.Valid()
    ensures Run(reply, effects) == Pipeline(req, w, Resolution(old(cache.models), w.load))
    ensures effects.modelRequested.None? ==>
      cache.models == old(cache.models) && cache.loadCalls == old(cache.loadCalls)
    ensures effects.modelRequested.Some? && ModelName in old(cache.models) ==>
      cache.models == old(cache.models) && cache.loadCalls == old(cache.loadCalls)
    ensures effects.modelRequested.Some? && ModelName !in old(cache.models) ==>
      cache.loadCalls == old(cache.loadCalls) + [ModelName]
      && cache.models == (if w.load.Loaded? then old(cache.models)[ModelName := w.load.model] else old(cache.models))
  {
    effects := NoEffects;
    if FileField !in req.files {
      return Reply(400, ErrorBody("No file uploaded")), effects;
    }
    var file := req.files[FileField];
    if file.filename == "" {
      return Reply(400, ErrorBody("Empty filename")), effects;
    }
    var modelName := ModelName;
    var tmpPathBound := false;
    // try
    if w.create.Failed? {
      reply := Reply(500, ErrorBody(w.create.message));
    } else {
      effects := effects.(staged := true);
      if w.save.Failed? {
        reply := Reply(500, ErrorBody(w.save.message));
      } else {
        tmpPathBound := true;
        effects := effects.(modelRequested := Some(modelName));
        var model := cache.Get(modelName, w.load);
        if model.Err? {
          reply := Reply(500, ErrorBody(model.message));
        } else {
          effects := effects.(transcribeCalled := true);
          match w.transcribe
          case Err(m) =>
            reply := Reply(500, ErrorBody(m));
          case Ok(result) =>
            var segments := BuildSegments(result.segments.GetOr([]));
            match segments
            case Err(m) =>
              reply := Reply(500, ErrorBody(m));
            case Ok(out) =>
              reply := Reply(200, TranscriptBody(Transcript(result.language.GetOr(UnknownLanguage), out)));
        }
      }
    }
    // finally: os.remove(tmp_path), with any exception swallowed
    if tmpPathBound {
      effects := effects.(removeCalled := true);
    }
  }

  /** The reply depends on the uploaded files only: the form field `model` is
      never read, and the model asked for is always "small". */
  lemma ModelFieldIgnored(req: Request, form: map<string, string>, w: World, resolve: Outcome)
    ensures Pipeline(req.(form := form), w, resolve) == Pipeline(req, w, resolve)
    ensures Pipeline(req, w, resolve).effects.modelRequested in {None, Some(ModelName)}
  {
  }

  /** A failing `os.remove` never changes the reply. */
  lemma RemoveFailureSwallowed(req: Request, w: World, resolve: Outcome, remove: Outcome)
    ensures Pipeline(req, w.(remove := remove), resolve) == Pipeline(req, w, resolve)
  {
  }

  /** Once the upload is saved, the temporary file is removed unless
      `os.remove` itself fails. */
  lemma RemovedAfterSave(req: Request, w: World, resolve: Outcome)
    requires ValidRequest(req) && w.create.Done? && w.save.Done?
    ensures TempFileLeft(Pipeline(req, w, resolve), w) <==> w.remove.Failed?
  {
  }

  /** A failing `file.save` leaves the temporary file on disk even when
      `os.remove` would succeed: `tmp_path` is unbound in the `finally` block
      and the resulting `NameError` is swallowed. */
  lemma SaveFailureLeavesTempFile(req: Request, w: World, resolve: Outcome)
    requires ValidRequest(req) && w.create.Done? && w.save.Failed?
    ensures Pipeline(req, w, resolve).reply == Reply(500, ErrorBody(w.save.message))
    ensures TempFileLeft(Pipeline(req, w, resolve), w)
  {
  }

  /** The handler with `tmp_path` bound as soon as the temporary file exists
      (before `file.save`), so that the `finally` block always sees it. */
  function PipelineFixed(req: Request, w: World, resolve: Outcome): (run: Run)
    ensures run.effects.staged <==> ValidRequest(req) && w.create.Done?
    ensures run.effects.removeCalled <==> run.effects.staged
    ensures run.reply == Pipeline(req, w, resolve).reply
  {
    if FileField !in req.files then Run(Reply(400, ErrorBody("No file uploaded")), NoEffects)
    else if req.files[FileField].filename == "" then Run(Reply(400, ErrorBody("Empty filename")), NoEffects)
    else if w.create.Failed? then Run(Reply(500, ErrorBody(w.create.message)), NoEffects)
    else
      // tmp_path is bound here, before the save
      var bound := Effects(true, None, false, true);
      if w.save.Failed? then Run(Reply(500, ErrorBody(w.save.message)), bound)
      else
        var requested := bound.(modelRequested := Some(ModelName));
        if resolve.Failed? then Run(Reply(500, ErrorBody(resolve.message)), requested)
        else
          var ran := requested.(transcribeCalled := true);
          match w.transcribe
          case Err(m) => Run(Reply(500, ErrorBody(m)), ran)
          case Ok(raw) =>
            match NormalizeResult(raw)
            case Err(m) => Run(Reply(500, ErrorBody(m)), ran)
            case Ok(t) => Run(Reply(200, TranscriptBody(t)), ran)
  }

  /** With the fix, the temporary file is left behind only when `os.remove`
      itself fails. */
  lemma FixedPipelineCleansUp(req: Request, w: World, resolve: Outcome)
    ensures TempFileLeft(PipelineFixed(req, w, resolve), w) <==>
      ValidRequest(req) && w.create.Done? && w.remove.Failed?
  {
  }
}
