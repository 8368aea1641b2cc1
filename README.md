# transcriber-backend: model cache, response normaliser and request handler

This project models, in Dafny, the core of a small Flask service. The service
takes an uploaded audio file on `POST /api/transcribe` and runs it through a
Whisper speech-to-text model. It returns the detected language and a list of
timed, numbered text segments. Three pieces of `app.py` are modelled:

- **The model cache** (`whisper_models` and `get_whisper_model`): a
  process-wide dictionary from model name to loaded model. The first call for
  a name loads the model; later calls return the stored object. It is the
  class `ModelCache.Cache`, with the dictionary as a `map` field and a ghost
  log of every call of the loader. The loader is not modelled: each call to
  `Get` receives what the loader does on that call (`Loaded(model)` or
  `LoadFailed(message)`), and the loader is consulted only on a miss.
- **The response normaliser** (the segment loop and the `language` default).
  It turns Whisper's raw result into `{"language", "segments": [{"id",
  "startTime", "endTime", "text"}]}`. `Normalizer.NormalizeSegments` is the
  specification. `Normalizer.BuildSegments` is the loop, proved equal to it.
  `PyText.Strip` is Python's `str.strip()` over the characters `str.isspace()`
  accepts.
- **The request handler** (`transcribe_audio`): validation, then the `try`
  block, then the `except` that turns any exception into a 500 reply, then the
  `finally` block that removes the temporary file. `Transcribe.Pipeline` is
  the handler as a function of the request, of what each foreign call does
  (a `World` value) and of the outcome of the cache lookup.
  `Transcribe.TranscribeAudio` is the imperative handler over a real `Cache`.
  It is proved to reply as `Pipeline` does and to change the cache as
  `get_whisper_model` does.

Modules: `Wrappers` (Option, Result), `PyText` (whitespace and strip),
`Normalizer`, `ModelCache`, `Transcribe`.

A Python exception is modelled as `Err(message)`, where `message` is
`str(e)`. A missing segment key raises `KeyError`, and its message is the key
in single quotes (`'start'`). The segment times are copied and never computed
on, so they are a wrapper type `Normalizer.Time` with no operations.

## Model

| member | source | states |
|---|---|---|
| `ModelCache.Cache.constructor` | app.py:13 | The cache starts empty and nothing has been loaded. |
| `ModelCache.Cache.Get` | app.py:15-20 | On a hit it returns the stored model and calls no loader. On a miss it calls the loader exactly once. If the load returns, the model is stored under the name and returned. If the load raises, the cache is unchanged and the error is returned. Other names' entries never change and the key set only grows. The invariant `Valid` holds throughout: every cached model came from a load call for its name, and no load call for that name happened after it. |
| `ModelCache.GetTwice` | app.py:15-20 | Two calls for one name. After a successful first call, the second returns the identical model object and there is at most one load call in total. After a failed first call, the second call tries the load again. |
| `PyText.LeadingSpaces` | app.py:53 | Its result is the length of the whitespace run at the start of the string. Everything before it is whitespace, and the character at that index is not. |
| `PyText.TrailingSpaces` | app.py:53 | Its result is the length of the whitespace run at the end of the string, stated the same way. |
| `PyText.Strip` | app.py:53 | The result is a contiguous piece of the input with neither end whitespace. Only whitespace lies before and after it. |
| `PyText.StripExact` | app.py:53 | This is the converse. Any whitespace, then a trimmed core, then whitespace, strips to exactly that core. |
| `PyText.StripIdempotent` | app.py:53 | Stripping twice gives the same result as stripping once. |
| `PyText.StripAllSpace` | app.py:53 | A string made only of whitespace strips to the empty string. |
| `PyText.StripKeepsContent` | app.py:53 | Every non-whitespace character of the input survives, at its own offset, in the result. |
| `Normalizer.NormalizeSegment` | app.py:49-53 | Converting one raw segment succeeds iff it has `start`, `end` and `text`. The output has the given id, copies both times verbatim, and its text is exactly `Strip` of the raw text. Otherwise the result is the `KeyError` of the first missing key, in the order `start`, `end`, `text`. |
| `Normalizer.BuildSegments` | app.py:47-54 | The `for` loop that appends converted segments. It returns exactly `NormalizeSegments(raw)` and stops at the first `KeyError`. |
| `Normalizer.ErrorPersists` | app.py:47-54 | Once a prefix of the segments has raised, the whole loop raises the same error. |
| `Normalizer.NormalizeOkIff` | app.py:48-54 | The loop succeeds iff every raw segment has all three keys, in both directions. |
| `Normalizer.NormalizeShape` | app.py:48-54 | On success the output has as many segments as the input, in the same order. The segment at position k has id k + 1, the raw start and end times, and the raw text stripped. |
| `Normalizer.NormalizeFirstError` | app.py:48-54 | On failure the error is the `KeyError` of the first incomplete segment. |
| `Normalizer.NormalizeResult` | app.py:47-59 | A missing `segments` key yields an empty list. A missing `language` key yields `"unknown"`, and a present one is copied unchanged. The result succeeds iff every segment is complete. On success the output segments are those of the loop: one per raw segment, in order, the one at position k with id k + 1, the raw start and end times and the stripped raw text. |
| `Normalizer.NormalizeSegmentsIdempotent` | app.py:47-54 | Running the loop on its own output, read back as raw segments, gives the same output. |
| `Normalizer.NormalizeIdempotent` | app.py:47-59 | Normalising a normalised response, read back as a raw result, gives the same response. |
| `Normalizer.NormalizeExample` | app.py:47-59 | A worked example. Language `"en"` and one segment from 0.0 to 1.5 with text `" hi "` become segment 1 with text `"hi"`. |
| `Transcribe.Resolution` | app.py:17-20 | The outcome of `get_whisper_model("small")`. A hit always succeeds. A miss succeeds iff the load returns, and a failed load gives that load's message. |
| `Transcribe.FirstFailure` | app.py:34-64 | The first failing step's message. It is absent iff every step succeeded; when present it is the message of a failing step all of whose predecessors succeeded. |
| `Transcribe.Pipeline` | app.py:24-70 | No `file` field gives 400 "No file uploaded" with no effects, whatever the filename and the other steps. Otherwise an empty filename gives 400 "Empty filename" with no effects. A valid request gives 200 iff no step fails, and the 200 body is the normalised transcription. Any other reply is 500 carrying the message of the first failing step (create, save, load, transcribe, normalise). The temporary file exists iff the request was valid and its creation returned. The only model asked for is "small". `os.remove` is called, and the cache is asked for the model, iff the file was created and the save returned. |
| `Transcribe.TranscribeAudio` | app.py:23-70 | The imperative handler replies, and has the effects, that `Pipeline` gives for the cache's outcome. The cache is untouched unless the model was requested. When the model is requested, the cache changes exactly as `get_whisper_model("small")` changes it. |
| `Transcribe.ModelFieldIgnored` | app.py:31-32 | The form fields never change the result, and the model requested is always "small". |
| `Transcribe.RemoveFailureSwallowed` | app.py:66-70 | What `os.remove` does never changes the reply or the effects. |
| `Transcribe.RemovedAfterSave` | app.py:34-70 | Once the upload has been saved, the temporary file is left behind iff `os.remove` fails. |
| `Transcribe.SaveFailureLeavesTempFile` | app.py:36-38 | For every valid request whose file creation returns and whose `file.save` raises: the reply is 500 with the save's message, and the temporary file is left on disk, even when removal would succeed. |
| `Transcribe.PipelineFixed` | app.py:34-70 | The handler written again with `tmp_path` bound as soon as the file is created, before `file.save`. Its reply equals `Pipeline`'s for every input; the file exists iff the request was valid and creation returned; `os.remove` is called iff the file was created. |
| `Transcribe.FixedPipelineCleansUp` | app.py:34-70 | With the fix, the temporary file is left behind iff the request was valid, the file was created, and `os.remove` failed. |

## Left out

- The Flask application, routing, `jsonify`, CORS, the `GET /` liveness route and the port set-up at start-up (app.py:3-10, 22, 72-78) are framework plumbing. The model's `Reply` is the status and the body before JSON encoding.
- The `print` at app.py:18 is left out because it is only logging.
- `whisper.load_model`, `model.transcribe`, `tempfile.NamedTemporaryFile`, `file.save` and `os.remove` are foreign calls. They are inputs (`LoadOutcome`, `World`) that say whether each call returns (and with what) or raises (and with what message). The audio bytes, the path and the `.wav` suffix are not represented.
- Closing the temporary file when the `with` block exits is not modelled. The model assumes closing never raises.
- The cache race: two concurrent cold requests may both load the model. The source has no locking, and the model is sequential.
- `ModelCache.Cache.Get` leaves out the identity of the loaded model. The model does not state that the loaded object belongs to `name`, because the loader is not modelled.
- Floating-point segment times are only copied, so `Time` wraps a `real` with no operations. The model does not promise `endTime >= startTime`, because the code never checks it.
- Raw result keys other than `language` and `segments`, and raw values of unexpected types (a non-string `text`, a `None` language), are not modelled.
- The uploaded file's `filename` is always a string here. An absent filename (`None`) is not modelled.
- The model follows the code in three behaviours a caller might not expect. A `model` form field is ignored and the model is always "small" (app.py:31-32). Cold loads of the cache are not serialised (app.py:17-19). The temporary file is not removed when `file.save` raises; see Findings.

## Findings

| source | as written | input that shows it | evidently intended | confidence | as-written member | corrected member |
|---|---|---|---|---|---|---|
| app.py:36-38 | `tmp_path` is assigned only after `file.save(tmp.name)` returns. The file was created with `delete=False`, so when the save raises, the `finally` block's `os.remove(tmp_path)` raises `NameError`, which is swallowed, and the file stays on disk. | A valid upload whose `file.save` raises, for example "No space left on device". | The `finally` block removes the temporary file on every path after it was created. | not executed; the leak follows directly from Python's scoping rules | `Transcribe.SaveFailureLeavesTempFile` | `Transcribe.FixedPipelineCleansUp` |

`Transcribe.TranscribeAudio` keeps the behaviour as written. `Transcribe.PipelineFixed` gives the same reply for every input and differs only in the removal.
