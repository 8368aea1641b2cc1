/** The response normaliser of `transcribe_audio`: it turns the dictionary that
    Whisper's `transcribe` returns into the service's response schema
    `{"language": ..., "segments": [{"id", "startTime", "endTime", "text"}, ...]}`. */
module Normalizer {
  import opened Wrappers
  import PyText

  /** A segment boundary in seconds, as Whisper reports it. The service only
      copies times, so no arithmetic on them is defined. */
  datatype Time = Seconds(value: real)

  /** One element of the raw `segments` list. Each key the service reads may be
      absent, in which case the lookup `seg[key]` raises `KeyError`. */
  datatype RawSegment = RawSegment(start: Option<Time>, end: Option<Time>, text: Option<string>)

  /** The raw result dictionary; only the two keys the service reads. */
  datatype RawResult = RawResult(language: Option<string>, segments: Option<seq<RawSegment>>)

  /** One element of the response's `segments` list. */
  datatype Segment = Segment(id: nat, startTime: Time, endTime: Time, text: string)

  /** The 200 response body. */
  datatype Transcript = Transcript(language: string, segments: seq<Segment>)

  /** The language reported when the raw result has no `language` key. */
  const UnknownLanguage: string := "unknown"

  /** `str(KeyError(key))`: the key's repr, in single quotes. */
  function KeyErrorMessage(key: string): string {
    "'" + key + "'"
  }

  /** The segment has every key the service reads. */
  predicate Complete(seg: RawSegment) {
    seg.start.Some? && seg.end.Some? && seg.text.Some?
  }

  /** The key whose lookup raises first; the dictionary literal is built in
      the order `start`, `end`, `text`. */
  function MissingKey(seg: RawSegment): string
    requires !Complete(seg)
  {
    if seg.start.None? then "start" else if seg.end.None? then "end" else "text"
  }

  /** Convert one raw segment, giving it the identifier `id`. */
  function NormalizeSegment(id: nat, seg: RawSegment): (r: Result<Segment>)
    ensures r.Ok? <==> Complete(seg)
    ensures r.Err? ==> r.message == KeyErrorMessage(MissingKey(seg))
    ensures r.Ok? ==> r.value.id == id && r.value.startTime == seg.start.value
                      && r.value.endTime == seg.end.value
                      && r.value.text == PyText.Strip(seg.text.value)
  {
    if seg.start.None? then Err(KeyErrorMessage("start"))
    else if seg.end.None? then Err(KeyErrorMessage("end"))
    else if seg.text.None? then Err(KeyErrorMessage("text"))
    else Ok(Segment(id, seg.start.value, seg.end.value, PyText.Strip(seg.text.value)))
  }

  /** The specification of the segment loop: the raw segments converted in
      order with identifiers 1, 2, ..., stopping at the first `KeyError`. */
  function NormalizeSegments(raw: seq<RawSegment>): Result<seq<Segment>>
  {
    if raw == [] then Ok([])
    else
      match NormalizeSegments(raw[..|raw| - 1])
      case Err(m) => Err(m)
      case Ok(done) =>
        match NormalizeSegment(|raw|, raw[|raw| - 1])
        case Err(m) => Err(m)
        case Ok(seg) => Ok(done + [seg])
  }

  /** The segment loop (a `for` loop appending to a list), proved to compute
      `NormalizeSegments`. */
  method BuildSegments(raw: seq<RawSegment>) returns (r: Result<seq<Segment>>)
    ensures r == NormalizeSegments(raw)
  {
    var segments: seq<Segment> := [];
    var i := 0;
    while i < |raw|
      invariant 0 <= i <= |raw|
      invariant NormalizeSegments(raw[..i]) == Ok(segments)
    {
      var seg := raw[i];
      assert raw[..i + 1][..i] == raw[..i];
      if seg.start.None? || seg.end.None? || seg.text.None? {
        r := Err(KeyErrorMessage(MissingKey(seg)));
        ErrorPersists(raw, i + 1);
        return;
      }
      segments := segments + [Segment(i + 1, seg.start.value, seg.end.value, PyText.Strip(seg.text.value))];
      i := i + 1;
    }
    assert raw[..i] == raw;
    r := Ok(segments);
  }

  /** The whole normaliser: a missing `segments` key means no segments and a
      missing `language` key means "unknown". */
  function NormalizeResult(raw: RawResult): (r: Result<Transcript>)
    ensures raw.segments.None? ==> r == Ok(Transcript(raw.language.GetOr(UnknownLanguage), []))
    ensures r.Ok? && raw.language.None? ==> r.value.language == UnknownLanguage
    ensures r.Ok? && raw.language.Some? ==> r.value.language == raw.language.value
    ensures r.Ok? <==> forall k :: 0 <= k < |raw.segments.GetOr([])| ==> Complete(raw.segments.GetOr([])[k])
    ensures r.Ok? ==> NormalizeSegments(raw.segments.GetOr([])) == Ok(r.value.segments)
    ensures r.Ok? ==> |r.value.segments| == |raw.segments.GetOr([])|
    ensures r.Ok? ==> forall k :: 0 <= k < |r.value.segments| ==>
      var seg := raw.segments.value[k];
      Complete(seg) && r.value.segments[k] == Segment(k + 1, seg.start.value, seg.end.value, PyText.Strip(seg.text.value))
  {
    var segs := raw.segments.GetOr([]);
    NormalizeOkIff(segs);
    match NormalizeSegments(segs)
    case Err(m) => Err(m)
    case Ok(out) =>
      NormalizeShape(segs);
      Ok(Transcript(raw.language.GetOr(UnknownLanguage), out))
  }

  /** Once a prefix has raised, the loop raises the same error. */
  lemma {:induction false} ErrorPersists(raw: seq<RawSegment>, n: nat)
    requires n <= |raw| && NormalizeSegments(raw[..n]).Err?
    ensures NormalizeSegments(raw) == NormalizeSegments(raw[..n])
    decreases |raw|
  {
    if n == |raw| {
      assert raw[..n] == raw;
    } else {
      var init := raw[..|raw| - 1];
      assert init[..n] == raw[..n];
      ErrorPersists(init, n);
    }
  }

  /** The loop succeeds exactly when every raw segment has all three keys. */
  lemma {:induction false} NormalizeOkIff(raw: seq<RawSegment>)
    ensures NormalizeSegments(raw).Ok? <==> forall k :: 0 <= k < |raw| ==> Complete(raw[k])
  {
    if raw != [] {
      var init := raw[..|raw| - 1];
      NormalizeOkIff(init);
      assert NormalizeSegments(raw).Ok? <==> NormalizeSegments(init).Ok? && Complete(raw[|raw| - 1]);
      assert forall k :: 0 <= k < |init| ==> init[k] == raw[k];
    }
  }

  /** On success the output has one segment per input segment, in order: the
      segment at position k has id k + 1, the raw start and end times and the
      raw text with surrounding whitespace removed. */
  lemma {:induction false} NormalizeShape(raw: seq<RawSegment>)
    requires forall k :: 0 <= k < |raw| ==> Complete(raw[k])
    ensures NormalizeSegments(raw).Ok? && |NormalizeSegments(raw).value| == |raw|
    ensures forall k :: 0 <= k < |raw| ==>
      Complete(raw[k]) && NormalizeSegments(raw).value[k] == Segment(k + 1, raw[k].start.value, raw[k].end.value, PyText.Strip(raw[k].text.value))
  {
    NormalizeOkIff(raw);
    if raw != [] {
      var init, last := raw[..|raw| - 1], raw[|raw| - 1];
      assert forall k :: 0 <= k < |init| ==> init[k] == raw[k];
      NormalizeShape(init);
      var done := NormalizeSegments(init).value;
      var seg := Segment(|raw|, last.start.value, last.end.value, PyText.Strip(last.text.value));
      assert NormalizeSegment(|raw|, last) == Ok(seg);
      assert NormalizeSegments(raw) == Ok(done + [seg]);
      forall k | 0 <= k < |init|
        ensures (done + [seg])[k] == done[k]
      {
      }
    }
  }

  /** On failure the error is the `KeyError` of the first incomplete segment. */
  lemma NormalizeFirstError(raw: seq<RawSegment>, k: nat)
    requires k < |raw| && !Complete(raw[k])
    requires forall j :: 0 <= j < k ==> Complete(raw[j])
    ensures NormalizeSegments(raw) == Err(KeyErrorMessage(MissingKey(raw[k])))
  {
    var prefix := raw[..k + 1];
    assert prefix[..|prefix| - 1] == raw[..k] && prefix[|prefix| - 1] == raw[k];
    NormalizeOkIff(raw[..k]);
    assert NormalizeSegments(raw[..k]).Ok?;
    assert NormalizeSegment(k + 1, raw[k]) == Err(KeyErrorMessage(MissingKey(raw[k])));
    assert NormalizeSegments(prefix) == Err(KeyErrorMessage(MissingKey(raw[k])));
    ErrorPersists(raw, k + 1);
  }

  /** A response segment read back as a raw segment. */
  function ToRawSegment(seg: Segment): (raw: RawSegment)
    ensures Complete(raw)
  {
    RawSegment(Some(seg.startTime), Some(seg.endTime), Some(seg.text))
  }

  /** The response read back as a raw result. */
  function ToRaw(t: Transcript): (raw: RawResult)
    ensures raw.segments.Some? && |raw.segments.value| == |t.segments|
  {
    RawResult(Some(t.language),
      Some(seq(|t.segments|, k requires 0 <= k < |t.segments| => ToRawSegment(t.segments[k]))))
  }

  /** The segment loop is idempotent on its own output. */
  lemma NormalizeSegmentsIdempotent(raw: seq<RawSegment>, out: seq<Segment>, again: seq<RawSegment>)
    requires NormalizeSegments(raw) == Ok(out)
    requires |again| == |out| && forall k :: 0 <= k < |out| ==> again[k] == ToRawSegment(out[k])
    ensures NormalizeSegments(again) == Ok(out)
  {
    NormalizeOkIff(raw);
    NormalizeShape(raw);
    NormalizeShape(again);
    var redo := NormalizeSegments(again).value;
    forall k | 0 <= k < |out|
      ensures redo[k] == out[k]
    {
      var text := raw[k].text.value;
      assert out[k] == Segment(k + 1, raw[k].start.value, raw[k].end.value, PyText.Strip(text));
      assert again[k].text.value == PyText.Strip(text);
      PyText.StripIdempotent(text);
    }
    assert redo == out;
  }

  /** Normalisation is idempotent: normalising a normalised response, read back
      as a raw result, gives the same response. */
  lemma NormalizeIdempotent(raw: RawResult)
    requires NormalizeResult(raw).Ok?
    ensures NormalizeResult(ToRaw(NormalizeResult(raw).value)) == NormalizeResult(raw)
  {
    var t := NormalizeResult(raw).value;
    var again := ToRaw(t).segments.value;
    NormalizeSegmentsIdempotent(raw.segments.GetOr([]), t.segments, again);
  }

  /** The worked example of the service: `" hi "` in English between 0.0 s
      and 1.5 s becomes segment 1 with text `"hi"`. */
  lemma NormalizeExample()
    ensures NormalizeResult(RawResult(Some("en"),
              Some([RawSegment(Some(Seconds(0.0)), Some(Seconds(1.5)), Some(" hi "))])))
            == Ok(Transcript("en", [Segment(1, Seconds(0.0), Seconds(1.5), "hi")]))
  {
    var seg := RawSegment(Some(Seconds(0.0)), Some(Seconds(1.5)), Some(" hi "));
    assert " hi " == " " + "hi" + " ";
    PyText.StripExact(" ", "hi", " ");
    assert NormalizeSegment(1, seg) == Ok(Segment(1, Seconds(0.0), Seconds(1.5), "hi"));
    assert [seg][..0] == [];
    assert [] + [Segment(1, Seconds(0.0), Seconds(1.5), "hi")] == [Segment(1, Seconds(0.0), Seconds(1.5), "hi")];
    assert NormalizeSegments([seg]) == Ok([Segment(1, Seconds(0.0), Seconds(1.5), "hi")]);
  }
}
