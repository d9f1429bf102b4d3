/**
 * The `DiseaseDetection` screen (frontend/App.tsx): the picked image as a data URL, the
 * "analyzing" flag and the diagnosis text. `analyze` awaits the diagnosis service between its
 * two halves, so it is modelled as `BeginAnalyze`, which issues the call, and
 * `ReceiveDiagnosis`, which stores the answer.
 */
module Disease {
  import opened Wrappers
  import opened JsText
  import opened Requests

  datatype DetectionState = DetectionState(image: Option<string>, analyzing: bool, result: Option<string>)

  const InitialDetection := DetectionState(None, false, None)

  /** `if (!image)`: no image, or the empty string, which is falsy as well. */
  predicate NoImage(st: DetectionState)
    ensures NoImage(st) <==> st.image == None || st.image == Some("")
  {
    st.image.None? || st.image.value == ""
  }

  /** What the file input delivers: no file, or a file together with the reader's `result` at
      `onloadend`, which is the data URL, or `null` when the read failed. */
  datatype Pick = NoFile | Picked(read: Option<string>)

  /** `handleFileChange` once the reader has finished: nothing happens when no file was picked;
      otherwise the image becomes the reader's result (none after a failed read) and the earlier
      diagnosis is dropped. */
  function FileChanged(st: DetectionState, picked: Pick): (r: DetectionState)
    ensures picked.NoFile? ==> r == st
    ensures picked.Picked? ==> r.image == picked.read && r.result.None?
    ensures r.analyzing == st.analyzing
  {
    match picked
    case NoFile => st
    case Picked(read) => st.(image := read, result := None)
  }

  /** The close button on the preview: the image goes, the diagnosis stays. */
  function ImageRemoved(st: DetectionState): (r: DetectionState)
    ensures r.image.None? && r.result == st.result && r.analyzing == st.analyzing
  {
    st.(image := None)
  }

  /** "Analyze Another": both the image and the diagnosis go. */
  function Cleared(st: DetectionState): (r: DetectionState)
    ensures r.image.None? && r.result.None? && r.analyzing == st.analyzing
  {
    st.(image := None, result := None)
  }

  /** First half of `analyze`. */
  function Analyzing(st: DetectionState): (r: DetectionState)
    ensures NoImage(st) ==> r == st
    ensures !NoImage(st) ==> r.analyzing && r.image == st.image && r.result == st.result
  {
    if NoImage(st) then st else st.(analyzing := true)
  }

  /** Second half of `analyze`, when the service answers. */
  function Diagnosed(st: DetectionState, res: string): (r: DetectionState)
    ensures r.result == Some(res) && !r.analyzing && r.image == st.image
  {
    st.(result := Some(res), analyzing := false)
  }

  /** `analyze` when no other event happens while the call is pending: nothing without an
      image; with one it ends holding the reply as the diagnosis, no longer analyzing, with the
      image kept. */
  function Analyzed(st: DetectionState, res: string): (r: DetectionState)
    ensures NoImage(st) ==> r == st
    ensures !NoImage(st) ==> r == DetectionState(st.image, false, Some(res))
  {
    if NoImage(st) then st else Diagnosed(Analyzing(st), res)
  }

  /** What `analyze` sends: the text after the data URL's first comma, up to any next comma;
      `undefined` exactly when the URL has no comma. */
  function Payload(dataUrl: string): (r: Option<string>)
    ensures r.Some? <==> ',' in dataUrl
    ensures r.Some? ==> ',' !in r.value
    ensures r.Some? ==> |Split(dataUrl, ',')| > 1 && r.value == Split(dataUrl, ',')[1]
  {
    SplitLength(dataUrl, ',');
    Field(dataUrl, ',', 1)
  }

  /** A failed read leaves no image, so `analyze` is then ignored; the earlier diagnosis is
      gone all the same. */
  lemma FailedReadDisablesAnalyze(st: DetectionState, res: string)
    ensures NoImage(FileChanged(st, Picked(None)))
    ensures FileChanged(st, Picked(None)).result.None?
    ensures Analyzed(FileChanged(st, Picked(None)), res) == FileChanged(st, Picked(None))
  {
  }

  /** The screen never discards a late answer: if the image is closed and another one loaded
      while a diagnosis is pending, the pending answer is shown for the new image. */
  lemma LateDiagnosisLandsOnNewImage(st: DetectionState, dataUrl: string, res: string)
    requires !NoImage(st)
    ensures Diagnosed(FileChanged(ImageRemoved(Analyzing(st)), Picked(Some(dataUrl))), res) ==
            DetectionState(Some(dataUrl), false, Some(res))
  {
  }

  /** The close button keeps an earlier diagnosis, and a following `analyze` is ignored until a
      new file is loaded. */
  lemma RemoveKeepsResult(st: DetectionState, res: string)
    ensures ImageRemoved(st).result == st.result
    ensures Analyzed(ImageRemoved(st), res) == ImageRemoved(st)
  {
  }

  /** For a data URL `header,body` with no other comma, exactly the base64 body is sent. */
  lemma PayloadOfDataUrl(header: string, body: string)
    requires ',' !in header && ',' !in body
    ensures Payload(header + [','] + body) == Some(body)
  {
    var tail := [','] + body;
    SplitPrefix(header, tail, ',');
    SplitPiece(body, ',');
    assert tail[1..] == body;
    assert Split(tail, ',') == [[]] + Split(body, ',');
    assert Split(tail, ',') == [[], body];
    assert header + Split(tail, ',')[0] == header;
    assert header + [','] + body == header + tail;
    assert Split(header + tail, ',') == [header, body];
  }

  /** The live state of one `DiseaseDetection` instance. */
  class DiseaseDetection {
    var image: Option<string>
    var analyzing: bool
    var result: Option<string>

    function State(): DetectionState
      reads this
    {
      DetectionState(image, analyzing, result)
    }

    constructor ()
      ensures State() == InitialDetection
      ensures image == None && !analyzing && result == None
    {
      image := None;
      analyzing := false;
      result := None;
    }

    /** `handleFileChange`, with the reader's outcome as `picked`. */
    method HandleFileChange(picked: Pick)
      modifies this
      ensures picked.NoFile? ==> image == old(image) && result == old(result)
      ensures picked.Picked? ==> image == picked.read && result == None
      ensures analyzing == old(analyzing)
      ensures State() == FileChanged(old(State()), picked)
    {
      if picked.Picked? {
        image := picked.read;
        result := None;
      }
    }

    method RemoveImage()
      modifies this
      ensures image == None && analyzing == old(analyzing) && result == old(result)
      ensures State() == ImageRemoved(old(State()))
    {
      image := None;
    }

    method AnalyzeAnother()
      modifies this
      ensures image == None && analyzing == old(analyzing) && result == None
      ensures State() == Cleared(old(State()))
    {
      image := None;
      result := None;
    }

    /** Returns the diagnosis call issued, or `None` when there is no image. */
    method BeginAnalyze() returns (call: Option<DiagnosisCall>)
      modifies this
      ensures State() == Analyzing(old(State()))
      ensures call == if NoImage(old(State())) then None else Some(DiagnosisCall(Payload(old(image).value)))
    {
      if image.None? || image.value == "" {
        return None;
      }
      analyzing := true;
      call := Some(DiagnosisCall(Field(image.value, ',', 1)));
    }

    method ReceiveDiagnosis(res: string)
      modifies this
      ensures result == Some(res) && !analyzing && image == old(image)
      ensures State() == Diagnosed(old(State()), res)
    {
      result := Some(res);
      analyzing := false;
    }

    /** `analyze` run to completion with `res` as the service's answer. */
    method Analyze(res: string) returns (call: Option<DiagnosisCall>)
      modifies this
      ensures State() == Analyzed(old(State()), res)
      ensures call == if NoImage(old(State())) then None else Some(DiagnosisCall(Payload(old(image).value)))
    {
      call := BeginAnalyze();
      if call.Some? {
        ReceiveDiagnosis(res);
      }
    }
  }
}
