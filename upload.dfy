/**
 * The upload handler of the grammar-scoring app (app.py:181-205), with the
 * audio feature extractor and the pretrained model as opaque parameters.
 *
 * On an upload, the basename is looked up in the reference `filenames`;
 * a hit reuses row `X[idx]` of the reference matrix, a miss runs the
 * extractor and reconciles its output to the reference width. The vector
 * goes to the model once, and its prediction is clamped and rescaled for
 * display.
 */
module UploadHandler {
  import opened Wrappers
  import ReferenceLookup
  import FeatureReconcile
  import GrammarScore

  /** The uploaded file's raw bytes. */
  type Audio = seq<bv8>

  /**
   * Decoding and feature extraction (`extract_librosa_features`): a vector
   * of any length, or `None` when the bytes are not decodable audio.
   */
  type Extractor = Audio -> Option<seq<real>>

  /** `model.predict` on a single feature vector. */
  type Predictor = seq<real> -> real

  /**
   * The artifacts loaded at start-up: `filenames`, the rows of the 2-D
   * matrix `X`, and its column count `X.shape[1]`. Nothing ties the number
   * of names to the number of rows.
   */
  datatype ReferenceTable = ReferenceTable(names: seq<string>, rows: seq<seq<real>>, width: nat)
  {
    /** `X` is a 2-D array: every row has `width` columns. */
    predicate Valid()
    {
      forall i :: 0 <= i < |rows| ==> |rows[i]| == width
    }
  }

  /** Which path produced the feature vector. */
  datatype Origin = Lookup(index: nat) | Computed(rawLength: nat)

  datatype Resolution = Resolution(features: seq<real>, origin: Origin)

  /**
   * Failures that propagate out of the handler: the upload could not be
   * decoded, or the first matching name has no row in `X` (an `IndexError`).
   */
  datatype Error = Undecodable | RowMissing(index: nat)

  /** The feature vector handed to the model for an upload named `name` (app.py:186-197). */
  function Resolve(t: ReferenceTable, name: string, audio: Audio, extract: Extractor): (r: Result<Resolution, Error>)
    requires t.Valid()
    ensures r.Success? ==> |r.value.features| == t.width
    ensures r.Success? && r.value.origin.Lookup? ==>
      var i := r.value.origin.index;
      && i < |t.names| && i < |t.rows|
      && t.names[i] == name
      && (forall j :: 0 <= j < i ==> t.names[j] != name)
      && r.value.features == t.rows[i]
    ensures r.Success? && r.value.origin.Computed? ==>
      && name !in t.names
      && extract(audio).Some?
      && r.value.origin.rawLength == |extract(audio).value|
      && r.value.features == FeatureReconcile.ZeroExtendOrCut(extract(audio).value, t.width)
    ensures r.Failure? && r.error.RowMissing? ==>
      && name in t.names
      && r.error.index == ReferenceLookup.FirstMatchIndex(t.names, name)
      && |t.rows| <= r.error.index
    ensures r.Failure? && r.error.Undecodable? <==> name !in t.names && extract(audio).None?
    ensures name in t.names && |t.names| <= |t.rows| ==> r.Success? && r.value.origin.Lookup?
  {
    if name in t.names then
      var idx := ReferenceLookup.FirstMatchIndex(t.names, name);
      if idx < |t.rows| then Success(Resolution(t.rows[idx], Lookup(idx)))
      else Failure(RowMissing(idx))
    else
      match extract(audio)
      case None => Failure(Undecodable)
      case Some(feats) =>
        Success(Resolution(FeatureReconcile.Reconcile(feats, t.width), Computed(|feats|)))
  }

  /** What the handler displays: the raw prediction, the clamped score and its percentage. */
  datatype Report = Report(resolution: Resolution, prediction: real, score: real, percentage: real)

  /** The whole handler: resolve the features, predict once, clamp and rescale (app.py:186-205). */
  function HandleUpload(t: ReferenceTable, name: string, audio: Audio, extract: Extractor, predict: Predictor)
    : (r: Result<Report, Error>)
    requires t.Valid()
    ensures r.Failure? <==> Resolve(t, name, audio, extract).Failure?
    ensures r.Failure? ==> r.error == Resolve(t, name, audio, extract).error
    ensures r.Success? ==>
      && r.value.resolution == Resolve(t, name, audio, extract).value
      && |r.value.resolution.features| == t.width
      && r.value.prediction == predict(r.value.resolution.features)
      && 0.0 <= r.value.score <= GrammarScore.MaxScore
      && r.value.score == GrammarScore.ClampScore(r.value.prediction)
      && 0.0 <= r.value.percentage <= 100.0
      && r.value.percentage == r.value.score * 20.0
  {
    match Resolve(t, name, audio, extract)
    case Failure(e) => Failure(e)
    case Success(res) =>
      var pred := predict(res.features);
      var score := GrammarScore.ClampScore(pred);
      Success(Report(res, pred, score, GrammarScore.Percentage(score)))
  }

  /**
   * A hit in the reference names never consults the upload: neither the
   * audio bytes nor the extractor affect the result.
   */
  lemma LookupIgnoresAudio(t: ReferenceTable, name: string, a1: Audio, a2: Audio, e1: Extractor, e2: Extractor)
    requires t.Valid() && name in t.names
    ensures Resolve(t, name, a1, e1) == Resolve(t, name, a2, e2)
  {
  }

  /** On a miss the upload is seen only through what the extractor returns for it. */
  lemma ComputedSeesOnlyExtraction(t: ReferenceTable, name: string, a1: Audio, a2: Audio, e1: Extractor, e2: Extractor)
    requires t.Valid() && name !in t.names
    requires e1(a1) == e2(a2)
    ensures Resolve(t, name, a1, e1) == Resolve(t, name, a2, e2)
  {
  }

  /**
   * A reference table holding `sample1.wav` with a 31-value row: uploading
   * a file of that name yields that row, whatever the file contains.
   */
  lemma KnownSampleUsesStoredRow(row: seq<real>, audio: Audio, extract: Extractor)
    requires |row| == 31
    ensures
      var t := ReferenceTable(["sample1.wav"], [row], 31);
      Resolve(t, "sample1.wav", audio, extract) == Success(Resolution(row, Lookup(0)))
  {
  }

  /**
   * An unknown upload whose extractor yields 25 values, against width 31:
   * the model sees those 25 values followed by six zeros.
   */
  lemma UnknownShortUploadIsPadded(t: ReferenceTable, name: string, audio: Audio, extract: Extractor, v: seq<real>)
    requires t.Valid() && t.width == 31 && name !in t.names
    requires extract(audio) == Some(v) && |v| == 25
    ensures Resolve(t, name, audio, extract).Success?
    ensures Resolve(t, name, audio, extract).value.features == v + [0.0, 0.0, 0.0, 0.0, 0.0, 0.0]
  {
  }

  /** A model that predicts 7.2 is displayed as the full score of 5, i.e. 100 percent. */
  lemma OverlargePredictionShowsFullScore(t: ReferenceTable, name: string, audio: Audio, extract: Extractor)
    requires t.Valid()
    requires Resolve(t, name, audio, extract).Success?
    ensures
      var r := HandleUpload(t, name, audio, extract, _ => 7.2);
      r.Success? && r.value.score == 5.0 && r.value.percentage == 100.0
  {
  }
}
