# Grammar Scoring Engine: feature resolution and score pipeline

A Dafny model of the decision logic in the upload handler of the
Grammar Scoring Engine, a Streamlit app that scores the grammar of an
uploaded voice sample. When a file is uploaded, the handler:

1. looks the file's basename up in the reference `filenames` array. On a
   hit, it takes the first matching index and reuses that row of the
   reference feature matrix `X`, and no audio is decoded;
2. otherwise, it runs the acoustic feature extractor on the upload and
   forces the result to the reference width `L = X.shape[1]`. A shorter
   vector is right-padded with zeros and a longer one is cut to its first
   `L` values;
3. passes the vector once to the pretrained model, clamps the prediction
   into [0, 5] with `min(max(pred, 0), 5)` and rescales it to a percentage.

The model is pure: every step is a Dafny function, and the properties are
contracts and lemmas. The feature extractor and `model.predict` are
function-typed parameters (`Extractor`, `Predictor`) about which nothing is
assumed. Feature values and predictions are `real`.

Files:
- `wrappers.dfy` — `Option` and `Result`.
- `lookup.dfy` (module `ReferenceLookup`) — `name in filenames` and `np.where(filenames == name)[0][0]`.
- `reconcile.dfy` (module `FeatureReconcile`) — padding and slicing to the reference width.
- `score.dfy` (module `GrammarScore`) — clamping and the percentage.
- `upload.dfy` (module `UploadHandler`) — the reference table, the two paths, and the whole handler.

Two facts about the source shape the lookup path:
- `filenames` is never checked for duplicates; the handler takes the first match (`np.where(...)[0][0]`). `FirstMatchIndexUnique` shows that this is the only match when the names are pairwise distinct.
- `filenames` and `X` are loaded as separate arrays and their lengths are never compared. A name whose first index has no row in `X` raises `IndexError`, which the model returns as `RowMissing`.

## Model

| member | source | states |
|---|---|---|
| `ReferenceLookup.MatchIndices` | app.py:187 | `np.where(filenames == name)[0]`: the result lists every index that holds `name` and nothing else, in strictly ascending order |
| `ReferenceLookup.MatchIndicesNonEmpty` | app.py:186-187 | `name in filenames` holds exactly when `np.where` finds at least one index |
| `ReferenceLookup.FirstMatchIndex` | app.py:186-187 | when `name` occurs, the chosen index holds `name` and no smaller index does (first match) |
| `ReferenceLookup.FirstMatchIndexUnique` | app.py:186-187 | if the filenames are pairwise distinct, the first match is the index where the name occurs |
| `FeatureReconcile.Zeros` | app.py:195 | the padding fill has the requested length and is zero everywhere |
| `FeatureReconcile.PadRight` | app.py:195 | `np.pad(v, (0, k))` has length `|v| + k`, keeps `v` as its prefix, and holds zeros after it |
| `FeatureReconcile.SliceTo` | app.py:197 | the slice `v[:L]` has length `min(L, |v|)` and agrees with `v` at every position |
| `FeatureReconcile.Reconcile` | app.py:194-197 | the result has length exactly `L`; if `n < L` it is `v` followed by `L - n` zeros; if `n >= L` it is the first `L` values of `v`; if `n == L` it is `v` unchanged |
| `FeatureReconcile.ReconcileMatchesPointwise` | app.py:194-197 | pad-or-slice equals the position-by-position definition: `v[i]` where `v` has a value, `0` past its end, for any vector and width |
| `FeatureReconcile.ReconcileKeepsPrefix` | app.py:194-197 | every computed value whose position is below `L` stays at that position |
| `FeatureReconcile.ReconcilePrefixRelation` | app.py:194-197 | when `n <= L` the result is `v` plus zeros; when `L <= n`, `v` is the result followed by the discarded tail |
| `GrammarScore.PyMax` | app.py:204 | Python's `max` of two values is at least both and is one of them |
| `GrammarScore.PyMin` | app.py:204 | Python's `min` of two values is at most both and is one of them |
| `GrammarScore.ClampScore` | app.py:204 | the score lies in [0, 5]; it is the prediction when that is in [0, 5], `0` below, and `5` above |
| `GrammarScore.Percentage` | app.py:205 | the percentage is `score * 20` and lies in [0, 100] for a score in [0, 5] |
| `GrammarScore.ClampScoreIsNearest` | app.py:204 | the clamped score is the point of [0, 5] closest to the prediction |
| `GrammarScore.ClampScoreMonotone` | app.py:204 | a higher prediction never gives a lower score |
| `GrammarScore.PercentageOfPrediction` | app.py:204-205 | the displayed percentage lies in [0, 100] and does not decrease as the prediction grows |
| `UploadHandler.Resolve` | app.py:186-197 | the vector has length exactly `X.shape[1]` on both paths. A hit returns row `X[idx]` unmodified, where `idx` is the first index holding the name. A miss returns the extractor's vector zero-extended or cut, tagged with its raw length. Decoding failure happens exactly when the name is absent and the audio cannot be decoded. `RowMissing` happens only when the first match has no row in `X`, and never when `X` has a row for every name |
| `UploadHandler.HandleUpload` | app.py:186-205 | fails exactly when resolution fails. Otherwise the prediction is the model applied to the resolved vector, which has the reference width. The score is the clamped prediction in [0, 5], and the percentage is `score * 20`, in [0, 100] |
| `UploadHandler.LookupIgnoresAudio` | app.py:186-193 | on a filename hit, neither the audio bytes nor the extractor affect the result, so extraction is not used |
| `UploadHandler.ComputedSeesOnlyExtraction` | app.py:190-197 | on a miss, the upload affects the result only through the vector the extractor returns for it |
| `UploadHandler.KnownSampleUsesStoredRow` | app.py:186-188 | a table holding `sample1.wav` with a 31-value row: uploading that name yields exactly that row at index 0, whatever the audio |
| `UploadHandler.UnknownShortUploadIsPadded` | app.py:193-195 | an unknown upload whose extractor yields 25 values, with width 31, gives those 25 values followed by six zeros |
| `UploadHandler.OverlargePredictionShowsFullScore` | app.py:204-205 | a prediction of 7.2 is shown as score 5 and 100 percent |

## Left out

- Page configuration, CSS and HTML markup, the placeholder and info widgets, `st.audio`, and the meter rendering (app.py:8-146, 182-184, 191, 199, 206-220): presentation only.
- Loading `X`, `y`, `filenames` and the model with `np.load` / `joblib.load`, and the process-wide `@st.cache_resource` cache (app.py:151-159): file I/O and caching. The loaded arrays are the `ReferenceTable` input. The labels `y` are loaded but never used by the handler, so they are not modelled.
- `extract_librosa_features` (app.py:164-174): audio decoding and floating-point signal processing in librosa. It is the opaque `Extractor` parameter, which returns a vector of any length or `None` when the bytes do not decode. The 16 kHz sample rate, the 13 MFCCs and the five spectral statistics are not modelled.
- `model.predict` (app.py:189, 198): a pretrained XGBoost model, here the opaque `Predictor` parameter. The one-row batch (`reshape(1, -1)`, `[feats]`) and the `[0]` that takes its single result are folded into one call on one vector.
- `time.sleep(1.2)` (app.py:192): a cosmetic delay.
- `os.path.basename` (app.py:183): the basename is the `name` input.
- The `:.2f` and `:.0f` display formatting (app.py:206, 211-212): rounding for presentation.
- Floating point: values are reals, so there is no rounding, no NaN and no signed zero. A NaN prediction would pass through Python's `min(max(...))` unclamped; the real-valued model cannot show this.
- The `if file:` guard (app.py:181): the model starts from an upload that is present.
