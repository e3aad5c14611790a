# Image matcher: score-to-decision layer

This project models the decision logic of a CLIP-based image matcher. A query
image is compared with a list of candidate images. The embedding model scores
each candidate by cosine similarity. The matcher then picks the best candidate
and turns its raw score into a verdict for the user.

- `engine.dfy` (module `Engine`) models `ImageComparator.find_best_match`.
  The embedding model's `encode` is a function parameter that may fail.
  Cosine similarity is a function parameter `sim`. The model covers batch
  encoding, the score list in candidate order, the argmax (first maximum on
  ties, as torch's `argmax` does) and the `(-1, 0.0, [])` failure triple. An
  empty candidate list takes the failure path, because an empty batch makes
  the library calls raise.
- `app.dfy` (module `App`) models `get_human_score`, the three-way verdict on
  the human score, the integer bar `int(h_score)` drawn for every candidate,
  and the verdict the page shows for the winner.
- `cli.dfy` (module `Cli`) models the command-line verdict on one raw score.
  It also holds two lemmas that compare that verdict with the page's verdict.

Scores are Dafny `real`s, so the arithmetic is exact.

The calibration is not monotone across its floor of 0.60. Raw scores just under
0.60 map to almost 10, while 0.60 itself maps to 0. As a result a winning
candidate's bar can be shorter than a loser's (`App.WinnerBarCanBeShorter`).
The verdict bands are monotone in the raw score, though, so the winner's
verdict is always the best in the list (`App.WinnerVerdictIsBest`).

The comment at src/app.py:23 says raw 0.95 gives 95%. The formula gives 87.5.
The model follows the formula (`App.WorkedExamples`).

The floor is the constant 0.60 at src/app.py:14, and the model fixes it at the
same value (`App.Threshold`).

## Model

| member | source | states |
|---|---|---|
| `Engine.ArgMax` | src/engine.py:29 | the index is in range, its score is at least every score, and every earlier score is strictly smaller (first maximum on ties) |
| `Engine.ArgMaxIsTheFirstMax` | src/engine.py:29-30 | an index is the first maximal one exactly when it is the index ArgMax picks |
| `Engine.EncodeAll` | src/engine.py:19-23 | batch encoding succeeds iff every image encodes; on success it gives one embedding per image, in order, each the image's own |
| `Engine.FindBestMatch` | src/engine.py:12-37 | index −1 iff the score list is empty, iff the query fails to encode, a candidate fails to encode or there are no candidates; failure gives exactly (−1, 0.0, []); on success the index is in range, the list has one score per candidate and entry i is sim(query, candidate i), the best score is the entry at the index, not below any entry, and above every earlier one |
| `App.HumanScore` | src/app.py:6-25 | the score is never negative; a raw score of 0 or below gives 0; below the 0.60 floor it is under 10; the floor gives 0, raw 1 gives 100, and any raw score up to 1 gives at most 100 |
| `App.WorkedExamples` | src/app.py:22-25 | raw 0.80 gives 50; raw 0.95 gives 87.5 (not the 95 of the comment), which is still an exact match |
| `App.MonotoneBelowFloor` | src/app.py:16-19 | below the floor the score does not decrease as the raw score grows |
| `App.MonotoneFromFloor` | src/app.py:24-25 | from the floor up the score grows strictly with the raw score |
| `App.DropAtFloor` | src/app.py:16-25 | every positive raw score below the floor scores higher than the floor itself, so the map is not monotone across the floor |
| `App.HumanVerdict` | src/app.py:105-110 | exact iff the score is above 85, similar iff it is in (60, 85], no match iff it is at most 60; boundaries fall into the lower band |
| `App.VerdictOfRaw` | src/app.py:105-110 | through the calibration: exact iff raw > 0.94, similar iff 0.84 < raw ≤ 0.94, no match iff raw ≤ 0.84, and every raw score below the floor is no match |
| `App.VerdictMonotone` | src/app.py:105-110 | a higher raw score never gets a worse verdict |
| `App.TruncateToInt` | src/app.py:122 | `int()` truncates toward zero: for a non-negative value the result is the largest integer not above it, for a negative value the smallest integer not below it |
| `App.BarInRange` | src/app.py:115-122 | for every cosine score in [−1, 1] the bar value int(h_score) lies in 0..100 |
| `App.WinnerVerdict` | src/app.py:87-110 | any verdict better than no match comes from a successful match; a failed match (score 0.0) shows no match |
| `App.WinnerVerdictIsBest` | src/app.py:87-110 | the winner's verdict ranks at least as high as the verdict of every candidate in the score list |
| `App.WinnerBarCanBeShorter` | src/app.py:115-122 | with raw scores [0.59, 0.6] the second candidate wins, yet its human score is lower than the first candidate's |
| `Cli.RawVerdict` | main.py:26-31 | match iff the score is above 0.85, similar iff it is in (0.65, 0.85], different iff it is at most 0.65; boundaries fall into the lower band |
| `Cli.WebNoMoreGenerousThanCli` | main.py:26-31 | for every raw score, the page's verdict ranks no higher than the command line's verdict |
| `Cli.CliMatchMayBeWebSimilar` | main.py:26-31 | raw 0.9 is a match on the command line but only similar on the page |

## Left out

- The Streamlit page (src/app.py:28-103, 113-125): layout, uploads, thumbnails, spinners and message widgets are UI. This includes the winner's thumbnail `candidate_images[best_idx]`, which after a failure shows the last image.
- The FastAPI service (src/api.py): endpoints, image decoding, base64 and file reads are I/O. It also uses a search engine class that src/engine.py does not define.
- Model loading and internals: `SentenceTransformer` and its `encode` are the `encode` parameter. `util.cos_sim` is the `sim` parameter. Embedding values are not modelled.
- Engine.EncodeAll: the single batch call `encode(candidate_images)` at src/engine.py:22 is modelled as the single-image `encode` applied to each image. A batch that fails as a whole while every image would encode alone is not modelled, and neither is a batch call that fails differently from the single-image call on the same image.
- Engine.FindBestMatch: `sim` is total. A failure inside `cos_sim` itself, such as mismatched embedding sizes, is not modelled. Only encoding failures and an empty candidate list lead to the failure triple.
- Floating point: scores are exact reals. IEEE-754 rounding, NaN, and the `:.1f`, `:.3f` and `:.4f` formatting are left out.
- The comparison call in main.py:19 (`comparator.compare`) is not defined by src/engine.py. The command-line verdict therefore takes the score as a parameter.
- Logging: the `print` calls in src/engine.py and main.py.
- The vector store, stale-reference top-K retrieval, face-identity routing, the ambiguity flag and snapshot/restore have no code in these files and are not part of this model.
