# Deepfake detective: score normaliser and ensemble verdict, in Dafny

A Dafny model of the decision logic of the image-scanning endpoint of the
deepfake-detection backend (`backend_api/app/main.py`). The endpoint asks two
pretrained image classifiers about an uploaded image: a face-swap detector
("Vigilante-V2") and a generated-image detector ("Sentinel-X"). It folds each
classifier's list of `(label, score)` pairs into one fake probability. It then
takes the larger of the two as the final risk in percent and answers FAKE or
REAL, with a confidence score and a one-line analysis.

Modules:

- `Labels` (`labels.dfy`): lowercasing of labels and the two label tables.
  The fake table is `fake`, `deepfake`, `artificial`, `label_1`; the real table
  is `real`, `natural`, `label_0`.
- `Normalizer` (`normalizer.dfy`): `get_fake_probability` as a left fold over
  an immutable sequence of predictions (`FakeProbability`), the same loop as a
  method (`GetFakeProbability`), and lemmas saying which entry decides the
  result.
- `Ensemble` (`ensemble.dfy`): final risk, verdict, display flip and headline
  choice, with threshold, monotonicity and range lemmas.
- `Endpoint` (`endpoint.dfy`): `scan_image` as a function. It covers the guard
  for a detector that did not load, the exception path, and the scored report.

Scores are Dafny `real`, so the arithmetic is exact. Detectors are opaque total
functions from an image to either a prediction list or a raised exception.

What the code does:

- One accumulator starts at 0.0. A fake-table entry overwrites it with its
  score. A real-table entry writes `1 - score` only while the accumulator is 0.
  With no recognised label the result is 0.0.
- The two scores are combined by a plain maximum. Scores 0.6 and 0.4 give a
  risk of 60 and FAKE. Two outputs with no recognised label give REAL at 100.
- Exactly one analysis line is chosen, by priority. Under FAKE: the swap line,
  then the generation line, then the ensemble line. Under REAL: the verified
  line.

Case-insensitivity is stated by `Labels.UpperIsCaseChange` and
`Normalizer.CaseInsensitive`; `Labels.ClassifyIgnoresCase` only records that
classification looks at the lowercase form alone.

## Model

| member | source | states |
|---|---|---|
| `Labels.Classify` | backend_api/app/main.py:49-57 | a label is classified fake iff it equals a fake-table entry up to case, and real iff it equals a real-table entry up to case |
| `Labels.ClassifyIgnoresCase` | backend_api/app/main.py:49 | two labels that differ only in letter case are classified alike |
| `Labels.UpperIsCaseChange` | backend_api/app/main.py:49 | uppercasing a label leaves its lowercase form, and so its table lookup, unchanged |
| `Labels.TablesLowercaseAndDisjoint` | backend_api/app/main.py:53-57 | every table entry is lowercase, so reachable, and no label is in both tables, so the fake-first order of the checks never matters |
| `Labels.ClassifyExamples` | backend_api/app/main.py:49-57 | "FAKE" and "LABEL_1" are fake labels, "Natural" and "LABEL_0" real ones |
| `Labels.UnrecognisedExamples` | backend_api/app/main.py:49-57 | "fakes" and the empty label match neither table |
| `Normalizer.Step` | backend_api/app/main.py:49-58 | one entry leaves the accumulator as it was or sets it to the entry's score or its complement; an unrecognised label leaves it unchanged; a probability stays a probability |
| `Normalizer.Fold` | backend_api/app/main.py:47-60 | starting from an accumulator in [0,1], a list whose scores all lie in [0,1] ends with an accumulator in [0,1] |
| `Normalizer.FakeProbability` | backend_api/app/main.py:45-60 | if every score lies in [0,1], the fake probability lies in [0,1] |
| `Normalizer.GetFakeProbability` | backend_api/app/main.py:45-60 | the loop as written (lowercase, fake table first, real table only while the accumulator is 0) computes the fold |
| `Normalizer.NonzeroSurvives` | backend_api/app/main.py:57-58 | once the accumulator is nonzero, entries without a fake label never change it |
| `Normalizer.LastFakeWins` | backend_api/app/main.py:53-58 | if the last fake-table entry has score s != 0, the result is s, whatever real entries come before or after it |
| `Normalizer.RealFallback` | backend_api/app/main.py:53-58 | when there is no fake entry, or the last one has score 0, the result is 1 - score of the first later real entry whose score is not 1 |
| `Normalizer.ZeroWithoutEvidence` | backend_api/app/main.py:47-60 | when there is no fake entry, or the last one has score 0, and no later real entry has a score other than 1, the result is 0 |
| `Normalizer.UnrecognisedYieldsZero` | backend_api/app/main.py:47-60 | an empty list, or one with no label of either table, yields 0.0 |
| `Normalizer.SoleRealEntry` | backend_api/app/main.py:57-58 | a single real-table entry with score s and no fake entry yields 1 - s |
| `Normalizer.RealEntryFillsOnlyZero` | backend_api/app/main.py:57-58 | a real-table entry changes the accumulator only when it is 0, and then sets it to 1 - score |
| `Normalizer.UnrecognisedIgnored` | backend_api/app/main.py:48-59 | dropping every entry with a label of neither table leaves the result unchanged |
| `Normalizer.CaseInsensitive` | backend_api/app/main.py:49 | two lists with equal scores and labels equal up to case give the same result |
| `Normalizer.UppercaseLabelsSameResult` | backend_api/app/main.py:49 | uppercasing every label leaves the fake probability unchanged |
| `Normalizer.NormaliserExamples` | backend_api/app/main.py:45-60 | empty list gives 0; real 0.2 then fake 0.6 gives 0.6 (the later fake entry overrides); fake 0.3 then real 0.4 gives 0.3 (the earlier fake entry keeps the real one out); a lone real 0.2 gives 0.8; fake 0.0 then real 1.0 gives 0; an unknown label gives 0 |
| `Ensemble.FinalScore` | backend_api/app/main.py:86 | the final risk is one of the two scores times 100 and is at least each of them times 100 |
| `Ensemble.Decide` | backend_api/app/main.py:87 | the verdict on a risk is FAKE or REAL, never ERROR, and a risk of exactly 50 is REAL |
| `Ensemble.VerdictOf` | backend_api/app/main.py:86-87 | the verdict is FAKE iff either score is above 0.5, and REAL iff both are at most 0.5 |
| `Ensemble.VerdictThreshold` | backend_api/app/main.py:86-87 | the verdict is FAKE iff the final risk is above 50; a risk of exactly 50 gives REAL; never ERROR |
| `Ensemble.VerdictMonotone` | backend_api/app/main.py:86-87 | raising either score never turns FAKE into REAL |
| `Ensemble.DisplayIsDistanceFromThreshold` | backend_api/app/main.py:87-93 | the shown score is 50 + abs(risk - 50), so never below 50, and exactly 50 only when the risk is 50 |
| `Ensemble.DisplayScore` | backend_api/app/main.py:87-93 | under the decided verdict the shown score is at least 50, and the verdict with the shown score gives back the risk (risk = shown under FAKE, 100 - shown under REAL), so the flip loses nothing |
| `Ensemble.DisplayRange` | backend_api/app/main.py:86-93 | with both scores in [0,1], the shown score lies in [50,100] |
| `Ensemble.Headline` | backend_api/app/main.py:96-104 | the verified line iff the verdict is not FAKE; the swap line only with swap > 0.9; the generation line only with swap <= 0.9 < gen; the ensemble line only with both <= 0.9 |
| `Ensemble.HeadlineByScores` | backend_api/app/main.py:96-104 | swap line iff swap > 0.9; generation line iff swap <= 0.9 and gen > 0.9; ensemble line iff FAKE with neither above 0.9; verified line iff REAL |
| `Endpoint.SwapExample` | backend_api/app/main.py:86-110 | scores 0.95 and 0.10 give FAKE, confidence 95, swap headline; 0.5 and 0.95 give FAKE, 95, generation headline |
| `Endpoint.MaxNotBlendExample` | backend_api/app/main.py:86-110 | scores 0.6 and 0.4 give FAKE, confidence 60, ensemble headline |
| `Endpoint.RealExamples` | backend_api/app/main.py:86-110 | scores 0.3 and 0.2 give REAL, confidence 70; 0.5 and 0.5 give REAL, 50; 0 and 0 give REAL, 100; all with the verified headline |
| `Endpoint.Report` | backend_api/app/main.py:86-110 | the scored response: FAKE iff either score is above 0.5; confidence equal to the risk under FAKE and to 100 - risk under REAL; swap line iff swap > 0.9, generation line iff swap <= 0.9 < gen, ensemble line iff FAKE with both <= 0.9, verified line iff REAL |
| `Endpoint.ScanImage` | backend_api/app/main.py:67-114 | a missing detector gives ERROR with no score whatever the upload; a failed upload gives ERROR with its message; ERROR is exactly the response without a score; any score shown is at least 50 |
| `Endpoint.ScanVerdict` | backend_api/app/main.py:76-110 | when nothing raises, the response is the report on the two normalised detector outputs: FAKE iff either is above 0.5, confidence 50 + abs(risk - 50), headline by priority |
| `Endpoint.ScanConfidenceRange` | backend_api/app/main.py:76-93 | when nothing raises and every detector score lies in [0,1], the shown confidence lies in [50,100] |
| `Endpoint.ScanExceptionOrder` | backend_api/app/main.py:76-77 | an exception from the swap detector is reported before the generation detector is consulted; otherwise the generation detector's exception is reported |
| `Endpoint.UnrecognisedLabelsScanReal` | backend_api/app/main.py:47-104 | two detector outputs with no recognised label give REAL, confidence 100, verified headline |

## Left out

- FastAPI application setup, CORS, routing and the uvicorn entry point: framework plumbing with no decision logic.
- Loading the two pipelines: a failed load is modelled only by its outcome, an absent detector.
- The classifiers themselves: opaque ML inference, modelled as arbitrary functions from an image to predictions or an exception.
- Reading and decoding the upload with PIL: modelled as an image or an exception message; the decoder itself is not modelled.
- The `/scan-video/` endpoint: a stub returning a fixed response.
- Text formatting of percentages (one and two decimals) and the log prints: the model keeps the numeric score and an enumerated headline.
- Floating-point rounding: scores are exact reals, so a sum such as `1.0 - score` or `max * 100` is exact and the `> 50` comparison sees no rounding. The verdict and headline can therefore differ from the program when a score lies within rounding of 0.5 or 0.9: for a real-label score of 0.49999999999999994, the double `1.0 - score` rounds to 0.5, so the program answers REAL where the model answers FAKE; and the double literal `0.9` lies slightly above nine tenths.
- A prediction whose label is not a string or which lacks a key: Python would raise inside the catch-all; the model's prediction type always has both fields.
- Full Unicode lowercasing: `Labels.Lower` maps ASCII capitals and the Kelvin sign, and keeps every other character. Python lowercases every other non-ASCII character to a string containing a non-ASCII character, which matches no table entry, so `Labels.Classify` recognises exactly the labels the source recognises.
- `backend_api/debug_brain.py` and the unused `app/services` modules (a torch model loader, an OpenCV face and frame extractor, a yt-dlp video downloader): none is called by the endpoint.
