/** The /scan-image/ handler scan_image of backend_api/app/main.py, minus
    HTTP, image decoding and text formatting.

    The two detectors are the pipelines loaded at start-up; either may be
    missing when loading failed. A present detector is an opaque function
    from an image to a list of predictions, which may raise. Reading and
    decoding the upload may raise too. Any exception becomes an ERROR
    response carrying its message.
 */
module Endpoint {
  import opened Normalizer
  import opened Ensemble
  import Labels

  datatype Option<T> = None | Some(value: T)

  /** A computation that either returns a value or raises with a message. */
  datatype Attempt<T> = Ok(value: T) | Raised(message: string)

  /** A loaded image-classification pipeline. */
  type Detector<!I> = I -> Attempt<seq<Prediction>>

  /** The response dictionary: ERROR responses have no confidence score. */
  datatype Response = Response(verdict: Verdict, confidence: Option<real>, analysis: Analysis)

  /** The response built from the two normalised scores. */
  function Report(swap: real, gen: real): (r: Response)
    ensures r.verdict == Fake <==> swap > 0.5 || gen > 0.5
    ensures r.verdict == Real <==> swap <= 0.5 && gen <= 0.5
    ensures r.confidence.Some?
    ensures r.confidence.value == 50.0 + Abs(FinalScore(swap, gen) - 50.0)
    ensures r.verdict == Fake ==> r.confidence.value == FinalScore(swap, gen)
    ensures r.verdict == Real ==> r.confidence.value == 100.0 - FinalScore(swap, gen)
    ensures r.analysis == SwapDetected <==> swap > 0.9
    ensures r.analysis == GenDetected <==> swap <= 0.9 && gen > 0.9
    ensures r.analysis == EnsembleSuspicious <==> r.verdict == Fake && swap <= 0.9 && gen <= 0.9
    ensures r.analysis == Verified <==> r.verdict == Real
  {
    var f := FinalScore(swap, gen);
    var v := Decide(f);
    DisplayIsDistanceFromThreshold(f);
    HeadlineByScores(swap, gen);
    Response(v, Some(DisplayScore(v, f)), Headline(v, swap, gen))
  }

  /** scan_image: the load guard, then decode, ask the swap detector, ask the
      generation detector, normalise both outputs and report. */
  function ScanImage<I>(swap: Option<Detector<I>>, gen: Option<Detector<I>>, upload: Attempt<I>): (r: Response)
    ensures swap.None? || gen.None? ==> r == Response(Error, None, ModelsFailedToLoad)
    ensures r.verdict == Error <==> r.confidence.None?
    ensures r.confidence.Some? ==> r.confidence.value >= 50.0
    ensures upload.Raised? && swap.Some? && gen.Some? ==> r == Response(Error, None, ExceptionText(upload.message))
  {
    if swap.None? || gen.None? then Response(Error, None, ModelsFailedToLoad)
    else
      match upload
      case Raised(m) => Response(Error, None, ExceptionText(m))
      case Ok(image) =>
        match swap.value(image)
        case Raised(m) => Response(Error, None, ExceptionText(m))
        case Ok(predsSwap) =>
          match gen.value(image)
          case Raised(m) => Response(Error, None, ExceptionText(m))
          case Ok(predsGen) => Report(FakeProbability(predsSwap), FakeProbability(predsGen))
  }

  /** A scan in which nothing raises is the report on the two normalised
      scores: FAKE iff one of them is above one half, the confidence 50 plus
      the distance of the risk from 50, and the headline by priority. */
  lemma ScanVerdict<I>(swap: Detector<I>, gen: Detector<I>, image: I)
    requires swap(image).Ok? && gen(image).Ok?
    ensures var r := ScanImage(Some(swap), Some(gen), Ok(image));
            var s := FakeProbability(swap(image).value);
            var g := FakeProbability(gen(image).value);
            && r == Report(s, g)
            && (r.verdict == Fake <==> s > 0.5 || g > 0.5)
            && (r.verdict == Real <==> s <= 0.5 && g <= 0.5)
            && r.confidence == Some(50.0 + Abs(FinalScore(s, g) - 50.0))
            && r.analysis == Headline(VerdictOf(s, g), s, g)
  {
  }

  /** With well-formed detector outputs (every score a probability) the shown
      confidence lies in [50, 100]. */
  lemma ScanConfidenceRange<I>(swap: Detector<I>, gen: Detector<I>, image: I)
    requires swap(image).Ok? && gen(image).Ok?
    requires ScoresInUnit(swap(image).value) && ScoresInUnit(gen(image).value)
    ensures var r := ScanImage(Some(swap), Some(gen), Ok(image));
            r.confidence.Some? && 50.0 <= r.confidence.value <= 100.0
  {
    DisplayRange(FakeProbability(swap(image).value), FakeProbability(gen(image).value));
  }

  /** Exceptions are reported in the order the handler meets them: the
      upload first, then the swap detector, then the generation detector. */
  lemma ScanExceptionOrder<I>(swap: Detector<I>, gen: Detector<I>, image: I)
    ensures swap(image).Raised? ==>
      ScanImage(Some(swap), Some(gen), Ok(image)) == Response(Error, None, ExceptionText(swap(image).message))
    ensures swap(image).Ok? && gen(image).Raised? ==>
      ScanImage(Some(swap), Some(gen), Ok(image)) == Response(Error, None, ExceptionText(gen(image).message))
  {
  }

  /** Detectors whose labels the normaliser does not recognise give two
      scores of 0: a REAL verdict shown as 100% authentic. */
  lemma UnrecognisedLabelsScanReal<I>(swap: Detector<I>, gen: Detector<I>, image: I)
    requires swap(image).Ok? && gen(image).Ok?
    requires forall i :: 0 <= i < |swap(image).value| ==> Labels.Classify(swap(image).value[i].name) == Labels.OtherLabel
    requires forall i :: 0 <= i < |gen(image).value| ==> Labels.Classify(gen(image).value[i].name) == Labels.OtherLabel
    ensures ScanImage(Some(swap), Some(gen), Ok(image)) == Response(Real, Some(100.0), Verified)
  {
    UnrecognisedYieldsZero(swap(image).value);
    UnrecognisedYieldsZero(gen(image).value);
  }

  /** A confident swap score decides alone: 0.95 and 0.10 give FAKE at 95
      with the swap headline; a confident generation score with a middling
      swap score gives the generation headline. */
  lemma SwapExample()
    ensures Report(0.95, 0.10) == Response(Fake, Some(95.0), SwapDetected)
    ensures Report(0.5, 0.95) == Response(Fake, Some(95.0), GenDetected)
  {
  }

  /** The combination is a plain maximum: 0.6 and 0.4 give a risk of 60,
      FAKE, with the ensemble headline. */
  lemma MaxNotBlendExample()
    ensures Report(0.6, 0.4) == Response(Fake, Some(60.0), EnsembleSuspicious)
  {
  }

  /** REAL verdicts: 0.3 and 0.2 show authenticity 70; the boundary 0.5
      shows 50; two zero scores show 100. */
  lemma RealExamples()
    ensures Report(0.3, 0.2) == Response(Real, Some(70.0), Verified)
    ensures Report(0.5, 0.5) == Response(Real, Some(50.0), Verified)
    ensures Report(0.0, 0.0) == Response(Real, Some(100.0), Verified)
  {
  }
}
