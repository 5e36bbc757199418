/** The verdict rule of scan_image in backend_api/app/main.py.

    Two detectors each give a fake probability: the face-swap detector
    ("Vigilante-V2") and the generated-image detector ("Sentinel-X"). The
    larger of the two, as a percentage, is the final risk. The verdict is
    FAKE exactly when the risk is above 50. A REAL verdict shows the
    complement of the risk as an authenticity score. One headline is chosen
    by priority.
 */
module Ensemble {

  datatype Verdict = Fake | Real | Error

  /** The analysis line of a response, without its formatted percentage. */
  datatype Analysis =
    | SwapDetected          // "CRITICAL: Face Swap detected by Vigilante-V2."
    | GenDetected           // "CRITICAL: AI Generation detected by Sentinel-X."
    | EnsembleSuspicious    // "Suspicious artifacts detected by Ensemble."
    | Verified              // "Verified by Double Agent System. No anomalies found."
    | ModelsFailedToLoad    // the guard for a detector that did not load
    | ExceptionText(message: string)   // the catch-all: the exception's text

  /** A detector score above this picks that detector's own headline. */
  const HighConfidence: real := 0.9

  /** A final risk strictly above this percentage is a FAKE verdict. */
  const FakeThreshold: real := 50.0

  function Max(a: real, b: real): real {
    if a >= b then a else b
  }

  function Abs(x: real): real {
    if x >= 0.0 then x else -x
  }

  /** The final risk: the larger score, as a percentage. */
  function FinalScore(swap: real, gen: real): (f: real)
    ensures f >= swap * 100.0 && f >= gen * 100.0
    ensures f == swap * 100.0 || f == gen * 100.0
  {
    Max(swap, gen) * 100.0
  }

  /** The verdict on a final risk: FAKE or REAL, never ERROR; the boundary
      risk of 50 is REAL. */
  function Decide(finalScore: real): (v: Verdict)
    ensures v != Error
    ensures finalScore == FakeThreshold ==> v == Real
  {
    if finalScore > FakeThreshold then Fake else Real
  }

  /** The verdict reached from the two detector scores: FAKE exactly when one
      of the detectors is more than half sure. */
  function VerdictOf(swap: real, gen: real): (v: Verdict)
    ensures v == Fake <==> swap > 0.5 || gen > 0.5
    ensures v == Real <==> swap <= 0.5 && gen <= 0.5
  {
    Decide(FinalScore(swap, gen))
  }

  /** The score shown to the user: the risk under FAKE, the authenticity
      100 - risk under REAL. Under the decided verdict it is at least 50, and
      the verdict and the shown score together give back the risk, so the
      flip loses nothing. */
  function DisplayScore(v: Verdict, finalScore: real): (d: real)
    ensures v == Decide(finalScore) ==> d >= FakeThreshold
    ensures v == Decide(finalScore) ==> finalScore == (if v == Fake then d else 100.0 - d)
  {
    if v == Real then 100.0 - finalScore else finalScore
  }

  /** The headline: under FAKE the swap line if the swap score is above 0.9,
      else the generation line if that score is above 0.9, else the ensemble
      line; any other verdict gets the verified line. */
  function Headline(v: Verdict, swap: real, gen: real): (h: Analysis)
    ensures h == Verified <==> v != Fake
    ensures h == SwapDetected || h == GenDetected || h == EnsembleSuspicious || h == Verified
    ensures h == SwapDetected ==> swap > HighConfidence
    ensures h == GenDetected ==> swap <= HighConfidence && gen > HighConfidence
    ensures h == EnsembleSuspicious ==> swap <= HighConfidence && gen <= HighConfidence
  {
    if v == Fake then
      if swap > HighConfidence then SwapDetected
      else if gen > HighConfidence then GenDetected
      else EnsembleSuspicious
    else Verified
  }

  /** The verdict is FAKE iff the final risk is above 50; a risk of exactly
      50 is REAL. */
  lemma VerdictThreshold(swap: real, gen: real)
    ensures VerdictOf(swap, gen) == Fake <==> FinalScore(swap, gen) > 50.0
    ensures FinalScore(swap, gen) == 50.0 ==> VerdictOf(swap, gen) == Real
    ensures VerdictOf(swap, gen) != Error
  {
  }

  /** Raising either score never turns FAKE into REAL. */
  lemma VerdictMonotone(swap: real, gen: real, swap': real, gen': real)
    requires swap <= swap' && gen <= gen'
    ensures VerdictOf(swap, gen) == Fake ==> VerdictOf(swap', gen') == Fake
    ensures VerdictOf(swap', gen') == Real ==> VerdictOf(swap, gen) == Real
  {
  }

  /** The displayed score under the decided verdict is 50 plus the distance of
      the risk from the 50 line: never below 50, and exactly 50 only at the
      boundary. */
  lemma DisplayIsDistanceFromThreshold(finalScore: real)
    ensures DisplayScore(Decide(finalScore), finalScore) == 50.0 + Abs(finalScore - 50.0)
    ensures DisplayScore(Decide(finalScore), finalScore) >= 50.0
    ensures DisplayScore(Decide(finalScore), finalScore) == 50.0 <==> finalScore == 50.0
  {
  }

  /** With both scores probabilities, the display score lies in [50, 100]. */
  lemma DisplayRange(swap: real, gen: real)
    requires 0.0 <= swap <= 1.0 && 0.0 <= gen <= 1.0
    ensures var f := FinalScore(swap, gen);
            50.0 <= DisplayScore(Decide(f), f) <= 100.0
  {
    DisplayIsDistanceFromThreshold(FinalScore(swap, gen));
  }

  /** The headline in terms of the two detector scores alone. */
  lemma HeadlineByScores(swap: real, gen: real)
    ensures var h := Headline(VerdictOf(swap, gen), swap, gen);
            && (h == SwapDetected <==> swap > 0.9)
            && (h == GenDetected <==> swap <= 0.9 && gen > 0.9)
            && (h == EnsembleSuspicious <==> (swap > 0.5 || gen > 0.5) && swap <= 0.9 && gen <= 0.9)
            && (h == Verified <==> swap <= 0.5 && gen <= 0.5)
  {
  }
}
