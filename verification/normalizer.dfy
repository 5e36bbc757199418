/** The score normaliser get_fake_probability of backend_api/app/main.py.

    A classifier returns a list of (label, score) pairs. The normaliser folds
    that list, left to right, into one "fake probability" held in a single
    accumulator that starts at 0:
      - an entry whose label is in the fake table overwrites the accumulator
        with its score;
      - an entry whose label is in the real table writes 1 - score, but only
        while the accumulator is exactly 0;
      - any other entry leaves the accumulator alone.
    The result depends on the order of the entries; the lemmas below say
    which entry decides it.
 */
module Normalizer {
  import opened Labels

  /** One entry of a classifier's output. */
  datatype Prediction = Prediction(name: string, score: real)

  /** Every score of the list is a probability. */
  predicate ScoresInUnit(preds: seq<Prediction>) {
    forall i :: 0 <= i < |preds| ==> 0.0 <= preds[i].score <= 1.0
  }

  /** No entry of `preds` at index `from` or later carries a fake-table label. */
  predicate NoFakeFrom(preds: seq<Prediction>, from: int) {
    forall j :: from <= j < |preds| && 0 <= j ==> Classify(preds[j].name) != FakeLabel
  }

  /** A real-table entry whose score is not 1: the only kind of entry that
      can lift an accumulator of 0 to something other than 0. */
  predicate Usable(p: Prediction) {
    Classify(p.name) == RealLabel && p.score != 1.0
  }

  /** The effect of one entry on the accumulator: the body of the loop. The
      new value is the old one, the entry's score or its complement; only a
      recognised label changes it; and it stays a probability. */
  function Step(acc: real, p: Prediction): (r: real)
    ensures r == acc || r == p.score || r == 1.0 - p.score
    ensures Classify(p.name) == OtherLabel ==> r == acc
    ensures 0.0 <= acc <= 1.0 && 0.0 <= p.score <= 1.0 ==> 0.0 <= r <= 1.0
  {
    match Classify(p.name)
    case FakeLabel => p.score
    case RealLabel => if acc == 0.0 then 1.0 - p.score else acc
    case OtherLabel => acc
  }

  /** The loop of the normaliser, run from accumulator `acc` over `preds`. */
  function Fold(acc: real, preds: seq<Prediction>): (r: real)
    ensures 0.0 <= acc <= 1.0 && ScoresInUnit(preds) ==> 0.0 <= r <= 1.0
    decreases |preds|
  {
    if |preds| == 0 then acc
    else
      assert ScoresInUnit(preds) ==> ScoresInUnit(preds[1..]);
      Fold(Step(acc, preds[0]), preds[1..])
  }

  /** get_fake_probability: the fold started from 0. */
  function FakeProbability(preds: seq<Prediction>): (r: real)
    ensures ScoresInUnit(preds) ==> 0.0 <= r <= 1.0
  {
    Fold(0.0, preds)
  }

  /** The loop of get_fake_probability written as in the source: lowercase
      the label, look it up in the fake table, then in the real table. */
  method GetFakeProbability(preds: seq<Prediction>) returns (fake: real)
    ensures fake == FakeProbability(preds)
  {
    fake := 0.0;
    var i := 0;
    while i < |preds|
      invariant 0 <= i <= |preds|
      invariant Fold(fake, preds[i..]) == FakeProbability(preds)
    {
      var l := Lower(preds[i].name);
      var score := preds[i].score;
      if l in FakeLabels {
        fake := score;
      } else if l in RealLabels {
        if fake == 0.0 {
          fake := 1.0 - score;
        }
      }
      assert preds[i..][1..] == preds[i + 1..];
      i := i + 1;
    }
  }

  /** Running the fold over a concatenation runs it over each part in turn. */
  lemma {:induction false} FoldAppend(acc: real, a: seq<Prediction>, b: seq<Prediction>)
    ensures Fold(acc, a + b) == Fold(Fold(acc, a), b)
    decreases |a|
  {
    if |a| == 0 {
      assert a + b == b;
    } else {
      assert (a + b)[1..] == a[1..] + b;
      FoldAppend(Step(acc, a[0]), a[1..], b);
    }
  }

  /** The fold over a prefix extended by one entry is one more step. */
  lemma FoldSnoc(acc: real, a: seq<Prediction>, p: Prediction)
    ensures Fold(acc, a + [p]) == Step(Fold(acc, a), p)
  {
    FoldAppend(acc, a, [p]);
  }

  /** The accumulator after the first `k` entries. */
  lemma FoldPrefix(preds: seq<Prediction>, k: nat)
    requires k <= |preds|
    ensures FakeProbability(preds) == Fold(Fold(0.0, preds[..k]), preds[k..])
  {
    assert preds == preds[..k] + preds[k..];
    FoldAppend(0.0, preds[..k], preds[k..]);
  }

  /** Without fake-table entries a nonzero accumulator is never touched: real
      entries write only while it is 0. */
  lemma {:induction false} NonzeroSurvives(acc: real, s: seq<Prediction>)
    requires NoFakeFrom(s, 0)
    requires acc != 0.0
    ensures Fold(acc, s) == acc
    decreases |s|
  {
    if |s| > 0 {
      assert Step(acc, s[0]) == acc;
      assert NoFakeFrom(s[1..], 0) by {
        forall j | 0 <= j < |s[1..]|
          ensures Classify(s[1..][j].name) != FakeLabel
        {
          assert s[1..][j] == s[j + 1];
        }
      }
      NonzeroSurvives(acc, s[1..]);
    }
  }

  /** Without fake-table entries, a fold from 0 ends at 1 - score of the first
      usable real entry: entries before it leave the accumulator at 0. */
  lemma {:induction false} FirstUsableDecides(s: seq<Prediction>, j: nat)
    requires NoFakeFrom(s, 0)
    requires j < |s| && Usable(s[j])
    requires forall i :: 0 <= i < j ==> !Usable(s[i])
    ensures Fold(0.0, s) == 1.0 - s[j].score
    decreases j
  {
    assert NoFakeFrom(s[1..], 0) by {
      forall k | 0 <= k < |s[1..]|
        ensures Classify(s[1..][k].name) != FakeLabel
      {
        assert s[1..][k] == s[k + 1];
      }
    }
    if j == 0 {
      assert Step(0.0, s[0]) == 1.0 - s[0].score;
      NonzeroSurvives(1.0 - s[0].score, s[1..]);
    } else {
      assert !Usable(s[0]);
      assert Step(0.0, s[0]) == 0.0;
      assert forall i :: 0 <= i < j - 1 ==> s[1..][i] == s[i + 1];
      FirstUsableDecides(s[1..], j - 1);
    }
  }

  /** Without fake-table entries and without usable real entries, a fold
      from 0 stays at 0. */
  lemma {:induction false} NothingUsableStaysZero(s: seq<Prediction>)
    requires NoFakeFrom(s, 0)
    requires forall i :: 0 <= i < |s| ==> !Usable(s[i])
    ensures Fold(0.0, s) == 0.0
    decreases |s|
  {
    if |s| > 0 {
      assert Step(0.0, s[0]) == 0.0;
      assert NoFakeFrom(s[1..], 0) && forall i :: 0 <= i < |s[1..]| ==> !Usable(s[1..][i]) by {
        forall k | 0 <= k < |s[1..]|
          ensures Classify(s[1..][k].name) != FakeLabel && !Usable(s[1..][k])
        {
          assert s[1..][k] == s[k + 1];
        }
      }
      NothingUsableStaysZero(s[1..]);
    }
  }

  /** The accumulator is 0 after the first `t` entries, and no fake-table entry
      follows: either `t` is 0, or entry `t - 1` is the last fake-table entry
      and its score is 0. */
  predicate RestartsAt(preds: seq<Prediction>, t: nat) {
    && t <= |preds|
    && NoFakeFrom(preds, t)
    && (t == 0 || (Classify(preds[t - 1].name) == FakeLabel && preds[t - 1].score == 0.0))
  }

  lemma RestartLeavesZero(preds: seq<Prediction>, t: nat)
    requires RestartsAt(preds, t)
    ensures Fold(0.0, preds[..t]) == 0.0
    ensures NoFakeFrom(preds[t..], 0)
  {
    if t > 0 {
      assert preds[..t] == preds[..t - 1] + [preds[t - 1]];
      FoldSnoc(0.0, preds[..t - 1], preds[t - 1]);
    }
    forall k | 0 <= k < |preds[t..]|
      ensures Classify(preds[t..][k].name) != FakeLabel
    {
      assert preds[t..][k] == preds[t + k];
    }
  }

  // ---------------------------------------------------------------------
  // Which entry decides the result
  // ---------------------------------------------------------------------

  /** The last fake-table entry wins when its score is nonzero, whatever
      real-table entries come before or after it. */
  lemma LastFakeWins(preds: seq<Prediction>, k: nat)
    requires k < |preds| && Classify(preds[k].name) == FakeLabel
    requires NoFakeFrom(preds, k + 1)
    requires preds[k].score != 0.0
    ensures FakeProbability(preds) == preds[k].score
  {
    FoldPrefix(preds, k + 1);
    assert preds[..k + 1] == preds[..k] + [preds[k]];
    FoldSnoc(0.0, preds[..k], preds[k]);
    var rest := preds[k + 1..];
    forall j | 0 <= j < |rest|
      ensures Classify(rest[j].name) != FakeLabel
    {
      assert rest[j] == preds[k + 1 + j];
    }
    NonzeroSurvives(preds[k].score, rest);
  }

  /** Once the accumulator restarts at 0 (at the start, or after a last
      fake-table entry of score 0), the first later real-table entry with a
      score other than 1 decides the result: 1 - its score. */
  lemma RealFallback(preds: seq<Prediction>, t: nat, j: nat)
    requires RestartsAt(preds, t)
    requires t <= j < |preds| && Usable(preds[j])
    requires forall i :: t <= i < j ==> !Usable(preds[i])
    ensures FakeProbability(preds) == 1.0 - preds[j].score
  {
    FoldPrefix(preds, t);
    RestartLeavesZero(preds, t);
    var s := preds[t..];
    assert s[j - t] == preds[j];
    assert forall i :: 0 <= i < j - t ==> s[i] == preds[t + i];
    FirstUsableDecides(s, j - t);
  }

  /** Once the accumulator restarts at 0 and no usable real-table entry
      follows, the result is 0. */
  lemma ZeroWithoutEvidence(preds: seq<Prediction>, t: nat)
    requires RestartsAt(preds, t)
    requires forall i :: t <= i < |preds| ==> !Usable(preds[i])
    ensures FakeProbability(preds) == 0.0
  {
    FoldPrefix(preds, t);
    RestartLeavesZero(preds, t);
    var s := preds[t..];
    assert forall i :: 0 <= i < |s| ==> s[i] == preds[t + i];
    NothingUsableStaysZero(s);
  }

  /** An empty list, or one with no label of either table, yields 0. */
  lemma UnrecognisedYieldsZero(preds: seq<Prediction>)
    requires forall i :: 0 <= i < |preds| ==> Classify(preds[i].name) == OtherLabel
    ensures FakeProbability(preds) == 0.0
  {
    ZeroWithoutEvidence(preds, 0);
  }

  /** A single real-table entry with score s and no fake-table entry gives 1 - s. */
  lemma SoleRealEntry(preds: seq<Prediction>, j: nat)
    requires j < |preds| && Classify(preds[j].name) == RealLabel
    requires forall i :: 0 <= i < |preds| && i != j ==> Classify(preds[i].name) == OtherLabel
    ensures FakeProbability(preds) == 1.0 - preds[j].score
  {
    if preds[j].score == 1.0 {
      ZeroWithoutEvidence(preds, 0);
    } else {
      RealFallback(preds, 0, j);
    }
  }

  /** A real-table entry changes the accumulator only when it is 0. */
  lemma RealEntryFillsOnlyZero(acc: real, p: Prediction)
    requires Classify(p.name) == RealLabel
    ensures Step(acc, p) != acc ==> acc == 0.0
    ensures acc == 0.0 ==> Step(acc, p) == 1.0 - p.score
  {
  }

  /** Entries with labels of neither table can be dropped without changing
      the result. */
  function Recognised(preds: seq<Prediction>): (r: seq<Prediction>)
    ensures |r| <= |preds|
    ensures forall i :: 0 <= i < |r| ==> Classify(r[i].name) != OtherLabel
    decreases |preds|
  {
    if |preds| == 0 then []
    else if Classify(preds[0].name) == OtherLabel then Recognised(preds[1..])
    else [preds[0]] + Recognised(preds[1..])
  }

  lemma {:induction false} UnrecognisedIgnored(acc: real, preds: seq<Prediction>)
    ensures Fold(acc, Recognised(preds)) == Fold(acc, preds)
    decreases |preds|
  {
    if |preds| > 0 {
      UnrecognisedIgnored(Step(acc, preds[0]), preds[1..]);
      if Classify(preds[0].name) != OtherLabel {
        var r := [preds[0]] + Recognised(preds[1..]);
        assert r[0] == preds[0] && r[1..] == Recognised(preds[1..]);
      }
    }
  }

  /** Changing the case of labels never changes the result. */
  lemma {:induction false} CaseInsensitive(a: seq<Prediction>, b: seq<Prediction>, acc: real)
    requires |a| == |b|
    requires forall i :: 0 <= i < |a| ==> a[i].score == b[i].score && SameIgnoringCase(a[i].name, b[i].name)
    ensures Fold(acc, a) == Fold(acc, b)
    decreases |a|
  {
    if |a| > 0 {
      ClassifyIgnoresCase(a[0].name, b[0].name);
      assert Step(acc, a[0]) == Step(acc, b[0]);
      assert forall i :: 0 <= i < |a| - 1 ==> a[1..][i] == a[i + 1] && b[1..][i] == b[i + 1];
      CaseInsensitive(a[1..], b[1..], Step(acc, a[0]));
    }
  }

  /** Uppercasing every label leaves the fake probability as it was. */
  lemma UppercaseLabelsSameResult(preds: seq<Prediction>)
    ensures FakeProbability(seq(|preds|, i requires 0 <= i < |preds| => Prediction(Upper(preds[i].name), preds[i].score)))
         == FakeProbability(preds)
  {
    var up := seq(|preds|, i requires 0 <= i < |preds| => Prediction(Upper(preds[i].name), preds[i].score));
    forall i | 0 <= i < |preds|
      ensures SameIgnoringCase(up[i].name, preds[i].name)
    {
      UpperIsCaseChange(preds[i].name);
    }
    CaseInsensitive(up, preds, 0.0);
  }

  /** Outputs in the shapes the two pipelines produce. */
  lemma NormaliserExamples()
    ensures FakeProbability([]) == 0.0
    ensures FakeProbability([Prediction("Real", 0.2), Prediction("Fake", 0.6)]) == 0.6
    ensures FakeProbability([Prediction("Fake", 0.3), Prediction("Real", 0.4)]) == 0.3
    ensures FakeProbability([Prediction("Real", 0.2)]) == 0.8
    ensures FakeProbability([Prediction("Fake", 0.0), Prediction("Real", 1.0)]) == 0.0
    ensures FakeProbability([Prediction("cat", 0.9)]) == 0.0
  {
    assert Lower("Real") == "real";
    assert Lower("Fake") == "fake";
    assert Lower("cat") == "cat";
  }
}
