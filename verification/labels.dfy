/** Label vocabulary of the score normaliser in backend_api/app/main.py.

    Classifier pipelines name their classes inconsistently ("Fake", "LABEL_1",
    "natural", ...). A label is compared after lowercasing against two fixed
    tables: one whose entries mean "manipulated" and one whose entries mean
    "authentic". Anything else is ignored.
 */
module Labels {

  /** How the normaliser treats one label. */
  datatype LabelClass = FakeLabel | RealLabel | OtherLabel

  /** Labels meaning the image is manipulated or synthetic. */
  const FakeLabels: set<string> := {"fake", "deepfake", "artificial", "label_1"}

  /** Labels meaning the image is authentic. */
  const RealLabels: set<string> := {"real", "natural", "label_0"}

  /** The Kelvin sign, the one non-ASCII character that Python's str.lower
      maps to an ASCII letter ('k'). */
  const KelvinSign: char := '\U{212A}'

  predicate IsUpperAscii(c: char) {
    'A' <= c <= 'Z'
  }

  /** Lowercase one character. ASCII capitals and the Kelvin sign are mapped
      to their lowercase ASCII letter; every other character is kept. That is
      exact for classification: other ASCII characters are their own Python
      lowercase, and the Python lowercase of any other non-ASCII character
      contains a non-ASCII character, so it matches no table entry. */
  function LowerChar(c: char): char {
    if IsUpperAscii(c) then (c as int + 32) as char
    else if c == KelvinSign then 'k'
    else c
  }

  function Lower(s: string): string {
    seq(|s|, i requires 0 <= i < |s| => LowerChar(s[i]))
  }

  /** Uppercase ASCII letters: used to state that a change of case is invisible. */
  function UpperChar(c: char): char {
    if 'a' <= c <= 'z' then (c as int - 32) as char else c
  }

  function Upper(s: string): string {
    seq(|s|, i requires 0 <= i < |s| => UpperChar(s[i]))
  }

  /** Two labels that differ only in the case of their letters. */
  predicate SameIgnoringCase(a: string, b: string) {
    Lower(a) == Lower(b)
  }

  /** The lowercase check against the two tables; the fake table is consulted
      first. A label is recognised exactly when it is a table entry written
      in any mix of cases. */
  function Classify(name: string): (c: LabelClass)
    ensures c == FakeLabel <==> exists f :: f in FakeLabels && SameIgnoringCase(name, f)
    ensures c == RealLabel <==> exists f :: f in RealLabels && SameIgnoringCase(name, f)
  {
    LowerIdempotent(name);
    TablesAreLowercase();
    var l := Lower(name);
    assert l in FakeLabels ==> SameIgnoringCase(name, l);
    assert l in RealLabels ==> SameIgnoringCase(name, l);
    if l in FakeLabels then FakeLabel
    else if l in RealLabels then RealLabel
    else OtherLabel
  }

  /** Every entry of the two tables is written in lowercase. */
  lemma TablesAreLowercase()
    ensures forall l :: l in FakeLabels + RealLabels ==> Lower(l) == l
    ensures FakeLabels * RealLabels == {}
  {
    forall l | l in FakeLabels + RealLabels
      ensures Lower(l) == l
    {
      LowercaseFixed(l);
    }
    assert "fake" !in RealLabels && "deepfake" !in RealLabels;
    assert "artificial" !in RealLabels && "label_1" !in RealLabels;
  }

  /** Lowercasing twice is lowercasing once. */
  lemma LowerIdempotent(s: string)
    ensures Lower(Lower(s)) == Lower(s)
  {
  }

  /** Uppercasing a label does not change its lowercase form, so the label
      tables see "FAKE", "Fake" and "fake" alike. */
  lemma UpperIsCaseChange(s: string)
    ensures SameIgnoringCase(Upper(s), s)
  {
    assert forall i :: 0 <= i < |s| ==> LowerChar(UpperChar(s[i])) == LowerChar(s[i]);
  }

  /** The classification of a label depends only on its lowercase form. */
  lemma ClassifyIgnoresCase(a: string, b: string)
    requires SameIgnoringCase(a, b)
    ensures Classify(a) == Classify(b)
  {
  }

  /** The two tables are written in lowercase and share no entry, so every
      table entry is reachable and the order of the two checks never matters.
      This extends TablesAreLowercase, which Classify itself relies on and so
      cannot mention Classify, with the class each entry receives. */
  lemma TablesLowercaseAndDisjoint()
    ensures forall l :: l in FakeLabels ==> Lower(l) == l && Classify(l) == FakeLabel
    ensures forall l :: l in RealLabels ==> Lower(l) == l && Classify(l) == RealLabel
    ensures FakeLabels * RealLabels == {}
  {
    TablesAreLowercase();
  }

  /** A string without capitals or Kelvin signs is its own lowercase form. */
  lemma LowercaseFixed(s: string)
    requires forall i :: 0 <= i < |s| ==> !IsUpperAscii(s[i]) && s[i] != KelvinSign
    ensures Lower(s) == s
  {
  }

  /** Labels as the two pipelines emit them are recognised whatever their case. */
  lemma ClassifyExamples()
    ensures Classify("FAKE") == FakeLabel
    ensures Classify("LABEL_1") == FakeLabel
    ensures Classify("Natural") == RealLabel
    ensures Classify("LABEL_0") == RealLabel
  {
    assert Lower("FAKE") == "fake" == Lower("fake");
    assert Lower("LABEL_1") == "label_1" == Lower("label_1");
    assert Lower("Natural") == "natural" == Lower("natural");
    assert Lower("LABEL_0") == "label_0" == Lower("label_0");
  }

  /** A label that only contains a table entry, or is empty, is ignored. */
  lemma UnrecognisedExamples()
    ensures Classify("fakes") == OtherLabel
    ensures Classify("") == OtherLabel
  {
    assert Lower("fakes") == "fakes";
    assert Lower("") == "";
  }
}
