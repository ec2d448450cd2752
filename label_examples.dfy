/** The mapping and the selection on the labels the rules were written
    for. A rule is shown not to fire by naming, for each of its
    alternatives, a text that alternative needs together with the evidence
    (a missing character or a missing pair of adjacent characters) that
    the label lacks it. */
module LabelExamples {
  import opened Wrappers
  import opened Text
  import opened Patterns
  import opened Pricing
  import opened WasteClassifier

  // ---------------------------------------------------------------------
  // One required text per alternative of each rule
  // ---------------------------------------------------------------------

  const PaperKeys: seq<string> :=
    ["newspaper", "paper", "cardboard", "carton", "corrugated", "magazine", "notebook", "book", "page",
     "sheet", "paper", "carton", "cardboard"]

  const GlassKeys: seq<string> :=
    ["glass", "of", "glass", "jar", "goblet", "wineglass", "beer", "wine", "champagne", "milk"]

  const MetalKeys: seq<string> :=
    ["steel", "metal", "aluminium", "aluminum", "tin", "soda", "soft", "iron", "scrap", "bolt", "screw"]

  const PlasticKeys: seq<string> :=
    ["plastic", "polyethylene", "pet", "polypropylene", "water", "soda", "plastic", "pet", "disposable"]

  /** The paper alternatives after `paper(?!\s*cup)`, keyed without "paper". */
  const PaperTailKeys: seq<string> :=
    ["cardboard", "carton", "corrugated", "magazine", "notebook", "book", "page", "sheet", "bag", "carton",
     "cardboard"]

  lemma PaperKeysRequired()
    ensures |PaperKeys| == |PaperTerms|
    ensures forall k :: 0 <= k < |PaperKeys| ==> PaperKeys[k] in Required(PaperTerms[k])
  {
  }

  lemma PaperTailKeysRequired()
    ensures |PaperTailKeys| == |PaperTerms[2..]|
    ensures forall k :: 0 <= k < |PaperTailKeys| ==> PaperTailKeys[k] in Required(PaperTerms[2..][k])
  {
  }

  lemma GlassKeysRequired()
    ensures |GlassKeys| == |GlassTerms|
    ensures forall k :: 0 <= k < |GlassKeys| ==> GlassKeys[k] in Required(GlassTerms[k])
  {
  }

  lemma MetalKeysRequired()
    ensures |MetalKeys| == |MetalTerms|
    ensures forall k :: 0 <= k < |MetalKeys| ==> MetalKeys[k] in Required(MetalTerms[k])
  {
  }

  lemma PlasticKeysRequired()
    ensures |PlasticKeys| == |PlasticTerms|
    ensures forall k :: 0 <= k < |PlasticKeys| ==> PlasticKeys[k] in Required(PlasticTerms[k])
  {
  }

  // ---------------------------------------------------------------------
  // "glass bottle" and "glass jar"
  // ---------------------------------------------------------------------

  const GlassBottleLacksPaper: seq<Absence> :=
    [MissingChar(0), MissingChar(0), MissingChar(0), MissingChar(0), MissingChar(0), MissingChar(0),
     MissingChar(0), MissingChar(3), MissingChar(0), MissingChar(1), MissingChar(0), MissingChar(0),
     MissingChar(0)]

  const GlassJarLacksPaper: seq<Absence> :=
    [MissingChar(0), MissingChar(0), MissingChar(0), MissingChar(0), MissingChar(0), MissingChar(0),
     MissingChar(0), MissingChar(0), MissingChar(0), MissingChar(1), MissingChar(0), MissingChar(0),
     MissingChar(0)]

  lemma GlassBottleEvidence()
    ensures forall k :: 0 <= k < |PaperKeys| ==> Excludes("glass bottle", PaperKeys[k], GlassBottleLacksPaper[k])
  {
  }

  lemma GlassJarEvidence()
    ensures forall k :: 0 <= k < |PaperKeys| ==> Excludes("glass jar", PaperKeys[k], GlassJarLacksPaper[k])
  {
  }

  lemma GlassBottleIsGlass()
    ensures MapLabelToCategory("glass bottle") == Glass
  {
    var s := "glass bottle";
    LowerOfLowerCase(s);
    PaperKeysRequired();
    GlassBottleEvidence();
    NoneFound(PaperTerms, PaperKeys, GlassBottleLacksPaper, s);
    assert MatchesSpan(Then(Spaces, Lit("bottle")), s, 5, 12) by {
      assert MatchesSpan(Spaces, s, 5, 6) && MatchesSpan(Lit("bottle"), s, 6, 12);
    }
    assert MatchesSpan(GlassTerms[0], s, 0, 12) by {
      assert MatchesSpan(Lit("glass"), s, 0, 5);
    }
    assert Found(GlassTerms[0], s);
    MappingPrecedence(s);
  }

  lemma GlassJarIsGlass()
    ensures MapLabelToCategory("glass jar") == Glass
  {
    var s := "glass jar";
    LowerOfLowerCase(s);
    PaperKeysRequired();
    GlassJarEvidence();
    NoneFound(PaperTerms, PaperKeys, GlassJarLacksPaper, s);
    assert MatchesSpan(GlassTerms[3], s, 6, 9);
    assert Found(GlassTerms[3], s);
    MappingPrecedence(s);
  }

  // ---------------------------------------------------------------------
  // "paper cup"
  // ---------------------------------------------------------------------

  /** In "paper cup" the only "paper" is followed by " cup", so the
      lookahead of `paper(?!\s*cup)` fails. */
  lemma PaperCupEscapesPaperTerm()
    ensures !Found(PaperTerms[1], "paper cup")
  {
    var s := "paper cup";
    var cup := Then(Spaces, Lit("cup"));
    assert MatchesSpan(cup, s, 5, 9) by {
      assert MatchesSpan(Spaces, s, 5, 6) && MatchesSpan(Lit("cup"), s, 6, 9);
    }
    forall i, j | 0 <= i <= j <= |s|
      ensures !MatchesSpan(PaperTerms[1], s, i, j)
    {
      forall m | i <= m <= j
        ensures !(MatchesSpan(Lit("paper"), s, i, m) && MatchesSpan(NotFollowedBy(cup), s, m, j))
      {
        if m == i + 5 && i == 0 {
          assert !MatchesSpan(NotFollowedBy(cup), s, m, j);
        } else if m == i + 5 {
          assert s[i..m][0] == s[i] && s[i..m][1] == s[i + 1];
          assert s[i..m] != "paper";
        }
      }
    }
  }

  const PaperCupLacksPaperTail: seq<Absence> :=
    [MissingChar(3), MissingChar(4), MissingChar(1), MissingChar(0), MissingChar(0), MissingChar(0),
     MissingChar(2), MissingChar(0), MissingChar(0), MissingChar(4), MissingChar(3)]

  const PaperCupLacksGlass: seq<Absence> :=
    [MissingChar(0), MissingChar(0), MissingChar(0), MissingChar(0), MissingChar(0), MissingChar(0),
     MissingChar(0), MissingChar(0), MissingChar(1), MissingChar(0)]

  const PaperCupLacksMetal: seq<Absence> :=
    [MissingChar(0), MissingChar(0), MissingChar(1), MissingChar(1), MissingChar(0), MissingChar(0),
     MissingChar(0), MissingChar(0), MissingChar(0), MissingChar(0), MissingChar(0)]

  const PaperCupLacksPlastic: seq<Absence> :=
    [MissingChar(1), MissingChar(1), MissingChar(2), MissingChar(1), MissingChar(0), MissingChar(0),
     MissingChar(1), MissingChar(2), MissingChar(0)]

  lemma PaperCupPaperEvidence()
    ensures forall k :: 0 <= k < |PaperTailKeys| ==> Excludes("paper cup", PaperTailKeys[k], PaperCupLacksPaperTail[k])
    ensures Excludes("paper cup", "newspaper", MissingChar(0))
  {
  }

  lemma PaperCupGlassEvidence()
    ensures forall k :: 0 <= k < |GlassKeys| ==> Excludes("paper cup", GlassKeys[k], PaperCupLacksGlass[k])
  {
  }

  lemma PaperCupMetalEvidence()
    ensures forall k :: 0 <= k < |MetalKeys| ==> Excludes("paper cup", MetalKeys[k], PaperCupLacksMetal[k])
  {
  }

  lemma PaperCupPlasticEvidence()
    ensures forall k :: 0 <= k < |PlasticKeys| ==> Excludes("paper cup", PlasticKeys[k], PaperCupLacksPlastic[k])
  {
  }

  lemma PaperCupNotPaper()
    ensures !FoundAny(PaperTerms, "paper cup")
  {
    var s := "paper cup";
    PaperCupPaperEvidence();
    PaperTailKeysRequired();
    NoneFound(PaperTerms[2..], PaperTailKeys, PaperCupLacksPaperTail, s);
    ExcludedAbsent(s, "newspaper", MissingChar(0));
    RequiredAbsent(PaperTerms[0], s, "newspaper");
    PaperCupEscapesPaperTerm();
    forall k | 0 <= k < |PaperTerms|
      ensures !Found(PaperTerms[k], s)
    {
      if k >= 2 {
        assert PaperTerms[k] == PaperTerms[2..][k - 2];
      }
    }
  }

  /** "paper cup" is not paper, and in fact no rule fires on it. */
  lemma PaperCupIsMixed()
    ensures MapLabelToCategory("paper cup") == Mixed
  {
    var s := "paper cup";
    LowerOfLowerCase(s);
    PaperCupNotPaper();
    GlassKeysRequired();
    PaperCupGlassEvidence();
    NoneFound(GlassTerms, GlassKeys, PaperCupLacksGlass, s);
    MetalKeysRequired();
    PaperCupMetalEvidence();
    NoneFound(MetalTerms, MetalKeys, PaperCupLacksMetal, s);
    PlasticKeysRequired();
    PaperCupPlasticEvidence();
    NoneFound(PlasticTerms, PlasticKeys, PaperCupLacksPlastic, s);
    MappingPrecedence(s);
  }

  // ---------------------------------------------------------------------
  // "plastic water bottle" and "plastic glass"
  // ---------------------------------------------------------------------

  const BottleLacksPaper: seq<Absence> :=
    [MissingChar(0), MissingPair(0), MissingChar(8), MissingChar(5), MissingChar(5), MissingChar(0),
     MissingChar(0), MissingChar(3), MissingChar(2), MissingChar(1), MissingPair(0), MissingChar(5),
     MissingChar(8)]

  const BottleLacksGlass: seq<Absence> :=
    [MissingChar(0), MissingChar(1), MissingChar(0), MissingChar(0), MissingChar(0), MissingChar(2),
     MissingPair(1), MissingChar(2), MissingChar(1), MissingChar(0)]

  const BottleLacksMetal: seq<Absence> :=
    [MissingPair(2), MissingChar(0), MissingChar(3), MissingChar(3), MissingChar(2), MissingChar(2),
     MissingChar(2), MissingChar(3), MissingPair(0), MissingPair(1), MissingPair(0)]

  lemma BottlePaperEvidence()
    ensures forall k :: 0 <= k < |PaperKeys| ==>
      Excludes("plastic water bottle", PaperKeys[k], BottleLacksPaper[k])
  {
  }

  lemma BottleGlassEvidence()
    ensures forall k :: 0 <= k < |GlassKeys| ==>
      Excludes("plastic water bottle", GlassKeys[k], BottleLacksGlass[k])
  {
  }

  lemma BottleMetalEvidence()
    ensures forall k :: 0 <= k < |MetalKeys| ==>
      Excludes("plastic water bottle", MetalKeys[k], BottleLacksMetal[k])
  {
  }

  lemma PlasticWaterBottleIsPlastic()
    ensures MapLabelToCategory("plastic water bottle") == Plastic
  {
    var s := "plastic water bottle";
    LowerOfLowerCase(s);
    PaperKeysRequired();
    BottlePaperEvidence();
    NoneFound(PaperTerms, PaperKeys, BottleLacksPaper, s);
    GlassKeysRequired();
    BottleGlassEvidence();
    NoneFound(GlassTerms, GlassKeys, BottleLacksGlass, s);
    MetalKeysRequired();
    BottleMetalEvidence();
    NoneFound(MetalTerms, MetalKeys, BottleLacksMetal, s);
    CharAbsent(s, "glass", 0);
    assert MatchesSpan(PlasticTerms[0], s, 0, 7);
    assert Found(PlasticTerms[0], s);
    MappingPrecedence(s);
  }

  /** "plastic glass" mentions plastic but also glass, so it is not plastic. */
  lemma PlasticGlassIsNotPlastic()
    ensures MapLabelToCategory("plastic glass") != Plastic
  {
    var s := "plastic glass";
    LowerOfLowerCase(s);
    assert OccursAt(s, "glass", 8);
    GlassIsNeverPlastic(s);
  }

  // ---------------------------------------------------------------------
  // Selection and price
  // ---------------------------------------------------------------------

  /** A top-five answer that starts with a plastic water bottle and a glass
      jar: the first specific candidate wins, and one kilogram of it is
      worth the plastic rate. */
  lemma PlasticBottleScenario(rest: seq<Prediction>)
    ensures var outputs := Many([Prediction(Some("plastic water bottle"), Some(0.4)),
                                 Prediction(Some("glass jar"), Some(0.35))] + rest);
      && SelectResult(outputs) == ClassificationResult("plastic water bottle", 0.4, Plastic)
      && EstimatePrice(SelectResult(outputs).category) == 18.0
  {
    var first := Prediction(Some("plastic water bottle"), Some(0.4));
    var ps := [first, Prediction(Some("glass jar"), Some(0.35))] + rest;
    PlasticWaterBottleIsPlastic();
    var ms := MapCandidates(ps);
    assert ms[0] == Mapped(first, Plastic);
    assert SelectResult(Many(ps)) == Summary(ms[0]);
    EstimateOfOneKilogram(Plastic);
  }
}
