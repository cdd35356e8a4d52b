/** Properties of the recommendation engine: how the explanation agrees with
    the score, what the jitter can and cannot change, and what the ranked
    output of `getRecommendations` is. */
module EngineProperties {
  import opened Types
  import opened Text
  import opened Ranking
  import opened Engine
  import opened Sequences

  // ---------------------------------------------------------------------
  // One haircut
  // ---------------------------------------------------------------------

  /** Each explanation fragment is present exactly when its rule earns points;
      the face-shape text is present exactly when the shape matches and the
      catalog has a non-empty text for it, and is then that text. */
  lemma ReasonsAgreeWithScore(h: Haircut, input: ScoringInput)
    ensures FaceShapeReason(h, input) != []
            <==> input.faceShape in h.faceShapeMatches
                 && input.faceShape.Name() in h.whyItWorks && h.whyItWorks[input.faceShape.Name()] != ""
    ensures FaceShapeReason(h, input) != [] ==> FaceShapeReason(h, input) == [h.whyItWorks[input.faceShape.Name()]]
    ensures HairTypeReason(h, input) != [] <==> input.hairType in h.hairTypeMatches
    ensures LengthReason(h, input) != [] <==> LengthDelta(h, input) == 2.5
    ensures MaintenanceReason(h, input) != [] <==> MaintenanceScore(MaintenanceDiff(h, input)) >= 1.0
    ensures VibeReason(h, input) != [] <==> VibeDelta(h, input) > 0.0
    ensures ThinningReason(h, input) != [] <==> ThinningDelta(h, input) == 1.5
  {
  }

  /** The maintenance bucket named in the explanation: low up to 2, high from
      4, medium in between. */
  lemma MaintenanceBucketRanges(preference: int)
    ensures MaintenanceBucket(preference) == "low" <==> preference <= 2
    ensures MaintenanceBucket(preference) == "high" <==> preference >= 4
    ensures MaintenanceBucket(preference) == "medium" <==> preference == 3
  {
  }

  /** Holding everything else fixed, moving the haircut's maintenance level
      further from the preference never raises its score, for any draw. */
  lemma MaintenanceMonotone(h: Haircut, level: int, input: ScoringInput, rand: real)
    requires 0.0 <= rand < 1.0
    requires MaintenanceDiff(h, input) <= Abs(level - input.maintenanceLevel)
    ensures RawScore(h, input) >= RawScore(h.(maintenanceLevel := level), input)
    ensures FinalScore(h, input, rand) >= FinalScore(h.(maintenanceLevel := level), input, rand)
  {
    var h2 := h.(maintenanceLevel := level);
    MaintenanceScoreAntitone(MaintenanceDiff(h, input), MaintenanceDiff(h2, input));
    assert FaceShapeDelta(h2, input) == FaceShapeDelta(h, input);
    assert HairTypeDelta(h2, input) == HairTypeDelta(h, input);
    assert LengthDelta(h2, input) == LengthDelta(h, input);
    assert VibeDelta(h2, input) == VibeDelta(h, input);
    assert ThinningDelta(h2, input) == ThinningDelta(h, input);
    assert RawScore(h, input) >= RawScore(h2, input);
    RoundTenthMonotone(RawScore(h2, input) + Jitter(rand), RawScore(h, input) + Jitter(rand));
  }

  /** An entry survives the `score > 0` filter exactly when its jittered,
      unrounded score is at least 0.05. */
  lemma KeptExactly(h: Haircut, input: ScoringInput, rand: real)
    requires 0.0 <= rand < 1.0
    ensures FinalScore(h, input, rand) > 0.0 <==> RawScore(h, input) + Jitter(rand) >= 0.05
  {
    RoundTenthPositive(RawScore(h, input) + Jitter(rand));
  }

  /** The jitter cannot reverse a gap of more than 0.6 between two raw scores,
      and cannot even produce a tie once the gap is 0.7 or more. */
  lemma JitterKeepsClearGaps(a: Haircut, b: Haircut, input: ScoringInput, ra: real, rb: real)
    requires 0.0 <= ra < 1.0 && 0.0 <= rb < 1.0
    ensures RawScore(a, input) - RawScore(b, input) > 0.6
            ==> FinalScore(a, input, ra) >= FinalScore(b, input, rb)
    ensures RawScore(a, input) - RawScore(b, input) >= 0.7
            ==> FinalScore(a, input, ra) > FinalScore(b, input, rb)
  {
    var xa := RawScore(a, input) + Jitter(ra);
    var xb := RawScore(b, input) + Jitter(rb);
    if RawScore(a, input) - RawScore(b, input) > 0.6 {
      RoundTenthMonotone(xb, xa);
    }
  }

  /** A haircut whose face shape is avoided, with no face, hair-type, length,
      vibe or thinning rule in its favour, always scores below zero. */
  lemma AvoidedScoresNegative(h: Haircut, input: ScoringInput, rand: real)
    requires 0.0 <= rand < 1.0
    requires input.faceShape in h.avoidFaceShapes && input.faceShape !in h.faceShapeMatches
    requires input.hairType !in h.hairTypeMatches
    requires input.hairLength !in h.lengthCompatibility
    requires VibeOverlap(h.vibeTags, input.vibePreferences) == []
    requires !ThinningApplies(h, input)
    ensures FinalScore(h, input, rand) < 0.0
  {
    assert RawScore(h, input) <= -5.0 - 4.0 + 1.5;
  }

  /** The concrete profile where every rule matches. */
  const AllMatch: Haircut := Haircut(
    "classic-taper", "Classic Taper", "classic-taper", "A short, clean taper.",
    map["oval" := "Balanced proportions suit a clean taper."], [], [],
    [Oval], ["straight"], [], [], ["medium"], 3, ["classic"])

  const OvalStraight: ScoringInput := ScoringInput(Oval, "straight", "medium", "none", 3, ["classic"])

  /** All rules match, the maintenance level equals the preference, one vibe
      is shared and there is no thinning: 3 + 2 + 2.5 + 1.5 + 0.75 = 9.75,
      which with a zero jitter (draw 0.5) rounds to 9.8. */
  lemma AllRulesMatchScore()
    ensures RawScore(AllMatch, OvalStraight) == 9.75
    ensures FinalScore(AllMatch, OvalStraight, 0.5) == 9.8
  {
    assert VibeOverlap(["classic"], ["classic"]) == ["classic"];
    assert RawScore(AllMatch, OvalStraight) == 9.75;
    assert Jitter(0.5) == 0.0;
    assert (9.75 * 10.0 + 0.5).Floor == 98;
  }

  /** When every rule with a fragment fires except thinning, the explanation
      lists the catalog's text for the face shape, then the hair-type,
      length, maintenance and vibe fragments, in that order. */
  lemma AllReasonsInOrder(h: Haircut, input: ScoringInput)
    requires input.faceShape in h.faceShapeMatches
    requires input.faceShape.Name() in h.whyItWorks && h.whyItWorks[input.faceShape.Name()] != ""
    requires input.hairType in h.hairTypeMatches
    requires input.hairLength in h.lengthCompatibility
    requires MaintenanceDiff(h, input) <= 1
    requires VibeOverlap(h.vibeTags, input.vibePreferences) != []
    requires !ThinningApplies(h, input)
    ensures Reasons(h, input)
         == [h.whyItWorks[input.faceShape.Name()], HairTypeFragment(input.hairType), LengthFragment,
             MaintenanceFragment(input.maintenanceLevel),
             VibeFragment(VibeOverlap(h.vibeTags, input.vibePreferences))]
  {
    var a, b, c := h.whyItWorks[input.faceShape.Name()], HairTypeFragment(input.hairType), LengthFragment;
    var d, e := MaintenanceFragment(input.maintenanceLevel), VibeFragment(VibeOverlap(h.vibeTags, input.vibePreferences));
    assert Reasons(h, input) == [a] + [b] + [c] + [d] + [e] + [];
    FiveSingletons(a, b, c, d, e);
  }

  lemma FiveSingletons<T>(a: T, b: T, c: T, d: T, e: T)
    ensures [a] + [b] + [c] + [d] + [e] + [] == [a, b, c, d, e]
  {
  }

  /** When every rule fires, including the thinning bonus, all six fragments
      appear, the thinning one last. */
  lemma AllSixReasonsInOrder(h: Haircut, input: ScoringInput)
    requires input.faceShape in h.faceShapeMatches
    requires input.faceShape.Name() in h.whyItWorks && h.whyItWorks[input.faceShape.Name()] != ""
    requires input.hairType in h.hairTypeMatches
    requires input.hairLength in h.lengthCompatibility
    requires MaintenanceDiff(h, input) <= 1
    requires VibeOverlap(h.vibeTags, input.vibePreferences) != []
    requires ThinningApplies(h, input)
    ensures Reasons(h, input)
         == [h.whyItWorks[input.faceShape.Name()], HairTypeFragment(input.hairType), LengthFragment,
             MaintenanceFragment(input.maintenanceLevel),
             VibeFragment(VibeOverlap(h.vibeTags, input.vibePreferences)), ThinningFragment]
  {
    var a, b, c := h.whyItWorks[input.faceShape.Name()], HairTypeFragment(input.hairType), LengthFragment;
    var d, e := MaintenanceFragment(input.maintenanceLevel), VibeFragment(VibeOverlap(h.vibeTags, input.vibePreferences));
    assert Reasons(h, input) == [a] + [b] + [c] + [d] + [e] + [ThinningFragment];
    SixSingletons(a, b, c, d, e, ThinningFragment);
  }

  lemma SixSingletons<T>(a: T, b: T, c: T, d: T, e: T, f: T)
    ensures [a] + [b] + [c] + [d] + [e] + [f] == [a, b, c, d, e, f]
  {
  }

  /** A hair type without an underscore is quoted unchanged. */
  lemma HairTypeFragmentPlain(t: string)
    requires '_' !in t
    ensures HairTypeFragment(t) == "Works well with " + t + " hair."
  {
    ReplaceFirstAbsent(t, '_', ' ');
  }

  /** Only the first underscore of a hair type becomes a space. */
  lemma HairTypeFragmentUnderscore(p: string, q: string)
    requires '_' !in p
    ensures HairTypeFragment(p + "_" + q) == "Works well with " + p + " " + q + " hair."
  {
    ReplaceFirstSplit(p, q, '_', ' ');
  }

  /** A single shared vibe is quoted without separator. */
  lemma VibeFragmentSingle(v: string)
    ensures VibeFragment([v]) == "Fits your " + v + " style."
  {
  }

  /** The same haircut for a square face: the face term drops to 0 and the
      raw score is 2 + 2.5 + 1.5 + 0.75 = 6.75. */
  lemma SquareFaceScenario()
    ensures RawScore(AllMatch, OvalStraight.(faceShape := Square)) == 6.75
  {
    assert VibeOverlap(["classic"], ["classic"]) == ["classic"];
  }

  // ---------------------------------------------------------------------
  // The whole pipeline
  // ---------------------------------------------------------------------

  /** Every recommendation has a positive score and the list is sorted by
      descending score. */
  lemma RecommendationsPositiveAndSorted(library: seq<Haircut>, faceShape: FaceShape,
                                         answers: QuestionnaireAnswers, rands: seq<real>, topN: int)
    requires ValidDraws(library, rands)
    ensures forall k :: 0 <= k < |GetRecommendations(library, faceShape, answers, rands, topN)|
                        ==> GetRecommendations(library, faceShape, answers, rands, topN)[k].score > 0.0
    ensures SortedDesc(GetRecommendations(library, faceShape, answers, rands, topN))
  {
    TopPositiveAndSorted(ScoreAll(library, BuildInput(faceShape, answers), rands), topN);
  }

  /** The result holds `topN` entries, or every positive entry when there
      are fewer (a negative `topN` drops that many from the end, as `slice` does). */
  lemma RecommendationsLength(library: seq<Haircut>, faceShape: FaceShape,
                              answers: QuestionnaireAnswers, rands: seq<real>, topN: int)
    requires ValidDraws(library, rands)
    ensures var positives := |Positive(ScoreAll(library, BuildInput(faceShape, answers), rands))|;
            |GetRecommendations(library, faceShape, answers, rands, topN)|
            == if topN >= 0 then Min(topN, positives) else Max(positives + topN, 0)
  {
  }

  /** An empty catalog gives no recommendations. */
  lemma EmptyLibraryNoRecommendations(faceShape: FaceShape, answers: QuestionnaireAnswers, topN: int)
    ensures GetRecommendations([], faceShape, answers, [], topN) == []
  {
  }

  /** No scored entry occurs in the result more often than in the catalog. */
  lemma RecommendationsWithinCatalog(library: seq<Haircut>, faceShape: FaceShape,
                                     answers: QuestionnaireAnswers, rands: seq<real>, topN: int)
    requires ValidDraws(library, rands)
    ensures multiset(GetRecommendations(library, faceShape, answers, rands, topN))
            <= multiset(ScoreAll(library, BuildInput(faceShape, answers), rands))
  {
    TopWithin(ScoreAll(library, BuildInput(faceShape, answers), rands), topN);
  }

  /** Provenance: each recommendation is the scoring of some catalog entry
      with that entry's own draw. */
  lemma RecommendationsFromCatalog(library: seq<Haircut>, faceShape: FaceShape,
                                   answers: QuestionnaireAnswers, rands: seq<real>, topN: int)
    requires ValidDraws(library, rands)
    ensures forall x :: x in GetRecommendations(library, faceShape, answers, rands, topN)
              ==> exists k :: 0 <= k < |library| && x == Scored(library[k], BuildInput(faceShape, answers), rands[k])
  {
    var input := BuildInput(faceShape, answers);
    var mapped := ScoreAll(library, input, rands);
    var r := GetRecommendations(library, faceShape, answers, rands, topN);
    RecommendationsWithinCatalog(library, faceShape, answers, rands, topN);
    forall x | x in r
      ensures exists k :: 0 <= k < |library| && x == Scored(library[k], input, rands[k])
    {
      assert x in multiset(r);
      assert x in multiset(mapped);
      var k :| 0 <= k < |mapped| && mapped[k] == x;
    }
  }

  /** A catalog without repeated entries yields recommendations without a
      repeated haircut. */
  lemma RecommendationsDistinct(library: seq<Haircut>, faceShape: FaceShape,
                                answers: QuestionnaireAnswers, rands: seq<real>, topN: int)
    requires ValidDraws(library, rands)
    requires Distinct(library)
    ensures var r := GetRecommendations(library, faceShape, answers, rands, topN);
            forall i, j :: 0 <= i < j < |r| ==> r[i].haircut != r[j].haircut
  {
    var mapped := ScoreAll(library, BuildInput(faceShape, answers), rands);
    forall i, j | 0 <= i < j < |mapped| ensures mapped[i].haircut != mapped[j].haircut {
      assert mapped[i].haircut == library[i] && mapped[j].haircut == library[j];
    }
    TopDistinctHaircuts(mapped, topN);
    assert GetRecommendations(library, faceShape, answers, rands, topN) == Slice(SortDesc(Positive(mapped)), topN);
  }

  /** The chosen entries are the best ones: together with the positive
      entries left out they make up all positive entries, and every chosen
      entry scores at least as high as every one left out. */
  lemma RecommendationsAreTopN(library: seq<Haircut>, faceShape: FaceShape,
                               answers: QuestionnaireAnswers, rands: seq<real>, topN: int)
    requires ValidDraws(library, rands)
    ensures var r := GetRecommendations(library, faceShape, answers, rands, topN);
            var rest := Ranked(library, faceShape, answers, rands)[|r|..];
            && multiset(r) + multiset(rest)
               == multiset(Positive(ScoreAll(library, BuildInput(faceShape, answers), rands)))
            && forall i, j :: 0 <= i < |r| && 0 <= j < |rest| ==> r[i].score >= rest[j].score
  {
    TopAreBest(ScoreAll(library, BuildInput(faceShape, answers), rands), topN);
  }

  /** Stability: for every positive score, the recommendations with that
      score are the first catalog entries with that score, in catalog order. */
  lemma RecommendationsStable(library: seq<Haircut>, faceShape: FaceShape,
                              answers: QuestionnaireAnswers, rands: seq<real>, topN: int, v: real)
    requires ValidDraws(library, rands)
    requires v > 0.0
    ensures ByScore(GetRecommendations(library, faceShape, answers, rands, topN), v)
            <= ByScore(ScoreAll(library, BuildInput(faceShape, answers), rands), v)
  {
    TopStable(ScoreAll(library, BuildInput(faceShape, answers), rands), topN, v);
  }

  /** A haircut like the one in `AvoidedScoresNegative` is never recommended,
      whatever the draws. */
  lemma AvoidedNeverRecommended(library: seq<Haircut>, faceShape: FaceShape,
                                answers: QuestionnaireAnswers, rands: seq<real>, topN: int, h: Haircut)
    requires ValidDraws(library, rands)
    requires var input := BuildInput(faceShape, answers);
             && faceShape in h.avoidFaceShapes && faceShape !in h.faceShapeMatches
             && input.hairType !in h.hairTypeMatches
             && input.hairLength !in h.lengthCompatibility
             && VibeOverlap(h.vibeTags, input.vibePreferences) == []
             && !ThinningApplies(h, input)
    ensures forall x :: x in GetRecommendations(library, faceShape, answers, rands, topN) ==> x.haircut != h
  {
    var input := BuildInput(faceShape, answers);
    var r := GetRecommendations(library, faceShape, answers, rands, topN);
    RecommendationsFromCatalog(library, faceShape, answers, rands, topN);
    RecommendationsPositiveAndSorted(library, faceShape, answers, rands, topN);
    forall x | x in r ensures x.haircut != h {
      var i :| 0 <= i < |r| && r[i] == x;
      assert x.score > 0.0;
      var k :| 0 <= k < |library| && x == Scored(library[k], input, rands[k]);
      if library[k] == h {
        AvoidedScoresNegative(h, input, rands[k]);
        assert false;
      }
    }
  }
}
