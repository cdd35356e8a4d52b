/** The haircut recommendation engine: a per-haircut scoring table plus a
    bounded random jitter, then filter score > 0, stable sort by descending
    score and truncation to `topN`.

    The jitter's `Math.random()` draw is a parameter (`rand`, one per catalog
    entry, with 0 <= rand < 1); every property below holds for every draw. */
module Engine {
  import opened Types
  import opened Text
  import opened Ranking

  /** The five hair-length categories the engine accepts. */
  const ValidLengths: seq<string> := ["very_short", "short", "medium", "long", "very_long"]

  /** `toHairLength`: a known length passes through; an absent, empty or
      unknown one becomes "medium". */
  function ToHairLength(value: Option<string>): (length: string)
    ensures length in ValidLengths
    ensures value.Some? && value.value in ValidLengths ==> length == value.value
    ensures !(value.Some? && value.value in ValidLengths) ==> length == "medium"
  {
    if value.Some? && value.value != "" && value.value in ValidLengths then value.value
    else "medium"
  }

  lemma ToHairLengthIdempotent(value: Option<string>)
    ensures ToHairLength(Some(ToHairLength(value))) == ToHairLength(value)
  {
  }

  /** The normalized profile one scoring call works from. */
  datatype ScoringInput = ScoringInput(
    faceShape: FaceShape,
    hairType: string,
    hairLength: string,
    thinning: string,
    maintenanceLevel: int,
    vibePreferences: seq<string>)

  /** Builds the scoring input from the classified shape and the answers;
      only the hair length is normalized, everything else passes through. */
  function BuildInput(faceShape: FaceShape, answers: QuestionnaireAnswers): (input: ScoringInput)
    ensures input.hairLength in ValidLengths
    ensures input.hairLength == ToHairLength(answers.hairLength)
    ensures answers.hairLength.Some? && answers.hairLength.value in ValidLengths
            ==> input.hairLength == answers.hairLength.value
    ensures !(answers.hairLength.Some? && answers.hairLength.value in ValidLengths)
            ==> input.hairLength == "medium"
    ensures input.(hairLength := "medium")
         == ScoringInput(faceShape, answers.hairType, "medium", answers.thinning,
                         answers.maintenanceLevel, answers.vibePreferences)
  {
    ScoringInput(faceShape, answers.hairType, ToHairLength(answers.hairLength), answers.thinning,
                 answers.maintenanceLevel, answers.vibePreferences)
  }

  // ---------------------------------------------------------------------
  // The scoring table, one term and one explanation fragment per rule
  // ---------------------------------------------------------------------

  function Abs(x: int): nat
  {
    if x < 0 then -x else x
  }

  /** `|haircut.maintenanceLevel - input.maintenanceLevel|` */
  function MaintenanceDiff(h: Haircut, input: ScoringInput): nat
  {
    Abs(h.maintenanceLevel - input.maintenanceLevel)
  }

  /** `Math.max(0, 1.5 - diff * 0.5)`: between 0 and 1.5, full marks only for
      an exact match and nothing from a difference of 3 on. */
  function MaintenanceScore(diff: nat): (points: real)
    ensures 0.0 <= points <= 1.5
    ensures points == 1.5 <==> diff == 0
    ensures points == 0.0 <==> diff >= 3
  {
    var v := 1.5 - (diff as real) * 0.5;
    if 0.0 >= v then 0.0 else v
  }

  /** A larger maintenance difference never earns more points. */
  lemma MaintenanceScoreAntitone(d1: nat, d2: nat)
    requires d1 <= d2
    ensures MaintenanceScore(d1) >= MaintenanceScore(d2)
  {
  }

  /** `haircut.vibeTags.filter(v => input.vibePreferences.includes(v))` */
  function VibeOverlap(tags: seq<string>, prefs: seq<string>): (shared: seq<string>)
    ensures |shared| <= |tags|
    ensures forall k :: 0 <= k < |shared| ==> shared[k] in tags && shared[k] in prefs
    ensures forall t :: t in tags && t in prefs ==> t in shared
  {
    if tags == [] then []
    else (if tags[0] in prefs then [tags[0]] else []) + VibeOverlap(tags[1..], prefs)
  }

  /** The filter keeps every preferred tag as often as the haircut lists it,
      and no other tag. */
  lemma {:induction false} VibeOverlapCounts(tags: seq<string>, prefs: seq<string>)
    ensures forall t :: multiset(VibeOverlap(tags, prefs))[t] == if t in prefs then multiset(tags)[t] else 0
  {
    if tags != [] {
      VibeOverlapCounts(tags[1..], prefs);
      assert tags == [tags[0]] + tags[1..];
    }
  }

  /** The filter works entry by entry: filtering two lists one after the
      other gives the two filtered lists one after the other, so the shared
      tags keep the order they have in the haircut's tags. */
  lemma {:induction false} VibeOverlapAppend(a: seq<string>, b: seq<string>, prefs: seq<string>)
    ensures VibeOverlap(a + b, prefs) == VibeOverlap(a, prefs) + VibeOverlap(b, prefs)
  {
    if a == [] {
      assert a + b == b;
    } else {
      assert (a + b)[0] == a[0];
      assert (a + b)[1..] == a[1..] + b;
      VibeOverlapAppend(a[1..], b, prefs);
    }
  }

  /** Whether the thinning bonus applies. */
  predicate ThinningApplies(h: Haircut, input: ScoringInput)
  {
    input.thinning != "none" && "thinning-friendly" in h.tags
  }

  /** +3 for a matching face shape, -5 for an avoided one (both may apply). */
  function FaceShapeDelta(h: Haircut, input: ScoringInput): real
  {
    (if input.faceShape in h.faceShapeMatches then 3.0 else 0.0)
    + (if input.faceShape in h.avoidFaceShapes then -5.0 else 0.0)
  }

  /** +2 for a matching hair type, -5 for an avoided one (both may apply). */
  function HairTypeDelta(h: Haircut, input: ScoringInput): real
  {
    (if input.hairType in h.hairTypeMatches then 2.0 else 0.0)
    + (if input.hairType in h.avoidHairTypes then -5.0 else 0.0)
  }

  /** +2.5 for a compatible hair length, -4 otherwise. */
  function LengthDelta(h: Haircut, input: ScoringInput): real
  {
    if input.hairLength in h.lengthCompatibility then 2.5 else -4.0
  }

  /** +0.75 per shared vibe tag. */
  function VibeDelta(h: Haircut, input: ScoringInput): real
  {
    (|VibeOverlap(h.vibeTags, input.vibePreferences)| as real) * 0.75
  }

  /** +1.5 when the thinning bonus applies. */
  function ThinningDelta(h: Haircut, input: ScoringInput): real
  {
    if ThinningApplies(h, input) then 1.5 else 0.0
  }

  /** The score before jitter and rounding: the sum of all the rules' deltas. */
  function RawScore(h: Haircut, input: ScoringInput): real
  {
    FaceShapeDelta(h, input) + HairTypeDelta(h, input) + LengthDelta(h, input)
    + MaintenanceScore(MaintenanceDiff(h, input)) + VibeDelta(h, input) + ThinningDelta(h, input)
  }

  function HairTypeFragment(hairType: string): string
  {
    "Works well with " + ReplaceFirst(hairType, '_', ' ') + " hair."
  }

  const LengthFragment: string := "Great fit for your current hair length."

  /** The maintenance bucket named after the stated preference. */
  function MaintenanceBucket(preference: int): string
  {
    if preference <= 2 then "low" else if preference >= 4 then "high" else "medium"
  }

  function MaintenanceFragment(preference: int): string
  {
    "Matches your " + MaintenanceBucket(preference) + "-maintenance preference."
  }

  function VibeFragment(shared: seq<string>): string
  {
    "Fits your " + Join(shared, ", ") + " style."
  }

  const ThinningFragment: string := "Good option for managing hair thinning."

  /** The face-shape justification, when the shape matches and the catalog
      has a non-empty text for it. */
  function FaceShapeReason(h: Haircut, input: ScoringInput): (r: seq<string>)
    ensures |r| <= 1 && forall k :: 0 <= k < |r| ==> r[k] != ""
  {
    var key := input.faceShape.Name();
    if input.faceShape in h.faceShapeMatches && key in h.whyItWorks && h.whyItWorks[key] != ""
    then [h.whyItWorks[key]] else []
  }

  function HairTypeReason(h: Haircut, input: ScoringInput): (r: seq<string>)
    ensures |r| <= 1 && forall k :: 0 <= k < |r| ==> r[k] != ""
  {
    if input.hairType in h.hairTypeMatches then [HairTypeFragment(input.hairType)] else []
  }

  function LengthReason(h: Haircut, input: ScoringInput): (r: seq<string>)
    ensures |r| <= 1 && forall k :: 0 <= k < |r| ==> r[k] != ""
  {
    if input.hairLength in h.lengthCompatibility then [LengthFragment] else []
  }

  function MaintenanceReason(h: Haircut, input: ScoringInput): (r: seq<string>)
    ensures |r| <= 1 && forall k :: 0 <= k < |r| ==> r[k] != ""
  {
    if MaintenanceDiff(h, input) <= 1 then [MaintenanceFragment(input.maintenanceLevel)] else []
  }

  function VibeReason(h: Haircut, input: ScoringInput): (r: seq<string>)
    ensures |r| <= 1 && forall k :: 0 <= k < |r| ==> r[k] != ""
  {
    var shared := VibeOverlap(h.vibeTags, input.vibePreferences);
    if |shared| > 0 then [VibeFragment(shared)] else []
  }

  function ThinningReason(h: Haircut, input: ScoringInput): (r: seq<string>)
    ensures |r| <= 1 && forall k :: 0 <= k < |r| ==> r[k] != ""
  {
    if ThinningApplies(h, input) then [ThinningFragment] else []
  }

  /** The explanation fragments in rule order: face shape, hair type, length,
      maintenance, vibe, thinning. None of them is empty. */
  function Reasons(h: Haircut, input: ScoringInput): (reasons: seq<string>)
    ensures |reasons| <= 6
    ensures forall k :: 0 <= k < |reasons| ==> reasons[k] != ""
  {
    FaceShapeReason(h, input) + HairTypeReason(h, input) + LengthReason(h, input)
    + MaintenanceReason(h, input) + VibeReason(h, input) + ThinningReason(h, input)
  }

  /** The tie-break jitter `(Math.random() - 0.5) * 0.6` for a draw in [0, 1). */
  function Jitter(rand: real): (j: real)
    requires 0.0 <= rand < 1.0
    ensures -0.3 <= j < 0.3
  {
    (rand - 0.5) * 0.6
  }

  /** `Math.round(x * 10) / 10`: the nearest tenth, halves rounded up. */
  function RoundTenth(x: real): (r: real)
    ensures x - 0.05 < r <= x + 0.05
    ensures (r * 10.0).Floor as real == r * 10.0
  {
    ((x * 10.0 + 0.5).Floor as real) / 10.0
  }

  lemma RoundTenthMonotone(x: real, y: real)
    requires x <= y
    ensures RoundTenth(x) <= RoundTenth(y)
  {
    assert (x * 10.0 + 0.5).Floor <= (y * 10.0 + 0.5).Floor;
  }

  /** A rounded score is positive exactly when the unrounded one is at least 0.05. */
  lemma RoundTenthPositive(x: real)
    ensures RoundTenth(x) > 0.0 <==> x >= 0.05
  {
    var k := (x * 10.0 + 0.5).Floor;
    assert RoundTenth(x) == (k as real) / 10.0;
    if x >= 0.05 {
      assert x * 10.0 + 0.5 >= 1.0;
    }
  }

  /** The final score: raw score plus jitter, rounded to a tenth. It stays
      within 0.35 of the raw score and is a whole number of tenths. */
  function FinalScore(h: Haircut, input: ScoringInput, rand: real): (score: real)
    requires 0.0 <= rand < 1.0
    ensures RawScore(h, input) - 0.35 < score < RawScore(h, input) + 0.35
    ensures (score * 10.0).Floor as real == score * 10.0
  {
    RoundTenth(RawScore(h, input) + Jitter(rand))
  }

  /** The explanation: the fragments joined with single spaces. It is empty
      only when no fragment applies. */
  function Explanation(h: Haircut, input: ScoringInput): (text: string)
    ensures text == "" <==> Reasons(h, input) == []
  {
    var reasons := Reasons(h, input);
    assert reasons != [] ==> |Join(reasons, " ")| >= |reasons[0]| > 0;
    Join(reasons, " ")
  }

  /** What `scoreHaircut` returns, as a function of its inputs and the draw. */
  function Scored(h: Haircut, input: ScoringInput, rand: real): (scored: ScoredHaircut)
    requires 0.0 <= rand < 1.0
    ensures scored.haircut == h
    ensures RawScore(h, input) - 0.35 < scored.score < RawScore(h, input) + 0.35
    ensures (scored.score * 10.0).Floor as real == scored.score * 10.0
    ensures scored.explanation == "" <==> Reasons(h, input) == []
  {
    ScoredHaircut(h, FinalScore(h, input, rand), Explanation(h, input))
  }

  // The six rules of `scoreHaircut`, each adding its points to the running
  // score and its fragment, if any, to the running list of reasons.

  method FaceShapeRule(h: Haircut, input: ScoringInput, score: real, reasons: seq<string>)
    returns (score': real, reasons': seq<string>)
    ensures score' == score + FaceShapeDelta(h, input)
    ensures reasons' == reasons + FaceShapeReason(h, input)
  {
    score', reasons' := score, reasons;
    if input.faceShape in h.faceShapeMatches {
      score' := score' + 3.0;
      var key := input.faceShape.Name();
      if key in h.whyItWorks && h.whyItWorks[key] != "" {
        reasons' := reasons' + [h.whyItWorks[key]];
      }
    }
    if input.faceShape in h.avoidFaceShapes {
      score' := score' - 5.0;
    }
  }

  method HairTypeRule(h: Haircut, input: ScoringInput, score: real, reasons: seq<string>)
    returns (score': real, reasons': seq<string>)
    ensures score' == score + HairTypeDelta(h, input)
    ensures reasons' == reasons + HairTypeReason(h, input)
  {
    score', reasons' := score, reasons;
    if input.hairType in h.hairTypeMatches {
      score' := score' + 2.0;
      reasons' := reasons' + [HairTypeFragment(input.hairType)];
    }
    if input.hairType in h.avoidHairTypes {
      score' := score' - 5.0;
    }
  }

  method LengthRule(h: Haircut, input: ScoringInput, score: real, reasons: seq<string>)
    returns (score': real, reasons': seq<string>)
    ensures score' == score + LengthDelta(h, input)
    ensures reasons' == reasons + LengthReason(h, input)
  {
    if input.hairLength in h.lengthCompatibility {
      score' := score + 2.5;
      reasons' := reasons + [LengthFragment];
    } else {
      score' := score - 4.0;
      reasons' := reasons;
    }
  }

  method MaintenanceRule(h: Haircut, input: ScoringInput, score: real, reasons: seq<string>)
    returns (score': real, reasons': seq<string>)
    ensures score' == score + MaintenanceScore(MaintenanceDiff(h, input))
    ensures reasons' == reasons + MaintenanceReason(h, input)
  {
    var maintenanceDiff := Abs(h.maintenanceLevel - input.maintenanceLevel);
    var maintenanceScore := 1.5 - (maintenanceDiff as real) * 0.5;
    if 0.0 >= maintenanceScore {
      maintenanceScore := 0.0;
    }
    score' := score + maintenanceScore;
    reasons' := reasons;
    if maintenanceDiff <= 1 {
      var level := if input.maintenanceLevel <= 2 then "low"
                   else if input.maintenanceLevel >= 4 then "high"
                   else "medium";
      reasons' := reasons' + ["Matches your " + level + "-maintenance preference."];
    }
  }

  method VibeRule(h: Haircut, input: ScoringInput, score: real, reasons: seq<string>)
    returns (score': real, reasons': seq<string>)
    ensures score' == score + VibeDelta(h, input)
    ensures reasons' == reasons + VibeReason(h, input)
  {
    var vibeOverlap := VibeOverlap(h.vibeTags, input.vibePreferences);
    score' := score + (|vibeOverlap| as real) * 0.75;
    reasons' := reasons;
    if |vibeOverlap| > 0 {
      reasons' := reasons' + [VibeFragment(vibeOverlap)];
    }
  }

  method ThinningRule(h: Haircut, input: ScoringInput, score: real, reasons: seq<string>)
    returns (score': real, reasons': seq<string>)
    ensures score' == score + ThinningDelta(h, input)
    ensures reasons' == reasons + ThinningReason(h, input)
  {
    score', reasons' := score, reasons;
    if input.thinning != "none" && "thinning-friendly" in h.tags {
      score' := score' + 1.5;
      reasons' := reasons' + [ThinningFragment];
    }
  }

  /** The six rules applied in order to a score starting at zero and an
      empty list of reasons: the raw score and the fragments in rule order. */
  method ApplyRules(h: Haircut, input: ScoringInput) returns (score: real, reasons: seq<string>)
    ensures score == RawScore(h, input)
    ensures reasons == Reasons(h, input)
  {
    score := 0.0;
    reasons := [];
    score, reasons := FaceShapeRule(h, input, score, reasons);
    score, reasons := HairTypeRule(h, input, score, reasons);
    score, reasons := LengthRule(h, input, score, reasons);
    score, reasons := MaintenanceRule(h, input, score, reasons);
    score, reasons := VibeRule(h, input, score, reasons);
    score, reasons := ThinningRule(h, input, score, reasons);
  }

  /** `scoreHaircut`: applies the six rules, adds the jitter, rounds, and
      joins the reasons with spaces. */
  method ScoreHaircut(h: Haircut, input: ScoringInput, rand: real) returns (result: ScoredHaircut)
    requires 0.0 <= rand < 1.0
    ensures result.haircut == h
    ensures result.score == RoundTenth(RawScore(h, input) + Jitter(rand))
    ensures result.explanation == Join(Reasons(h, input), " ")
    ensures result == Scored(h, input, rand)
  {
    var score, reasons := ApplyRules(h, input);

    var jitter := (rand - 0.5) * 0.6;
    assert jitter == Jitter(rand);
    score := score + jitter;

    result := ScoredHaircut(h, RoundTenth(score), Join(reasons, " "));
    assert result.score == FinalScore(h, input, rand);
    assert result.explanation == Explanation(h, input);
  }

  // ---------------------------------------------------------------------
  // getRecommendations: map, filter score > 0, stable sort, slice
  // ---------------------------------------------------------------------

  /** One jitter draw per catalog entry, each in [0, 1). */
  predicate ValidDraws(library: seq<Haircut>, rands: seq<real>)
  {
    |rands| == |library| && forall k :: 0 <= k < |rands| ==> 0.0 <= rands[k] < 1.0
  }

  /** `library.map(h => scoreHaircut(h, input))`, entry `k` using draw `rands[k]`. */
  function ScoreAll(library: seq<Haircut>, input: ScoringInput, rands: seq<real>): (scored: seq<ScoredHaircut>)
    requires ValidDraws(library, rands)
    ensures |scored| == |library|
    ensures forall k :: 0 <= k < |library| ==> scored[k] == Scored(library[k], input, rands[k])
  {
    if library == [] then []
    else [Scored(library[0], input, rands[0])] + ScoreAll(library[1..], input, rands[1..])
  }

  /** The positive entries in ranking order, before truncation. */
  function Ranked(library: seq<Haircut>, faceShape: FaceShape, answers: QuestionnaireAnswers,
                  rands: seq<real>): (ranked: seq<ScoredHaircut>)
    requires ValidDraws(library, rands)
    ensures multiset(ranked) == multiset(Positive(ScoreAll(library, BuildInput(faceShape, answers), rands)))
    ensures SortedDesc(ranked)
  {
    var positive := Positive(ScoreAll(library, BuildInput(faceShape, answers), rands));
    SortDescCorrect(positive);
    SortDesc(positive)
  }

  /** `getRecommendations(library, faceShape, answers, topN)`. */
  function GetRecommendations(library: seq<Haircut>, faceShape: FaceShape,
                              answers: QuestionnaireAnswers, rands: seq<real>, topN: int): (r: seq<ScoredHaircut>)
    requires ValidDraws(library, rands)
    ensures |r| <= |Ranked(library, faceShape, answers, rands)|
    ensures r == Ranked(library, faceShape, answers, rands)[..|r|]
    ensures |r| == if topN >= 0 then Min(topN, |Ranked(library, faceShape, answers, rands)|)
                   else Max(|Ranked(library, faceShape, answers, rands)| + topN, 0)
  {
    Slice(Ranked(library, faceShape, answers, rands), topN)
  }
}
