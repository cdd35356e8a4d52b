/** The face-shape classifier: ordered threshold rules over three ratios of
    the measured face (length to width, jaw to cheekbone, forehead to
    cheekbone). The first rule that fires decides; `oval` is the catch-all. */
module FaceShapeRules {
  import opened Types

  /** Which of the three ratios a threshold is about. */
  datatype Ratio = LengthToWidth | JawToCheekbone | ForeheadToCheekbone

  datatype Comparison = Above | AtLeast | Below | AtMost

  /** One threshold test: `ratio cmp limit`. */
  datatype Bound = Bound(ratio: Ratio, cmp: Comparison, limit: real)

  /** A rule fires when all its bounds hold, and then yields `shape`. */
  datatype Rule = Rule(shape: FaceShape, bounds: seq<Bound>)

  /** The rules in the order they are tried. */
  const RuleTable: seq<Rule> := [
    Rule(Oblong, [Bound(LengthToWidth, Above, 1.5)]),
    Rule(Square, [Bound(LengthToWidth, AtLeast, 1.0), Bound(LengthToWidth, AtMost, 1.35),
                  Bound(JawToCheekbone, AtLeast, 0.9), Bound(ForeheadToCheekbone, AtLeast, 0.9)]),
    Rule(Round, [Bound(LengthToWidth, Below, 1.25), Bound(JawToCheekbone, Below, 0.9),
                 Bound(JawToCheekbone, AtLeast, 0.75)]),
    Rule(Heart, [Bound(ForeheadToCheekbone, Above, 0.95), Bound(JawToCheekbone, Below, 0.82)]),
    Rule(Diamond, [Bound(ForeheadToCheekbone, Below, 0.88), Bound(JawToCheekbone, Below, 0.85)])
  ]

  function RatioValue(ratio: Ratio, lw: real, jc: real, fc: real): real
  {
    match ratio
    case LengthToWidth => lw
    case JawToCheekbone => jc
    case ForeheadToCheekbone => fc
  }

  predicate Holds(b: Bound, lw: real, jc: real, fc: real)
  {
    var x := RatioValue(b.ratio, lw, jc, fc);
    match b.cmp
    case Above => x > b.limit
    case AtLeast => x >= b.limit
    case Below => x < b.limit
    case AtMost => x <= b.limit
  }

  predicate AllHold(bounds: seq<Bound>, lw: real, jc: real, fc: real)
  {
    forall k :: 0 <= k < |bounds| ==> Holds(bounds[k], lw, jc, fc)
  }

  /** Reference reading of a rule table: the shape of the first rule whose
      bounds all hold, and oval when none does. */
  function FirstMatch(rules: seq<Rule>, lw: real, jc: real, fc: real): FaceShape
  {
    if rules == [] then Oval
    else if AllHold(rules[0].bounds, lw, jc, fc) then rules[0].shape
    else FirstMatch(rules[1..], lw, jc, fc)
  }

  /** What each rule of the table tests, written out. */
  lemma RuleConditions(lw: real, jc: real, fc: real)
    ensures AllHold(RuleTable[0].bounds, lw, jc, fc) <==> lw > 1.5
    ensures AllHold(RuleTable[1].bounds, lw, jc, fc) <==> lw >= 1.0 && lw <= 1.35 && jc >= 0.9 && fc >= 0.9
    ensures AllHold(RuleTable[2].bounds, lw, jc, fc) <==> lw < 1.25 && jc < 0.9 && jc >= 0.75
    ensures AllHold(RuleTable[3].bounds, lw, jc, fc) <==> fc > 0.95 && jc < 0.82
    ensures AllHold(RuleTable[4].bounds, lw, jc, fc) <==> fc < 0.88 && jc < 0.85
  {
    var b0 := RuleTable[0].bounds;
    assert AllHold(b0, lw, jc, fc) <== Holds(b0[0], lw, jc, fc);
    var b1 := RuleTable[1].bounds;
    assert AllHold(b1, lw, jc, fc) <== Holds(b1[0], lw, jc, fc) && Holds(b1[1], lw, jc, fc)
                                      && Holds(b1[2], lw, jc, fc) && Holds(b1[3], lw, jc, fc);
    var b2 := RuleTable[2].bounds;
    assert AllHold(b2, lw, jc, fc) <== Holds(b2[0], lw, jc, fc) && Holds(b2[1], lw, jc, fc)
                                      && Holds(b2[2], lw, jc, fc);
    var b3 := RuleTable[3].bounds;
    assert AllHold(b3, lw, jc, fc) <== Holds(b3[0], lw, jc, fc) && Holds(b3[1], lw, jc, fc);
    var b4 := RuleTable[4].bounds;
    assert AllHold(b4, lw, jc, fc) <== Holds(b4[0], lw, jc, fc) && Holds(b4[1], lw, jc, fc);
  }

  /** The first-match reading of the table is the chain of its five rules
      in order, falling through to oval. */
  lemma RuleOrder(lw: real, jc: real, fc: real)
    ensures FirstMatch(RuleTable, lw, jc, fc)
         == if AllHold(RuleTable[0].bounds, lw, jc, fc) then Oblong
            else if AllHold(RuleTable[1].bounds, lw, jc, fc) then Square
            else if AllHold(RuleTable[2].bounds, lw, jc, fc) then Round
            else if AllHold(RuleTable[3].bounds, lw, jc, fc) then Heart
            else if AllHold(RuleTable[4].bounds, lw, jc, fc) then Diamond
            else Oval
  {
    var t1 := RuleTable[1..];
    var t2 := t1[1..];
    var t3 := t2[1..];
    var t4 := t3[1..];
    assert t1[0] == RuleTable[1] && t2[0] == RuleTable[2] && t3[0] == RuleTable[3];
    assert t4 == [RuleTable[4]];
    assert FirstMatch(t4, lw, jc, fc) == if AllHold(RuleTable[4].bounds, lw, jc, fc) then Diamond else Oval;
    assert FirstMatch(t3, lw, jc, fc)
        == if AllHold(RuleTable[3].bounds, lw, jc, fc) then Heart else FirstMatch(t4, lw, jc, fc);
    assert FirstMatch(t2, lw, jc, fc)
        == if AllHold(RuleTable[2].bounds, lw, jc, fc) then Round else FirstMatch(t3, lw, jc, fc);
    assert FirstMatch(t1, lw, jc, fc)
        == if AllHold(RuleTable[1].bounds, lw, jc, fc) then Square else FirstMatch(t2, lw, jc, fc);
  }

  /** The classifier as written: a chain of guarded returns. Its result is
      the first-match reading of `RuleTable`. */
  function Classify(lw: real, jc: real, fc: real): (shape: FaceShape)
    ensures shape == FirstMatch(RuleTable, lw, jc, fc)
  {
    RuleConditions(lw, jc, fc);
    RuleOrder(lw, jc, fc);
    if lw > 1.5 then Oblong
    else if lw >= 1.0 && lw <= 1.35 && jc >= 0.9 && fc >= 0.9 then Square
    else if lw < 1.25 && jc < 0.9 && jc >= 0.75 then Round
    else if fc > 0.95 && jc < 0.82 then Heart
    else if fc < 0.88 && jc < 0.85 then Diamond
    else Oval
  }

  /** `classifyFaceShape`: classify a set of metrics by its three ratios. */
  function ClassifyFaceShape(m: FaceMetrics): (shape: FaceShape)
    ensures shape == FirstMatch(RuleTable, m.faceLengthToWidthRatio,
                                m.jawToCheekboneRatio, m.foreheadToCheekboneRatio)
  {
    Classify(m.faceLengthToWidthRatio, m.jawToCheekboneRatio, m.foreheadToCheekboneRatio)
  }

  /** A face longer than one and a half times its width is oblong, whatever
      the other two ratios are. */
  lemma LongFaceIsOblong(lw: real, jc: real, fc: real)
    requires lw > 1.5
    ensures Classify(lw, jc, fc) == Oblong
  {
  }

  /** Square exactly when the oblong rule does not fire and all four square
      bounds hold. */
  lemma SquareExactly(lw: real, jc: real, fc: real)
    ensures Classify(lw, jc, fc) == Square
        <==> !(lw > 1.5) && 1.0 <= lw <= 1.35 && jc >= 0.9 && fc >= 0.9
  {
  }

  /** First match wins: these ratios meet both the round and the heart
      bounds, and the earlier round rule decides. */
  lemma RoundBeforeHeart()
    ensures AllHold(RuleTable[2].bounds, 1.2, 0.8, 1.0)
    ensures AllHold(RuleTable[3].bounds, 1.2, 0.8, 1.0)
    ensures Classify(1.2, 0.8, 1.0) == Round
  {
  }

  /** Diamond needs a narrow forehead and a narrow jaw, and that none of the
      earlier rules fired. */
  lemma DiamondExactly(lw: real, jc: real, fc: real)
    ensures Classify(lw, jc, fc) == Diamond
        <==> fc < 0.88 && jc < 0.85
             && forall k :: 0 <= k < 4 ==> !AllHold(RuleTable[k].bounds, lw, jc, fc)
  {
    RuleConditions(lw, jc, fc);
  }

  /** Oval is the catch-all: it is returned exactly when no rule fires. */
  lemma {:induction false} OvalExactly(lw: real, jc: real, fc: real)
    ensures Classify(lw, jc, fc) == Oval
        <==> forall k :: 0 <= k < |RuleTable| ==> !AllHold(RuleTable[k].bounds, lw, jc, fc)
  {
    FirstMatchOval(RuleTable, lw, jc, fc);
  }

  /** Over any table whose rules never yield oval, the first-match reading is
      oval exactly when no rule fires. */
  lemma {:induction false} FirstMatchOval(rules: seq<Rule>, lw: real, jc: real, fc: real)
    requires forall k :: 0 <= k < |rules| ==> rules[k].shape != Oval
    ensures FirstMatch(rules, lw, jc, fc) == Oval
        <==> forall k :: 0 <= k < |rules| ==> !AllHold(rules[k].bounds, lw, jc, fc)
  {
    if rules != [] {
      FirstMatchOval(rules[1..], lw, jc, fc);
      if !AllHold(rules[0].bounds, lw, jc, fc) {
        assert forall k :: 1 <= k < |rules| ==> rules[k] == rules[1..][k - 1];
      }
    }
  }
}
