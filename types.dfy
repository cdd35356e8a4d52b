/** Value types shared by the consultation flow: face shapes and metrics,
    catalog haircuts, questionnaire answers and scored results. */
module Types {

  /** A value that may be absent (`null` / `undefined` in the application). */
  datatype Option<+T> = None | Some(value: T)

  /** The six face shapes the classifier can produce. */
  datatype FaceShape = Oval | Round | Square | Heart | Diamond | Oblong
  {
    /** The string key used for this shape, e.g. in a haircut's `whyItWorks` record. */
    function Name(): string
    {
      match this
      case Oval => "oval"
      case Round => "round"
      case Square => "square"
      case Heart => "heart"
      case Diamond => "diamond"
      case Oblong => "oblong"
    }
  }

  /** Distances measured on the face and the three ratios derived from them. */
  datatype FaceMetrics = FaceMetrics(
    jawWidth: real,
    cheekboneWidth: real,
    foreheadWidth: real,
    faceLength: real,
    faceLengthToWidthRatio: real,
    jawToCheekboneRatio: real,
    foreheadToCheekboneRatio: real)

  /** A catalog entry. `lengthCompatibility` is read by the engine although the
      application's declared type omits it; here it is a required field. */
  datatype Haircut = Haircut(
    id: string,
    name: string,
    slug: string,
    description: string,
    whyItWorks: map<string, string>,
    exampleImageUrls: seq<string>,
    tags: seq<string>,
    faceShapeMatches: seq<FaceShape>,
    hairTypeMatches: seq<string>,
    avoidFaceShapes: seq<FaceShape>,
    avoidHairTypes: seq<string>,
    lengthCompatibility: seq<string>,
    maintenanceLevel: int,
    vibeTags: seq<string>)

  /** A haircut with its rounded score and its explanation text. */
  datatype ScoredHaircut = ScoredHaircut(haircut: Haircut, score: real, explanation: string)

  /** The questionnaire answers; hair type and thinning level are the string
      keys of their option lists ("straight", "very_curly", "none", "slight", ...). */
  datatype QuestionnaireAnswers = QuestionnaireAnswers(
    hairType: string,
    hairLength: Option<string>,
    concerns: Option<seq<string>>,
    change: Option<string>,
    lifestyle: Option<string>,
    stylingTime: Option<string>,
    notes: Option<string>,
    thinning: string,
    maintenanceLevel: int,
    vibePreferences: seq<string>,
    hairLengthLabel: Option<string>)
}
