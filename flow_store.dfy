/** The consultation-flow store: one record of flow state that a fixed set
    of actions overwrites field group by field group, and the snapshot of it
    that is persisted between visits. */
module FlowStore {
  import opened Types

  /** The store's fields. `previewImages` maps a haircut id to an image URL. */
  datatype FlowState = FlowState(
    currentStep: int,
    photosUploaded: bool,
    selfieDataUrl: Option<string>,
    faceMetrics: Option<FaceMetrics>,
    faceShape: Option<FaceShape>,
    questionnaireAnswers: Option<QuestionnaireAnswers>,
    recommendations: seq<ScoredHaircut>,
    previewImages: map<string, string>,
    selectedHaircutIds: seq<string>,
    submissionId: Option<string>)

  /** `initialState`: step 1, nothing uploaded, nothing chosen. */
  function Initial(): (s: FlowState)
    ensures s.currentStep == 1 && !s.photosUploaded
    ensures s.selfieDataUrl == None && s.faceMetrics == None && s.faceShape == None
    ensures s.questionnaireAnswers == None && s.submissionId == None
    ensures s.recommendations == [] && s.previewImages == map[] && s.selectedHaircutIds == []
  {
    FlowState(1, false, None, None, None, None, [], map[], [], None)
  }

  /** The store's actions with their arguments. */
  datatype Action =
    | PhotosComplete(selfie: Option<string>)
    | ScanData(selfieUrl: string, metrics: FaceMetrics, shape: FaceShape)
    | QuestionnaireDone(answers: QuestionnaireAnswers)
    | RecommendationsReady(recs: seq<ScoredHaircut>)
    | PreviewImage(haircutId: string, dataUrl: string)
    | SelectedHaircuts(ids: seq<string>)
    | SubmissionDone(id: string)
    | Reset

  /** The state after an action: each action overwrites its own group of
      fields (and for most of them the step) and keeps the rest. */
  function Apply(s: FlowState, a: Action): (r: FlowState)
    ensures a.Reset? ==> r == Initial()
    ensures !a.Reset? ==> (r.questionnaireAnswers
                           == if a.QuestionnaireDone? then Some(a.answers) else s.questionnaireAnswers)
    ensures !a.Reset? ==> (r.recommendations
                           == if a.RecommendationsReady? then a.recs else s.recommendations)
    ensures !a.Reset? ==> (r.selectedHaircutIds
                           == if a.SelectedHaircuts? then a.ids else s.selectedHaircutIds)
    ensures !a.Reset? ==> (r.submissionId
                           == if a.SubmissionDone? then Some(a.id) else s.submissionId)
    ensures !a.Reset? ==> (r.previewImages
                           == if a.PreviewImage? then s.previewImages[a.haircutId := a.dataUrl] else s.previewImages)
    ensures !a.Reset? && !a.ScanData? ==> r.faceMetrics == s.faceMetrics && r.faceShape == s.faceShape
    ensures a.PhotosComplete? ==> r.photosUploaded && r.selfieDataUrl == a.selfie
    ensures a.ScanData? ==> (r.photosUploaded && r.selfieDataUrl == Some(a.selfieUrl)
                             && r.faceMetrics == Some(a.metrics) && r.faceShape == Some(a.shape))
    ensures !a.Reset? && !a.PhotosComplete? && !a.ScanData?
            ==> r.photosUploaded == s.photosUploaded && r.selfieDataUrl == s.selfieDataUrl
  {
    match a
    case PhotosComplete(selfie) =>
      s.(photosUploaded := true, selfieDataUrl := selfie, currentStep := 2)
    case ScanData(selfie, metrics, shape) =>
      s.(selfieDataUrl := Some(selfie), faceMetrics := Some(metrics), faceShape := Some(shape),
         photosUploaded := true, currentStep := 2)
    case QuestionnaireDone(answers) =>
      s.(questionnaireAnswers := Some(answers), currentStep := 3)
    case RecommendationsReady(recs) =>
      s.(recommendations := recs, currentStep := 3)
    case PreviewImage(id, url) =>
      s.(previewImages := s.previewImages[id := url])
    case SelectedHaircuts(ids) =>
      s.(selectedHaircutIds := ids, currentStep := 5)
    case SubmissionDone(id) =>
      s.(submissionId := Some(id))
    case Reset =>
      Initial()
  }

  /** `partialize`: the snapshot written to storage drops the preview images
      and the selfie, and keeps everything else. */
  function Partialize(s: FlowState): (p: FlowState)
    ensures p.previewImages == map[] && p.selfieDataUrl == None
    ensures p.(previewImages := s.previewImages, selfieDataUrl := s.selfieDataUrl) == s
  {
    s.(previewImages := map[], selfieDataUrl := None)
  }

  /** What every reachable state satisfies: the step is one the actions set,
      a face shape is stored exactly together with its metrics, and a shape or
      a selfie is only stored once photos are marked uploaded. */
  predicate Consistent(s: FlowState)
  {
    && s.currentStep in {1, 2, 3, 5}
    && (s.faceShape.Some? <==> s.faceMetrics.Some?)
    && (s.faceShape.Some? ==> s.photosUploaded)
    && (s.selfieDataUrl.Some? ==> s.photosUploaded)
  }

  /** The initial state is consistent, and every action keeps consistency. */
  lemma InitialConsistent()
    ensures Consistent(Initial())
  {
  }

  lemma ApplyKeepsConsistent(s: FlowState, a: Action)
    requires Consistent(s)
    ensures Consistent(Apply(s, a))
  {
  }

  /** The state after a sequence of actions, applied in order. */
  function Run(s: FlowState, actions: seq<Action>): FlowState
    decreases actions
  {
    if actions == [] then s else Run(Apply(s, actions[0]), actions[1..])
  }

  /** Every state reachable from a consistent one is consistent, and so is
      the snapshot persisted for it; in particular everything reachable from
      the initial state. */
  lemma {:induction false} RunKeepsConsistent(s: FlowState, actions: seq<Action>)
    requires Consistent(s)
    ensures Consistent(Run(s, actions))
    ensures Consistent(Partialize(Run(s, actions)))
    decreases actions
  {
    if actions != [] {
      ApplyKeepsConsistent(s, actions[0]);
      RunKeepsConsistent(Apply(s, actions[0]), actions[1..]);
    }
  }

  /** A sequence of actions ending in a reset leaves the initial state. */
  lemma {:induction false} RunEndingInReset(s: FlowState, actions: seq<Action>)
    ensures Run(s, actions + [Reset]) == Initial()
    decreases actions
  {
    if actions != [] {
      assert (actions + [Reset])[1..] == actions[1..] + [Reset];
      RunEndingInReset(Apply(s, actions[0]), actions[1..]);
    }
  }

  /** The step each action leaves behind: 2 after photos or a scan, 3 after
      the questionnaire or the recommendations, 5 after choosing, 1 after a
      reset; a preview image or a submission id leave it as it was. */
  lemma ApplyStep(s: FlowState, a: Action)
    ensures Apply(s, a).currentStep
         == match a
            case PhotosComplete(_) => 2
            case ScanData(_, _, _) => 2
            case QuestionnaireDone(_) => 3
            case RecommendationsReady(_) => 3
            case PreviewImage(_, _) => s.currentStep
            case SelectedHaircuts(_) => 5
            case SubmissionDone(_) => s.currentStep
            case Reset => 1
  {
  }

  /** A preview image is stored under its haircut id and every other entry
      is kept. */
  lemma PreviewImageKeepsOthers(s: FlowState, id: string, url: string)
    ensures Apply(s, PreviewImage(id, url)).previewImages[id] == url
    ensures forall k :: k in s.previewImages && k != id
              ==> k in Apply(s, PreviewImage(id, url)).previewImages
                  && Apply(s, PreviewImage(id, url)).previewImages[k] == s.previewImages[k]
    ensures Apply(s, PreviewImage(id, url)).previewImages.Keys == s.previewImages.Keys + {id}
  {
  }

  /** Preview images are never persisted: adding one does not change the
      snapshot. */
  lemma PreviewImageNotPersisted(s: FlowState, id: string, url: string)
    ensures Partialize(Apply(s, PreviewImage(id, url))) == Partialize(s)
  {
  }

  /** Taking the snapshot of a snapshot changes nothing, the snapshot of the
      initial state is the initial state, and a snapshot of a consistent
      state is consistent. */
  lemma PartializeIdempotent(s: FlowState)
    ensures Partialize(Partialize(s)) == Partialize(s)
  {
  }

  lemma PartializeInitial()
    ensures Partialize(Initial()) == Initial()
  {
  }

  lemma PartializeKeepsConsistent(s: FlowState)
    requires Consistent(s)
    ensures Consistent(Partialize(s))
  {
  }

  /** A reset forgets everything, whatever happened before. */
  lemma ResetForgets(s: FlowState, t: FlowState)
    ensures Apply(s, Reset) == Apply(t, Reset) == Initial()
  {
  }

  /** The store, with one mutable field per piece of state. */
  class Store {
    var currentStep: int
    var photosUploaded: bool
    var selfieDataUrl: Option<string>
    var faceMetrics: Option<FaceMetrics>
    var faceShape: Option<FaceShape>
    var questionnaireAnswers: Option<QuestionnaireAnswers>
    var recommendations: seq<ScoredHaircut>
    var previewImages: map<string, string>
    var selectedHaircutIds: seq<string>
    var submissionId: Option<string>

    /** The fields as one value. */
    function State(): FlowState
      reads this
    {
      FlowState(currentStep, photosUploaded, selfieDataUrl, faceMetrics, faceShape,
                questionnaireAnswers, recommendations, previewImages, selectedHaircutIds, submissionId)
    }

    ghost predicate Valid()
      reads this
    {
      Consistent(State())
    }

    constructor ()
      ensures State() == Initial()
      ensures Valid()
    {
      currentStep := 1;
      photosUploaded := false;
      selfieDataUrl := None;
      faceMetrics := None;
      faceShape := None;
      questionnaireAnswers := None;
      recommendations := [];
      previewImages := map[];
      selectedHaircutIds := [];
      submissionId := None;
    }

    method SetPhotosComplete(selfie: Option<string>)
      requires Valid()
      modifies this
      ensures State() == Apply(old(State()), PhotosComplete(selfie))
      ensures Valid()
    {
      photosUploaded := true;
      selfieDataUrl := selfie;
      currentStep := 2;
    }

    method SetScanData(selfie: string, metrics: FaceMetrics, shape: FaceShape)
      requires Valid()
      modifies this
      ensures State() == Apply(old(State()), ScanData(selfie, metrics, shape))
      ensures Valid()
    {
      selfieDataUrl := Some(selfie);
      faceMetrics := Some(metrics);
      faceShape := Some(shape);
      photosUploaded := true;
      currentStep := 2;
    }

    method SetQuestionnaireAnswers(answers: QuestionnaireAnswers)
      requires Valid()
      modifies this
      ensures State() == Apply(old(State()), QuestionnaireDone(answers))
      ensures Valid()
    {
      questionnaireAnswers := Some(answers);
      currentStep := 3;
    }

    method SetRecommendations(recs: seq<ScoredHaircut>)
      requires Valid()
      modifies this
      ensures State() == Apply(old(State()), RecommendationsReady(recs))
      ensures Valid()
    {
      recommendations := recs;
      currentStep := 3;
    }

    method SetPreviewImage(haircutId: string, dataUrl: string)
      requires Valid()
      modifies this
      ensures State() == Apply(old(State()), PreviewImage(haircutId, dataUrl))
      ensures Valid()
    {
      previewImages := previewImages[haircutId := dataUrl];
    }

    method SetSelectedHaircuts(ids: seq<string>)
      requires Valid()
      modifies this
      ensures State() == Apply(old(State()), SelectedHaircuts(ids))
      ensures Valid()
    {
      selectedHaircutIds := ids;
      currentStep := 5;
    }

    method SetSubmissionId(id: string)
      requires Valid()
      modifies this
      ensures State() == Apply(old(State()), SubmissionDone(id))
      ensures Valid()
    {
      submissionId := Some(id);
    }

    method ResetAll()
      modifies this
      ensures State() == Apply(old(State()), Reset)
      ensures Valid()
    {
      currentStep := 1;
      photosUploaded := false;
      selfieDataUrl := None;
      faceMetrics := None;
      faceShape := None;
      questionnaireAnswers := None;
      recommendations := [];
      previewImages := map[];
      selectedHaircutIds := [];
      submissionId := None;
    }
  }
}
