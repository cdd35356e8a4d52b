/** The questionnaire form: hair type, thinning level, maintenance slider and
    vibe chips, the vibe toggle, and the ordered validation that runs before
    the answers are handed to the flow store. */
module Questionnaire {
  import opened Types
  import FlowStore
  import Engine
  import opened Sequences

  const HairTypeMissing: string := "Please select your hair type"
  const ThinningMissing: string := "Please select your thinning level"
  const VibesMissing: string := "Please select at least one vibe"

  /** `prev.filter(x => x !== v)`: every occurrence of `v` removed, every
      other element kept as often as it occurred. */
  function RemoveAll(vibes: seq<string>, v: string): (r: seq<string>)
    ensures v !in r
    ensures forall x :: x != v ==> multiset(r)[x] == multiset(vibes)[x]
    ensures |r| <= |vibes|
  {
    if vibes == [] then []
    else
      assert vibes == [vibes[0]] + vibes[1..];
      (if vibes[0] == v then [] else [vibes[0]]) + RemoveAll(vibes[1..], v)
  }

  /** `toggleVibe`: a selected vibe is removed (all its occurrences), an
      unselected one is appended at the end. */
  function ToggleVibe(vibes: seq<string>, v: string): (r: seq<string>)
    ensures v in r <==> v !in vibes
    ensures forall x :: x != v ==> multiset(r)[x] == multiset(vibes)[x]
    ensures v !in vibes ==> r == vibes + [v]
  {
    if v in vibes then RemoveAll(vibes, v) else vibes + [v]
  }

  /** Removing a vibe that is not there changes nothing. */
  lemma {:induction false} RemoveAbsent(vibes: seq<string>, v: string)
    requires v !in vibes
    ensures RemoveAll(vibes, v) == vibes
  {
    if vibes != [] {
      RemoveAbsent(vibes[1..], v);
    }
  }

  /** Removing distributes over concatenation. */
  lemma {:induction false} RemoveAppend(a: seq<string>, b: seq<string>, v: string)
    ensures RemoveAll(a + b, v) == RemoveAll(a, v) + RemoveAll(b, v)
  {
    if a == [] {
      assert a + b == b;
    } else {
      assert (a + b)[0] == a[0];
      assert (a + b)[1..] == a[1..] + b;
      RemoveAppend(a[1..], b, v);
    }
  }

  /** Toggling an unselected vibe on and off again restores the selection. */
  lemma ToggleTwiceRestores(vibes: seq<string>, v: string)
    requires v !in vibes
    ensures ToggleVibe(ToggleVibe(vibes, v), v) == vibes
  {
    RemoveAppend(vibes, [v], v);
    RemoveAbsent(vibes, v);
    assert RemoveAll([v], v) == [];
  }

  /** Toggling keeps a selection free of repeats. */
  lemma ToggleKeepsNoDuplicates(vibes: seq<string>, v: string)
    requires Distinct(vibes)
    ensures Distinct(ToggleVibe(vibes, v))
  {
    DistinctIffCounts(vibes);
    DistinctIffCounts(ToggleVibe(vibes, v));
  }

  /** JavaScript truthiness of an optional string: present and non-empty. */
  predicate Truthy(s: Option<string>)
  {
    s.Some? && s.value != ""
  }

  /** The message `submit` shows, checking hair type, then thinning, then the
      vibes; none when all three are given. */
  function FirstValidationError(hairType: Option<string>, thinning: Option<string>,
                                vibes: seq<string>): (error: Option<string>)
    ensures error.None? <==> Truthy(hairType) && Truthy(thinning) && |vibes| > 0
    ensures error == Some(HairTypeMissing) <==> !Truthy(hairType)
    ensures error == Some(ThinningMissing) <==> Truthy(hairType) && !Truthy(thinning)
    ensures error == Some(VibesMissing) <==> Truthy(hairType) && Truthy(thinning) && |vibes| == 0
  {
    if !Truthy(hairType) then Some(HairTypeMissing)
    else if !Truthy(thinning) then Some(ThinningMissing)
    else if |vibes| == 0 then Some(VibesMissing)
    else None
  }

  /** The answers `submit` stores: the four selections, every optional
      field absent. */
  function BuildAnswers(hairType: string, thinning: string, maintenance: int,
                        vibes: seq<string>): (answers: QuestionnaireAnswers)
    ensures answers.hairType == hairType && answers.thinning == thinning
    ensures answers.maintenanceLevel == maintenance && answers.vibePreferences == vibes
    ensures answers.hairLength == None && answers.concerns == None && answers.change == None
    ensures answers.lifestyle == None && answers.stylingTime == None && answers.notes == None
    ensures answers.hairLengthLabel == None
  {
    QuestionnaireAnswers(hairType, None, None, None, None, None, None, thinning, maintenance, vibes, None)
  }

  /** The form never fills in `hairLength`, so answers it submits are scored
      as medium length, whatever length the client has. */
  lemma FormAnswersScoredAsMedium(shape: FaceShape, hairType: string, thinning: string,
                                  maintenance: int, vibes: seq<string>)
    ensures Engine.BuildInput(shape, BuildAnswers(hairType, thinning, maintenance, vibes)).hairLength == "medium"
  {
  }

  /** The form's state, with the flow store it hands the answers to. */
  class Form {
    var hairType: Option<string>
    var thinning: Option<string>
    var maintenance: int
    var vibes: seq<string>
    var validationError: Option<string>
    const store: FlowStore.Store

    /** The slider keeps the maintenance level between 1 and 5, and the
        store keeps its own invariant. */
    ghost predicate Valid()
      reads this, store
    {
      1 <= maintenance <= 5 && store.Valid()
    }

    constructor (store: FlowStore.Store)
      requires store.Valid()
      ensures this.store == store
      ensures hairType == None && thinning == None && maintenance == 3
      ensures vibes == [] && validationError == None
      ensures Valid()
    {
      this.store := store;
      hairType := None;
      thinning := None;
      maintenance := 3;
      vibes := [];
      validationError := None;
    }

    method SelectHairType(t: string)
      modifies this
      ensures hairType == Some(t)
      ensures thinning == old(thinning) && maintenance == old(maintenance)
      ensures vibes == old(vibes) && validationError == old(validationError)
    {
      hairType := Some(t);
    }

    method SelectThinning(t: string)
      modifies this
      ensures thinning == Some(t)
      ensures hairType == old(hairType) && maintenance == old(maintenance)
      ensures vibes == old(vibes) && validationError == old(validationError)
    {
      thinning := Some(t);
    }

    /** The range input only produces levels from 1 to 5. */
    method SetMaintenance(level: int)
      requires 1 <= level <= 5
      requires Valid()
      modifies this
      ensures maintenance == level
      ensures hairType == old(hairType) && thinning == old(thinning)
      ensures vibes == old(vibes) && validationError == old(validationError)
      ensures Valid()
    {
      maintenance := level;
    }

    method ToggleVibeChip(v: string)
      modifies this
      ensures vibes == ToggleVibe(old(vibes), v)
      ensures hairType == old(hairType) && thinning == old(thinning)
      ensures maintenance == old(maintenance) && validationError == old(validationError)
    {
      vibes := ToggleVibe(vibes, v);
    }

    /** `submit`: the first failing check sets its message and nothing is
        stored; when all pass the message is cleared and the answers built
        from the current selections go to the store. */
    method Submit()
      requires Valid()
      modifies this, store
      ensures validationError == FirstValidationError(hairType, thinning, vibes)
      ensures hairType == old(hairType) && thinning == old(thinning)
      ensures maintenance == old(maintenance) && vibes == old(vibes)
      ensures validationError.Some? ==> store.State() == old(store.State())
      ensures validationError.None?
              ==> store.State() == FlowStore.Apply(old(store.State()),
                      FlowStore.QuestionnaireDone(BuildAnswers(hairType.value, thinning.value, maintenance, vibes)))
      ensures Valid()
    {
      if !Truthy(hairType) {
        validationError := Some(HairTypeMissing);
        return;
      }
      if !Truthy(thinning) {
        validationError := Some(ThinningMissing);
        return;
      }
      if |vibes| == 0 {
        validationError := Some(VibesMissing);
        return;
      }
      validationError := None;
      var answers := BuildAnswers(hairType.value, thinning.value, maintenance, vibes);
      store.SetQuestionnaireAnswers(answers);
    }
  }
}
