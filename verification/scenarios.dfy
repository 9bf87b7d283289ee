/** Worked scenarios of the engine: the study-method choices of the
    onboarding form, a visual learner, a low mood and a three-block plan. */
module Scenarios {
  import opened Wrappers
  import opened Model
  import opened Text
  import opened Signals
  import opened Scoring
  import opened Schedule

  /** The answers the onboarding form offers for the usual study method. */
  const StudyMethodChoices: seq<string> :=
    [ActiveRecallChoice, SpacedRepetitionChoice, PracticeProblemsChoice, ConceptExplanationChoice, FlashcardsChoice]

  const ActiveRecallChoice := "Active recall"
  const SpacedRepetitionChoice := "Spaced repetition"
  const PracticeProblemsChoice := "Practice problems"
  const ConceptExplanationChoice := "Concept explanation"
  const FlashcardsChoice := "Flashcards"

  /** None of the form's choices is a case-sensitive substring of any
      method name, so the study-method bonus never fires for them. */
  lemma {:induction false} ChoicesNeverMatch(k: MethodKey, choice: int)
    requires 0 <= choice < |StudyMethodChoices|
    ensures !Includes(Label(k), StudyMethodChoices[choice])
  {
    if choice == 0 {
      ActiveRecallChoiceNeverMatches(k);
    } else if choice == 1 {
      SpacedRepetitionChoiceNeverMatches(k);
    } else if choice == 2 {
      PracticeProblemsChoiceNeverMatches(k);
    } else if choice == 3 {
      NoNameHasX(k);
      MissingCharExcludes(Label(k), ConceptExplanationChoice, 'x');
    } else {
      NoNameHasCapitalF(k);
      MissingCharExcludes(Label(k), FlashcardsChoice, 'F');
    }
  }

  /** "Active recall" differs from "Active Recall Sprints" in the case of
      its `r`; "Audio Reflection Review" has no lower-case `a`, and no
      other name has a capital `A`. */
  lemma {:induction false} ActiveRecallChoiceNeverMatches(k: MethodKey)
    ensures !Includes(Label(k), ActiveRecallChoice)
  {
    if k == ActiveRecall {
      RecallCaseDiffers();
    } else if k == AudioReflection {
      AudioLacksLowerA();
    } else {
      FewNamesHaveCapitalA(k);
      MissingCharExcludes(Label(k), ActiveRecallChoice, 'A');
    }
  }

  /** "Spaced repetition" differs from "Spaced Repetition Plan" in the case
      of its `r`; "Active Recall Sprints" has no `d`, "Concept Mapping
      Studio" no `r`, and no other name a capital `S`. */
  lemma {:induction false} SpacedRepetitionChoiceNeverMatches(k: MethodKey)
    ensures !Includes(Label(k), SpacedRepetitionChoice)
  {
    if k == ActiveRecall {
      SprintsLackD();
    } else if k == SpacedRepetition {
      RepetitionCaseDiffers();
    } else if k == ConceptMapping {
      StudioLacksR();
    } else {
      FewNamesHaveCapitalS(k);
      MissingCharExcludes(Label(k), SpacedRepetitionChoice, 'S');
    }
  }

  /** "Practice problems" has a plural `s` that "Practice Problem Ladder"
      lacks; no other name has a `b`. */
  lemma {:induction false} PracticeProblemsChoiceNeverMatches(k: MethodKey)
    ensures !Includes(Label(k), PracticeProblemsChoice)
  {
    if k == PracticeLadder {
      LadderLacksPluralS();
    } else {
      OnlyLadderHasB(k);
      MissingCharExcludes(Label(k), PracticeProblemsChoice, 'b');
    }
  }

  lemma RecallCaseDiffers()
    ensures !Includes(ActiveRecallLabel, ActiveRecallChoice)
  {
    MismatchAtOnlyStart(ActiveRecallLabel, ActiveRecallChoice, 7);
  }

  lemma AudioLacksLowerA()
    ensures !Includes(AudioReflectionLabel, ActiveRecallChoice)
  {
    MissingCharExcludes(AudioReflectionLabel, ActiveRecallChoice, 'a');
  }

  lemma RepetitionCaseDiffers()
    ensures !Includes(SpacedRepetitionLabel, SpacedRepetitionChoice)
  {
    MismatchAtOnlyStart(SpacedRepetitionLabel, SpacedRepetitionChoice, 7);
  }

  lemma SprintsLackD()
    ensures !Includes(ActiveRecallLabel, SpacedRepetitionChoice)
  {
    MissingCharExcludes(ActiveRecallLabel, SpacedRepetitionChoice, 'd');
  }

  lemma StudioLacksR()
    ensures !Includes(ConceptMappingLabel, SpacedRepetitionChoice)
  {
    MissingCharExcludes(ConceptMappingLabel, SpacedRepetitionChoice, 'r');
  }

  lemma LadderLacksPluralS()
    ensures !Includes(PracticeLadderLabel, PracticeProblemsChoice)
  {
    MissingCharExcludes(PracticeLadderLabel, PracticeProblemsChoice, 's');
  }

  lemma {:induction false} NoNameHasX(k: MethodKey)
    ensures 'x' !in Label(k)
  {
  }

  lemma {:induction false} NoNameHasCapitalF(k: MethodKey)
    ensures 'F' !in Label(k)
  {
  }

  lemma {:induction false} FewNamesHaveCapitalA(k: MethodKey)
    ensures k != ActiveRecall && k != AudioReflection ==> 'A' !in Label(k)
  {
  }

  lemma {:induction false} FewNamesHaveCapitalS(k: MethodKey)
    ensures k != ActiveRecall && k != SpacedRepetition && k != ConceptMapping ==> 'S' !in Label(k)
  {
  }

  lemma {:induction false} OnlyLadderHasB(k: MethodKey)
    ensures k != PracticeLadder ==> 'b' !in Label(k)
  {
  }

  /** Whatever a user picks on the form, no method earns the bonus. */
  lemma {:induction false} ChoiceEarnsNoBonus(k: MethodKey, sig: SignalSet, choice: int)
    requires 0 <= choice < |StudyMethodChoices|
    requires sig.baselineMethod == Some(StudyMethodChoices[choice])
    ensures !BaselineMatches(k, sig)
  {
    ChoicesNeverMatch(k, choice);
  }

  /** A method's own name as the answer does earn the bonus. */
  lemma {:induction false} NameEarnsBonus(k: MethodKey, sig: SignalSet)
    requires sig.baselineMethod == Some(Label(k))
    ensures BaselineMatches(k, sig)
  {
    assert OccursAt(Label(k), Label(k), 0);
  }

  /** Only answered surveys: a learning style and a study method. */
  function OnboardedState(style: string, choice: int): State
    requires 0 <= choice < |StudyMethodChoices|
  {
    State(None, Some(InitialSurvey(Some(style), Some(StudyMethodChoices[choice]))), None, [])
  }

  /** A visual learner gets the concept-map reward alone: Concept Mapping
      moves from 48 to 62 with the visual reason. */
  lemma {:induction false} VisualLearnerFavoursConceptMapping(m: MethodProfile, choice: int)
    requires m.name == ConceptMapping && m.baseScore == 48
    requires 0 <= choice < |StudyMethodChoices|
    ensures MethodScoreAdjustments(m, ExtractSignals(OnboardedState("Visual", choice)))
         == Adjusted(62, [VisualReason])
  {
    var sig := ExtractSignals(OnboardedState("Visual", choice));
    ChoicesNeverMatch(ConceptMapping, choice);
    VisualStyleAlone(sig);
  }

  /** A visual style with no personality answers fires the concept-map rule
      and nothing else for Concept Mapping, whatever the mood and setting. */
  lemma {:induction false} VisualStyleAlone(sig: SignalSet)
    requires sig.learningStyle == Some("Visual") && sig.personality == map[]
    ensures FiredTotal(Rules, ConceptMapping, sig) == 14
    ensures FiredReasons(Rules, ConceptMapping, sig) == [VisualReason]
  {
    assert Fires(Rules[0], ConceptMapping, sig);
    assert !Fires(Rules[5], ConceptMapping, sig);
    FiredOnly(Rules, ConceptMapping, sig, 0);
  }

  /** A newest mood of 1 and nothing else: Pomodoro moves from 60 to 66 with
      the low-mood reason. */
  lemma {:induction false} LowMoodFavoursPomodoro(m: MethodProfile)
    requires m.name == Pomodoro && m.baseScore == 60
    ensures MethodScoreAdjustments(m, ExtractSignals(State(None, None, None, [MoodEntry(1)])))
         == Adjusted(66, [LowMoodReason])
  {
    var sig := ExtractSignals(State(None, None, None, [MoodEntry(1)]));
    assert Fires(Rules[11], Pomodoro, sig);
    FiredOnly(Rules, Pomodoro, sig, 11);
  }

  /** Three blocks get self-checks at minutes 15, 20 and 25. */
  lemma {:induction false} ThreeBlockCheckpoints(blocks: seq<PracticeBlock>, methods: seq<RecommendationMethod>)
    requires |blocks| == 3
    ensures |BuildScheduleDetails(blocks, methods)| == 3
    ensures BuildScheduleDetails(blocks, methods)[0].checkpoint == CheckpointPrefix + "15" + CheckpointSuffix
    ensures BuildScheduleDetails(blocks, methods)[1].checkpoint == CheckpointPrefix + "20" + CheckpointSuffix
    ensures BuildScheduleDetails(blocks, methods)[2].checkpoint == CheckpointPrefix + "25" + CheckpointSuffix
  {
  }
}
