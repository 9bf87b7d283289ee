/** The entities the recommendation engine reads and produces. Every value is
    immutable and rebuilt on each call. */
module Model {
  import opened Wrappers

  /** The seven study methods of the catalog. */
  datatype MethodKey =
    | Pomodoro
    | ActiveRecall
    | SpacedRepetition
    | PracticeLadder
    | TeachBack
    | ConceptMapping
    | AudioReflection

  /** The display name of a method, as it appears to users and in the
      baseline-method substring test. */
  function Label(k: MethodKey): string
  {
    match k
    case Pomodoro => PomodoroLabel
    case ActiveRecall => ActiveRecallLabel
    case SpacedRepetition => SpacedRepetitionLabel
    case PracticeLadder => PracticeLadderLabel
    case TeachBack => TeachBackLabel
    case ConceptMapping => ConceptMappingLabel
    case AudioReflection => AudioReflectionLabel
  }

  const PomodoroLabel := "Pomodoro Technique"
  const ActiveRecallLabel := "Active Recall Sprints"
  const SpacedRepetitionLabel := "Spaced Repetition Plan"
  const PracticeLadderLabel := "Practice Problem Ladder"
  const TeachBackLabel := "Teach-Back Method"
  const ConceptMappingLabel := "Concept Mapping Studio"
  const AudioReflectionLabel := "Audio Reflection Review"

  /** A catalog entry. */
  datatype MethodProfile = MethodProfile(
    name: MethodKey,
    baseScore: int,
    summary: string,
    simplified: string,
    implementationSteps: seq<string>,
    bestFor: seq<string>)

  /** One scored method of the ranked list. */
  datatype RecommendationMethod = RecommendationMethod(
    name: MethodKey,
    score: int,
    summary: string,
    implementationSteps: seq<string>,
    reason: string)

  /** A caller-supplied unit of scheduled study time. */
  datatype PracticeBlock = PracticeBlock(subject: string, duration: string, task: string)

  datatype StudyPlan = StudyPlan(weeklyGoals: seq<string>, practiceBlocks: seq<PracticeBlock>)

  /** The onboarding survey fields the engine reads. */
  datatype InitialSurvey = InitialSurvey(learningStyle: Option<string>, studyMethod: Option<string>)

  datatype Preferences = Preferences(workEnvironment: Option<string>)

  /** The final survey: personality maps a trait name to a Likert label. */
  datatype FinalSurvey = FinalSurvey(
    personality: Option<map<string, string>>,
    preferences: Option<Preferences>)

  /** A mood log entry; only the rating is read. */
  datatype MoodEntry = MoodEntry(rating: int)

  /** The part of the application state the engine reads; mood entries are
      ordered newest first. */
  datatype State = State(
    studyPlan: Option<StudyPlan>,
    initialSurvey: Option<InitialSurvey>,
    finalSurvey: Option<FinalSurvey>,
    moodEntries: seq<MoodEntry>)

  /** A practice block enriched with a strategy and guidance texts. */
  datatype ScheduleDetail = ScheduleDetail(
    subject: string,
    duration: string,
    task: string,
    strategy: string,
    checkpoint: string,
    breakPlan: string,
    output: string)

  /** The engine's result. */
  datatype PersonalizedRecommendations = PersonalizedRecommendations(
    topMethod: RecommendationMethod,
    alternateMethods: seq<RecommendationMethod>,
    explanation: seq<string>,
    simplifiedPlan: string,
    scheduleDetails: seq<ScheduleDetail>)
}
