/** Normalising the raw survey and mood state into the signals the scoring
    rules read. Every signal has a neutral default, so extraction is total. */
module Signals {
  import opened Wrappers
  import opened Model

  /** The five Likert labels of the final survey, from level 1 to level 5. */
  function LikertLabel(level: int): string
    requires 1 <= level <= 5
  {
    match level
    case 1 => "Strongly Disagree"
    case 2 => "Disagree"
    case 3 => "Neutral"
    case 4 => "Agree"
    case 5 => "Strongly Agree"
  }

  /** `agreementToScore`: a Likert label to a level from 1 to 5; anything
      else, including a missing answer, is the neutral 3. */
  function AgreementToScore(value: Option<string>): (r: int)
    ensures 1 <= r <= 5
    ensures r == 5 <==> value == Some("Strongly Agree")
    ensures r == 4 <==> value == Some("Agree")
    ensures r == 2 <==> value == Some("Disagree")
    ensures r == 1 <==> value == Some("Strongly Disagree")
    ensures value.None? ==> r == 3
  {
    match value
    case Some("Strongly Agree") => 5
    case Some("Agree") => 4
    case Some("Neutral") => 3
    case Some("Disagree") => 2
    case Some("Strongly Disagree") => 1
    case _ => 3
  }

  /** Reading the label of a level gives the level back. */
  lemma {:induction false} AgreementRoundTrip(level: int)
    requires 1 <= level <= 5
    ensures AgreementToScore(Some(LikertLabel(level))) == level
  {
  }

  /** Every label other than the five named ones reads as neutral. */
  lemma {:induction false} UnknownAnswerIsNeutral(value: string)
    requires forall level :: 1 <= level <= 5 ==> value != LikertLabel(level)
    ensures AgreementToScore(Some(value)) == 3
  {
    assert value != LikertLabel(1) && value != LikertLabel(2) && value != LikertLabel(4);
    assert value != LikertLabel(5);
  }

  /** `getPersonalityLevels`: the level of every answered traitName; no
      answers give no levels. */
  function PersonalityLevels(personality: Option<map<string, string>>): (levels: map<string, int>)
    ensures personality.None? ==> levels == map[]
    ensures personality.Some? ==> levels.Keys == personality.value.Keys
    ensures personality.Some? ==>
              forall t :: t in levels ==> levels[t] == AgreementToScore(Some(personality.value[t]))
    ensures forall t :: t in levels ==> 1 <= levels[t] <= 5
  {
    match personality
    case None => map[]
    case Some(answers) => map t | t in answers :: AgreementToScore(Some(answers[t]))
  }

  /** `levels[traitName] ?? 3`. */
  function TraitLevel(levels: map<string, int>, traitName: string): int
  {
    if traitName in levels then levels[traitName] else 3
  }

  /** The normalised inputs of the scoring rules. */
  datatype SignalSet = SignalSet(
    learningStyle: Option<string>,
    baselineMethod: Option<string>,
    personality: map<string, int>,
    latestMood: int,
    workEnvironment: Option<string>)

  /** The rating of the newest mood entry, or 3 when there is none. */
  function LatestMood(entries: seq<MoodEntry>): (r: int)
    ensures |entries| == 0 ==> r == 3
    ensures |entries| > 0 ==> r == entries[0].rating
  {
    if |entries| == 0 then 3 else entries[0].rating
  }

  /** The signals of a state: each optional path yields `None` as soon as a
      link is missing, as the `?.` chains do. */
  function ExtractSignals(state: State): (sig: SignalSet)
    ensures state.initialSurvey.None? ==> sig.learningStyle.None? && sig.baselineMethod.None?
    ensures state.finalSurvey.None? ==> sig.personality == map[] && sig.workEnvironment.None?
    ensures state.initialSurvey.Some? ==>
              && sig.learningStyle == state.initialSurvey.value.learningStyle
              && sig.baselineMethod == state.initialSurvey.value.studyMethod
    ensures state.finalSurvey.Some? ==> sig.personality == PersonalityLevels(state.finalSurvey.value.personality)
    ensures state.finalSurvey.Some? && state.finalSurvey.value.preferences.Some? ==>
              sig.workEnvironment == state.finalSurvey.value.preferences.value.workEnvironment
    ensures state.finalSurvey.Some? && state.finalSurvey.value.preferences.None? ==> sig.workEnvironment.None?
    ensures sig.latestMood == LatestMood(state.moodEntries)
    ensures forall t :: t in sig.personality ==> 1 <= sig.personality[t] <= 5
  {
    var learningStyle :=
      if state.initialSurvey.Some? then state.initialSurvey.value.learningStyle else None;
    var baselineMethod :=
      if state.initialSurvey.Some? then state.initialSurvey.value.studyMethod else None;
    var personality :=
      PersonalityLevels(if state.finalSurvey.Some? then state.finalSurvey.value.personality else None);
    var workEnvironment :=
      if state.finalSurvey.Some? && state.finalSurvey.value.preferences.Some?
      then state.finalSurvey.value.preferences.value.workEnvironment
      else None;
    SignalSet(learningStyle, baselineMethod, personality, LatestMood(state.moodEntries), workEnvironment)
  }

  /** Trait levels read from extracted signals are always Likert levels; a
      traitName nobody answered reads as the neutral 3. */
  lemma {:induction false} TraitLevelInRange(state: State, traitName: string)
    ensures 1 <= TraitLevel(ExtractSignals(state).personality, traitName) <= 5
    ensures traitName !in ExtractSignals(state).personality ==>
              TraitLevel(ExtractSignals(state).personality, traitName) == 3
  {
  }
}
