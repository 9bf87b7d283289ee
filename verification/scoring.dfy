/** `methodScoreAdjustments`: a method's base score plus the deltas of the
    rules that fire for it, with one reason per fired rule in rule order. */
module Scoring {
  import opened Wrappers
  import opened Model
  import opened Text
  import opened Signals

  /** The condition of a targeted rule, read from the signals alone. */
  datatype Guard =
    | StyleIs(style: string)
    | TraitHigh(traitName: string)
    | EnvironmentIs(environment: string)
    | LowMood

  predicate Holds(g: Guard, sig: SignalSet)
  {
    match g
    case StyleIs(style) => sig.learningStyle == Some(style)
    case TraitHigh(traitName) => TraitLevel(sig.personality, traitName) >= 4
    case EnvironmentIs(environment) => sig.workEnvironment == Some(environment)
    case LowMood => sig.latestMood <= 2
  }

  /** A rule adds `delta` to the one method it names when its guard holds. */
  datatype Rule = Rule(guard: Guard, target: MethodKey, delta: int, reason: string)

  /** The targeted rules, in the order they are evaluated. */
  const Rules: seq<Rule> := [
    Rule(StyleIs("Visual"), ConceptMapping, 14, VisualReason),
    Rule(StyleIs("Audio"), AudioReflection, 14, AudioReason),
    Rule(StyleIs("Reading"), SpacedRepetition, 10, ReadingReason),
    Rule(StyleIs("Kinesthetic"), PracticeLadder, 12, KinestheticReason),
    Rule(TraitHigh("Analytical"), PracticeLadder, 10, AnalyticalReason),
    Rule(TraitHigh("Creative"), ConceptMapping, 8, CreativeReason),
    Rule(TraitHigh("Social"), TeachBack, 10, SocialReason),
    Rule(TraitHigh("Organized"), Pomodoro, 8, OrganizedReason),
    Rule(EnvironmentIs("Remote"), Pomodoro, 5, RemoteReason),
    Rule(EnvironmentIs("Hybrid"), SpacedRepetition, 4, HybridReason),
    Rule(EnvironmentIs("Field"), PracticeLadder, 4, FieldReason),
    Rule(LowMood, Pomodoro, 6, LowMoodReason)
  ]

  /** The reason each rule reports when it fires. */
  const VisualReason := "Your visual learning style aligns with concept maps."
  const AudioReason := "Your audio learning style aligns with verbal review."
  const ReadingReason := "Reading preference benefits from repeat written review."
  const KinestheticReason := "Kinesthetic learning is reinforced through active problem solving."
  const AnalyticalReason := "Your analytical profile benefits from step-by-step challenge progression."
  const CreativeReason := "Your creative profile benefits from visual synthesis and pattern links."
  const SocialReason := "Your social profile benefits from discussion-based learning."
  const OrganizedReason := "Your organized profile fits structured time blocks."
  const RemoteReason := "Remote preference pairs well with independent timed sessions."
  const HybridReason := "Hybrid preference benefits from portable distributed reviews."
  const FieldReason := "Field preference benefits from practical task progression."
  const LowMoodReason := "Short focused rounds help when motivation is lower."

  /** Every rule of a table rewards; none penalises. */
  predicate AllRewarding(rules: seq<Rule>)
  {
    forall i :: 0 <= i < |rules| ==> rules[i].delta > 0
  }

  predicate Fires(r: Rule, k: MethodKey, sig: SignalSet)
  {
    r.target == k && Holds(r.guard, sig)
  }

  /** The most the rules of `rules` could add to method `k`. */
  function TargetedTotal(rules: seq<Rule>, k: MethodKey): int
  {
    if |rules| == 0 then 0
    else (if rules[0].target == k then rules[0].delta else 0) + TargetedTotal(rules[1..], k)
  }

  /** The deltas of the rules of `rules` that fire for `k`, summed. */
  function FiredTotal(rules: seq<Rule>, k: MethodKey, sig: SignalSet): int
  {
    if |rules| == 0 then 0
    else (if Fires(rules[0], k, sig) then rules[0].delta else 0) + FiredTotal(rules[1..], k, sig)
  }

  /** The reasons of the rules of `rules` that fire for `k`, in rule order. */
  function FiredReasons(rules: seq<Rule>, k: MethodKey, sig: SignalSet): seq<string>
  {
    if |rules| == 0 then []
    else (if Fires(rules[0], k, sig) then [rules[0].reason] else []) + FiredReasons(rules[1..], k, sig)
  }

  /** A score under construction with the reasons collected so far. */
  datatype Adjusted = Adjusted(score: int, reasons: seq<string>)

  /** Evaluates `rules` in order for method `k`, on top of `acc`. A rule
      that fires adds its delta and appends its reason; others change nothing. */
  function ApplyRules(rules: seq<Rule>, k: MethodKey, sig: SignalSet, acc: Adjusted): (r: Adjusted)
    ensures r == Adjusted(acc.score + FiredTotal(rules, k, sig), acc.reasons + FiredReasons(rules, k, sig))
    ensures AllRewarding(rules) ==> acc.score <= r.score <= acc.score + TargetedTotal(rules, k)
    ensures |acc.reasons| <= |r.reasons|
    ensures forall j :: 0 <= j < |acc.reasons| ==> r.reasons[j] == acc.reasons[j]
    ensures |r.reasons| - |acc.reasons| <= |rules|
    ensures (forall i :: 0 <= i < |rules| ==> !Fires(rules[i], k, sig)) ==> r == acc
    ensures (exists i :: 0 <= i < |rules| && Fires(rules[i], k, sig)) ==> |r.reasons| > |acc.reasons|
    ensures |r.reasons| > |acc.reasons| ==> AllRewarding(rules) ==> r.score > acc.score
  {
    if |rules| == 0 then acc
    else
      var rule := rules[0];
      var next :=
        if Fires(rule, k, sig) then Adjusted(acc.score + rule.delta, acc.reasons + [rule.reason])
        else acc;
      var tail := FiredReasons(rules[1..], k, sig);
      assert next.reasons + tail
          == acc.reasons + ((if Fires(rule, k, sig) then [rule.reason] else []) + tail);
      ApplyRules(rules[1..], k, sig, next)
  }

  /** The reward for naming a study method contained in the method's name. */
  const BaselineDelta := 6

  /** `baselineMethod && name.includes(baselineMethod)`: a non-empty
      answer that occurs, case-sensitively, in the method's display name. */
  predicate BaselineMatches(k: MethodKey, sig: SignalSet)
  {
    sig.baselineMethod.Some? && |sig.baselineMethod.value| > 0
    && Includes(Label(k), sig.baselineMethod.value)
  }

  function BaselineReason(baseline: string): string
  {
    BaselinePrefix + baseline + BaselineSuffix
  }

  const BaselinePrefix := "Matches your selected study method ("
  const BaselineSuffix := ")."

  /** Every rule of the table rewards. */
  lemma RulesRewarding()
    ensures AllRewarding(Rules)
  {
  }

  /** No targeted rule fires for method `k`. */
  predicate NoRuleFires(k: MethodKey, sig: SignalSet)
  {
    forall i :: 0 <= i < |Rules| ==> !Fires(Rules[i], k, sig)
  }

  /** `methodScoreAdjustments` for profile `m`. */
  function MethodScoreAdjustments(m: MethodProfile, sig: SignalSet): (r: Adjusted)
    ensures r.score == m.baseScore + (if BaselineMatches(m.name, sig) then BaselineDelta else 0)
                       + FiredTotal(Rules, m.name, sig)
    ensures r.reasons == (if BaselineMatches(m.name, sig) then [BaselineReason(sig.baselineMethod.value)] else [])
                         + FiredReasons(Rules, m.name, sig)
    ensures m.baseScore <= r.score <= m.baseScore + BaselineDelta + TargetedTotal(Rules, m.name)
    ensures BaselineMatches(m.name, sig) ==>
              && m.baseScore + BaselineDelta <= r.score
              && |r.reasons| > 0
              && r.reasons[0] == BaselineReason(sig.baselineMethod.value)
    ensures NoRuleFires(m.name, sig) ==>
              if BaselineMatches(m.name, sig)
              then r == Adjusted(m.baseScore + BaselineDelta, [BaselineReason(sig.baselineMethod.value)])
              else r == Adjusted(m.baseScore, [])
    ensures |r.reasons| == 0 <==> !BaselineMatches(m.name, sig) && NoRuleFires(m.name, sig)
  {
    RulesRewarding();
    var start :=
      if BaselineMatches(m.name, sig)
      then Adjusted(m.baseScore + BaselineDelta, [BaselineReason(sig.baselineMethod.value)])
      else Adjusted(m.baseScore, []);
    ApplyRules(Rules, m.name, sig, start)
  }

  /** A rule table that never targets `k` adds nothing to it. */
  lemma {:induction false} UntargetedAddsNothing(rules: seq<Rule>, k: MethodKey, sig: SignalSet)
    requires forall i :: 0 <= i < |rules| ==> rules[i].target != k
    ensures FiredTotal(rules, k, sig) == 0 && FiredReasons(rules, k, sig) == []
    ensures TargetedTotal(rules, k) == 0
  {
    if |rules| > 0 {
      UntargetedAddsNothing(rules[1..], k, sig);
    }
  }

  /** When exactly one rule of a table fires for `k`, it alone decides the
      total and the reasons. */
  lemma {:induction false} FiredOnly(rules: seq<Rule>, k: MethodKey, sig: SignalSet, j: int)
    requires 0 <= j < |rules| && Fires(rules[j], k, sig)
    requires forall i :: 0 <= i < |rules| && i != j ==> !Fires(rules[i], k, sig)
    ensures FiredTotal(rules, k, sig) == rules[j].delta
    ensures FiredReasons(rules, k, sig) == [rules[j].reason]
  {
    if j == 0 {
      NoneFired(rules[1..], k, sig);
    } else {
      FiredOnly(rules[1..], k, sig, j - 1);
    }
  }

  /** A table none of whose rules fire for `k` adds nothing. */
  lemma {:induction false} NoneFired(rules: seq<Rule>, k: MethodKey, sig: SignalSet)
    requires forall i :: 0 <= i < |rules| ==> !Fires(rules[i], k, sig)
    ensures FiredTotal(rules, k, sig) == 0 && FiredReasons(rules, k, sig) == []
  {
    if |rules| > 0 {
      NoneFired(rules[1..], k, sig);
    }
  }

  /** No rule targets Active Recall: only the study-method bonus can raise
      it, so it scores its base or its base plus six. */
  lemma {:induction false} ActiveRecallCeiling(m: MethodProfile, sig: SignalSet)
    requires m.name == ActiveRecall
    ensures MethodScoreAdjustments(m, sig).score
         == m.baseScore + (if BaselineMatches(ActiveRecall, sig) then BaselineDelta else 0)
    ensures |MethodScoreAdjustments(m, sig).reasons| <= 1
  {
    UntargetedAddsNothing(Rules, ActiveRecall, sig);
  }

  /** With no learning style, no personality answers, no work environment
      and no mood entries every targeted signal takes its neutral default, so
      no rule fires: a method keeps its base score, plus six only when the
      study-method answer names it. */
  lemma {:induction false} NeutralStateFiresNothing(state: State, m: MethodProfile)
    requires state.initialSurvey.None? || state.initialSurvey.value.learningStyle.None?
    requires state.finalSurvey.None? ||
               (&& state.finalSurvey.value.personality.None?
                && (state.finalSurvey.value.preferences.None?
                    || state.finalSurvey.value.preferences.value.workEnvironment.None?))
    requires |state.moodEntries| == 0
    ensures NoRuleFires(m.name, ExtractSignals(state))
    ensures MethodScoreAdjustments(m, ExtractSignals(state)).score
         == m.baseScore + (if BaselineMatches(m.name, ExtractSignals(state)) then BaselineDelta else 0)
    ensures m.baseScore <= MethodScoreAdjustments(m, ExtractSignals(state)).score <= m.baseScore + BaselineDelta
    ensures !BaselineMatches(m.name, ExtractSignals(state)) ==>
              MethodScoreAdjustments(m, ExtractSignals(state)) == Adjusted(m.baseScore, [])
  {
  }

  /** The low-mood rule reads only the newest entry, and a rating of zero
      counts as low. */
  lemma {:induction false} LowMoodReadsNewestEntry(state: State)
    ensures Holds(LowMood, ExtractSignals(state))
        <==> |state.moodEntries| > 0 && state.moodEntries[0].rating <= 2
  {
  }
}
