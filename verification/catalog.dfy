/** The fixed catalog of seven study-method profiles. */
module Catalog {
  import opened Wrappers
  import opened Model

  /** The hand-tuned starting score of each method. */
  function BaseScore(k: MethodKey): int
  {
    match k
    case Pomodoro => 60
    case ActiveRecall => 58
    case SpacedRepetition => 54
    case PracticeLadder => 55
    case TeachBack => 50
    case ConceptMapping => 48
    case AudioReflection => 46
  }

  const PomodoroSummary := "Use focused 25-minute sessions with short resets to protect energy and stay consistent."
  const PomodoroSimplified := "Study in short rounds, then take quick breaks and repeat."
  const PomodoroSteps := ["Set one clear task for 25 minutes.",
     "Work with no distractions until timer ends.",
     "Take a 5-minute break and reset.",
     "After 4 rounds, take a longer break."]
  const PomodoroBestFor := ["consistency", "energy control", "time-boxed work"]

  const ActiveRecallSummary := "Retrieve key ideas from memory first, then check notes to close specific gaps quickly."
  const ActiveRecallSimplified := "Test yourself from memory, then correct mistakes right away."
  const ActiveRecallSteps := ["Close notes and write what you remember.",
     "Check against source material.",
     "Mark weak points and retry from memory.",
     "Repeat until recall is cleaner."]
  const ActiveRecallBestFor := ["exam prep", "memory retention", "faster mastery"]

  const SpacedRepetitionSummary := "Review topics on planned intervals to lock concepts into long-term memory."
  const SpacedRepetitionSimplified := "Review topics multiple times over days, not all at once."
  const SpacedRepetitionSteps := ["Create short review cards or prompts.",
     "Review today, then again in 2 days.",
     "Revisit in 1 week and 2 weeks.",
     "Spend extra rounds on low-confidence cards."]
  const SpacedRepetitionBestFor := ["long-term memory", "language/content-heavy courses", "steady progress"]

  const PracticeLadderSummary := "Move from easy to medium to hard problems while logging mistakes and patterns."
  const PracticeLadderSimplified := "Start simple, increase difficulty, and learn from each mistake."
  const PracticeLadderSteps := ["Solve 3 easy warm-up questions.",
     "Complete 4 medium questions.",
     "Finish with 2 hard questions.",
     "Write one correction note for every miss."]
  const PracticeLadderBestFor := ["quantitative subjects", "accuracy", "confidence building"]

  const TeachBackSummary := "Explain concepts out loud in simple language to expose gaps and reinforce understanding."
  const TeachBackSimplified := "Teach the topic like a mini lesson to prove you understand it."
  const TeachBackSteps := ["Pick one concept and explain it in 3 minutes.",
     "Notice where explanations are unclear.",
     "Recheck sources and improve explanation.",
     "Repeat with a second concept."]
  const TeachBackBestFor := ["deep understanding", "social learners", "presentation readiness"]

  const ConceptMappingSummary := "Use visual maps to connect ideas, causes, formulas, and examples across topics."
  const ConceptMappingSimplified := "Draw how ideas connect instead of memorizing isolated facts."
  const ConceptMappingSteps := ["Place the core topic in the center.",
     "Add branches for key concepts.",
     "Link branches with cause/effect notes.",
     "Attach one example to each branch."]
  const ConceptMappingBestFor := ["visual organization", "big-picture thinking", "complex chapters"]

  const AudioReflectionSummary := "Record short verbal summaries and replay them to reinforce memory and understanding."
  const AudioReflectionSimplified := "Say key ideas out loud, record them, and listen again later."
  const AudioReflectionSteps := ["Record a 2-minute summary after each block.",
     "Replay during breaks or commute time.",
     "Pause and restate weak parts aloud.",
     "Update recording with clearer language."]
  const AudioReflectionBestFor := ["audio learners", "verbal reinforcement", "lightweight review"]

  /** One-sentence description of each method. */
  function Summary(k: MethodKey): string
  {
    match k
    case Pomodoro => PomodoroSummary
    case ActiveRecall => ActiveRecallSummary
    case SpacedRepetition => SpacedRepetitionSummary
    case PracticeLadder => PracticeLadderSummary
    case TeachBack => TeachBackSummary
    case ConceptMapping => ConceptMappingSummary
    case AudioReflection => AudioReflectionSummary
  }

  /** Plain-language version of each method. */
  function Simplified(k: MethodKey): string
  {
    match k
    case Pomodoro => PomodoroSimplified
    case ActiveRecall => ActiveRecallSimplified
    case SpacedRepetition => SpacedRepetitionSimplified
    case PracticeLadder => PracticeLadderSimplified
    case TeachBack => TeachBackSimplified
    case ConceptMapping => ConceptMappingSimplified
    case AudioReflection => AudioReflectionSimplified
  }

  /** The implementation steps of each method. */
  function Steps(k: MethodKey): seq<string>
  {
    match k
    case Pomodoro => PomodoroSteps
    case ActiveRecall => ActiveRecallSteps
    case SpacedRepetition => SpacedRepetitionSteps
    case PracticeLadder => PracticeLadderSteps
    case TeachBack => TeachBackSteps
    case ConceptMapping => ConceptMappingSteps
    case AudioReflection => AudioReflectionSteps
  }

  /** Best-fit tags; the first one names the fallback reason. */
  function BestFor(k: MethodKey): (tags: seq<string>)
    ensures |tags| > 0
  {
    match k
    case Pomodoro => PomodoroBestFor
    case ActiveRecall => ActiveRecallBestFor
    case SpacedRepetition => SpacedRepetitionBestFor
    case PracticeLadder => PracticeLadderBestFor
    case TeachBack => TeachBackBestFor
    case ConceptMapping => ConceptMappingBestFor
    case AudioReflection => AudioReflectionBestFor
  }

  /** The catalog entry of each method. */
  function Profile(k: MethodKey): (p: MethodProfile)
    ensures p.name == k && p.baseScore == BaseScore(k) && |p.bestFor| > 0
  {
    MethodProfile(k, BaseScore(k), Summary(k), Simplified(k), Steps(k), BestFor(k))
  }

  /** The order of the catalog, which breaks score ties. */
  const CatalogOrder: seq<MethodKey> := [
    Pomodoro, ActiveRecall, SpacedRepetition, PracticeLadder,
    TeachBack, ConceptMapping, AudioReflection
  ]

  /** The catalog itself: one profile per method, in catalog order. */
  const MethodLibrary: seq<MethodProfile> := [
    Profile(Pomodoro), Profile(ActiveRecall), Profile(SpacedRepetition), Profile(PracticeLadder),
    Profile(TeachBack), Profile(ConceptMapping), Profile(AudioReflection)
  ]

  /** The catalog position of each method. */
  function Position(k: MethodKey): (i: nat)
    ensures i < |CatalogOrder| && CatalogOrder[i] == k
  {
    match k
    case Pomodoro => 0
    case ActiveRecall => 1
    case SpacedRepetition => 2
    case PracticeLadder => 3
    case TeachBack => 4
    case ConceptMapping => 5
    case AudioReflection => 6
  }

  /** The catalog lists every method exactly once, in `CatalogOrder`. */
  lemma CatalogOrderDistinct()
    ensures |CatalogOrder| == 7
    ensures forall i :: 0 <= i < |CatalogOrder| ==> Position(CatalogOrder[i]) == i
  {
  }

  /** The facts about a catalog the engine's behaviour depends on: the
      methods in catalog order, their base scores, and a first best-fit tag.
      The prose fields are left free, so the proofs never look at them. */
  ghost predicate IsCatalog(lib: seq<MethodProfile>)
  {
    && |lib| == |CatalogOrder|
    && forall i :: 0 <= i < |lib| ==>
         && lib[i].name == CatalogOrder[i]
         && lib[i].baseScore == BaseScore(CatalogOrder[i])
         && |lib[i].bestFor| > 0
  }

  /** The catalog has the shape the proofs rely on. */
  lemma {:induction false} LibraryIsCatalog()
    ensures IsCatalog(MethodLibrary)
  {
    LibraryProfiles();
  }

  /** Each catalog slot holds the profile of the method at that position. */
  lemma {:induction false} LibraryProfiles()
    ensures |MethodLibrary| == |CatalogOrder|
    ensures forall i :: 0 <= i < |MethodLibrary| ==> MethodLibrary[i] == Profile(CatalogOrder[i])
  {
  }

  /** `find` by name: the first profile of `lib` named `k`, if any. */
  function Find(lib: seq<MethodProfile>, k: MethodKey): (r: Option<MethodProfile>)
    ensures r.None? <==> forall i :: 0 <= i < |lib| ==> lib[i].name != k
    ensures r.Some? ==> exists i :: 0 <= i < |lib| && lib[i] == r.value
                          && lib[i].name == k
                          && forall j :: 0 <= j < i ==> lib[j].name != k
  {
    if |lib| == 0 then None
    else if lib[0].name == k then Some(lib[0])
    else Find(lib[1..], k)
  }

  /** `Find` returns the entry at `i` when no earlier entry has its name. */
  lemma {:induction false} FindFirst(lib: seq<MethodProfile>, i: int)
    requires 0 <= i < |lib|
    requires forall j :: 0 <= j < i ==> lib[j].name != lib[i].name
    ensures Find(lib, lib[i].name) == Some(lib[i])
  {
    if i > 0 {
      FindFirst(lib[1..], i - 1);
    }
  }

  /** Looking a method up in a catalog finds its own entry. */
  lemma {:induction false} FindInCatalog(lib: seq<MethodProfile>, k: MethodKey)
    requires IsCatalog(lib)
    ensures Find(lib, k) == Some(lib[Position(k)])
  {
    CatalogOrderDistinct();
    FindFirst(lib, Position(k));
  }
}
