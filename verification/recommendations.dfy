/** `buildPersonalizedRecommendations`: scores every catalog method, ranks
    them with a stable sort, and assembles the top method, three alternates,
    the explanation, the simplified plan and the block schedule.

    The engine is written for any catalog `lib` (`Recommend`) and applied to
    the fixed catalog (`BuildPersonalizedRecommendations`); the proofs only
    use the shape `IsCatalog` describes, never the catalog's prose. */
module Recommendations {
  import opened Wrappers
  import opened Model
  import opened StableSort
  import opened Catalog
  import opened Signals
  import opened Scoring
  import opened Schedule

  /** The sort key: `(a, b) => b.score - a.score` orders by score, highest first. */
  function ScoreOf(m: RecommendationMethod): int
  {
    m.score
  }

  /** The reason shown when no rule fired: the first best-fit tag, which
      JavaScript renders as "undefined" for an empty tag list. */
  function FallbackReason(m: MethodProfile): string
  {
    FallbackPrefix + (if |m.bestFor| > 0 then m.bestFor[0] else Undefined) + FullStop
  }

  const FallbackPrefix := "Strong fit for "
  const Undefined := "undefined"
  const FullStop := "."

  /** One catalog entry, scored against the signals. */
  function RankMethod(m: MethodProfile, sig: SignalSet): (r: RecommendationMethod)
    ensures r.name == m.name && r.summary == m.summary
    ensures r.implementationSteps == m.implementationSteps
    ensures r.score == m.baseScore + (if BaselineMatches(m.name, sig) then BaselineDelta else 0)
                       + FiredTotal(Rules, m.name, sig)
    ensures m.baseScore <= r.score <= m.baseScore + BaselineDelta + TargetedTotal(Rules, m.name)
    ensures BaselineMatches(m.name, sig) ==> r.reason == BaselineReason(sig.baselineMethod.value)
    ensures !BaselineMatches(m.name, sig) && !NoRuleFires(m.name, sig) ==>
              |FiredReasons(Rules, m.name, sig)| > 0 && r.reason == FiredReasons(Rules, m.name, sig)[0]
    ensures !BaselineMatches(m.name, sig) && NoRuleFires(m.name, sig) ==>
              r.score == m.baseScore && r.reason == FallbackReason(m)
  {
    var adjusted := MethodScoreAdjustments(m, sig);
    var reason := if |adjusted.reasons| > 0 then adjusted.reasons[0] else FallbackReason(m);
    RecommendationMethod(m.name, adjusted.score, m.summary, m.implementationSteps, reason)
  }

  /** The catalog scored, still in catalog order. */
  function Scored(lib: seq<MethodProfile>, sig: SignalSet): (r: seq<RecommendationMethod>)
    ensures |r| == |lib|
    ensures forall i :: 0 <= i < |lib| ==> r[i] == RankMethod(lib[i], sig)
  {
    seq(|lib|, i requires 0 <= i < |lib| => RankMethod(lib[i], sig))
  }

  /** The scored catalog, highest score first, ties in catalog order. */
  function Ranked(lib: seq<MethodProfile>, sig: SignalSet): seq<RecommendationMethod>
  {
    Sort(Scored(lib, sig), ScoreOf)
  }

  const FallbackPlan := "Use short focused sessions with checkpoints and regular review."

  const ExplanationIntro := "Primary method was selected from your learning style and personality responses."
  const ReasonPrefix := "Top fit reason: "
  const ExplanationOutro := "Alternates are included so you can rotate methods if your energy or workload changes."

  function Explanation(top: RecommendationMethod): seq<string>
  {
    [ExplanationIntro, ReasonPrefix + top.reason, ExplanationOutro]
  }

  /** `state.studyPlan?.practiceBlocks ?? []`. */
  function PracticeBlocks(state: State): seq<PracticeBlock>
  {
    if state.studyPlan.Some? then state.studyPlan.value.practiceBlocks else []
  }

  /** `ranked.slice(1, 4)`: at most three alternates. */
  function Alternates(ranked: seq<RecommendationMethod>): (alts: seq<RecommendationMethod>)
    requires |ranked| > 0
    ensures |alts| == if |ranked| >= 4 then 3 else |ranked| - 1
    ensures forall i :: 0 <= i < |alts| ==> alts[i] == ranked[i + 1]
  {
    if |ranked| >= 4 then ranked[1..4] else ranked[1..]
  }

  /** The payload built from a ranking of catalog `lib`: the head is the
      top method, the next three are the alternates, the simplified plan is
      looked up by the top method's name, and the blocks are scheduled
      round-robin over the whole ranking. */
  function Assemble(lib: seq<MethodProfile>, ranked: seq<RecommendationMethod>, blocks: seq<PracticeBlock>)
    : PersonalizedRecommendations
    requires |ranked| > 0
  {
    var top := ranked[0];
    var simplified := match Find(lib, top.name)
      case Some(profile) => profile.simplified
      case None => FallbackPlan;
    PersonalizedRecommendations(
      top,
      Alternates(ranked),
      Explanation(top),
      simplified,
      BuildScheduleDetails(blocks, ranked))
  }

  /** The engine over catalog `lib`. The source's catalog is never empty, so
      `ranked[0]` always exists. */
  function Recommend(lib: seq<MethodProfile>, state: State): PersonalizedRecommendations
    requires |lib| > 0
  {
    Assemble(lib, Ranked(lib, ExtractSignals(state)), PracticeBlocks(state))
  }

  /** `buildPersonalizedRecommendations`: the engine over the fixed catalog. */
  function BuildPersonalizedRecommendations(state: State): PersonalizedRecommendations
  {
    Recommend(MethodLibrary, state)
  }

  /** Scored methods listed in catalog order, one per catalog slot. */
  ghost predicate InCatalogOrder(scored: seq<RecommendationMethod>)
  {
    && |scored| == |CatalogOrder|
    && forall a :: 0 <= a < |scored| ==> scored[a].name == CatalogOrder[a]
  }

  /** Scoring keeps each method in its catalog slot. */
  lemma {:induction false} ScoredInCatalogOrder(lib: seq<MethodProfile>, sig: SignalSet)
    requires IsCatalog(lib)
    ensures InCatalogOrder(Scored(lib, sig))
  {
  }

  lemma {:induction false} SlotPosition(scored: seq<RecommendationMethod>, a: int)
    requires InCatalogOrder(scored) && 0 <= a < |scored|
    ensures Position(scored[a].name) == a
  {
    CatalogOrderDistinct();
  }

  /** Every ranked entry is the scored entry of its own catalog slot. */
  lemma {:induction false} SortedEntry(scored: seq<RecommendationMethod>, i: int)
    requires InCatalogOrder(scored) && 0 <= i < |scored|
    ensures Sort(scored, ScoreOf)[i] == scored[Position(Sort(scored, ScoreOf)[i].name)]
  {
    var ranked := Sort(scored, ScoreOf);
    var x := ranked[i];
    assert x in multiset(scored);
    var a :| 0 <= a < |scored| && scored[a] == x;
    SlotPosition(scored, a);
  }

  /** Each method of the catalog appears in the ranking. */
  lemma {:induction false} SortedHasMethod(scored: seq<RecommendationMethod>, k: MethodKey)
    requires InCatalogOrder(scored)
    ensures exists i :: 0 <= i < |scored| && Sort(scored, ScoreOf)[i].name == k
  {
    var ranked := Sort(scored, ScoreOf);
    var a := Position(k);
    assert scored[a] in multiset(ranked);
    var i :| 0 <= i < |ranked| && ranked[i] == scored[a];
  }

  /** Of two tied methods, the one listed first in the catalog is ranked first. */
  lemma {:induction false} SortedTiesKeepCatalogOrder(scored: seq<RecommendationMethod>, i: int, j: int)
    requires InCatalogOrder(scored)
    requires 0 <= i < j < |scored|
    requires Sort(scored, ScoreOf)[i].score == Sort(scored, ScoreOf)[j].score
    ensures Position(Sort(scored, ScoreOf)[i].name) < Position(Sort(scored, ScoreOf)[j].name)
  {
    var ranked := Sort(scored, ScoreOf);
    SortKeepsTieOrder(scored, ScoreOf, i, j);
    var a, b :| 0 <= a < b < |scored| && scored[a] == ranked[i] && scored[b] == ranked[j];
    SlotPosition(scored, a);
    SlotPosition(scored, b);
  }

  /** No method is ranked twice. */
  lemma {:induction false} SortedDistinct(scored: seq<RecommendationMethod>, i: int, j: int)
    requires InCatalogOrder(scored)
    requires 0 <= i < j < |scored|
    ensures Sort(scored, ScoreOf)[i].name != Sort(scored, ScoreOf)[j].name
  {
    var ranked := Sort(scored, ScoreOf);
    if ranked[i].name == ranked[j].name {
      SortedEntry(scored, i);
      SortedEntry(scored, j);
      SortedTiesKeepCatalogOrder(scored, i, j);
    }
  }

  /** The ranked head scores at least as much as every method, and strictly
      more than every method listed before it in the catalog. */
  lemma {:induction false} SortedHeadIsFirstBest(scored: seq<RecommendationMethod>, k: MethodKey)
    requires InCatalogOrder(scored)
    ensures scored[Position(k)].score <= Sort(scored, ScoreOf)[0].score
    ensures Position(k) < Position(Sort(scored, ScoreOf)[0].name) ==>
              scored[Position(k)].score < Sort(scored, ScoreOf)[0].score
  {
    var ranked := Sort(scored, ScoreOf);
    SortedHasMethod(scored, k);
    var i :| 0 <= i < |ranked| && ranked[i].name == k;
    SortedEntry(scored, i);
    HeadIsMax(ranked, ScoreOf, i);
    if i > 0 && ranked[i].score == ranked[0].score {
      SortedTiesKeepCatalogOrder(scored, 0, i);
    }
  }

  /** The four methods shown are the four best: a method shown neither as
      top nor as an alternate scores no more than the last alternate. */
  lemma {:induction false} SortedTopFour(scored: seq<RecommendationMethod>, k: MethodKey)
    requires InCatalogOrder(scored)
    requires forall i :: 0 <= i < 4 ==> Sort(scored, ScoreOf)[i].name != k
    ensures scored[Position(k)].score <= Sort(scored, ScoreOf)[3].score
  {
    var ranked := Sort(scored, ScoreOf);
    SortedHasMethod(scored, k);
    var i :| 0 <= i < |ranked| && ranked[i].name == k;
    SortedEntry(scored, i);
  }

  /** The top method heads the ranking, the next three are the alternates,
      the explanation has its three lines with the top method's reason in
      the middle, and the schedule rotates over the whole ranking. */
  lemma {:induction false} AssembleHead(lib: seq<MethodProfile>, ranked: seq<RecommendationMethod>, blocks: seq<PracticeBlock>)
    requires |ranked| >= 4
    ensures Assemble(lib, ranked, blocks).topMethod == ranked[0]
    ensures Assemble(lib, ranked, blocks).alternateMethods == ranked[1..4]
    ensures Assemble(lib, ranked, blocks).explanation
         == [ExplanationIntro, ReasonPrefix + Assemble(lib, ranked, blocks).topMethod.reason, ExplanationOutro]
    ensures Assemble(lib, ranked, blocks).scheduleDetails == BuildScheduleDetails(blocks, ranked)
  {
  }

  /** The simplified plan is the top method's own: the fallback text is
      never used, since every ranked name is in the catalog. */
  lemma {:induction false} AssemblePlan(lib: seq<MethodProfile>, ranked: seq<RecommendationMethod>, blocks: seq<PracticeBlock>)
    requires IsCatalog(lib) && |ranked| > 0
    ensures Assemble(lib, ranked, blocks).simplifiedPlan == lib[Position(ranked[0].name)].simplified
  {
    FindInCatalog(lib, ranked[0].name);
  }

  /** The four methods shown, the top method then the alternates. */
  function Shown(r: PersonalizedRecommendations): seq<RecommendationMethod>
  {
    [r.topMethod] + r.alternateMethods
  }

  /** `shown` is four distinct methods of the scored catalog, each with its
      own score, in non-increasing score order, and no method left out
      scores more than the last one shown. */
  ghost predicate FourBest(shown: seq<RecommendationMethod>, scored: seq<RecommendationMethod>)
  {
    && InCatalogOrder(scored)
    && |shown| == 4
    && (forall i :: 0 <= i < 4 ==> shown[i] == scored[Position(shown[i].name)])
    && (forall i, j :: 0 <= i < j < 4 ==> shown[i].name != shown[j].name && shown[i].score >= shown[j].score)
    && (forall k :: (forall i :: 0 <= i < 4 ==> shown[i].name != k) ==> scored[Position(k)].score <= shown[3].score)
  }

  /** The methods shown for a scored catalog are the four best, in ranking
      order (ties in catalog order). */
  lemma {:induction false} ShownAreTheFourBest(
    lib: seq<MethodProfile>, scored: seq<RecommendationMethod>, blocks: seq<PracticeBlock>)
    requires InCatalogOrder(scored)
    ensures FourBest(Shown(Assemble(lib, Sort(scored, ScoreOf), blocks)), scored)
  {
    var ranked := Sort(scored, ScoreOf);
    AssembleHead(lib, ranked, blocks);
    ShownIsHead(Assemble(lib, ranked, blocks), ranked);
    FirstFourAreBest(scored);
  }

  /** The shown list is the first four ranked methods. */
  lemma ShownIsHead(r: PersonalizedRecommendations, ranked: seq<RecommendationMethod>)
    requires |ranked| >= 4 && r.topMethod == ranked[0] && r.alternateMethods == ranked[1..4]
    ensures Shown(r) == [ranked[0], ranked[1], ranked[2], ranked[3]]
  {
    assert |Shown(r)| == 4;
  }

  /** The first four ranked methods are the four best. */
  lemma {:induction false} FirstFourAreBest(scored: seq<RecommendationMethod>)
    requires InCatalogOrder(scored)
    ensures |Sort(scored, ScoreOf)| >= 4
    ensures FourBest([Sort(scored, ScoreOf)[0], Sort(scored, ScoreOf)[1], Sort(scored, ScoreOf)[2], Sort(scored, ScoreOf)[3]], scored)
  {
    var r := Sort(scored, ScoreOf);
    SortedFirstFour(scored);
    forall k | forall i :: 0 <= i < 4 ==> r[i].name != k
      ensures scored[Position(k)].score <= r[3].score
    {
      SortedTopFour(scored, k);
    }
    FourOfRanked(r, scored);
  }

  /** Four leading entries with the ranking's properties are the four best. */
  lemma {:induction false} FourOfRanked(r: seq<RecommendationMethod>, scored: seq<RecommendationMethod>)
    requires InCatalogOrder(scored) && |r| >= 4
    requires forall i :: 0 <= i < 4 ==> r[i] == scored[Position(r[i].name)]
    requires forall i, j :: 0 <= i < j < 4 ==> r[i].name != r[j].name && r[i].score >= r[j].score
    requires forall k :: (forall i :: 0 <= i < 4 ==> r[i].name != k) ==> scored[Position(k)].score <= r[3].score
    ensures FourBest([r[0], r[1], r[2], r[3]], scored)
  {
    var shown := [r[0], r[1], r[2], r[3]];
    assert forall i :: 0 <= i < 4 ==> shown[i] == r[i];
  }

  /** The first four ranked methods are distinct catalog entries in
      non-increasing score order. */
  lemma {:induction false} SortedFirstFour(scored: seq<RecommendationMethod>)
    requires InCatalogOrder(scored)
    ensures |Sort(scored, ScoreOf)| == |scored| >= 4
    ensures forall i :: 0 <= i < 4 ==> Sort(scored, ScoreOf)[i] == scored[Position(Sort(scored, ScoreOf)[i].name)]
    ensures forall i, j :: 0 <= i < j < 4 ==>
              && Sort(scored, ScoreOf)[i].name != Sort(scored, ScoreOf)[j].name
              && Sort(scored, ScoreOf)[i].score >= Sort(scored, ScoreOf)[j].score
  {
    forall i | 0 <= i < 4
      ensures Sort(scored, ScoreOf)[i] == scored[Position(Sort(scored, ScoreOf)[i].name)]
    {
      SortedEntry(scored, i);
    }
    forall i, j | 0 <= i < j < 4
      ensures Sort(scored, ScoreOf)[i].name != Sort(scored, ScoreOf)[j].name
    {
      SortedDistinct(scored, i, j);
    }
  }

  /** Block `i` of the schedule follows ranked method `i % 7`: the top
      method, then the alternates, then the rest of the ranking. */
  lemma {:induction false} ScheduleRotation(
    lib: seq<MethodProfile>, scored: seq<RecommendationMethod>, blocks: seq<PracticeBlock>, i: int)
    requires InCatalogOrder(scored) && 0 <= i < |blocks|
    ensures |Assemble(lib, Sort(scored, ScoreOf), blocks).scheduleDetails| == |blocks|
    ensures Assemble(lib, Sort(scored, ScoreOf), blocks).scheduleDetails[i].strategy
         == Label(Sort(scored, ScoreOf)[i % |CatalogOrder|].name)
    ensures i % |CatalogOrder| == 0 ==>
              Assemble(lib, Sort(scored, ScoreOf), blocks).scheduleDetails[i].strategy
              == Label(Assemble(lib, Sort(scored, ScoreOf), blocks).topMethod.name)
    ensures 1 <= i % |CatalogOrder| <= 3 ==>
              Assemble(lib, Sort(scored, ScoreOf), blocks).scheduleDetails[i].strategy
              == Label(Assemble(lib, Sort(scored, ScoreOf), blocks).alternateMethods[i % |CatalogOrder| - 1].name)
  {
    AssembleHead(lib, Sort(scored, ScoreOf), blocks);
  }

  /** `Recommend` assembles the payload from the stably sorted scoring of
      the catalog, whose entries sit in catalog order. */
  lemma {:induction false} RecommendIsAssembled(lib: seq<MethodProfile>, state: State)
    requires IsCatalog(lib)
    ensures Recommend(lib, state)
         == Assemble(lib, Sort(Scored(lib, ExtractSignals(state)), ScoreOf), PracticeBlocks(state))
    ensures InCatalogOrder(Scored(lib, ExtractSignals(state)))
  {
    ScoredInCatalogOrder(lib, ExtractSignals(state));
  }

  /** The top method scores at least as much as every catalog method, and
      strictly more than every method listed before it in the catalog. */
  lemma {:induction false} TopIsFirstBest(lib: seq<MethodProfile>, state: State, k: MethodKey)
    requires IsCatalog(lib)
    ensures RankMethod(lib[Position(k)], ExtractSignals(state)).score
            <= Recommend(lib, state).topMethod.score
    ensures Position(k) < Position(Recommend(lib, state).topMethod.name) ==>
              RankMethod(lib[Position(k)], ExtractSignals(state)).score
              < Recommend(lib, state).topMethod.score
  {
    var scored := Scored(lib, ExtractSignals(state));
    RecommendIsAssembled(lib, state);
    AssembleHead(lib, Sort(scored, ScoreOf), PracticeBlocks(state));
    SortedHeadIsFirstBest(scored, k);
  }

  /** Without a study plan there is nothing to schedule. */
  lemma {:induction false} NoPlanNoSchedule(lib: seq<MethodProfile>, state: State)
    requires |lib| > 0 && state.studyPlan.None?
    ensures Recommend(lib, state).scheduleDetails == []
  {
  }

  /** When every method keeps its base score, Pomodoro's 60 is the unique
      maximum and heads the ranking. */
  lemma {:induction false} BaseScoresRankPomodoroFirst(scored: seq<RecommendationMethod>)
    requires InCatalogOrder(scored)
    requires forall a :: 0 <= a < |scored| ==> scored[a].score == BaseScore(scored[a].name)
    ensures Sort(scored, ScoreOf)[0].name == Pomodoro && Sort(scored, ScoreOf)[0].score == 60
  {
    SortedHeadIsFirstBest(scored, Pomodoro);
    SortedEntry(scored, 0);
  }

  /** With no surveys and no mood entries, the top method is Pomodoro at its
      base score of 60, recommended for its first best-fit tag. */
  lemma {:induction false} NeutralStateRecommendsPomodoro(lib: seq<MethodProfile>, state: State)
    requires IsCatalog(lib)
    requires state.initialSurvey.None? && state.finalSurvey.None? && |state.moodEntries| == 0
    ensures Recommend(lib, state).topMethod.name == Pomodoro
    ensures Recommend(lib, state).topMethod.score == 60
    ensures Recommend(lib, state).topMethod.reason == FallbackReason(lib[0])
  {
    var sig := ExtractSignals(state);
    var scored := Scored(lib, sig);
    forall a | 0 <= a < |scored|
      ensures scored[a].score == BaseScore(scored[a].name)
      ensures scored[a].reason == FallbackReason(lib[a])
    {
      NeutralStateFiresNothing(state, lib[a]);
    }
    RecommendIsAssembled(lib, state);
    AssembleHead(lib, Sort(scored, ScoreOf), PracticeBlocks(state));
    BaseScoresRankPomodoroFirst(scored);
    SortedEntry(scored, 0);
  }

  /** Over the fixed catalog there are always three alternates, and the
      explanation has three lines, the middle one giving the top reason. */
  lemma {:induction false} CatalogShowsFour(state: State)
    ensures |BuildPersonalizedRecommendations(state).alternateMethods| == 3
    ensures BuildPersonalizedRecommendations(state).explanation
         == [ExplanationIntro, ReasonPrefix + BuildPersonalizedRecommendations(state).topMethod.reason, ExplanationOutro]
  {
    LibraryIsCatalog();
    RecommendIsAssembled(MethodLibrary, state);
    AssembleHead(MethodLibrary, Sort(Scored(MethodLibrary, ExtractSignals(state)), ScoreOf), PracticeBlocks(state));
  }

  /** Over the fixed catalog the top method scores at least as much as every
      catalog method, scored against the same state. */
  lemma {:induction false} CatalogTopIsBest(state: State, k: MethodKey)
    ensures RankMethod(MethodLibrary[Position(k)], ExtractSignals(state)).score
            <= BuildPersonalizedRecommendations(state).topMethod.score
  {
    LibraryIsCatalog();
    TopIsFirstBest(MethodLibrary, state, k);
  }

  /** Over the fixed catalog the simplified plan is the top method's own. */
  lemma {:induction false} CatalogPlanIsTopMethods(state: State)
    ensures BuildPersonalizedRecommendations(state).simplifiedPlan
         == MethodLibrary[Position(BuildPersonalizedRecommendations(state).topMethod.name)].simplified
  {
    LibraryIsCatalog();
    RecommendPlanIsTopMethods(MethodLibrary, state);
  }

  /** The simplified plan is the top method's own catalog entry's. */
  lemma {:induction false} RecommendPlanIsTopMethods(lib: seq<MethodProfile>, state: State)
    requires IsCatalog(lib)
    ensures Recommend(lib, state).simplifiedPlan == lib[Position(Recommend(lib, state).topMethod.name)].simplified
  {
    RecommendIsAssembled(lib, state);
    var ranked := Sort(Scored(lib, ExtractSignals(state)), ScoreOf);
    AssembleHead(lib, ranked, PracticeBlocks(state));
    AssemblePlan(lib, ranked, PracticeBlocks(state));
  }
}
