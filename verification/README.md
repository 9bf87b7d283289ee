# Study-method recommendation engine

A Dafny model of the rule-based engine behind `buildPersonalizedRecommendations`
in `client/src/lib/recommendations.ts`. The engine starts from the application
state: the study plan, the onboarding survey, the final survey and the mood log.
From that state it:

- extracts the scoring signals;
- scores each of the seven catalog study methods;
- ranks the methods with a stable sort, highest score first;
- returns the top method, three alternates, a three-line explanation, the top
  method's simplified plan, and one schedule entry per practice block.

The modules follow the engine's parts:

| module | file | models |
|---|---|---|
| `Model` | model.dfy | the entities: method keys and display names, profiles, ranked methods, blocks, surveys, moods, state, schedule entries, result |
| `Catalog` | catalog.dfy | `METHOD_LIBRARY`: base scores, prose, catalog order, `find` |
| `Signals` | signals.dfy | `agreementToScore`, `getPersonalityLevels`, and reading the signals out of the state |
| `Scoring` | scoring.dfy | `methodScoreAdjustments`, with the baseline bonus and the twelve targeted rules as a table evaluated in order |
| `StableSort` | stable_sort.dfy | the stable descending sort that `Array.prototype.sort` performs with `(a, b) => b.score - a.score` |
| `Schedule` | schedule.dfy | `buildScheduleDetails` |
| `Recommendations` | recommendations.dfy | `buildPersonalizedRecommendations` |
| `Text` | text.dfy | `String.prototype.includes` and decimal rendering of a minute |
| `Scenarios` | scenarios.dfy | worked cases: the onboarding form's study-method choices, a visual learner, a low mood, a three-block plan |
| `Wrappers` | wrappers.dfy | `Option` |

How the model is built:

- The engine is written over any catalog `lib` (`Recommendations.Recommend`).
  `BuildPersonalizedRecommendations` applies it to the fixed catalog.
- The properties are proved for every catalog with the shape `Catalog.IsCatalog`
  describes: the seven methods in catalog order, their base scores, and at
  least one best-fit tag each. `Catalog.LibraryIsCatalog` shows that the fixed
  catalog has this shape.
- The prose never influences scoring or ranking. It is carried as named string
  constants.

Two behaviours of the code are easy to misread, and the model keeps them as
written:

- The ranking is non-increasing in score, not strictly descending: the sort
  is stable, so equal scores keep catalog order.
- A mood rating is any integer. A rating of 0 counts as low mood, because
  `?? 3` replaces only a missing entry, not a falsy one.

One consequence of the code as written is proved rather than corrected. The
study-method bonus is a case-sensitive substring test against the method's
display name. None of the five answers the onboarding form offers ("Active
recall", "Spaced repetition", "Practice problems", "Concept explanation",
"Flashcards") occurs in any display name. So with the form's answers the bonus
never fires (`Scenarios.ChoiceEarnsNoBonus`).

## Model

| member | source | states |
|---|---|---|
| Signals.AgreementToScore | client/src/lib/recommendations.ts:157-172 | the level is always 1..5; each of 5, 4, 2, 1 comes from exactly one Likert label; a missing answer is the neutral 3 |
| Signals.AgreementRoundTrip | client/src/lib/recommendations.ts:157-172 | reading back the label of any level 1..5 gives that level |
| Signals.UnknownAnswerIsNeutral | client/src/lib/recommendations.ts:169-170 | any text other than the five labels reads as 3 |
| Signals.PersonalityLevels | client/src/lib/recommendations.ts:174-184 | no answers give an empty map; otherwise exactly the answered traits, each mapped to its answer's level, all within 1..5 |
| Signals.ExtractSignals | client/src/lib/recommendations.ts:193-197 | a present initial survey supplies the learning style and study method, a present final survey the personality levels of its answers and, when it has preferences, their work environment; a missing survey or preferences block leaves its signals empty, as the `?.` chains do; the mood is the newest rating or 3; every trait level is within 1..5 |
| Signals.TraitLevelInRange | client/src/lib/recommendations.ts:221-236 | `personality.X ?? 3` is always a Likert level, and 3 for a trait nobody answered |
| Scoring.ApplyRules | client/src/lib/recommendations.ts:204-254 | evaluating the rules in order adds exactly the deltas of the rules that fire and appends their reasons in rule order; with rewarding rules the score rises by at most the targeted total; earlier reasons stay |
| Scoring.MethodScoreAdjustments | client/src/lib/recommendations.ts:186-260 | score = base + 6 if the baseline matches + the fired deltas; reasons = the baseline reason first, if any, then the fired reasons; the score lies between base and base + 6 + targeted total; no reasons exactly when nothing fired |
| Scoring.RulesRewarding | client/src/lib/recommendations.ts:204-254 | every rule of the table has a positive delta |
| Scoring.UntargetedAddsNothing | client/src/lib/recommendations.ts:204-254 | rules aimed at other methods add no score and no reason to a method |
| Scoring.FiredOnly | client/src/lib/recommendations.ts:204-254 | when exactly one rule fires, its delta is the total and its reason the only reason |
| Scoring.NoneFired | client/src/lib/recommendations.ts:204-254 | when no rule fires there is no delta and no reason |
| Scoring.ActiveRecallCeiling | client/src/lib/recommendations.ts:199-254 | no rule targets Active Recall: its score is its base, or base + 6 with the baseline bonus, with at most one reason |
| Scoring.NeutralStateFiresNothing | client/src/lib/recommendations.ts:193-254 | with no learning style, no personality answers, no work environment and no moods no rule fires, whatever the study-method answer: the score is the base plus 6 exactly when that answer names the method, and with no match the method keeps its base score with no reasons |
| Scoring.LowMoodReadsNewestEntry | client/src/lib/recommendations.ts:195-254 | the low-mood guard holds exactly when the log is non-empty and its newest rating is at most 2, zero included |
| Text.Includes | client/src/lib/recommendations.ts:199 | the substring test is true exactly when the needle occurs at some position of the name |
| Text.MissingCharExcludes | client/src/lib/recommendations.ts:199 | a needle with a character the name lacks is not included |
| Text.MismatchAtOnlyStart | client/src/lib/recommendations.ts:199 | a needle whose first character occurs only at the start of the name, and which differs from the name at some position, is not included |
| Text.DecimalText | client/src/lib/recommendations.ts:274 | the rendering is non-empty decimal digits with no leading zero, and reads back as the number |
| Text.DecimalTextInjective | client/src/lib/recommendations.ts:274 | different numbers render differently |
| Catalog.Profile | client/src/lib/recommendations.ts:49-155 | each method's entry carries its own name, its base score and at least one best-fit tag |
| Catalog.Position | client/src/lib/recommendations.ts:49-155 | each method's slot in the catalog holds that method |
| Catalog.LibraryIsCatalog | client/src/lib/recommendations.ts:49-155 | the catalog lists the seven methods in order with their base scores and a first tag each |
| Catalog.Find | client/src/lib/recommendations.ts:305-307 | `find` gives None exactly when no entry has the name; otherwise the first entry with that name |
| Catalog.FindInCatalog | client/src/lib/recommendations.ts:305-307 | in a catalog, `find` by a method's name gives the entry at that method's position |
| StableSort.Sort | client/src/lib/recommendations.ts:285-295 | the result is a permutation of the input, in non-increasing key order |
| StableSort.SortIsStable | client/src/lib/recommendations.ts:295 | for each key, the sorted sequence lists the elements with that key in input order |
| StableSort.SortIsTheStableSort | client/src/lib/recommendations.ts:295 | any key-ordered sequence that keeps each key's elements in input order is the sort's result |
| StableSort.SortKeepsTieOrder | client/src/lib/recommendations.ts:295 | two sorted elements with equal keys appear in the input in the same order |
| Schedule.CheckpointMinute | client/src/lib/recommendations.ts:274 | `Math.max(10, 15 + index * 5)` is 15 + 5 × index; the floor of 10 never applies |
| Schedule.BuildScheduleDetails | client/src/lib/recommendations.ts:262-279 | one entry per block, in order; subject, duration and task are copied; fixed break plan; output names the subject; checkpoint for the block's index; strategy is the method at index mod count, or Pomodoro when there are none |
| Schedule.RoundRobinPeriodic | client/src/lib/recommendations.ts:268-269 | blocks a whole round apart get the same strategy |
| Schedule.FirstRoundFollowsRanking | client/src/lib/recommendations.ts:268-269 | in the first round, block i follows the i-th ranked method |
| Schedule.CheckpointTextInjective | client/src/lib/recommendations.ts:274 | different blocks get different checkpoint texts |
| Recommendations.RankMethod | client/src/lib/recommendations.ts:286-294 | the scored method keeps the profile's name, summary and steps; its score is base + 6 when the baseline matches + the fired deltas, between base and base + 6 + targeted total; its reason is the baseline reason when that fires, else the first fired rule's reason when one fires, and when nothing fires it is the fallback built from the first best-fit tag with the base score |
| Recommendations.Scored | client/src/lib/recommendations.ts:285-294 | one scored entry per catalog entry, in catalog order |
| Recommendations.Alternates | client/src/lib/recommendations.ts:298 | `slice(1, 4)`: three alternates when there are four or more methods, the ranked methods after the top |
| Recommendations.ScoredInCatalogOrder | client/src/lib/recommendations.ts:285-294 | scoring a catalog keeps every method in its catalog slot |
| Recommendations.SortedEntry | client/src/lib/recommendations.ts:285-295 | every ranked entry is the scored entry of its own method |
| Recommendations.SortedHasMethod | client/src/lib/recommendations.ts:285-295 | every method appears in the ranking |
| Recommendations.SortedDistinct | client/src/lib/recommendations.ts:285-295 | no method is ranked twice |
| Recommendations.SortedTiesKeepCatalogOrder | client/src/lib/recommendations.ts:295 | methods with equal scores are ranked in catalog order |
| Recommendations.SortedHeadIsFirstBest | client/src/lib/recommendations.ts:295-297 | the head scores at least as much as every method, and strictly more than every method listed before it in the catalog |
| Recommendations.SortedTopFour | client/src/lib/recommendations.ts:295-298 | a method outside the first four scores at most the fourth |
| Recommendations.SortedFirstFour | client/src/lib/recommendations.ts:295-298 | the first four ranked are distinct scored catalog entries in non-increasing score order |
| Recommendations.AssembleHead | client/src/lib/recommendations.ts:297-317 | top = ranked[0]; alternates = ranked[1..4]; explanation = intro, "Top fit reason: " + the top reason, outro; schedule over the whole ranking |
| Recommendations.AssemblePlan | client/src/lib/recommendations.ts:305-307 | the simplified plan is the top method's own, so the fallback text is never reached |
| Recommendations.ShownAreTheFourBest | client/src/lib/recommendations.ts:285-298 | the four methods shown are distinct, in non-increasing score order, each with its own score; no method left out scores more than the last one shown |
| Recommendations.ScheduleRotation | client/src/lib/recommendations.ts:262-309 | block i follows ranked method i mod 7: the top method for i mod 7 = 0, then alternate i mod 7 − 1 for 1..3 |
| Recommendations.RecommendPlanIsTopMethods | client/src/lib/recommendations.ts:296-314 | the simplified plan is the catalog entry of the method shown on top |
| Recommendations.CatalogShowsFour | client/src/lib/recommendations.ts:296-318 | the exported function always shows three alternates, and its explanation is the intro, the top method's reason, and the outro |
| Recommendations.CatalogTopIsBest | client/src/lib/recommendations.ts:282-298 | the exported function's top method scores at least as much as every catalog method scored against the same state |
| Recommendations.CatalogPlanIsTopMethods | client/src/lib/recommendations.ts:296-314 | the exported function's simplified plan is the top method's own catalog entry's |
| Recommendations.TopIsFirstBest | client/src/lib/recommendations.ts:285-297 | the top method scores at least as much as every catalog method, and strictly more than every method before it in the catalog |
| Recommendations.NoPlanNoSchedule | client/src/lib/recommendations.ts:309 | without a study plan the schedule is empty |
| Recommendations.BaseScoresRankPomodoroFirst | client/src/lib/recommendations.ts:285-297 | when every method keeps its base score, Pomodoro at 60 heads the ranking |
| Recommendations.NeutralStateRecommendsPomodoro | client/src/lib/recommendations.ts:282-303 | with no surveys and no moods the top method is Pomodoro at 60, with the fallback reason from its first tag |
| Scenarios.ChoicesNeverMatch | client/src/pages/onboarding.tsx:174 | none of the five study-method choices of the onboarding form occurs in any method name |
| Scenarios.ChoiceEarnsNoBonus | client/src/lib/recommendations.ts:199-202 | whatever the form's choice, no method gets the study-method bonus |
| Scenarios.NameEarnsBonus | client/src/lib/recommendations.ts:199-202 | answering a method's own name earns that method the bonus |
| Scenarios.VisualStyleAlone | client/src/lib/recommendations.ts:204-227 | signals with only the visual style fire just the concept-map rule for Concept Mapping: +14 with the visual reason |
| Scenarios.VisualLearnerFavoursConceptMapping | client/src/lib/recommendations.ts:186-260 | a visual learner who picked a form choice gets Concept Mapping at 48 + 14 = 62 with the visual reason alone |
| Scenarios.LowMoodFavoursPomodoro | client/src/lib/recommendations.ts:251-254 | a newest mood of 1 and nothing else gives Pomodoro 60 + 6 = 66 with the low-mood reason alone |
| Scenarios.ThreeBlockCheckpoints | client/src/lib/recommendations.ts:262-279 | three blocks get self-checks at minutes 15, 20 and 25 |

## Left out

- The dashboard, onboarding, survey and other pages, `App.tsx`, the server
  routes and storage: they render, collect or store data. They are not the
  engine.
- Recommendations.BuildPersonalizedRecommendations: carries no contract of its
  own. The `Catalog…` lemmas state its promises: three alternates, the top
  method scoring at least every catalog method, and the plan belonging to the
  top method. The ranking and schedule properties
  (`ShownAreTheFourBest`, `ScheduleRotation`) are stated for the assembly of
  the stably sorted scores. `RecommendIsAssembled` shows that `Recommend` over
  any catalog of the `IsCatalog` shape is that assembly, and
  `Catalog.LibraryIsCatalog` shows the fixed catalog has this shape.
- The catalog's summaries, simplified plans, steps and tags, and the rules'
  reasons, are carried verbatim as constants. No property depends on their
  wording beyond the first best-fit tag.
- JavaScript numbers are modelled as unbounded integers. Every score the engine
  computes is a small integer, so no floating-point effect is possible.
- An empty method list in `buildScheduleDetails` makes `index % 0` `NaN`. The
  lookup then gives `undefined`, and the fallback is "Pomodoro Technique". The
  model states this outcome directly and does not model `NaN`.
- Mood entries carry only their rating. The other fields of a mood entry, the
  study plan's weekly goals, and the remaining survey answers are not read by
  the engine.
