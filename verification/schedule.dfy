/** `buildScheduleDetails`: pairs practice blocks with ranked methods
    round-robin and adds guidance texts to each block. */
module Schedule {
  import opened Model
  import opened Text

  /** `Math.max` on integers. */
  function Max(a: int, b: int): (m: int)
    ensures m >= a && m >= b && (m == a || m == b)
  {
    if a >= b then a else b
  }

  /** `Math.max(10, 15 + index * 5)`: the minute of a block's self-check.
      The floor of 10 never applies, since indices start at 0. */
  function CheckpointMinute(index: nat): (minute: nat)
    ensures minute == 15 + 5 * index
  {
    Max(10, 15 + index * 5)
  }

  function CheckpointText(index: nat): string
  {
    CheckpointPrefix + DecimalText(CheckpointMinute(index)) + CheckpointSuffix
  }

  const CheckpointPrefix := "By minute "
  const CheckpointSuffix := ", complete a quick self-check for this block."

  const BreakPlan := "Take a 5-minute reset after the block. Stand up, hydrate, then continue."

  function OutputText(subject: string): string
  {
    OutputPrefix + subject + OutputSuffix
  }

  const OutputPrefix := "End with a short written summary of what you learned in "
  const OutputSuffix := "."

  /** The strategy of the block at `index`: the method at `index` modulo the
      number of methods. With no methods `index % 0` is `NaN`, the lookup
      is `undefined`, and the fallback (itself `undefined` here) gives
      "Pomodoro Technique". */
  function StrategyFor(index: nat, methods: seq<RecommendationMethod>): string
  {
    if |methods| == 0 then Label(Pomodoro)
    else Label(methods[index % |methods|].name)
  }

  function Detail(block: PracticeBlock, index: nat, methods: seq<RecommendationMethod>): ScheduleDetail
  {
    ScheduleDetail(
      block.subject, block.duration, block.task,
      StrategyFor(index, methods),
      CheckpointText(index),
      BreakPlan,
      OutputText(block.subject))
  }

  /** One detail per block, in block order. */
  function BuildScheduleDetails(blocks: seq<PracticeBlock>, methods: seq<RecommendationMethod>)
    : (details: seq<ScheduleDetail>)
    ensures |details| == |blocks|
    ensures forall i :: 0 <= i < |blocks| ==>
              && details[i].subject == blocks[i].subject
              && details[i].duration == blocks[i].duration
              && details[i].task == blocks[i].task
              && details[i].breakPlan == BreakPlan
              && details[i].output == OutputText(blocks[i].subject)
    ensures forall i :: 0 <= i < |blocks| ==>
              details[i].checkpoint == CheckpointText(i)
    ensures forall i :: 0 <= i < |blocks| ==> details[i].strategy == StrategyFor(i, methods)
  {
    seq(|blocks|, i requires 0 <= i < |blocks| => Detail(blocks[i], i, methods))
  }

  /** Blocks a whole number of rounds apart get the same strategy. */
  lemma {:induction false} RoundRobinPeriodic(index: nat, methods: seq<RecommendationMethod>)
    ensures StrategyFor(index, methods) == StrategyFor(index + |methods|, methods)
  {
    if |methods| > 0 {
      ModuloShift(index, |methods|);
    }
  }

  /** Adding the modulus does not change the remainder. */
  lemma {:induction false} ModuloShift(i: nat, n: nat)
    requires n > 0
    ensures (i + n) % n == i % n
  {
    var q, r := i / n, i % n;
    var q', r' := (i + n) / n, (i + n) % n;
    var d := q' - q - 1;
    MultipleBounds(d, n);
  }

  /** A non-zero multiple of `n` is at least `n` away from zero. */
  lemma {:induction false} MultipleBounds(d: int, n: int)
    requires n >= 0
    ensures d >= 1 ==> d * n >= n
    ensures d <= -1 ==> d * n <= 0 - n
  {
    if d >= 1 {
    } else if d <= -1 {
    }
  }

  /** The first round visits the methods in ranked order. */
  lemma {:induction false} FirstRoundFollowsRanking(blocks: seq<PracticeBlock>, methods: seq<RecommendationMethod>, i: int)
    requires 0 <= i < |methods| && i < |blocks|
    ensures BuildScheduleDetails(blocks, methods)[i].strategy == Label(methods[i].name)
  {
    assert i % |methods| == i;
  }

  /** Every block gets its own checkpoint minute, hence its own text. */
  lemma {:induction false} CheckpointTextInjective(i: nat, j: nat)
    requires CheckpointText(i) == CheckpointText(j)
    ensures i == j
  {
    var prefix, suffix := CheckpointPrefix, CheckpointSuffix;
    var di, dj := DecimalText(CheckpointMinute(i)), DecimalText(CheckpointMinute(j));
    var t := CheckpointText(i);
    assert dj == t[|prefix|..|prefix| + |dj|];
    DecimalTextInjective(CheckpointMinute(i), CheckpointMinute(j));
  }
}
