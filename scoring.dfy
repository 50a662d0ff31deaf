/** The scoring engine of the quiz page: `calculateResult` (answers to three
    dimension percentages, a weighted total and a pressure level) and the level
    lookup it shares with the admin page. */
module Scoring {

  import opened Wrappers
  import opened JsMath
  import opened QuizData

  /** `finalAnswers[idx]`: `undefined` past the end of the array. */
  function AnswerAt(answers: seq<string>, i: nat): Option<string> {
    if i < |answers| then Some(answers[i]) else None
  }

  /** `q.options.find(o => o.label === answer)`. */
  function FindOption(options: seq<QuizOption>, answer: Option<string>): (r: Option<QuizOption>)
    ensures r.Some? ==> r.value in options && answer == Some(r.value.letter)
    ensures r.None? ==> forall o :: o in options ==> answer != Some(o.letter)
  {
    if options == [] then None
    else if answer == Some(options[0].letter) then Some(options[0])
    else FindOption(options[1..], answer)
  }

  /** What question `q` adds to its dimension for `answer`: the matching option's
      weight, or nothing when no option carries that label. */
  function SelectedWeight(q: Question, answer: Option<string>): nat {
    match FindOption(q.options, answer)
    case Some(o) => o.weight
    case None => 0
  }

  /** Accumulated weight (tenths) of dimension `d` over the first `n` questions
      of the table `qs`. */
  function DimSum(qs: seq<Question>, answers: seq<string>, d: Dimension, n: nat): nat
    requires n <= |qs|
  {
    if n == 0 then 0
    else
      var q := qs[n - 1];
      DimSum(qs, answers, d, n - 1) + (if q.dimension == d then SelectedWeight(q, AnswerAt(answers, n - 1)) else 0)
  }

  /** Number of questions of dimension `d` among the first `n` of `qs`. */
  function DimCount(qs: seq<Question>, d: Dimension, n: nat): nat
    requires n <= |qs|
  {
    if n == 0 then 0
    else DimCount(qs, d, n - 1) + (if qs[n - 1].dimension == d then 1 else 0)
  }

  /** The questions of `qs` are laid out as in the table: 9 External, then 8
      Internal, then the rest Defense. */
  ghost predicate LaidOut(qs: seq<Question>) {
    forall i :: 0 <= i < |qs| ==> qs[i].dimension == DimensionOfPosition(i)
  }

  /** How many of the first `n` positions belong to each dimension. */
  lemma {:induction false} DimCountPrefix(qs: seq<Question>, n: nat)
    requires n <= |qs| && LaidOut(qs)
    ensures DimCount(qs, External, n) == if n < 9 then n else 9
    ensures DimCount(qs, Internal, n) == if n < 9 then 0 else if n < 17 then n - 9 else 8
    ensures DimCount(qs, Defense, n) == if n < 17 then 0 else n - 17
  {
    if n > 0 {
      DimCountPrefix(qs, n - 1);
    }
  }

  /** The counts the loop of `calculateResult` arrives at: 9, 8 and 8. */
  lemma DimCounts()
    ensures DimCount(Questions, External, |Questions|) == 9
    ensures DimCount(Questions, Internal, |Questions|) == 8
    ensures DimCount(Questions, Defense, |Questions|) == 8
  {
    QuestionDimensions();
    DimCountPrefix(Questions, |Questions|);
  }

  /** Every option weight in the table is at most 1.0. */
  lemma WeightsAtMostTen(i: nat, o: QuizOption)
    requires i < |Questions| && o in Questions[i].options
    ensures o.weight <= 10
  {
    OptionsAt(i);
  }

  /** Every question of `qs` adds at most 1.0 to its dimension, whatever the answer. */
  ghost predicate WeightsBounded(qs: seq<Question>) {
    forall i, answer :: 0 <= i < |qs| ==> SelectedWeight(qs[i], answer) <= 10
  }

  /** Whatever the answer, a question of the table adds at most 1.0. */
  lemma QuestionWeightsBounded()
    ensures WeightsBounded(Questions)
  {
    forall i, answer | 0 <= i < |Questions| ensures SelectedWeight(Questions[i], answer) <= 10 {
      match FindOption(Questions[i].options, answer)
      case Some(o) =>
        WeightsAtMostTen(i, o);
      case None =>
    }
  }

  /** No dimension sums to more than 1.0 per question counted. */
  lemma {:induction false} DimSumAtMost(qs: seq<Question>, answers: seq<string>, d: Dimension, n: nat)
    requires n <= |qs| && WeightsBounded(qs)
    ensures DimSum(qs, answers, d, n) <= 10 * DimCount(qs, d, n)
  {
    if n > 0 {
      DimSumAtMost(qs, answers, d, n - 1);
    }
  }

  /** `Math.round((scores[d] / counts[d]) * 100)`: an integer in [0, 100]. */
  function DimensionScore(answers: seq<string>, d: Dimension): (s: nat)
    ensures s <= 100
  {
    DimCounts();
    QuestionWeightsBounded();
    DimSumAtMost(Questions, answers, d, |Questions|);
    RoundDivAtMost(10 * DimSum(Questions, answers, d, |Questions|), DimCount(Questions, d, |Questions|), 100);
    RoundDiv(10 * DimSum(Questions, answers, d, |Questions|), DimCount(Questions, d, |Questions|))
  }

  function DimensionScoresOf(answers: seq<string>): DimensionScores {
    DimensionScores(
      DimensionScore(answers, External), DimensionScore(answers, Internal), DimensionScore(answers, Defense))
  }

  /** The total from the ALREADY ROUNDED dimension scores: the integer nearest to
      0.4 * e + 0.3 * i + 0.3 * d (halves up), in [0, 100]. */
  function TotalScore(e: nat, i: nat, d: nat): (t: nat)
    requires e <= 100 && i <= 100 && d <= 100
    ensures 20 * t <= 2 * (4 * e + 3 * i + 3 * d) + 10 < 20 * t + 20
    ensures t <= 100
  {
    RoundDivAtMost(4 * e + 3 * i + 3 * d, 10, 100);
    RoundDiv(4 * e + 3 * i + 3 * d, 10)
  }

  /** `levels.find(l => score >= l.range[0] && score <= l.range[1])`. */
  function FindLevel(levels: seq<PressureLevel>, score: int): (r: Option<PressureLevel>)
    ensures r.Some? ==> r.value in levels && r.value.lo <= score <= r.value.hi
    ensures r.None? ==> forall l :: l in levels ==> !(l.lo <= score <= l.hi)
  {
    if levels == [] then None
    else if levels[0].lo <= score <= levels[0].hi then Some(levels[0])
    else FindLevel(levels[1..], score)
  }

  /** The level lookup with its fallback `|| PRESSURE_LEVELS[0]`. */
  function LevelFor(score: int): PressureLevel {
    match FindLevel(PressureLevels, score)
    case Some(l) => l
    case None => PressureLevels[0]
  }

  /** The result `calculateResult` hands to `onComplete`, as a function of the answers. */
  function Score(answers: seq<string>): (r: QuizResult)
    ensures r.answers == answers
    ensures 0 <= r.totalScore <= 100
  {
    var ds := DimensionScoresOf(answers);
    var total := TotalScore(ds.external, ds.internal, ds.defense);
    QuizResult(total, LevelFor(total), ds, answers)
  }

  /** The `forEach` of `calculateResult` over the table `qs`: per dimension, the
      summed weight of the selected options and the number of questions. */
  method Accumulate(qs: seq<Question>, answers: seq<string>)
    returns (scores: map<Dimension, nat>, counts: map<Dimension, nat>)
    ensures forall d: Dimension :: d in scores && scores[d] == DimSum(qs, answers, d, |qs|)
    ensures forall d: Dimension :: d in counts && counts[d] == DimCount(qs, d, |qs|)
  {
    scores := map[External := 0, Internal := 0, Defense := 0];
    counts := map[External := 0, Internal := 0, Defense := 0];
    var idx := 0;
    forall d: Dimension ensures d in scores && d in counts {
      match d
      case External =>
      case Internal =>
      case Defense =>
    }
    while idx < |qs|
      invariant idx <= |qs|
      invariant forall d: Dimension :: d in scores && scores[d] == DimSum(qs, answers, d, idx)
      invariant forall d: Dimension :: d in counts && counts[d] == DimCount(qs, d, idx)
    {
      var q := qs[idx];
      var selectedOption := FindOption(q.options, AnswerAt(answers, idx));
      if selectedOption.Some? {
        scores := scores[q.dimension := scores[q.dimension] + selectedOption.value.weight];
      }
      counts := counts[q.dimension := counts[q.dimension] + 1];
      idx := idx + 1;
    }
  }

  /** `calculateResult`: accumulate weight sums and question counts per dimension
      over the question table, round each dimension, round the weighted total
      of the rounded dimensions, and look up the level. */
  method CalculateResult(finalAnswers: seq<string>) returns (r: QuizResult)
    ensures r == Score(finalAnswers)
  {
    var scores, counts := Accumulate(Questions, finalAnswers);
    DimCounts();
    var dimScores := DimensionScores(
      RoundDiv(10 * scores[External], counts[External]),
      RoundDiv(10 * scores[Internal], counts[Internal]),
      RoundDiv(10 * scores[Defense], counts[Defense]));
    assert dimScores == DimensionScoresOf(finalAnswers);
    var totalScore := TotalScore(dimScores.external, dimScores.internal, dimScores.defense);
    r := QuizResult(totalScore, LevelFor(totalScore), dimScores, finalAnswers);
  }

  // ---- The level table: partition, lookup and fallback ----

  /** In contiguous levels every range ends before any later range starts. */
  lemma {:induction false} ContiguousOrdered(levels: seq<PressureLevel>, lo0: int, k1: nat, k2: nat)
    requires ContiguousFrom(levels, lo0) && k1 < k2 < |levels|
    ensures levels[k1].hi < levels[k2].lo
    decreases k2 - k1
  {
    if k1 + 1 < k2 {
      ContiguousOrdered(levels, lo0, k1, k2 - 1);
    }
  }

  /** Contiguous levels cover every score from their first `lo` to their last `hi`. */
  lemma {:induction false} ContiguousCover(levels: seq<PressureLevel>, lo0: int, s: int)
    requires ContiguousFrom(levels, lo0) && |levels| > 0
    requires lo0 <= s <= levels[|levels| - 1].hi
    ensures exists k :: 0 <= k < |levels| && levels[k].lo <= s <= levels[k].hi
  {
    if s > levels[0].hi {
      var rest := levels[1..];
      assert ContiguousFrom(rest, levels[0].hi + 1);
      ContiguousCover(rest, levels[0].hi + 1, s);
      var k :| 0 <= k < |rest| && rest[k].lo <= s <= rest[k].hi;
      assert levels[k + 1] == rest[k];
    }
  }

  /** On contiguous levels the lookup finds the level whose range holds the score:
      every earlier range ends below it. */
  lemma {:induction false} FindLevelContiguous(levels: seq<PressureLevel>, lo0: int, s: int, k: nat)
    requires ContiguousFrom(levels, lo0) && k < |levels|
    requires levels[k].lo <= s <= levels[k].hi
    ensures FindLevel(levels, s) == Some(levels[k])
    decreases k
  {
    if k > 0 {
      ContiguousOrdered(levels, lo0, 0, k);
      var rest := levels[1..];
      assert ContiguousFrom(rest, levels[0].hi + 1);
      assert rest[k - 1] == levels[k];
      FindLevelContiguous(rest, levels[0].hi + 1, s, k - 1);
    }
  }

  /** Every score in [0, 100] lies in exactly one level's range; the lookup finds
      that level (whose number is its position + 1) and never falls back. */
  lemma LevelForScore(s: int)
    requires 0 <= s <= 100
    ensures FindLevel(PressureLevels, s).Some?
    ensures LevelFor(s).lo <= s <= LevelFor(s).hi
    ensures exists k :: 0 <= k < |PressureLevels| && LevelFor(s) == PressureLevels[k] && LevelFor(s).level == k + 1
    ensures forall k :: 0 <= k < |PressureLevels| && PressureLevels[k].lo <= s <= PressureLevels[k].hi ==>
      LevelFor(s) == PressureLevels[k]
  {
    PressureLevelTable();
    ContiguousCover(PressureLevels, 0, s);
    var k :| 0 <= k < |PressureLevels| && PressureLevels[k].lo <= s <= PressureLevels[k].hi;
    FindLevelContiguous(PressureLevels, 0, s, k);
    forall k' | 0 <= k' < |PressureLevels| && PressureLevels[k'].lo <= s <= PressureLevels[k'].hi
      ensures LevelFor(s) == PressureLevels[k']
    {
      FindLevelContiguous(PressureLevels, 0, s, k');
    }
  }

  /** The level of a score in the range of level `k + 1`. */
  lemma LevelAt(s: int, k: nat)
    requires k < |PressureLevels| && PressureLevels[k].lo <= s <= PressureLevels[k].hi
    ensures LevelFor(s) == PressureLevels[k]
  {
    PressureLevelTable();
    FindLevelContiguous(PressureLevels, 0, s, k);
  }

  /** The fallback to the first level is taken exactly for scores outside [0, 100]. */
  lemma LevelFallback(s: int)
    ensures FindLevel(PressureLevels, s).None? <==> (s < 0 || s > 100)
    ensures (s < 0 || s > 100) ==> LevelFor(s) == PressureLevels[0]
  {
    if 0 <= s <= 100 {
      LevelForScore(s);
    } else {
      forall l | l in PressureLevels ensures !(l.lo <= s <= l.hi) {
        LevelWithinBounds(l);
      }
    }
  }

  /** Range edges are respected exactly. */
  lemma BoundaryLevels()
    ensures LevelFor(0).level == 1 && LevelFor(12).level == 1
    ensures LevelFor(13).level == 2 && LevelFor(90).level == 7
    ensures LevelFor(91).level == 8 && LevelFor(100).level == 8
  {
    LevelForScore(0);
    LevelForScore(12);
    LevelForScore(13);
    LevelForScore(90);
    LevelForScore(91);
    LevelForScore(100);
  }

  // ---- Properties of the score ----

  /** Every result: dimension scores and total in [0, 100], the total in its level's
      range, and the answers passed through unchanged. */
  lemma ScoreWellFormed(answers: seq<string>)
    ensures var r := Score(answers);
      && 0 <= r.dimensionScores.external <= 100
      && 0 <= r.dimensionScores.internal <= 100
      && 0 <= r.dimensionScores.defense <= 100
      && 0 <= r.totalScore <= 100
      && r.level.lo <= r.totalScore <= r.level.hi
      && r.level in PressureLevels
      && r.answers == answers
  {
    LevelForScore(Score(answers).totalScore);
  }

  /** Dimension sums grow with the weights of the answers of that dimension. */
  lemma {:induction false} DimSumPointwise(qs: seq<Question>, a: seq<string>, b: seq<string>, d: Dimension, n: nat)
    requires n <= |qs|
    requires forall j :: 0 <= j < n && qs[j].dimension == d ==>
      SelectedWeight(qs[j], AnswerAt(a, j)) <= SelectedWeight(qs[j], AnswerAt(b, j))
    ensures DimSum(qs, a, d, n) <= DimSum(qs, b, d, n)
  {
    if n > 0 {
      DimSumPointwise(qs, a, b, d, n - 1);
    }
  }

  /** A dimension score rounds a sum over a fixed count, so it follows the sum. */
  lemma DimensionScoreMonotone(a: seq<string>, b: seq<string>, d: Dimension)
    requires DimSum(Questions, a, d, |Questions|) <= DimSum(Questions, b, d, |Questions|)
    ensures DimensionScore(a, d) <= DimensionScore(b, d)
  {
    DimCounts();
    var n := |Questions|;
    RoundDivMonotone(10 * DimSum(Questions, a, d, n), 10 * DimSum(Questions, b, d, n), DimCount(Questions, d, n));
  }

  /** The rounded total follows the dimension scores. */
  lemma TotalMonotone(da: DimensionScores, db: DimensionScores)
    requires 0 <= da.external <= db.external <= 100 && 0 <= da.internal <= db.internal <= 100
    requires 0 <= da.defense <= db.defense <= 100
    ensures TotalScore(da.external, da.internal, da.defense) <= TotalScore(db.external, db.internal, db.defense)
  {
    RoundDivMonotone(4 * da.external + 3 * da.internal + 3 * da.defense,
                     4 * db.external + 3 * db.internal + 3 * db.defense, 10);
  }

  /** Replacing one answer by one of no lower weight never lowers a dimension score
      or the total, and leaves the other dimensions as they were. */
  lemma RaisingOneAnswer(a: seq<string>, b: seq<string>, i: nat)
    requires i < |Questions|
    requires forall j :: 0 <= j < |Questions| && j != i ==> AnswerAt(a, j) == AnswerAt(b, j)
    requires SelectedWeight(Questions[i], AnswerAt(a, i)) <= SelectedWeight(Questions[i], AnswerAt(b, i))
    ensures forall d :: DimensionScore(a, d) <= DimensionScore(b, d)
    ensures forall d :: d != Questions[i].dimension ==> DimensionScore(a, d) == DimensionScore(b, d)
    ensures Score(a).totalScore <= Score(b).totalScore
  {
    forall d: Dimension
      ensures DimensionScore(a, d) <= DimensionScore(b, d)
      ensures d != Questions[i].dimension ==> DimensionScore(a, d) == DimensionScore(b, d)
    {
      DimSumPointwise(Questions, a, b, d, |Questions|);
      DimensionScoreMonotone(a, b, d);
      if d != Questions[i].dimension {
        DimSumPointwise(Questions, b, a, d, |Questions|);
        DimensionScoreMonotone(b, a, d);
      }
    }
    TotalMonotone(DimensionScoresOf(a), DimensionScoresOf(b));
  }

  /** Sheets whose answers select the same weights have the same dimension sums. */
  lemma {:induction false} DimSumSameWeights(qs: seq<Question>, a: seq<string>, b: seq<string>, d: Dimension, n: nat)
    requires n <= |qs|
    requires forall j :: 0 <= j < n ==> SelectedWeight(qs[j], AnswerAt(a, j)) == SelectedWeight(qs[j], AnswerAt(b, j))
    ensures DimSum(qs, a, d, n) == DimSum(qs, b, d, n)
  {
    if n > 0 {
      DimSumSameWeights(qs, a, b, d, n - 1);
    }
  }

  /** An answer that matches none of its question's options adds no weight, yet its
      question is still counted: the scores are those of answering D (weight 0). */
  lemma UnknownAnswerCountsAsZero(a: seq<string>, i: nat)
    requires i < |Questions| && i < |a|
    requires forall o :: o in Questions[i].options ==> o.letter != a[i]
    ensures SelectedWeight(Questions[i], AnswerAt(a, i)) == 0
    ensures DimensionScoresOf(a) == DimensionScoresOf(a[i := "D"])
  {
    var b := a[i := "D"];
    LetterWeights(i);
    forall j | 0 <= j < |Questions|
      ensures SelectedWeight(Questions[j], AnswerAt(a, j)) == SelectedWeight(Questions[j], AnswerAt(b, j))
    {
      if j != i {
        assert AnswerAt(a, j) == AnswerAt(b, j);
      }
    }
    forall d: Dimension ensures DimSum(Questions, a, d, |Questions|) == DimSum(Questions, b, d, |Questions|) {
      DimSumSameWeights(Questions, a, b, d, |Questions|);
    }
  }

  /** A dimension's sum when every answer carries the full weight 1.0. */
  lemma {:induction false} DimSumAllFull(qs: seq<Question>, a: seq<string>, d: Dimension, n: nat)
    requires n <= |qs|
    requires forall j :: 0 <= j < n ==> SelectedWeight(qs[j], AnswerAt(a, j)) == 10
    ensures DimSum(qs, a, d, n) == 10 * DimCount(qs, d, n)
  {
    if n > 0 {
      DimSumAllFull(qs, a, d, n - 1);
    }
  }

  /** A dimension's sum when every answer carries weight 0. */
  lemma {:induction false} DimSumAllZero(qs: seq<Question>, a: seq<string>, d: Dimension, n: nat)
    requires n <= |qs|
    requires forall j :: 0 <= j < n ==> SelectedWeight(qs[j], AnswerAt(a, j)) == 0
    ensures DimSum(qs, a, d, n) == 0
  {
    if n > 0 {
      DimSumAllZero(qs, a, d, n - 1);
    }
  }

  /** All answers A: every dimension is 100. */
  lemma AllHighestDimensions(a: seq<string>)
    requires |a| == |Questions| && forall j :: 0 <= j < |a| ==> a[j] == "A"
    ensures DimensionScoresOf(a) == DimensionScores(100, 100, 100)
  {
    DimCounts();
    forall j | 0 <= j < |Questions| ensures SelectedWeight(Questions[j], AnswerAt(a, j)) == 10 {
      LetterWeights(j);
    }
    forall d: Dimension ensures DimensionScore(a, d) == 100 {
      DimSumAllFull(Questions, a, d, |Questions|);
      RoundDivExact(100, DimCount(Questions, d, |Questions|));
    }
  }

  /** All answers A: the total is 100 and the level is 8. */
  lemma AllHighestAnswers(a: seq<string>)
    requires |a| == |Questions| && forall j :: 0 <= j < |a| ==> a[j] == "A"
    ensures Score(a).dimensionScores == DimensionScores(100, 100, 100)
    ensures Score(a).totalScore == 100
    ensures Score(a).level == PressureLevels[7] && Score(a).level.tag == "春节逃离计划"
  {
    AllHighestDimensions(a);
    assert Score(a).totalScore == TotalScore(100, 100, 100) == 100;
    LevelAt(100, 7);
    assert Score(a).level == LevelFor(100);
  }

  /** All answers D: every dimension is 0. */
  lemma AllLowestDimensions(a: seq<string>)
    requires |a| == |Questions| && forall j :: 0 <= j < |a| ==> a[j] == "D"
    ensures DimensionScoresOf(a) == DimensionScores(0, 0, 0)
  {
    DimCounts();
    forall j | 0 <= j < |Questions| ensures SelectedWeight(Questions[j], AnswerAt(a, j)) == 0 {
      LetterWeights(j);
    }
    forall d: Dimension ensures DimensionScore(a, d) == 0 {
      DimSumAllZero(Questions, a, d, |Questions|);
      RoundDivExact(0, DimCount(Questions, d, |Questions|));
    }
  }

  /** All answers D: the total is 0 and the level is 1. */
  lemma AllLowestAnswers(a: seq<string>)
    requires |a| == |Questions| && forall j :: 0 <= j < |a| ==> a[j] == "D"
    ensures Score(a).dimensionScores == DimensionScores(0, 0, 0)
    ensures Score(a).totalScore == 0
    ensures Score(a).level == PressureLevels[0]
  {
    AllLowestDimensions(a);
    assert Score(a).totalScore == TotalScore(0, 0, 0) == 0;
    LevelAt(0, 0);
    assert Score(a).level == LevelFor(0);
  }

  // ---- Two-stage rounding ----

  /** What answer `i` adds to dimension `d` among the first `n` questions. */
  function Contribution(qs: seq<Question>, a: seq<string>, d: Dimension, n: nat, i: nat): nat
    requires n <= |qs|
  {
    if i < n && qs[i].dimension == d then SelectedWeight(qs[i], AnswerAt(a, i)) else 0
  }

  /** Changing one answer changes a dimension sum by exactly the change of that
      answer's own contribution. */
  lemma {:induction false} DimSumChangeOne(qs: seq<Question>, a: seq<string>, b: seq<string>, d: Dimension, n: nat, i: nat)
    requires n <= |qs|
    requires forall j :: 0 <= j < n && j != i ==> AnswerAt(a, j) == AnswerAt(b, j)
    ensures DimSum(qs, a, d, n) + Contribution(qs, b, d, n, i) == DimSum(qs, b, d, n) + Contribution(qs, a, d, n, i)
  {
    if n > 0 {
      DimSumChangeOne(qs, a, b, d, n - 1, i);
    }
  }

  /** The total rounded ONCE from the unrounded dimension ratios:
      the integer nearest to 4 sE/cE + 3 sI/cI + 3 sD/cD (sums in tenths,
      counts 9, 8 and 8). */
  function SingleStageTotal(answers: seq<string>): nat
  {
    var n := |Questions|;
    var sE, sI, sD := DimSum(Questions, answers, External, n), DimSum(Questions, answers, Internal, n), DimSum(Questions, answers, Defense, n);
    RoundDiv(4 * 64 * sE + 3 * 72 * sI + 3 * 72 * sD, 576)
  }

  /** Answers on which rounding the dimensions first changes the level: A, A, C
      on questions 1-3, C on question 10, B on question 18 and D everywhere else.
      The dimensions round to 26, 4 and 4, giving a total of 13 (level 2), while
      the unrounded ratios give 12.47, i.e. 12 (level 1). */
  const TwoStageWitness: seq<string> := AllD()[0 := "A"][1 := "A"][2 := "C"][9 := "C"][17 := "B"]

  /** Looking up each letter in a four-option list finds that letter's weight. */
  lemma FindInOptions(a: nat, b: nat, c: nat, d: nat)
    ensures FindOption(Options(a, b, c, d), Some("A")) == Some(QuizOption("A", a))
    ensures FindOption(Options(a, b, c, d), Some("B")) == Some(QuizOption("B", b))
    ensures FindOption(Options(a, b, c, d), Some("C")) == Some(QuizOption("C", c))
    ensures FindOption(Options(a, b, c, d), Some("D")) == Some(QuizOption("D", d))
  {
    var o := Options(a, b, c, d);
    assert o[1..][1..][1..] == [QuizOption("D", d)];
  }

  /** The weight each letter selects on question `i`. */
  lemma LetterWeights(i: nat)
    requires i < |Questions|
    ensures SelectedWeight(Questions[i], Some("A")) == 10
    ensures SelectedWeight(Questions[i], Some("B")) == if i == 17 then 3 else 6
    ensures SelectedWeight(Questions[i], Some("C")) == if i == 17 then 6 else 3
    ensures SelectedWeight(Questions[i], Some("D")) == 0
  {
    OptionsAt(i);
    if i == 17 {
      FindInOptions(10, 3, 6, 0);
    } else {
      FindInOptions(10, 6, 3, 0);
    }
  }

  /** Replacing a D (weight 0) by `x` adds `x`'s weight to the question's dimension. */
  lemma ReplaceD(a: seq<string>, i: nat, x: string, d: Dimension)
    requires i < |a| == |Questions| && a[i] == "D"
    ensures DimSum(Questions, a[i := x], d, |Questions|)
         == DimSum(Questions, a, d, |Questions|) + if Questions[i].dimension == d then SelectedWeight(Questions[i], Some(x)) else 0
  {
    DimSumChangeOne(Questions, a, a[i := x], d, |Questions|, i);
    LetterWeights(i);
  }

  /** The answer sheet of all D's. */
  function AllD(): (a: seq<string>)
    ensures |a| == |Questions| && forall j :: 0 <= j < |a| ==> a[j] == "D"
  {
    seq(|Questions|, j => "D")
  }

  lemma AllDSums(d: Dimension)
    ensures DimSum(Questions, AllD(), d, |Questions|) == 0
  {
    forall j | 0 <= j < |Questions| ensures SelectedWeight(Questions[j], AnswerAt(AllD(), j)) == 0 {
      LetterWeights(j);
    }
    DimSumAllZero(Questions, AllD(), d, |Questions|);
  }

  lemma WitnessPositions()
    ensures Questions[0].dimension == Questions[1].dimension == Questions[2].dimension == External
    ensures Questions[9].dimension == Internal && Questions[17].dimension == Defense
  {
    QuestionDimensions();
  }

  /** Two A's on the first two External questions sum to 2.0. */
  lemma TwoStageWitnessAA(a2: seq<string>, d: Dimension)
    requires a2 == AllD()[0 := "A"][1 := "A"]
    ensures DimSum(Questions, a2, d, |Questions|) == if d == External then 20 else 0
  {
    var a0 := AllD();
    var a1 := a0[0 := "A"];
    assert a1[1] == a0[1];
    WitnessPositions();
    AllDSums(d);
    LetterWeights(0);
    ReplaceD(a0, 0, "A", d);
    LetterWeights(1);
    ReplaceD(a1, 1, "A", d);
  }

  /** The dimension sums of the witness: 2.3, 0.3 and 0.3. */
  lemma TwoStageWitnessExternal(a3: seq<string>, d: Dimension)
    requires a3 == AllD()[0 := "A"][1 := "A"][2 := "C"]
    ensures DimSum(Questions, a3, d, |Questions|) == if d == External then 23 else 0
  {
    var a2 := AllD()[0 := "A"][1 := "A"];
    assert a2[2] == AllD()[2];
    TwoStageWitnessAA(a2, d);
    WitnessPositions();
    LetterWeights(2);
    ReplaceD(a2, 2, "C", d);
  }

  lemma TwoStageWitnessSums(w: seq<string>, d: Dimension)
    requires w == AllD()[0 := "A"][1 := "A"][2 := "C"][9 := "C"][17 := "B"]
    ensures DimSum(Questions, w, d, |Questions|) == match d case External => 23 case Internal => 3 case Defense => 3
  {
    var n := |Questions|;
    var a3 := AllD()[0 := "A"][1 := "A"][2 := "C"];
    var a4 := a3[9 := "C"];
    assert a3[9] == AllD()[9] && a4[17] == AllD()[17];
    TwoStageWitnessExternal(a3, d);
    WitnessPositions();
    LetterWeights(9);
    ReplaceD(a3, 9, "C", d);
    LetterWeights(17);
    ReplaceD(a4, 17, "B", d);
  }

  /** The witness's dimension scores: 2.3 / 9, 0.3 / 8 and 0.3 / 8 round to 26, 4 and 4. */
  lemma TwoStageDimensions()
    ensures DimensionScoresOf(TwoStageWitness) == DimensionScores(26, 4, 4)
  {
    TwoStageWitnessSums(TwoStageWitness, External);
    TwoStageWitnessSums(TwoStageWitness, Internal);
    TwoStageWitnessSums(TwoStageWitness, Defense);
    DimCounts();
    var w := TwoStageWitness;
    assert DimensionScore(w, External) == RoundDiv(230, 9) == 26;
    assert DimensionScore(w, Internal) == RoundDiv(30, 8) == 4;
    assert DimensionScore(w, Defense) == RoundDiv(30, 8) == 4;
  }

  /** Rounded once, from the unrounded ratios, the witness totals 7184 / 576 = 12.47,
      i.e. 12. */
  lemma TwoStageSingleStage()
    ensures SingleStageTotal(TwoStageWitness) == 12
  {
    var w := TwoStageWitness;
    TwoStageWitnessSums(w, External);
    TwoStageWitnessSums(w, Internal);
    TwoStageWitnessSums(w, Defense);
    assert SingleStageTotal(w) == RoundDiv(7184, 576) == 12;
  }

  /** Rounding twice moves the witness up a level: the rounded dimensions give a
      total of 13 (level 2), the unrounded ratios 12 (level 1). */
  lemma TwoStageRoundingMatters()
    ensures Score(TwoStageWitness).dimensionScores == DimensionScores(26, 4, 4)
    ensures Score(TwoStageWitness).totalScore == 13 && Score(TwoStageWitness).level.level == 2
    ensures SingleStageTotal(TwoStageWitness) == 12 && LevelFor(SingleStageTotal(TwoStageWitness)).level == 1
  {
    var w := TwoStageWitness;
    TwoStageDimensions();
    assert Score(w).totalScore == TotalScore(26, 4, 4) == RoundDiv(4 * 26 + 3 * 4 + 3 * 4, 10) == 13;
    TwoStageSingleStage();
    LevelAt(13, 1);
    LevelAt(12, 0);
  }
}
