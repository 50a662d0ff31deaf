/** The quiz's static tables and the record types around them: the 25
    questions with their weighted options and the 8 pressure levels. Weights are
    held as integer tenths (1.0 is 10, 0.6 is 6, 0.3 is 3, 0.0 is 0) so that
    scoring is exact integer arithmetic. */
module QuizData {

  /** The three axes a question measures. */
  datatype Dimension = External | Internal | Defense

  /** One answer option: its label (`letter`) and its weight in tenths. */
  datatype QuizOption = QuizOption(letter: string, weight: nat)

  /** A question; its display text is not modelled. */
  datatype Question = Question(id: nat, dimension: Dimension, options: seq<QuizOption>)

  /** A pressure tier: the inclusive score range `[lo, hi]` and its display data. */
  datatype PressureLevel = PressureLevel(
    level: nat, lo: int, hi: int, tag: string, keywords: seq<string>, description: string)

  /** The per-dimension percentages of a result, keyed by dimension as in the source. */
  datatype DimensionScores = DimensionScores(external: int, internal: int, defense: int) {
    function Get(d: Dimension): int {
      match d
      case External => external
      case Internal => internal
      case Defense => defense
    }
  }

  /** What scoring hands to the rest of the app. */
  datatype QuizResult = QuizResult(
    totalScore: int, level: PressureLevel, dimensionScores: DimensionScores, answers: seq<string>)

  const QuestionCount: nat := 25

  /** The four options of a question, labelled A to D, with the given weights. */
  function Options(a: nat, b: nat, c: nat, d: nat): seq<QuizOption> {
    [QuizOption("A", a), QuizOption("B", b), QuizOption("C", c), QuizOption("D", d)]
  }

  const Questions: seq<Question> := [
    // External, questions 1-9
    Question(1, External, Options(10, 6, 3, 0)),
    Question(2, External, Options(10, 6, 3, 0)),
    Question(3, External, Options(10, 6, 3, 0)),
    Question(4, External, Options(10, 6, 3, 0)),
    Question(5, External, Options(10, 6, 3, 0)),
    Question(6, External, Options(10, 6, 3, 0)),
    Question(7, External, Options(10, 6, 3, 0)),
    Question(8, External, Options(10, 6, 3, 0)),
    Question(9, External, Options(10, 6, 3, 0)),
    // Internal, questions 10-17
    Question(10, Internal, Options(10, 6, 3, 0)),
    Question(11, Internal, Options(10, 6, 3, 0)),
    Question(12, Internal, Options(10, 6, 3, 0)),
    Question(13, Internal, Options(10, 6, 3, 0)),
    Question(14, Internal, Options(10, 6, 3, 0)),
    Question(15, Internal, Options(10, 6, 3, 0)),
    Question(16, Internal, Options(10, 6, 3, 0)),
    Question(17, Internal, Options(10, 6, 3, 0)),
    // Defense, questions 18-25; question 18 gives B 0.3 and C 0.6
    Question(18, Defense, Options(10, 3, 6, 0)),
    Question(19, Defense, Options(10, 6, 3, 0)),
    Question(20, Defense, Options(10, 6, 3, 0)),
    Question(21, Defense, Options(10, 6, 3, 0)),
    Question(22, Defense, Options(10, 6, 3, 0)),
    Question(23, Defense, Options(10, 6, 3, 0)),
    Question(24, Defense, Options(10, 6, 3, 0)),
    Question(25, Defense, Options(10, 6, 3, 0))
  ]

  const PressureLevels: seq<PressureLevel> := [
    PressureLevel(1, 0, 12, "春节隐身王者", ["零压力", "糊弄大师", "反客为主"],
      "全程没人烦你，还能把亲戚聊到主动撤退，主打一个 “关我屁事”。"),
    PressureLevel(2, 13, 25, "春节气氛组", ["低压力", "佛系", "社交舒适"],
      "偶尔被问两句，随便糊弄就过关，全程吃好喝好，主打 “快乐躺平”。"),
    PressureLevel(3, 26, 38, "轻度防御选手", ["微压力", "有备而来", "话术在线"],
      "提前准备了标准答案，应付常规提问没问题，偶尔被突袭会小尴尬。"),
    PressureLevel(4, 39, 51, "中场抗压玩家", ["中低压力", "张弛有度", "选择性回应"],
      "能应对大部分围攻，但连续作战会累，需要躲回房间 “回血”。"),
    PressureLevel(5, 52, 64, "高压破防预备役", ["中高压力", "敏感体质", "易被戳中"],
      "催婚 / 问工资是高频雷区，表面强撑微笑，内心已经在 “渡劫”。"),
    PressureLevel(6, 65, 77, "春节渡劫难民", ["高压力", "密集轰炸", "身心俱疲"],
      "每天被安排满相亲 / 聚餐，亲戚人均 “包打听”，压力大到想提前返程。"),
    PressureLevel(7, 78, 90, "红色警报重症", ["极高压力", "社恐爆发", "情绪耗竭"],
      "听到亲戚声音就紧张，失眠 / 食欲不振，需要靠打游戏 / 躲厕所逃避。"),
    PressureLevel(8, 91, 100, "春节逃离计划", ["极限压力", "全面崩盘", "急需撤离"],
      "完全无法应对，只想立刻买机票回家，属于 “再待一天就崩溃” 的紧急状态。")
  ]

  /** The dimension a question position belongs to by construction of the table. */
  function DimensionOfPosition(i: nat): Dimension {
    if i < 9 then External else if i < 17 then Internal else Defense
  }

  /** Levels numbered 1.. in order whose ranges run contiguously from `lo0`:
      each range is non-empty and starts one after the previous one ends. */
  ghost predicate ContiguousFrom(levels: seq<PressureLevel>, lo0: int) {
    && (|levels| > 0 ==> levels[0].lo == lo0)
    && (forall k :: 0 <= k < |levels| ==> levels[k].lo <= levels[k].hi)
    && (forall k :: 0 < k < |levels| ==> levels[k].lo == levels[k - 1].hi + 1)
  }

  /** There are exactly 25 questions, with ids 1..25 in order. */
  lemma QuestionIds()
    ensures |Questions| == QuestionCount
    ensures forall i :: 0 <= i < |Questions| ==> Questions[i].id == i + 1
  {
  }

  /** Questions 1-9 are External, 10-17 Internal and 18-25 Defense. */
  lemma QuestionDimensions()
    ensures forall i :: 0 <= i < |Questions| ==> Questions[i].dimension == DimensionOfPosition(i)
  {
  }

  /** Every question has four options labelled A, B, C, D in that order; its
      weights are a permutation of {1.0, 0.6, 0.3, 0.0}, with A = 1.0 and D = 0.0. */
  lemma QuestionOptions()
    ensures forall i :: 0 <= i < |Questions| ==>
      var o := Questions[i].options;
      && |o| == 4
      && o[0].letter == "A" && o[1].letter == "B" && o[2].letter == "C" && o[3].letter == "D"
      && multiset{o[0].weight, o[1].weight, o[2].weight, o[3].weight} == multiset{10, 6, 3, 0}
      && o[0].weight == 10 && o[3].weight == 0
  {
    forall i | 0 <= i < |Questions|
      ensures var o := Questions[i].options;
        && |o| == 4
        && o[0].letter == "A" && o[1].letter == "B" && o[2].letter == "C" && o[3].letter == "D"
        && multiset{o[0].weight, o[1].weight, o[2].weight, o[3].weight} == multiset{10, 6, 3, 0}
        && o[0].weight == 10 && o[3].weight == 0
    {
      OptionsAt(i);
    }
  }

  /** The A/B/C/D -> 1.0/0.6/0.3/0.0 correspondence holds for every question but 18,
      which swaps B and C. */
  lemma Question18SwapsBAndC()
    ensures forall i :: 0 <= i < |Questions| ==>
      (Questions[i].options == Options(10, 6, 3, 0) <==> Questions[i].id != 18)
    ensures Questions[17].options == Options(10, 3, 6, 0)
  {
  }

  /** Eight levels numbered 1..8 in order, each with three keywords, whose ranges
      run contiguously from 0 and end at 100. */
  lemma PressureLevelTable()
    ensures |PressureLevels| == 8
    ensures forall k :: 0 <= k < 8 ==> PressureLevels[k].level == k + 1
    ensures forall k :: 0 <= k < 8 ==> |PressureLevels[k].keywords| == 3
    ensures ContiguousFrom(PressureLevels, 0) && PressureLevels[7].hi == 100
  {
  }

  /** The options of the question at position `i`: the standard weights, except for
      question 18. */
  lemma OptionsAt(i: nat)
    requires i < |Questions|
    ensures Questions[i].options == if i == 17 then Options(10, 3, 6, 0) else Options(10, 6, 3, 0)
  {
    QuestionIds();
    Question18SwapsBAndC();
  }

  /** Every level's range lies within [0, 100]. */
  lemma LevelWithinBounds(l: PressureLevel)
    requires l in PressureLevels
    ensures 0 <= l.lo && l.hi <= 100
  {
  }
}
