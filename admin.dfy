/** The admin dashboard's arithmetic: paging through the assessment records,
    the per-level histogram and its colour bands, the level lookup of the mock
    records, and the two conversion ratios. */
module Admin {

  import opened JsMath
  import opened QuizData
  import opened Scoring

  /** One assessment as the dashboard lists it (its timestamp is not modelled). */
  datatype AssessmentRecord = AssessmentRecord(
    id: string,
    totalScore: int,
    level: int,
    levelTag: string,
    dimensionScores: DimensionScores,
    basicPaid: bool,
    aiPaid: bool,
    userAgent: string)

  // ---- Paging ----

  const PageSize: nat := 10

  /** `Math.ceil(records.length / pageSize)`. */
  function TotalPages(n: nat): (t: nat)
    ensures t * PageSize >= n
    ensures t == 0 || (t - 1) * PageSize < n
    ensures t == 0 <==> n == 0
  {
    CeilDiv(n, PageSize)
  }

  /** How `Array.prototype.slice` reads one of its bounds: a negative bound counts
      from the end, and the result is clamped to [0, len]. */
  function SliceBound(i: int, len: nat): (k: nat)
    ensures k <= len
    ensures 0 <= i <= len ==> k == i
  {
    if i < 0 then (if len + i > 0 then len + i else 0)
    else if i < len then i else len
  }

  /** `xs.slice(start, end)`: between two in-range bounds, exactly the elements
      from `start` up to `end`; nothing when `end` does not come after `start`. */
  function JsSlice<T>(xs: seq<T>, start: int, end: int): (r: seq<T>)
    ensures |r| <= |xs|
    ensures 0 <= start <= end <= |xs| ==> r == xs[start..end]
    ensures 0 <= end <= start ==> r == []
  {
    var a, b := SliceBound(start, |xs|), SliceBound(end, |xs|);
    if a < b then xs[a..b] else []
  }

  /** A negative start counts back from the end of the array. */
  lemma SliceNegativeStart<T>(xs: seq<T>, start: int, end: int)
    requires -|xs| <= start < 0
    ensures JsSlice(xs, start, end) == JsSlice(xs, start + |xs|, end)
  {
  }

  /** A negative end counts back from the end of the array. */
  lemma SliceNegativeEnd<T>(xs: seq<T>, start: int, end: int)
    requires -|xs| <= end < 0
    ensures JsSlice(xs, start, end) == JsSlice(xs, start, end + |xs|)
  {
  }

  /** Bounds past either end are clamped: an end beyond the array reads to its
      end, a start before `-length` reads from its beginning. */
  lemma SliceClamps<T>(xs: seq<T>, start: int, end: int)
    ensures end > |xs| ==> JsSlice(xs, start, end) == JsSlice(xs, start, |xs|)
    ensures start < -|xs| ==> JsSlice(xs, start, end) == JsSlice(xs, 0, end)
  {
  }

  /** The records shown on page `p`. */
  function PageRecords<T>(records: seq<T>, p: int): seq<T> {
    JsSlice(records, (p - 1) * PageSize, p * PageSize)
  }

  /** Every page, whatever its number (including 0 and negative ones), shows at
      most ten records. */
  lemma PageAtMostTen<T>(records: seq<T>, p: int)
    ensures |PageRecords(records, p)| <= PageSize
  {
    var n := |records|;
    var a, b := SliceBound((p - 1) * PageSize, n), SliceBound(p * PageSize, n);
    assert p * PageSize == (p - 1) * PageSize + 10;
    if p <= 0 {
      assert (p - 1) * PageSize < 0;
    }
  }

  /** Page `p` of `1..totalPages` shows records `(p - 1) * 10` up to `p * 10`,
      the last page possibly fewer. */
  lemma PageContents<T>(records: seq<T>, p: int)
    requires 1 <= p <= TotalPages(|records|)
    ensures var hi := if p * PageSize < |records| then p * PageSize else |records|;
      (p - 1) * PageSize < hi && PageRecords(records, p) == records[(p - 1) * PageSize..hi]
  {
    assert p * PageSize == (p - 1) * PageSize + 10;
    assert (p - 1) * PageSize <= (TotalPages(|records|) - 1) * PageSize by {
      MultiplyMonotone(p - 1, TotalPages(|records|) - 1, PageSize);
    }
  }

  lemma MultiplyMonotone(a: nat, b: nat, c: nat)
    requires a <= b
    ensures a * c <= b * c
  {
    assert b * c == a * c + (b - a) * c;
  }

  /** Pages `1..k` one after another. */
  function PagesUpTo<T>(records: seq<T>, k: nat): seq<T> {
    if k == 0 then [] else PagesUpTo(records, k - 1) + PageRecords(records, k)
  }

  /** Pages `1..k` are exactly the first `k * 10` records. */
  lemma {:induction false} PagesUpToPrefix<T>(records: seq<T>, k: nat)
    requires k <= TotalPages(|records|)
    ensures var hi := if k * PageSize < |records| then k * PageSize else |records|;
      PagesUpTo(records, k) == records[..hi]
  {
    if k > 0 {
      PagesUpToPrefix(records, k - 1);
      PageContents(records, k);
      var lo := (k - 1) * PageSize;
      assert k * PageSize == lo + 10;
      assert lo < |records|;
      var hi := if k * PageSize < |records| then k * PageSize else |records|;
      assert records[..lo] + records[lo..hi] == records[..hi];
    }
  }

  /** Reading all pages in order lists every record once, in order. */
  lemma AllPagesAreTheRecords<T>(records: seq<T>)
    ensures PagesUpTo(records, TotalPages(|records|)) == records
  {
    PagesUpToPrefix(records, TotalPages(|records|));
  }

  /** The records table's page number and its two buttons. */
  class RecordsPager {
    const totalPages: nat
    var currentPage: int

    /** The page counter stays on a page that exists, or on page 0 when there
        are no records and "next" was pressed. */
    ghost predicate Valid()
      reads this
    {
      if totalPages == 0 then currentPage == 0 || currentPage == 1
      else 1 <= currentPage <= totalPages
    }

    /** The table opens on page 1. */
    constructor(recordCount: nat)
      ensures Valid()
      ensures totalPages == TotalPages(recordCount) && currentPage == 1
    {
      totalPages := TotalPages(recordCount);
      currentPage := 1;
    }

    /** "Previous": `setCurrentPage(p => Math.max(1, p - 1))`. */
    method Prev()
      requires Valid()
      modifies this
      ensures Valid()
      ensures currentPage == if old(currentPage) - 1 > 1 then old(currentPage) - 1 else 1
      ensures currentPage >= 1
    {
      currentPage := if currentPage - 1 > 1 then currentPage - 1 else 1;
    }

    /** "Next": `setCurrentPage(p => Math.min(totalPages, p + 1))`. */
    method Next()
      requires Valid()
      modifies this
      ensures Valid()
      ensures currentPage == if totalPages < old(currentPage) + 1 then totalPages else old(currentPage) + 1
      ensures currentPage <= totalPages
    {
      currentPage := if totalPages < currentPage + 1 then totalPages else currentPage + 1;
    }

    /** The button states: "previous" is disabled on page 1, "next" on the last page. */
    predicate PrevEnabled()
      reads this
    {
      currentPage != 1
    }

    predicate NextEnabled()
      reads this
    {
      currentPage != totalPages
    }
  }

  /** With records to show, an enabled button moves exactly one page and the
      clamps never act; with none, "next" is enabled on page 1 and leads to page 0. */
  lemma ButtonsMoveOnePage(totalPages: nat, p: int)
    requires 1 <= p <= totalPages
    ensures p != 1 ==> (if p - 1 > 1 then p - 1 else 1) == p - 1
    ensures p != totalPages ==> (if totalPages < p + 1 then totalPages else p + 1) == p + 1
  {
  }

  /** With no records there are no pages, yet "next" is enabled on page 1 (1 is not
      0) and moves the counter to page 0, which shows nothing. */
  method EmptyTableNext() returns (pager: RecordsPager)
    ensures pager.Valid() && pager.totalPages == 0
    ensures pager.currentPage == 0 && PageRecords<AssessmentRecord>([], pager.currentPage) == []
  {
    pager := new RecordsPager(0);
    assert pager.NextEnabled();
    pager.Next();
  }

  // ---- Level colours ----

  /** The band `getLevelColor` puts a level in: 0 green, 1 yellow, 2 orange, 3 red. */
  function RowBand(level: int): (b: nat)
    ensures b < 4
    ensures b == 0 <==> level <= 2
    ensures b == 1 <==> 3 <= level <= 4
    ensures b == 2 <==> 5 <= level <= 6
    ensures b == 3 <==> level >= 7
  {
    if level <= 2 then 0
    else if level <= 4 then 1
    else if level <= 6 then 2
    else 3
  }

  const RowClasses: seq<string> := [
    "bg-[#2ecc71] text-white", "bg-[#feca57] text-[#2f3542]", "bg-[#ff9f43] text-white", "bg-[#ff4757] text-white"]

  const BarClasses: seq<string> := ["bg-[#2ecc71]", "bg-[#feca57]", "bg-[#ff9f43]", "bg-[#ff4757]"]

  /** `getLevelColor(level)`: the classes of a level badge in the records table. */
  function GetLevelColor(level: int): string {
    RowClasses[RowBand(level)]
  }

  /** The histogram bar's band: the chart's own nested conditional, a second copy
      of `getLevelColor`'s bands in the source; `ColoursAgree` shows the copies agree. */
  function BarBand(level: int): (b: nat)
    ensures b < 4
  {
    if level <= 2 then 0 else if level <= 4 then 1 else if level <= 6 then 2 else 3
  }

  /** The histogram bar's background class. */
  function BarColor(level: int): string {
    BarClasses[BarBand(level)]
  }

  /** The chart and the table colour every level the same: the bar's background
      is the badge's background. */
  lemma ColoursAgree(level: int)
    ensures BarBand(level) == RowBand(level)
    ensures var row, bar := GetLevelColor(level), BarColor(level);
      |bar| <= |row| && row[..|bar|] == bar
  {
    var b := RowBand(level);
    assert RowClasses[b][..|BarClasses[b]|] == BarClasses[b];
  }

  // ---- The level histogram ----

  /** One bar of the histogram: a level and how many records carry it. */
  datatype LevelCount = LevelCount(level: PressureLevel, count: nat)

  /** `records.filter(r => r.level === lv).length`. */
  function CountLevel(records: seq<AssessmentRecord>, lv: int): (c: nat)
    ensures c <= |records|
  {
    if records == [] then 0
    else (if records[0].level == lv then 1 else 0) + CountLevel(records[1..], lv)
  }

  /** `PRESSURE_LEVELS.map(level => ({...level, count}))`. */
  function Distribution(records: seq<AssessmentRecord>): (dist: seq<LevelCount>)
    ensures |dist| == |PressureLevels|
    ensures forall k :: 0 <= k < |dist| ==>
      dist[k].level == PressureLevels[k] && dist[k].count == CountLevel(records, PressureLevels[k].level)
  {
    seq(|PressureLevels|, k requires 0 <= k < |PressureLevels| =>
      LevelCount(PressureLevels[k], CountLevel(records, PressureLevels[k].level)))
  }

  /** The sum of the counts of the bars. */
  function SumCounts(dist: seq<LevelCount>): nat {
    if dist == [] then 0 else dist[0].count + SumCounts(dist[1..])
  }

  /** The records whose level is one of `lvs`. */
  function CountIn(records: seq<AssessmentRecord>, lvs: seq<int>): (c: nat)
    ensures c <= |records|
  {
    if records == [] then 0
    else (if records[0].level in lvs then 1 else 0) + CountIn(records[1..], lvs)
  }

  /** The counts per level of `lvs`, summed. */
  function SumLevelCounts(records: seq<AssessmentRecord>, lvs: seq<int>): nat {
    if lvs == [] then 0 else CountLevel(records, lvs[0]) + SumLevelCounts(records, lvs[1..])
  }

  /** How many entries of `lvs` equal `lv`. */
  function Occurrences(lvs: seq<int>, lv: int): nat {
    if lvs == [] then 0 else (if lvs[0] == lv then 1 else 0) + Occurrences(lvs[1..], lv)
  }

  lemma {:induction false} OccurrencesDistinct(lvs: seq<int>, lv: int)
    requires forall i, j :: 0 <= i < j < |lvs| ==> lvs[i] != lvs[j]
    ensures Occurrences(lvs, lv) == if lv in lvs then 1 else 0
  {
    if lvs != [] {
      OccurrencesDistinct(lvs[1..], lv);
      if lvs[0] == lv {
        assert lv !in lvs[1..];
      }
    }
  }

  /** Summing per-level counts counts each record once per occurrence of its level. */
  lemma {:induction false} SumLevelCountsSplit(records: seq<AssessmentRecord>, lvs: seq<int>)
    requires records != []
    ensures SumLevelCounts(records, lvs) == Occurrences(lvs, records[0].level) + SumLevelCounts(records[1..], lvs)
  {
    if lvs != [] {
      SumLevelCountsSplit(records, lvs[1..]);
    }
  }

  /** For distinct levels, the per-level counts add up to the records whose level
      is among them. */
  lemma {:induction false} SumOfDistinctLevels(records: seq<AssessmentRecord>, lvs: seq<int>)
    requires forall i, j :: 0 <= i < j < |lvs| ==> lvs[i] != lvs[j]
    ensures SumLevelCounts(records, lvs) == CountIn(records, lvs)
  {
    if records == [] {
      ZeroCounts(lvs);
    } else {
      SumLevelCountsSplit(records, lvs);
      OccurrencesDistinct(lvs, records[0].level);
      SumOfDistinctLevels(records[1..], lvs);
    }
  }

  lemma {:induction false} ZeroCounts(lvs: seq<int>)
    ensures SumLevelCounts([], lvs) == 0
  {
    if lvs != [] {
      ZeroCounts(lvs[1..]);
    }
  }

  /** The level numbers of the bars, in order. */
  function BarLevels(dist: seq<LevelCount>): (lvs: seq<int>)
    ensures |lvs| == |dist|
    ensures forall k :: 0 <= k < |dist| ==> lvs[k] == dist[k].level.level
  {
    if dist == [] then [] else [dist[0].level.level] + BarLevels(dist[1..])
  }

  /** Bars that each count their own level add up to the per-level counts. */
  lemma {:induction false} SumCountsOfBars(records: seq<AssessmentRecord>, dist: seq<LevelCount>)
    requires forall k :: 0 <= k < |dist| ==> dist[k].count == CountLevel(records, dist[k].level.level)
    ensures SumCounts(dist) == SumLevelCounts(records, BarLevels(dist))
  {
    if dist != [] {
      SumCountsOfBars(records, dist[1..]);
      assert BarLevels(dist)[1..] == BarLevels(dist[1..]);
    }
  }

  /** The histogram's counts add up to the number of records whose level is one of
      1..8; a record with any other level is in no bar. */
  lemma HistogramTotal(records: seq<AssessmentRecord>)
    ensures SumCounts(Distribution(records)) == CountIn(records, [1, 2, 3, 4, 5, 6, 7, 8])
  {
    var dist := Distribution(records);
    SumCountsOfBars(records, dist);
    PressureLevelTable();
    var lvs := BarLevels(dist);
    assert forall k :: 0 <= k < 8 ==> lvs[k] == k + 1;
    assert lvs == [1, 2, 3, 4, 5, 6, 7, 8];
    SumOfDistinctLevels(records, lvs);
  }

  /** `Math.max(...counts, 1)`. */
  function MaxCount(dist: seq<LevelCount>): (m: nat)
    ensures m >= 1
    ensures forall k :: 0 <= k < |dist| ==> dist[k].count <= m
    ensures m == 1 || exists k :: 0 <= k < |dist| && dist[k].count == m
  {
    if dist == [] then 1
    else
      var rest := MaxCount(dist[1..]);
      if dist[0].count > rest then dist[0].count else rest
  }

  // ---- Mock records ----

  /** A generated record: the level and its tag are looked up from the score. */
  function MockRecord(id: string, totalScore: int, dims: DimensionScores, basic: bool, ai: bool, agent: string): AssessmentRecord {
    var level := LevelFor(totalScore);
    AssessmentRecord(id, totalScore, level.level, level.tag, dims, basic, ai, agent)
  }

  /** A generated score is `Math.floor(Math.random() * 100)`, in [0, 99]: its
      record carries the level whose range contains the score, never the fallback. */
  lemma MockRecordLevel(id: string, totalScore: int, dims: DimensionScores, basic: bool, ai: bool, agent: string)
    requires 0 <= totalScore <= 99
    ensures var r := MockRecord(id, totalScore, dims, basic, ai, agent);
      exists k :: 0 <= k < |PressureLevels| && PressureLevels[k].lo <= totalScore <= PressureLevels[k].hi
        && r.level == k + 1 && r.levelTag == PressureLevels[k].tag
  {
    LevelForScore(totalScore);
  }

  // ---- Conversion ratios ----

  function CountBasic(records: seq<AssessmentRecord>): (c: nat)
    ensures c <= |records|
  {
    if records == [] then 0 else (if records[0].basicPaid then 1 else 0) + CountBasic(records[1..])
  }

  function CountAi(records: seq<AssessmentRecord>): (c: nat)
    ensures c <= |records|
  {
    if records == [] then 0 else (if records[0].aiPaid then 1 else 0) + CountAi(records[1..])
  }

  /** Percentage of records with the basic report bought; 0 for no records. */
  function BasicConversion(records: seq<AssessmentRecord>): (pct: nat)
    ensures |records| == 0 ==> pct == 0
    ensures pct <= 100
    ensures |records| > 0 ==> 2 * |records| * pct <= 200 * CountBasic(records) + |records| < 2 * |records| * pct + 2 * |records|
  {
    if |records| > 0 then
      RoundDivAtMost(100 * CountBasic(records), |records|, 100);
      RoundDiv(100 * CountBasic(records), |records|)
    else 0
  }

  /** AI purchases per basic purchase, in percent; 0 when nobody bought the basic
      report. */
  function AiFollowOn(records: seq<AssessmentRecord>): (pct: nat)
    ensures CountBasic(records) == 0 ==> pct == 0
    ensures CountBasic(records) > 0 ==>
      var b := CountBasic(records);
      2 * b * pct <= 200 * CountAi(records) + b < 2 * b * pct + 2 * b
  {
    if CountBasic(records) > 0 then RoundDiv(100 * CountAi(records), CountBasic(records)) else 0
  }

  /** The two purchases are independent flags, so the follow-on rate is not a
      share: one basic and two AI purchases give 200. */
  lemma FollowOnCanExceedHundred(r1: AssessmentRecord, r2: AssessmentRecord)
    requires r1.basicPaid && r1.aiPaid && !r2.basicPaid && r2.aiPaid
    ensures AiFollowOn([r1, r2]) == 200
  {
    assert [r1, r2][1..] == [r2];
    assert CountBasic([r1, r2]) == 1 && CountAi([r1, r2]) == 2;
  }
}
