# Spring Festival pressure test: a verified model of its core

The app is a 25-question quiz, "how besieged will you be by relatives this Spring
Festival". This project models the parts of it that compute or keep state:

- **Scoring** (`calculateResult`). Each answer selects a weight from its question's
  option table. The weights are summed per dimension (External, Internal, Defense)
  and counted. Each dimension is rounded to a percentage. The total is rounded from
  those *already rounded* percentages with weights 0.4 / 0.3 / 0.3. The total is
  then looked up in the eight pressure levels, falling back to the first level.
- **The data tables** (`QUESTIONS` and `PRESSURE_LEVELS`): the 25 questions and the
  8 level ranges, with their layout proved.
- **The quiz stepper** (`QuizView`): the question on screen, the sparse answers
  array, and the 150 ms auto-advance timers.
- **The page flow** (`App`): landing → quiz → calculating → basic payment → result
  → AI payment → full report, with the back and `resetAll` edges and the report
  stream's callbacks.
- **The full-report section splitter**: `report.split(/\[(.*?)\]/)`, dropping blank
  pieces, then pairing the pieces as title and content.
- **The admin dashboard's arithmetic**:
  - pagination and the two clamping buttons;
  - the per-level histogram and its colour bands;
  - the level lookup of the mock records;
  - the two conversion ratios.
- **The AI endpoint** (`api/ai.ts`):
  - the in-memory task cache and its lifecycle (init → streamed writes →
    finished or failed → five-minute expiry);
  - the handler's routing and status codes;
  - the extraction of `data: ` lines from the upstream event stream.

Numbers are exact:
- weights are integer tenths (1.0 = 10, 0.6 = 6, 0.3 = 3, 0.0 = 0);
- `Math.round` of a non-negative quotient is `JsMath.RoundDiv`, the nearest
  integer with halves rounded up;
- `Math.ceil` is `JsMath.CeilDiv`.

Timers and asynchronous callbacks are explicit methods that the environment calls:
- `QuizView.FireAdvance`, `App.CalculatingElapsed`, `App.ReportGenerated`,
  `App.StreamFinished`;
- `AiServer.GenerateAIContent`, `AiServer.Expire`.

Upstream calls become parameters:
- the upstream stream's chunks and their outcome (`Upstream`, `Reply`);
- `JSON.parse(data).choices[0].delta.content`, a function `deltaOf` from a
  payload to its text, where "" stands for anything falsy or a parse error;
- the generated task id.

Behaviours of the code that the model proves:
- Scoring rejects nothing. A missing answer or an unknown label finds no option
  and adds no weight, yet its question is still counted
  (`Scoring.UnknownAnswerCountsAsZero`).
- Rounding twice changes levels. A sheet whose dimensions round to 26, 4 and 4
  totals 13 (level 2). The unrounded ratios would give 12 (level 1)
  (`Scoring.TwoStageRoundingMatters`).
- `init` and the streaming route test `!totalScore`, so a genuine result of 0 (the
  all-D sheet) is refused with 400 (`AiTasks.ZeroScoreRejected`).
- `[DONE]` ends only the lines of its own chunk. The next chunk is still read
  (`AiTasks.DoneEndsOnlyItsChunk`).
- A `data:` line cut by a chunk boundary is not rejoined (`AiTasks.SplitLineIsLost`).
- A blank `[]` title in a report shifts every later piece from content to title
  (`ReportSections.BlankTitleShiftsPairs`).
- A report stream that outlives `resetAll` writes the old report back
  (`PageFlow.StaleReportAfterReset`).
- With no records, "next" is enabled on page 1 and leads to page 0
  (`Admin.EmptyTableNext`).
- The AI follow-on rate can exceed 100 % (`Admin.FollowOnCanExceedHundred`).

## Model

| member | source | states |
|---|---|---|
| JsMath.RoundDiv | App.tsx:386-392 | the result r is the integer nearest n/d with halves up: 2dr <= 2n + d < 2dr + 2d |
| JsMath.CeilDiv | Admin.tsx:169 | the least t with t * d >= n |
| JsMath.RoundDivMonotone | App.tsx:386-392 | a smaller quotient never rounds to a larger integer |
| JsMath.RoundDivAtMost | App.tsx:386-390 | a quotient of at most k rounds to at most k |
| JsMath.RoundDivExact | App.tsx:386-390 | an exact quotient rounds to itself |
| QuizData.QuestionIds | constants.ts:4-160 | there are exactly 25 questions, with ids 1..25 in order |
| QuizData.QuestionDimensions | constants.ts:4-160 | questions 1-9 are External, 10-17 Internal and 18-25 Defense |
| QuizData.QuestionOptions | constants.ts:4-160 | every question has four options labelled A, B, C, D in order; the weights are a permutation of {1.0, 0.6, 0.3, 0.0}, with A = 1.0 and D = 0.0 |
| QuizData.Question18SwapsBAndC | constants.ts:112-117 | a question has the standard weights A 1.0, B 0.6, C 0.3, D 0.0 exactly when it is not question 18; question 18 has B 0.3 and C 0.6 |
| QuizData.OptionsAt | constants.ts:4-160 | the options of each position, standard or question 18's |
| QuizData.PressureLevelTable | constants.ts:162-171 | eight levels numbered 1..8 in order, each with three keywords; the ranges start at 0, each starts one after the previous ends, and the last ends at 100 |
| QuizData.LevelWithinBounds | constants.ts:162-171 | every level's range lies within [0, 100] |
| Scoring.FindOption | App.tsx:381 | a found option is in the list and carries the answer's label; no option is found exactly when none carries it |
| Scoring.DimCountPrefix | App.tsx:380-384 | on a table laid out 9 / 8 / 8, the first n questions count min(n, 9) External, then Internal, then Defense |
| Scoring.DimCounts | App.tsx:380-384 | the counts the loop reaches are 9, 8 and 8 |
| Scoring.WeightsAtMostTen | constants.ts:4-160 | every option weight is at most 1.0 |
| Scoring.QuestionWeightsBounded | App.tsx:381-382 | whatever the answer, a question adds at most 1.0 |
| Scoring.DimSumAtMost | App.tsx:380-384 | a dimension's weight sum is at most 1.0 per question counted |
| Scoring.DimensionScore | App.tsx:386-390 | each dimension score is an integer in [0, 100] |
| Scoring.TotalScore | App.tsx:392 | the total is the integer nearest 0.4 e + 0.3 i + 0.3 d of the rounded dimension scores, halves up, and lies in [0, 100] |
| Scoring.FindLevel | App.tsx:393 | a found level is in the table and its inclusive range holds the score; nothing is found only when no range holds it |
| Scoring.Score | App.tsx:376-396 | the result carries the answers unchanged and a total in [0, 100] |
| Scoring.CalculateResult | App.tsx:376-396 | the `forEach` accumulation into the two maps, the rounding and the lookup produce exactly `Score(finalAnswers)` |
| Scoring.Accumulate | App.tsx:380-384 | the `forEach` leaves, for every dimension, the sum of the weighted option scores and the number of questions of that dimension |
| Scoring.ContiguousOrdered | constants.ts:162-171 | in contiguous levels every range ends before any later one starts |
| Scoring.ContiguousCover | constants.ts:162-171 | contiguous levels cover every score from the first lower bound to the last upper bound |
| Scoring.FindLevelContiguous | App.tsx:393 | on contiguous levels the lookup returns the level whose range holds the score |
| Scoring.LevelForScore | App.tsx:393 | every score in [0, 100] is in exactly one range; the lookup finds that level, numbered by its position + 1, and never falls back |
| Scoring.LevelAt | App.tsx:393 | a score in level k + 1's range gets level k + 1 |
| Scoring.LevelFallback | App.tsx:393 | the fallback to the first level is taken exactly for scores outside [0, 100] |
| Scoring.BoundaryLevels | constants.ts:163-170 | 0 and 12 are level 1, 13 is level 2, 90 is level 7, 91 and 100 are level 8 |
| Scoring.ScoreWellFormed | App.tsx:386-395 | dimension scores and total are in [0, 100]; the level is from the table and its range holds the total; the answers pass through unchanged |
| Scoring.DimSumPointwise | App.tsx:380-384 | answers of no lower weight in a dimension give a sum no lower |
| Scoring.DimensionScoreMonotone | App.tsx:386-390 | a dimension score follows its weight sum |
| Scoring.TotalMonotone | App.tsx:392 | the total follows the dimension scores |
| Scoring.RaisingOneAnswer | App.tsx:380-392 | raising one answer's weight never lowers any dimension score or the total, and leaves the other dimensions unchanged |
| Scoring.DimSumSameWeights | App.tsx:380-384 | answers selecting the same weights give the same sums |
| Scoring.UnknownAnswerCountsAsZero | App.tsx:381-383 | an answer matching no option adds 0, yet the question is counted: the scores equal those of answering D |
| Scoring.DimSumAllFull | App.tsx:380-384 | with every weight 1.0, a dimension sums to its count |
| Scoring.DimSumAllZero | App.tsx:380-384 | with every weight 0, a dimension sums to 0 |
| Scoring.AllHighestDimensions | App.tsx:386-390 | all A's give 100 in every dimension |
| Scoring.AllHighestAnswers | App.tsx:376-396 | all A's give a total of 100 and level 8, "春节逃离计划" |
| Scoring.AllLowestDimensions | App.tsx:386-390 | all D's give 0 in every dimension |
| Scoring.AllLowestAnswers | App.tsx:376-396 | all D's give a total of 0 and level 1 |
| Scoring.DimSumChangeOne | App.tsx:380-384 | changing one answer changes a dimension sum by exactly the change in that answer's own contribution |
| Scoring.FindInOptions | App.tsx:381 | in a four-option list, each letter finds its own option |
| Scoring.LetterWeights | constants.ts:4-160 | the weight each letter selects on each question: A 1.0, D 0.0, and B/C 0.6/0.3, swapped on question 18 |
| Scoring.ReplaceD | App.tsx:380-384 | replacing a D by x adds x's weight to its question's dimension |
| Scoring.AllDSums | App.tsx:380-384 | the all-D sheet sums to 0 in every dimension |
| Scoring.TwoStageWitnessExternal | App.tsx:380-384 | the witness's first three answers give an External sum of 2.3 |
| Scoring.TwoStageWitnessSums | App.tsx:380-384 | the witness's dimension sums are 2.3, 0.3 and 0.3 |
| Scoring.TwoStageWitnessAA | App.tsx:380-384 | answering A on the first two questions and D elsewhere gives an External sum of 2.0 and nothing in the other dimensions |
| Scoring.TwoStageDimensions | App.tsx:386-390 | the witness's dimension scores are 26, 4 and 4 |
| Scoring.TwoStageSingleStage | App.tsx:386-393 | rounding only the exact weighted ratio of the witness gives a total of 12 |
| Scoring.TwoStageRoundingMatters | App.tsx:386-393 | on the witness, rounding the dimensions first gives a total of 13 (level 2); rounding only the exact weighted ratio gives 12 (level 1) |
| QuizStepper.Store | App.tsx:348-350 | the copy has `letter` at i, grows to i + 1 with holes when i is past the end, and agrees with the old array elsewhere |
| QuizStepper.StoreKeepsAnswered | App.tsx:348-350 | storing a non-empty answer keeps every answered question answered, and extends an answered prefix ending at i |
| QuizStepper.StoreKeepsOptions | App.tsx:348-350 | storing an option of question i keeps every stored answer an option of its question |
| QuizStepper.Values | App.tsx:364-365 | a fully answered sheet as the plain strings passed to scoring, slot for slot |
| QuizStepper.QuizView.constructor | App.tsx:344-345 | the quiz opens on question 0 with no answers and no timers |
| QuizStepper.QuizView.HandleAnswer | App.tsx:347-358 | the answer is stored at the current index, the index is unchanged, and an advance to index + 1 is scheduled except on the last question; stored answers stay options, and every question before the index or a scheduled target stays answered |
| QuizStepper.AnswerKeepsInvariant | App.tsx:347-358 | storing an option at the current index and scheduling the advance past it keeps the index in range, stored answers options, and every question below the index or a scheduled target answered |
| QuizStepper.QuizView.FireAdvance | App.tsx:353-356 | a timer sets the index it captured, whatever the index is by then; the index stays in [0, 24] |
| QuizStepper.QuizView.HandleNext | App.tsx:360-367 | it moves on exactly when the current question is answered and not the last; it completes exactly on the answered last question; a completed sheet has 25 answers and its result is `Score` of them |
| QuizStepper.QuizView.HandlePrev | App.tsx:369-374 | the index steps back by one and stays at 0 on the first question |
| QuizStepper.OptionLabels | constants.ts:4-160 | the option buttons' labels A, B, C, D are exactly the labels of each question's options |
| QuizStepper.CompletedSheetMatchesOptions | App.tsx:381 | on a sheet the stepper completes, every answer finds its option |
| PageFlow.App.constructor | App.tsx:649-651 | the app opens on the landing page with no result and no report |
| PageFlow.App.Start | App.tsx:664 | landing → quiz, nothing else changes |
| PageFlow.App.QuizCompleted | App.tsx:665-669 | the result is stored, the page is "calculating", and the 1500 ms timer is pending |
| PageFlow.App.CalculatingElapsed | App.tsx:668 | the timer moves "calculating" → basic payment |
| PageFlow.App.PaidBasic | App.tsx:671-677 | basic payment → result |
| PageFlow.App.GenerateAI | App.tsx:682 | result → AI payment |
| PageFlow.App.PaidAI | App.tsx:545-555 | AI payment → full report (line 690); the page's effect starts a report stream exactly when no report text is stored |
| PageFlow.App.Back | App.tsx:691-700 | AI payment or full report → result |
| PageFlow.App.ReportGenerated | App.tsx:699 | the stream's callback sets the report text on whatever page is showing |
| PageFlow.App.StreamFinished | App.tsx:551-553 | a running stream ends, nothing else changes |
| PageFlow.App.ResetAll | App.tsx:653-658 | back to landing with the result and the report cleared; running streams keep running |
| PageFlow.App.ResultShownWhenNeeded | App.tsx:679-695 | on the result and full-report pages a scored result is always present |
| PageFlow.StaleReportAfterReset | App.tsx:545-555 | a stream from before `resetAll` can leave the old report on the next full-report page, which then starts no stream of its own |
| ReportSections.ScanClose | App.tsx:557 | the lazy `.*?]` stops at the first `]` with no line terminator before it, or fails |
| ReportSections.MatchAt | App.tsx:557 | a match starting at p closes after p |
| ReportSections.FindMatch | App.tsx:557 | the leftmost match at or after p, with no match starting before it |
| ReportSections.Split | App.tsx:557 | the split has an odd number of pieces: texts with captured titles in between |
| ReportSections.SplitJoin | App.tsx:557 | joining the pieces with brackets restored gives the report back |
| ReportSections.SplitTitles | App.tsx:557 | no captured title holds `]` or a line terminator |
| ReportSections.NonBlank | App.tsx:557 | a piece is kept if and only if it is a piece of the split that is not blank after `trim` |
| ReportSections.NonBlankAppend | App.tsx:557 | the filter distributes over concatenation, so kept pieces stay in their order |
| ReportSections.Pair | App.tsx:559-562 | pairing n pieces gives (n + 1) / 2 sections |
| ReportSections.PairAt | App.tsx:559-562 | section j is titled by piece 2j and holds piece 2j + 1, or `undefined` past the end |
| ReportSections.UnpairPair | App.tsx:559-562 | pairing loses no piece |
| ReportSections.PairDrop | App.tsx:559-562 | one step of the pairing loop |
| ReportSections.PairPieces | App.tsx:559-562 | the `for` loop with `push` builds exactly `Pair(sections)` |
| ReportSections.FormatSections | App.tsx:557-565 | the sections shown: the pairs when there are at least two pieces, else the placeholder section holding a non-empty report, else none |
| ReportSections.ScanCloseFinds | App.tsx:557 | the scan finds the first `]` when no line terminator comes before it |
| ReportSections.FindMatchBlock | App.tsx:557 | in `c[t]…`, with no `[` in c and no `]` or line break in t, the leftmost match is the one around t |
| ReportSections.SplitBlock | App.tsx:557 | splitting `c[t]after` gives c, t, then the pieces of after |
| ReportSections.SplitPlain | App.tsx:557 | text without `[` splits into itself |
| ReportSections.SplitRendered | App.tsx:557 | text before rendered well-formed sections splits into that text, then each title and content |
| ReportSections.NonBlankKeeps | App.tsx:557 | non-blank pieces are all kept |
| ReportSections.PairUnpair | App.tsx:559-562 | sections that all hold content are recovered by pairing their pieces |
| ReportSections.UnpairPieces | App.tsx:557 | well-formed sections give twice as many pieces, none blank, so the filter keeps them all |
| ReportSections.UnpairWellFormed | App.tsx:559-562 | well-formed sections unpair into twice as many non-blank pieces, which pair back into the same sections |
| ReportSections.RenderedSections | App.tsx:557-565 | a report written as well-formed `[title]content` blocks is shown as exactly those sections |
| ReportSections.RenderedPieces | App.tsx:557 | splitting a rendered report and dropping blank pieces leaves exactly each section's title and content in turn |
| ReportSections.BlankTitleSplit | App.tsx:557 | `[t]x[]y` splits into "", t, x, "", y |
| ReportSections.SplitOpening | App.tsx:557 | a text opening with `[t]` splits into "", t, then the rest's pieces |
| ReportSections.SplitEmptyBrackets | App.tsx:557 | `x[]after` splits into x, "", then after's pieces |
| ReportSections.BlankTitleFilter | App.tsx:557 | the filter drops the two blank pieces of that split |
| ReportSections.BlankTitleShiftsPairs | App.tsx:557-565 | `[t]x[]y` shows sections (t, x) and (y, `undefined`): the content y becomes a title |
| Admin.TotalPages | Admin.tsx:169 | the page count is the least t with 10t >= n, and 0 exactly when there are no records |
| Admin.JsSlice | Admin.tsx:170 | for bounds within [0, length], `slice(start, end)` is exactly the records from start up to end; it is empty when end does not come after start, and never longer than the array |
| Admin.SliceNegativeStart | Admin.tsx:170 | a start in [-length, 0) reads as start + length |
| Admin.SliceNegativeEnd | Admin.tsx:170 | an end in [-length, 0) reads as end + length |
| Admin.SliceClamps | Admin.tsx:170 | an end past the array reads to its end; a start before -length reads from its beginning |
| Admin.PageAtMostTen | Admin.tsx:170 | every page number, including 0 and negatives, shows at most ten records |
| Admin.PageContents | Admin.tsx:168-170 | page p in 1..totalPages shows records (p - 1) * 10 up to min(10p, n) |
| Admin.PagesUpToPrefix | Admin.tsx:169-170 | pages 1..k, read in order, are the first min(10k, n) records |
| Admin.AllPagesAreTheRecords | Admin.tsx:169-170 | pages 1..totalPages, read in order, are exactly the records |
| Admin.RecordsPager.constructor | Admin.tsx:167-169 | the table opens on page 1 of ceil(n / 10) |
| Admin.RecordsPager.Prev | Admin.tsx:256 | the page becomes max(1, p - 1) and is never below 1 |
| Admin.RecordsPager.Next | Admin.tsx:266 | the page becomes min(totalPages, p + 1) and is never above totalPages |
| Admin.ButtonsMoveOnePage | Admin.tsx:255-268 | on a page in 1..totalPages, "previous" away from page 1 moves to p - 1 and "next" away from the last page moves to p + 1 |
| Admin.EmptyTableNext | Admin.tsx:265-268 | with no records, "next" is enabled on page 1 and moves to page 0, which shows nothing |
| Admin.RowBand | Admin.tsx:172-177 | levels ≤ 2, 3-4, 5-6 and ≥ 7 fall in bands 0-3, each level in exactly one band |
| Admin.ColoursAgree | Admin.tsx:108-111 | `BarBand`, the chart's nested ternary, equals `RowBand`, the band of `getLevelColor` (Admin.tsx:172-177), for every level; the bar's class is the badge's background class |
| Admin.CountLevel | Admin.tsx:85 | a level's count is at most the number of records |
| Admin.Distribution | Admin.tsx:83-86 | one bar per level in table order, each with the count of records at that level |
| Admin.SumCountsOfBars | Admin.tsx:83-86 | bars that count their own levels add up to the per-level counts |
| Admin.SumOfDistinctLevels | Admin.tsx:83-86 | for distinct levels, the per-level counts add up to the records whose level is one of them |
| Admin.HistogramTotal | Admin.tsx:83-86 | the histogram's counts add up to the records whose level is 1..8 |
| Admin.MaxCount | Admin.tsx:88 | the maximum is at least 1, at least every count, and either 1 or one of the counts |
| Admin.MockRecordLevel | Admin.tsx:36-37 | a generated score in [0, 99] gets the level and tag of the range that holds it, never the fallback |
| Admin.CountBasic | Admin.tsx:280 | basic purchases are at most the records |
| Admin.CountAi | Admin.tsx:281 | AI purchases are at most the records |
| Admin.BasicConversion | Admin.tsx:311 | 0 with no records; otherwise the basic share rounded to a percentage in [0, 100] |
| Admin.AiFollowOn | Admin.tsx:317 | 0 when nobody bought the basic report; otherwise AI purchases per basic purchase, rounded to a percentage |
| Admin.FollowOnCanExceedHundred | Admin.tsx:317 | one basic and two AI purchases give 200 |
| AiTasks.SplitLines | api/ai.ts:82 | at least one line, and no line holds `\n` |
| AiTasks.SplitLinesJoin | api/ai.ts:82 | the lines joined with `\n` are the chunk |
| AiTasks.SplitLinesPrefix | api/ai.ts:82 | text without a line break in front of a chunk joins the chunk's first line |
| AiTasks.JoinLinesSplit | api/ai.ts:82 | lines without `\n`, joined and split again, are the same lines |
| AiTasks.DataPayload | api/ai.ts:85-86 | a payload exactly for lines starting with `data: `, and the line is the prefix plus the payload |
| AiTasks.DataPayloadOfDataLine | api/ai.ts:85-86 | every `data: ` line yields its payload |
| AiTasks.ChunkDeltas | api/ai.ts:84-102 | the texts a chunk appends are all non-empty |
| AiTasks.StreamDeltas | api/ai.ts:77-103 | the texts of a whole stream are all non-empty |
| AiTasks.OneLine | api/ai.ts:82 | a chunk without a line break is one line |
| AiTasks.TwoChunks | api/ai.ts:77-103 | two chunks append their texts in order |
| AiTasks.OneDataLine | api/ai.ts:84-97 | a chunk holding one `data:` line that is not `[DONE]` appends that line's text if it is non-empty |
| AiTasks.DoneEndsOnlyItsChunk | api/ai.ts:87-89 | a `data:` line after `[DONE]` in the same chunk is dropped; one in the next chunk is still appended |
| AiTasks.SplitLineIsLost | api/ai.ts:81-86 | a `data:` line cut by a chunk boundary is read as two separate lines, and its second half is skipped |
| AiTasks.ConcatSnoc | api/ai.ts:94 | appending one text extends the running total by that text |
| AiTasks.ConcatPrefix | api/ai.ts:94 | an earlier running total is a prefix of a later one, and strictly shorter when the later one ends with a non-empty text |
| AiTasks.OrDefault | api/ai.ts:115 | `message \|\| fallback` is one of the two and is non-empty when the fallback is |
| AiTasks.ProgressSnoc | api/ai.ts:93-96 | one more text adds one more unfinished write holding the new total |
| AiTasks.ProgressGrows | api/ai.ts:93-96 | the streamed writes' texts grow strictly |
| AiTasks.ProgressBelowTotal | api/ai.ts:94-106 | every streamed text is a prefix of the final text |
| AiTasks.GenerationLifecycle | api/ai.ts:42-117 | the writes before the last are unfinished and error-free, each extending the previous; the last is finished; it has no error exactly when the stream was read to its end, then holding the whole text, and otherwise it has no text and a non-empty error |
| AiTasks.PollResponse | api/ai.ts:157-181 | 400 exactly for a missing or non-string id; 404 exactly for an unknown id; 500 exactly for a task with an error; otherwise 200 with the task's content and `finished` |
| AiTasks.AnalyzeResponse | api/ai.ts:184-220 | 400 exactly without a truthy score; 200 exactly when the upstream reply came, carrying its report |
| AiTasks.TextsAppend | api/ai.ts:294-311 | the texts of two event lists, one after the other |
| AiTasks.ChunkEventsTexts | api/ai.ts:294-311 | the events relayed for a chunk carry exactly the texts a polled task appends for it |
| AiTasks.StreamEventsTexts | api/ai.ts:287-312 | the streaming route relays exactly the texts a polled task accumulates from the same chunks |
| AiTasks.LineStep | api/ai.ts:84-102 | one line of the inner loop: `[DONE]` completes the chunk's texts, and any other line adds its text, if any, to those already read |
| AiTasks.RelayStream | api/ai.ts:287-312 | the streaming route's `while` loop sends exactly `StreamEvents(chunks)` |
| AiTasks.RelayChunk | api/ai.ts:294-311 | the inner `for` sends each text and `[DONE]`, and stops after `[DONE]` |
| AiTasks.AiServer.constructor | api/ai.ts:11 | the cache starts empty, with no expiry timers |
| AiTasks.AiServer.Handle | api/ai.ts:119-324 | OPTIONS gives 200 before any check; with no API key every other request gives 500; `init` with a truthy score stores a fresh task and returns its id, and otherwise gives 400; `poll` answers as `PollResponse`; `analyze` as `AnalyzeResponse`; any other POST as `StreamResponse`, including 500 for a stream that fails before its first event; anything else gives 400; only a successful `init` changes the cache |
| AiTasks.AiServer.GenerateAIContent | api/ai.ts:42-117 | the cache writes are exactly `GenerationWrites`; the cache entry ends holding the last one; the deletion timer starts only after a stream read to its end |
| AiTasks.AiServer.ReadStream | api/ai.ts:77-103 | the outer loop ends with the whole text and one unfinished write per text, the cache holding the last |
| AiTasks.AiServer.ReadChunk | api/ai.ts:84-102 | the inner loop appends exactly the chunk's texts and writes each running total |
| AiTasks.AiServer.AppendText | api/ai.ts:93-97 | `fullContent += content` and the unfinished entry with the new total is written |
| AiTasks.AiServer.Set | api/ai.ts:96 | `taskCache.set` replaces exactly one entry |
| AiTasks.AiServer.Expire | api/ai.ts:109-111 | the oldest timer deletes its task and nothing else |
| AiTasks.StreamResponse | api/ai.ts:223-322 | 400 exactly for a body whose result has no truthy score; 200 exactly when the upstream stream opened and either was read to its end or had written an event before failing; on 200 the relayed texts are exactly the stream's texts, and the stream is ended exactly when the read did not fail |
| AiTasks.EarlyFailureIs500 | api/ai.ts:253-322 | a reader that throws before any event is written is answered 500 with the error's message, since setting headers sends nothing |
| AiTasks.ZeroScoreRejected | api/ai.ts:140-142 | the all-D sheet scores 0, which `init` refuses as missing |
| AiTasks.PollAfterExpiry | api/ai.ts:164-168 | once a finished task's deletion timer fires, polling it gives 404 |

## Left out

- PDF export, the payment gate and payment service, and the AI client services: canvas
  rendering, network calls, local storage and bridge callbacks hold no logic to state.
- HTTP headers, CORS, `res.write` framing and `console` output are not modelled. The
  streaming route's output is the list of events it writes.
- `JSON.parse(data).choices?.[0]?.delta?.content` is the function `deltaOf`. A parse
  error and a falsy or non-string content are both "". Non-string truthy contents
  (concatenated by `+=` in the source) are not modelled.
- `TextDecoder` is not modelled: chunks are already text. A multi-byte character cut
  by a chunk boundary is not modelled.
- Concurrency is not modelled. `init` returns before its generation runs; the model
  runs `GenerateAIContent` as a separate call, so polls cannot interleave with the
  writes of one generation.
- A streaming read that fails after its first event is written: the headers are
  already sent, and what Node.js then does with the `catch`'s `res.status(500)` is
  not modelled. The model answers 200 with the events written so far, flagged as not
  ended.
- The streaming route's prompt reads `result.level.level` and
  `result.dimensionScores.EXTERNAL`. A body missing those throws a TypeError that the
  handler turns into a 500. The model keeps only the truthiness of `totalScore`.
- `totalScore` values that are not numbers (strings, NaN) are not modelled: a score
  is an optional integer.
- `generateTaskId`, `Math.random` and `Date`: the task id is a parameter. Two tasks
  with the same id overwrite each other as in the source; the id's format is not
  modelled.
- `buildPrompt` and the prompt texts, the question and option display texts, the
  display-only `100 - DEFENSE` inversion, and the `index.tsx` route switch.
- Scoring.DimensionScore: exact rational rounding, not binary floating point. At a
  .5 tie `Math.round` on a float can differ: one 0.6 answer among 8 questions is
  exactly 7.5.
- Scoring.TotalScore: exact in tenths; `e * 0.4 + i * 0.3 + d * 0.3` in floating
  point can land just below a .5 tie.
- Admin.BasicConversion: the ratio is computed exactly rather than in floating point.
- Admin.AiFollowOn: the ratio is computed exactly rather than in floating point.
- Revenue (`count * 0.99`, `toFixed`), the average score, the dimension analysis and
  the browser-share ratio of the dashboard are floating-point display values.
- Mock data generation: the loop, the random scores, dates and ids. Only the level
  lookup of one record is modelled (`Admin.MockRecordLevel`).
- QuizStepper.QuizView.FireAdvance: the timers fire in the order they were set. The
  150 ms delay and the scroll calls are not modelled.
- PageFlow.App.CalculatingElapsed: the 1500 ms delay itself is not modelled, only
  the transition.
- Rendering guards other than `step === … && result` (for example the streaming
  indicator) are display only.
