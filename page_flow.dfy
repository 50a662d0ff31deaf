/** The page flow of the app (`App`): which page is shown, the quiz result once
    there is one, and the AI report text; the 1500 ms "calculating" delay and the
    report stream's callbacks are explicit events. */
module PageFlow {

  import opened Wrappers
  import opened QuizData
  import opened Scoring

  datatype Step = Landing | Quiz | Calculating | PayBasic | Result | PayAI | FullReport

  /** The pages that show no result yet. */
  predicate BeforeResult(s: Step) {
    s == Landing || s == Quiz
  }

  /** A result as the quiz page produces it: 25 answers and their score. */
  predicate IsScored(r: QuizResult) {
    |r.answers| == QuestionCount && r == Score(r.answers)
  }

  class App {
    var step: Step
    var result: Option<QuizResult>
    var aiReport: string
    /** The 1500 ms timer that leaves the calculating page has been started and
        has not fired. */
    var payBasicTimerPending: bool
    /** Report streams started by the full-report page and not yet finished. */
    var activeStreams: nat

    ghost predicate Valid()
      reads this
    {
      && (result.None? <==> BeforeResult(step))
      && (result.Some? ==> IsScored(result.value))
      && (payBasicTimerPending <==> step == Calculating)
    }

    /** The app opens on the landing page with nothing stored. */
    constructor()
      ensures Valid()
      ensures step == Landing && result == None && aiReport == ""
      ensures !payBasicTimerPending && activeStreams == 0
    {
      step := Landing;
      result := None;
      aiReport := "";
      payBasicTimerPending := false;
      activeStreams := 0;
    }

    /** The landing page's start button. */
    method Start()
      requires Valid() && step == Landing
      modifies this
      ensures Valid()
      ensures step == Quiz
      ensures result == old(result) && aiReport == old(aiReport)
      ensures payBasicTimerPending == old(payBasicTimerPending) && activeStreams == old(activeStreams)
    {
      step := Quiz;
    }

    /** The quiz page's `onComplete`: store the result, show the calculating page
        and start the timer to the basic payment page. */
    method QuizCompleted(res: QuizResult)
      requires Valid() && step == Quiz && IsScored(res)
      modifies this
      ensures Valid()
      ensures step == Calculating && result == Some(res) && payBasicTimerPending
      ensures aiReport == old(aiReport) && activeStreams == old(activeStreams)
    {
      result := Some(res);
      step := Calculating;
      payBasicTimerPending := true;
    }

    /** The 1500 ms timer fires. */
    method CalculatingElapsed()
      requires Valid() && payBasicTimerPending
      modifies this
      ensures Valid()
      ensures step == PayBasic && !payBasicTimerPending
      ensures result == old(result) && aiReport == old(aiReport) && activeStreams == old(activeStreams)
    {
      step := PayBasic;
      payBasicTimerPending := false;
    }

    /** The basic payment page's `onPay`. */
    method PaidBasic()
      requires Valid() && step == PayBasic
      modifies this
      ensures Valid()
      ensures step == Result
      ensures result == old(result) && aiReport == old(aiReport)
      ensures payBasicTimerPending == old(payBasicTimerPending) && activeStreams == old(activeStreams)
    {
      step := Result;
    }

    /** The result page's `onGenerateAI`. */
    method GenerateAI()
      requires Valid() && step == Result
      modifies this
      ensures Valid()
      ensures step == PayAI
      ensures result == old(result) && aiReport == old(aiReport)
      ensures payBasicTimerPending == old(payBasicTimerPending) && activeStreams == old(activeStreams)
    {
      step := PayAI;
    }

    /** The AI payment page's `onPay`: the full-report page opens and, when no
        report text is stored, starts a report stream. */
    method PaidAI()
      requires Valid() && step == PayAI
      modifies this
      ensures Valid()
      ensures step == FullReport
      ensures result == old(result) && aiReport == old(aiReport)
      ensures payBasicTimerPending == old(payBasicTimerPending)
      ensures activeStreams == old(activeStreams) + if old(aiReport) == "" then 1 else 0
    {
      step := FullReport;
      if aiReport == "" {
        activeStreams := activeStreams + 1;
      }
    }

    /** `onBack` of the AI payment page and of the full-report page. */
    method Back()
      requires Valid() && (step == PayAI || step == FullReport)
      modifies this
      ensures Valid()
      ensures step == Result
      ensures result == old(result) && aiReport == old(aiReport)
      ensures payBasicTimerPending == old(payBasicTimerPending) && activeStreams == old(activeStreams)
    {
      step := Result;
    }

    /** A running stream calls `onReportGenerated(text)`. The callback outlives the
        full-report page, so it lands on whatever page is showing. */
    method ReportGenerated(text: string)
      requires Valid() && activeStreams > 0
      modifies this
      ensures Valid()
      ensures aiReport == text
      ensures step == old(step) && result == old(result)
      ensures payBasicTimerPending == old(payBasicTimerPending) && activeStreams == old(activeStreams)
    {
      aiReport := text;
    }

    /** A running stream finishes. */
    method StreamFinished()
      requires Valid() && activeStreams > 0
      modifies this
      ensures Valid()
      ensures activeStreams == old(activeStreams) - 1
      ensures step == old(step) && result == old(result) && aiReport == old(aiReport)
      ensures payBasicTimerPending == old(payBasicTimerPending)
    {
      activeStreams := activeStreams - 1;
    }

    /** `resetAll` (the result page's `onReset`): back to landing with the result
        and the AI report cleared. Streams already running keep running. */
    method ResetAll()
      requires Valid() && step == Result
      modifies this
      ensures Valid()
      ensures step == Landing && result == None && aiReport == ""
      ensures payBasicTimerPending == old(payBasicTimerPending) && activeStreams == old(activeStreams)
    {
      step := Landing;
      result := None;
      aiReport := "";
    }

    /** The result and full-report pages render only `step === ... && result`:
        in a valid state the `result` half of that guard always holds. */
    lemma ResultShownWhenNeeded()
      requires Valid() && (step == Result || step == FullReport)
      ensures result.Some? && IsScored(result.value)
    {
    }
  }

  /** A report stream that outlives a reset can put the previous result's report
      text back after `resetAll` cleared it; the next full-report page then starts
      no stream of its own and shows that text. */
  method StaleReportAfterReset(oldText: string) returns (app: App)
    requires oldText != ""
    ensures app.Valid() && app.step == FullReport && app.aiReport == oldText
    ensures app.activeStreams == 1
  {
    app := new App();
    var answers := seq(QuestionCount, _ => "A");
    var res := Score(answers);
    app.Start();
    app.QuizCompleted(res);
    app.CalculatingElapsed();
    app.PaidBasic();
    app.GenerateAI();
    app.PaidAI();
    app.Back();
    app.ResetAll();
    app.ReportGenerated(oldText);
    app.Start();
    app.QuizCompleted(res);
    app.CalculatingElapsed();
    app.PaidBasic();
    app.GenerateAI();
    app.PaidAI();
  }
}
