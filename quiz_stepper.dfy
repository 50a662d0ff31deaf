/** The question-by-question stepper of the quiz page (`QuizView`): the index of
    the question on screen, the sparse array of answers given so far, and the
    150 ms auto-advance timers that answering schedules. */
module QuizStepper {

  import opened Wrappers
  import opened QuizData
  import opened Scoring

  /** Index of the last question (`QUESTIONS.length - 1`). */
  const LastIndex: nat := 24

  /** The labels of the option buttons. */
  const Labels: seq<string> := ["A", "B", "C", "D"]

  /** `letter` is what one of the current question's option buttons passes to
      `handleAnswer`. Every question has the same four buttons, so this does not
      depend on the question; `OptionLabels` shows these are exactly the labels of
      each question's options. */
  predicate IsLabel(letter: string) {
    letter in Labels
  }

  /** The buttons' labels are exactly the labels of the question's options. */
  lemma OptionLabels(i: nat, letter: string)
    requires i < |Questions|
    ensures IsLabel(letter) <==> exists o :: o in Questions[i].options && o.letter == letter
  {
    OptionsAt(i);
    var os := Questions[i].options;
    if IsLabel(letter) {
      var k :| 0 <= k < 4 && Labels[k] == letter;
      assert os[k] in os && os[k].letter == letter;
    }
  }

  /** `answers[j]`: `undefined` for a hole or past the end of the array. */
  function Slot(answers: seq<Option<string>>, j: nat): Option<string> {
    if j < |answers| then answers[j] else None
  }

  /** `answers[j]` is truthy: present and not the empty string. */
  predicate Answered(answers: seq<Option<string>>, j: nat) {
    Slot(answers, j).Some? && Slot(answers, j).value != ""
  }

  /** Every question before `t` is answered. */
  predicate AnsweredBelow(answers: seq<Option<string>>, t: nat) {
    forall j :: 0 <= j < t ==> Answered(answers, j)
  }

  /** `newAnswers[i] = letter` on a copy of a JavaScript array: the array grows to
      `i + 1` when needed, leaving holes between its old end and `i`. */
  function Store(answers: seq<Option<string>>, i: nat, letter: string): (r: seq<Option<string>>)
    ensures |r| == if i < |answers| then |answers| else i + 1
    ensures r[i] == Some(letter)
    ensures forall j :: j != i ==> Slot(r, j) == Slot(answers, j)
  {
    if i < |answers| then answers[i := Some(letter)]
    else answers + seq(i - |answers|, _ => None) + [Some(letter)]
  }

  /** Storing a non-empty answer never un-answers a question. */
  lemma StoreKeepsAnswered(answers: seq<Option<string>>, i: nat, letter: string, t: nat)
    requires AnsweredBelow(answers, t) && letter != ""
    ensures AnsweredBelow(Store(answers, i, letter), t)
    ensures AnsweredBelow(Store(answers, i, letter), i + 1) <== AnsweredBelow(answers, i)
  {
    var r := Store(answers, i, letter);
    forall j | 0 <= j < t ensures Answered(r, j) {
      assert Answered(answers, j);
      assert Slot(r, j) == if j == i then Some(letter) else Slot(answers, j);
    }
    if AnsweredBelow(answers, i) {
      forall j | 0 <= j < i + 1 ensures Answered(r, j) {
        if j < i {
          assert Answered(answers, j);
        }
        assert Slot(r, j) == if j == i then Some(letter) else Slot(answers, j);
      }
    }
  }

  /** Every stored answer is one of the option labels. */
  predicate AnswersAreOptions(answers: seq<Option<string>>) {
    forall j :: 0 <= j < |answers| && answers[j].Some? ==> IsLabel(answers[j].value)
  }

  /** Storing an option of question `i` at `i` keeps every stored answer an option. */
  lemma StoreKeepsOptions(answers: seq<Option<string>>, i: nat, letter: string)
    requires i < |Questions| && |answers| <= |Questions|
    requires AnswersAreOptions(answers) && IsLabel(letter)
    ensures |Store(answers, i, letter)| <= |Questions| && AnswersAreOptions(Store(answers, i, letter))
  {
    var r := Store(answers, i, letter);
    forall j | 0 <= j < |r| && r[j].Some? ensures IsLabel(r[j].value) {
      if j != i {
        assert Slot(r, j) == Slot(answers, j);
      }
    }
  }

  /** A sheet with every slot truthy has every slot present. */
  lemma AnsweredSlotsPresent(answers: seq<Option<string>>)
    requires AnsweredBelow(answers, |answers|)
    ensures forall j :: 0 <= j < |answers| ==> answers[j].Some?
  {
    forall j | 0 <= j < |answers| ensures answers[j].Some? {
      assert Answered(answers, j);
    }
  }

  /** The answers of a fully answered sheet, as the plain strings scoring reads. */
  function Values(answers: seq<Option<string>>): (vs: seq<string>)
    requires AnsweredBelow(answers, |answers|)
    ensures |vs| == |answers|
    ensures forall j :: 0 <= j < |answers| ==> answers[j] == Some(vs[j])
  {
    AnsweredSlotsPresent(answers);
    seq(|answers|, j requires 0 <= j < |answers| && answers[j].Some? => answers[j].value)
  }

  /** The stepper's invariant: the index is a question, the stored answers are
      options of their questions, and every question before the index, or before
      the target of a pending timer, is answered. */
  ghost predicate StepperInvariant(idx: nat, answers: seq<Option<string>>, pending: seq<nat>) {
    && idx <= LastIndex
    && |answers| <= |Questions|
    && AnswersAreOptions(answers)
    && AnsweredBelow(answers, idx)
    && (forall k :: 0 <= k < |pending| ==> 0 < pending[k] <= LastIndex && AnsweredBelow(answers, pending[k]))
  }

  /** Answering question `idx` with one of its options, and scheduling the
      advance past it unless it is the last, keeps the invariant. */
  lemma AnswerKeepsInvariant(idx: nat, answers: seq<Option<string>>, pending: seq<nat>, letter: string)
    requires StepperInvariant(idx, answers, pending) && IsLabel(letter)
    ensures StepperInvariant(idx, Store(answers, idx, letter),
      pending + if idx < LastIndex then [idx + 1] else [])
  {
    var r := Store(answers, idx, letter);
    var p := pending + if idx < LastIndex then [idx + 1] else [];
    StoreKeepsAnswered(answers, idx, letter, idx);
    StoreKeepsOptions(answers, idx, letter);
    forall k | 0 <= k < |p| ensures 0 < p[k] <= LastIndex && AnsweredBelow(r, p[k]) {
      if k < |pending| {
        StoreKeepsAnswered(answers, idx, letter, pending[k]);
      }
    }
  }

  class QuizView {
    /** The question on screen. */
    var currentIdx: nat
    /** The answers array (`undefined` holes are `None`). */
    var answers: seq<Option<string>>
    /** Targets of the auto-advance timers not yet fired, oldest first: each
        holds the index at which its answer was given, plus one. */
    var pendingAdvances: seq<nat>

    ghost predicate Valid()
      reads this
    {
      StepperInvariant(currentIdx, answers, pendingAdvances)
    }

    /** A fresh quiz page: first question, no answers, no timers. */
    constructor()
      ensures Valid()
      ensures currentIdx == 0 && answers == [] && pendingAdvances == []
    {
      currentIdx := 0;
      answers := [];
      pendingAdvances := [];
    }

    /** `handleAnswer(letter)`: record the answer at the current index and, except
        on the last question, schedule an advance to the index after it. */
    method HandleAnswer(letter: string)
      requires Valid() && IsLabel(letter)
      modifies this
      ensures Valid()
      ensures answers == Store(old(answers), old(currentIdx), letter)
      ensures currentIdx == old(currentIdx)
      ensures pendingAdvances == old(pendingAdvances) + if old(currentIdx) < LastIndex then [old(currentIdx) + 1] else []
    {
      var scheduled := if currentIdx < LastIndex then [currentIdx + 1] else [];
      AnswerKeepsInvariant(currentIdx, answers, pendingAdvances, letter);
      answers := Store(answers, currentIdx, letter);
      pendingAdvances := pendingAdvances + scheduled;
    }

    /** The oldest auto-advance timer fires: `setCurrentIdx` with the index it
        captured, whatever the current index is by now. */
    method FireAdvance()
      requires Valid() && pendingAdvances != []
      modifies this
      ensures Valid()
      ensures currentIdx == old(pendingAdvances[0])
      ensures answers == old(answers) && pendingAdvances == old(pendingAdvances[1..])
    {
      currentIdx := pendingAdvances[0];
      pendingAdvances := pendingAdvances[1..];
    }

    /** `handleNext`: on an answered question before the last, move on; on the
        answered last question, score the answers and hand the result over. */
    method HandleNext() returns (completed: Option<QuizResult>)
      requires Valid()
      modifies this
      ensures Valid()
      ensures answers == old(answers) && pendingAdvances == old(pendingAdvances)
      ensures currentIdx == if Answered(answers, old(currentIdx)) && old(currentIdx) < LastIndex
        then old(currentIdx) + 1 else old(currentIdx)
      ensures completed.Some? <==> old(currentIdx) == LastIndex && Answered(answers, LastIndex)
      ensures completed.Some? ==>
        && |answers| == |Questions|
        && AnsweredBelow(answers, |Questions|)
        && completed.value == Score(Values(answers))
    {
      completed := None;
      if Answered(answers, currentIdx) && currentIdx < LastIndex {
        AnsweredBelowExtends(answers, currentIdx);
        currentIdx := currentIdx + 1;
      } else if currentIdx == LastIndex && Answered(answers, currentIdx) {
        LastAnsweredCompletes(answers);
        var result := CalculateResult(Values(answers));
        completed := Some(result);
      }
    }

    /** `handlePrev`: step back one question, except on the first. */
    method HandlePrev()
      requires Valid()
      modifies this
      ensures Valid()
      ensures answers == old(answers) && pendingAdvances == old(pendingAdvances)
      ensures currentIdx == if old(currentIdx) > 0 then old(currentIdx) - 1 else 0
    {
      if currentIdx > 0 {
        currentIdx := currentIdx - 1;
      }
    }
  }

  /** One more answered question extends an answered prefix. */
  lemma AnsweredBelowExtends(answers: seq<Option<string>>, t: nat)
    requires AnsweredBelow(answers, t) && Answered(answers, t)
    ensures AnsweredBelow(answers, t + 1)
  {
  }

  /** With every question before the last answered, answering the last one
      completes a sheet of exactly 25 answers. */
  lemma LastAnsweredCompletes(answers: seq<Option<string>>)
    requires |answers| <= |Questions| && AnsweredBelow(answers, LastIndex) && Answered(answers, LastIndex)
    ensures |answers| == |Questions| && AnsweredBelow(answers, |Questions|)
  {
  }

  /** A sheet the stepper hands to scoring holds 25 answers, each the letter of one
      of its question's options, so no answer is scored as "no match". */
  lemma CompletedSheetMatchesOptions(answers: seq<Option<string>>)
    requires |answers| == |Questions| && AnsweredBelow(answers, |Questions|)
    requires AnswersAreOptions(answers)
    ensures forall j :: 0 <= j < |Questions| ==>
      FindOption(Questions[j].options, AnswerAt(Values(answers), j)).Some?
  {
    forall j | 0 <= j < |Questions|
      ensures FindOption(Questions[j].options, AnswerAt(Values(answers), j)).Some?
    {
      assert Answered(answers, j);
      OptionLabels(j, answers[j].value);
      var o :| o in Questions[j].options && o.letter == answers[j].value;
      assert AnswerAt(Values(answers), j) == Some(o.letter);
    }
  }
}
