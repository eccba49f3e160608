/**
 * The quiz: five questions asked in order. A correct answer shows "correct" and, when its
 * timer fires, moves to the next question; a wrong answer shows "wrong" until its timer
 * clears it. On the final question the first option moves away when clicked instead
 * of being answered, and the timer after the correct final answer completes the quiz and
 * calls `onCompleted`.
 *
 * Each `setTimeout` is an explicit timer event. While feedback is shown it covers the
 * answer buttons, so at most one timer is pending, kept in one slot.
 */
module QuestionsPanel {

  datatype Question = Question(question: string, options: seq<string>, correctIndex: int)

  /** The question table. */
  function Questions(): (qs: seq<Question>)
    ensures |qs| == 5
    ensures forall i :: 0 <= i < |qs| ==> 0 <= qs[i].correctIndex < |qs[i].options|
    ensures |qs[4].options| == 2 && qs[4].correctIndex == 1
  {
    [
      Question("Gdje nam je bio prvi poljubac?", ["Đulić", "Vicenza", "Banja Vrućica"], 2),
      Question("Koji klub tvoj muž voli?", ["Arsenal", "Chelsea", "Real Madrid"], 1),
      Question("Koju palačinku Martina obožava?", ["Nutella", "Pistaci", "Kinder"], 1),
      Question("Šta Martina kaže kad Nedo pošalje bezobrazan reel?", ["Aloooo", "Nedoooooooo", "Jesi normalan"], 1),
      Question("Koje je najbolje prezime u Jezerima?", ["Kusić", "Panić"], 1)
    ]
  }

  const FinalStep: int := 4

  /** The overlay: `null`, `"correct"` or `"wrong"`. */
  datatype Feedback = NoFeedback | Correct | Wrong

  /** The pending `setTimeout`, if any. `AfterCorrect` remembers whether the question was
      the final one when it was answered, as the callback's closure does. */
  datatype Timer = Idle | AfterCorrect(wasFinal: bool) | AfterWrong

  class QuestionsPanel {
    var step: int
    var feedback: Feedback
    var completed: bool
    var timer: Timer
    /** The answers accepted so far, one per question, in the order given. */
    ghost var answers: seq<int>
    /** The option chosen in the latest answer. */
    ghost var lastAnswer: int

    ghost predicate Valid()
      reads this
    {
      && 0 <= step < |Questions()|
      && (timer == Idle <==> feedback == NoFeedback || completed)
      && (timer.AfterCorrect? ==> feedback == Correct && timer.wasFinal == (step == FinalStep) && !completed)
      && (timer == AfterWrong ==> feedback == Wrong && !completed)
      && (completed ==> step == FinalStep && feedback == Correct)
      && |answers| == step + (if completed then 1 else 0)
      && (forall i :: 0 <= i < |answers| ==> answers[i] == Questions()[i].correctIndex)
      && (timer.AfterCorrect? ==> lastAnswer == Questions()[step].correctIndex)
    }

    constructor ()
      ensures Valid()
      ensures step == 0 && feedback == NoFeedback && !completed && timer == Idle
    {
      step, feedback, completed, timer := 0, NoFeedback, false, Idle;
      answers, lastAnswer := [], 0;
    }

    /** `handleAnswer(index)`. The buttons are only reachable while no feedback covers them
        and the quiz is not completed. On the final question, option 0 only moves its
        button (`moveKusicSafely`), which changes no quiz state. */
    method HandleAnswer(index: int)
      requires Valid()
      requires feedback == NoFeedback && !completed
      modifies this
      ensures Valid()
      ensures step == old(step) && !completed && answers == old(answers)
      ensures step == FinalStep && index == 0 ==> feedback == NoFeedback && timer == Idle
      ensures !(step == FinalStep && index == 0) && index == Questions()[step].correctIndex ==>
                feedback == Correct && timer == AfterCorrect(step == FinalStep)
      ensures !(step == FinalStep && index == 0) && index != Questions()[step].correctIndex ==>
                feedback == Wrong && timer == AfterWrong
    {
      var current := Questions()[step];
      var isFinal := step == |Questions()| - 1;
      if isFinal && index == 0 {
        MoveKusicSafely();
        return;
      }
      lastAnswer := index;
      if index == current.correctIndex {
        feedback := Correct;
        timer := AfterCorrect(isFinal);
      } else {
        feedback := Wrong;
        timer := AfterWrong;
      }
    }

    /** `moveKusicSafely`: picks a random spot for the button and animates it there. Only
        the layout changes. */
    method MoveKusicSafely()
    {
    }

    /** The pending timer fires. After a wrong answer the overlay clears; after a correct
        answer either the next question comes up (`next`) or, on the final question, the
        quiz completes and `onCompleted` is called. Returns whether it was called. */
    method TimerFires() returns (calledOnCompleted: bool)
      requires Valid()
      requires timer != Idle
      modifies this
      ensures Valid()
      ensures timer == Idle
      ensures old(step) <= step <= old(step) + 1
      ensures calledOnCompleted <==> old(timer) == AfterCorrect(true)
      ensures calledOnCompleted ==> completed && old(step) == FinalStep && step == FinalStep
      ensures completed ==>
                |answers| == |Questions()| &&
                (forall i :: 0 <= i < |Questions()| ==> answers[i] == Questions()[i].correctIndex)
      ensures old(timer).AfterCorrect? ==> answers == old(answers) + [old(lastAnswer)]
      ensures old(timer) == AfterWrong ==> answers == old(answers)
      ensures old(timer) == AfterCorrect(false) ==> step == old(step) + 1 && feedback == NoFeedback && !completed
      ensures old(timer) == AfterWrong ==> step == old(step) && feedback == NoFeedback && !completed
    {
      calledOnCompleted := false;
      match timer {
        case AfterCorrect(wasFinal) =>
          answers := answers + [lastAnswer];
          if wasFinal {
            completed := true;
            calledOnCompleted := true;
          } else {
            Next();
          }
        case AfterWrong =>
          feedback := NoFeedback;
      }
      timer := Idle;
    }

    /** `next`: clears the overlay and moves to the following question. */
    method Next()
      modifies this`feedback, this`step
      ensures feedback == NoFeedback && step == old(step) + 1
    {
      feedback := NoFeedback;
      step := step + 1;
    }
  }
}
