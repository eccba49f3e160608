/**
 * The progress tracker's four task flags and the values the top-level screen derives
 * from them on every render: level gating, the current level and the progress bar.
 */
module Progress {

  /** The four task flags the screen holds as its source of truth. */
  datatype ProgressState = ProgressState(whyDone: bool, heartDone: bool, codeDone: bool, questionsDone: bool)

  /** The state a session starts in. */
  const Initial := ProgressState(false, false, false, false)

  /** The tasks, one per child widget whose one-shot callback sets its flag. */
  datatype Task = Why | Heart | Code | Questions

  function Flag(s: ProgressState, t: Task): bool {
    match t
    case Why => s.whyDone
    case Heart => s.heartDone
    case Code => s.codeDone
    case Questions => s.questionsDone
  }

  /** What a child's callback does: `setWhyDone(true)` and its three siblings. */
  function MarkDone(s: ProgressState, t: Task): (r: ProgressState)
    ensures Flag(r, t)
    ensures forall u :: u != t ==> Flag(r, u) == Flag(s, u)
  {
    match t
    case Why => s.(whyDone := true)
    case Heart => s.(heartDone := true)
    case Code => s.(codeDone := true)
    case Questions => s.(questionsDone := true)
  }

  /** Every flag true in `s` is true in `t`. */
  predicate AtMost(s: ProgressState, t: ProgressState) {
    (s.whyDone ==> t.whyDone) && (s.heartDone ==> t.heartDone) &&
    (s.codeDone ==> t.codeDone) && (s.questionsDone ==> t.questionsDone)
  }

  predicate Level1Complete(s: ProgressState) {
    s.whyDone && s.heartDone && s.codeDone
  }

  predicate Level2Unlocked(s: ProgressState) {
    Level1Complete(s)
  }

  predicate Level3Unlocked(s: ProgressState) {
    Level1Complete(s) && s.questionsDone
  }

  /** The highest level whose gate is open. */
  function CurrentLevel(s: ProgressState): (r: int)
    ensures 1 <= r <= 3
    ensures r == 3 <==> s.whyDone && s.heartDone && s.codeDone && s.questionsDone
    ensures r == 2 <==> s.whyDone && s.heartDone && s.codeDone && !s.questionsDone
  {
    if Level3Unlocked(s) then 3
    else if Level2Unlocked(s) then 2
    else 1
  }

  /** How many of the three level-1 tasks are done. */
  function Level1DoneCount(s: ProgressState): (n: nat)
    ensures n <= 3
    ensures n == 3 <==> Level1Complete(s)
  {
    (if s.whyDone then 1 else 0) + (if s.heartDone then 1 else 0) + (if s.codeDone then 1 else 0)
  }

  /** The progress bar's width in percent, computed as the screen computes it: the level-1
      share `(count / 3) * 60`, the questions share 30 when level 1 is complete, the letter
      share 10 when level 3 is open, and `Math.min(100, ...)` over the sum. Arithmetic is
      exact here; for the four counts 0..3 the quotient times 60 is exact in binary
      floating point as well. */
  function ProgressPercent(s: ProgressState): (r: real)
    ensures r == (20 * Level1DoneCount(s) + (if Level1Complete(s) && s.questionsDone then 40 else 0)) as real
  {
    var lvl1Pct := (Level1DoneCount(s) as real / 3.0) * 60.0;
    var lvl2Pct := if s.questionsDone then 30.0 else 0.0;
    var lvl3Pct := if Level3Unlocked(s) then 10.0 else 0.0;
    Min(100.0, lvl1Pct + (if Level1Complete(s) then lvl2Pct else 0.0) + (if s.questionsDone then lvl3Pct else 0.0))
  }

  function Min(a: real, b: real): real {
    if a <= b then a else b
  }

  /** The sum under `Math.min` never exceeds 100, so the clamp never changes the value. */
  lemma ClampNeverBinds(s: ProgressState)
    ensures (Level1DoneCount(s) as real / 3.0) * 60.0
            + (if Level1Complete(s) && s.questionsDone then 30.0 else 0.0)
            + (if Level3Unlocked(s) then 10.0 else 0.0) <= 100.0
  {
  }

  /** The bar only ever shows 0, 20, 40, 60 or 100, and 100 exactly when level 3 is open. */
  lemma ProgressPercentValues(s: ProgressState)
    ensures ProgressPercent(s) in {0.0, 20.0, 40.0, 60.0, 100.0}
    ensures ProgressPercent(s) == 100.0 <==> Level3Unlocked(s)
  {
  }

  /** Finishing the quiz adds nothing to the bar until level 1 is complete. */
  lemma QuestionsAloneAddNothing(s: ProgressState)
    requires !Level1Complete(s)
    ensures ProgressPercent(s.(questionsDone := true)) == ProgressPercent(s.(questionsDone := false))
  {
  }

  /** Level 2 depends on the three level-1 flags, whatever `questionsDone` is. */
  lemma Level2IgnoresQuestions(s: ProgressState, q: bool)
    ensures Level2Unlocked(s.(questionsDone := q)) == Level2Unlocked(s)
    ensures Level2Unlocked(s) <==> s.whyDone && s.heartDone && s.codeDone
  {
  }

  /** Turning flags on never moves the bar or the level back. */
  lemma {:induction false} Monotone(s: ProgressState, t: ProgressState)
    requires AtMost(s, t)
    ensures ProgressPercent(s) <= ProgressPercent(t)
    ensures CurrentLevel(s) <= CurrentLevel(t)
    ensures Level2Unlocked(s) ==> Level2Unlocked(t)
    ensures Level3Unlocked(s) ==> Level3Unlocked(t)
  {
    assert Level1DoneCount(s) <= Level1DoneCount(t);
  }

  /** A callback only ever turns its flag on; signalling again changes nothing. */
  lemma MarkDoneMonotoneAndIdempotent(s: ProgressState, t: Task)
    ensures AtMost(s, MarkDone(s, t))
    ensures MarkDone(MarkDone(s, t), t) == MarkDone(s, t)
    ensures Flag(s, t) ==> MarkDone(s, t) == s
  {
  }

  /** The walk through the game: the code first, then the other two level-1 tasks, then the quiz. */
  lemma Walkthrough()
    ensures var s1 := MarkDone(Initial, Code);
      CurrentLevel(s1) == 1 && ProgressPercent(s1) == 20.0 && !Level2Unlocked(s1)
    ensures var s2 := MarkDone(MarkDone(MarkDone(Initial, Code), Why), Heart);
      Level1Complete(s2) && Level2Unlocked(s2) && ProgressPercent(s2) == 60.0 && CurrentLevel(s2) == 2
    ensures var s3 := MarkDone(MarkDone(MarkDone(MarkDone(Initial, Code), Why), Heart), Questions);
      Level3Unlocked(s3) && ProgressPercent(s3) == 100.0 && CurrentLevel(s3) == 3
  {
  }
}
