/**
 * The heart-fill widget: each click fills the heart by 10 up to 90; past 90 it counts
 * extra clicks, and the second extra click shows the final message and calls `onReady`
 * once.
 */
module HeartMonitor {

  const MaxFill: int := 90
  const Step: int := 10

  /** The widget's state as the screen sees it. */
  datatype HeartView = HeartView(progress: int, overClicks: int, messageVisible: bool, showHint: bool, readyFired: bool)

  function Min(a: int, b: int): int {
    if a <= b then a else b
  }

  function Max(a: int, b: int): int {
    if a <= b then b else a
  }

  /** The state after `n` clicks from mount, in closed form: nine clicks fill the heart,
      every later click is an extra click, and the eleventh click is the second extra one. */
  function AfterClicks(n: nat): (v: HeartView)
    ensures 0 <= v.progress <= MaxFill && v.progress % Step == 0
    ensures v.messageVisible ==> v.progress == MaxFill && v.overClicks >= 2
    ensures v.progress < MaxFill ==> v.overClicks == 0 && !v.messageVisible && !v.readyFired
    ensures v.readyFired == v.messageVisible
  {
    HeartView(Min(Step * n, MaxFill), Max(0, n - 9), n >= 11, n == 0, n >= 11)
  }

  /** The heart never empties: more clicks never mean less fill. */
  lemma {:induction false} ProgressMonotone(m: nat, n: nat)
    requires m <= n
    ensures AfterClicks(m).progress <= AfterClicks(n).progress
    ensures AfterClicks(m).readyFired ==> AfterClicks(n).readyFired
    ensures AfterClicks(m).overClicks <= AfterClicks(n).overClicks
  {
  }

  /** The click that reaches 90 is the ninth; it leaves no extra clicks and no message. */
  lemma NinthClickFills()
    ensures AfterClicks(8).progress < MaxFill && AfterClicks(9).progress == MaxFill
    ensures AfterClicks(9).overClicks == 0 && !AfterClicks(9).messageVisible
  {
  }

  /** `onReady` becomes due on exactly one click from mount, the eleventh. */
  lemma ReadyOnEleventhClick(n: nat)
    ensures !AfterClicks(n).readyFired && AfterClicks(n + 1).readyFired <==> n + 1 == 11
  {
  }

  class HeartMonitor {
    var progress: int
    var overClicks: int
    var messageVisible: bool
    var showHint: bool
    /** `readyFiredRef`: whether `onReady` was ever called. */
    var readyFired: bool
    /** How many times the heart was clicked since mount. */
    ghost var clicks: nat

    function View(): HeartView
      reads this
    {
      HeartView(progress, overClicks, messageVisible, showHint, readyFired)
    }

    ghost predicate Valid()
      reads this
    {
      View() == AfterClicks(clicks)
    }

    constructor ()
      ensures Valid() && clicks == 0
      ensures progress == 0 && overClicks == 0 && !messageVisible && showHint && !readyFired
    {
      progress, overClicks, messageVisible, showHint, readyFired := 0, 0, false, true, false;
      clicks := 0;
    }

    /** `handleClick`. Returns whether this click called `onReady`. */
    method HandleClick() returns (calledOnReady: bool)
      requires Valid()
      modifies this
      ensures Valid() && clicks == old(clicks) + 1
      ensures calledOnReady <==> clicks == 11
      ensures calledOnReady ==> !old(readyFired) && readyFired
      ensures !showHint
      ensures old(progress) <= progress
      ensures old(progress) < MaxFill ==>
                progress == old(progress) + Step && !calledOnReady &&
                (progress < MaxFill ==> overClicks == old(overClicks) && messageVisible == old(messageVisible)) &&
                (progress == MaxFill ==> overClicks == 0 && !messageVisible)
      ensures old(progress) == MaxFill ==>
                progress == MaxFill && overClicks == old(overClicks) + 1 &&
                messageVisible == (old(messageVisible) || overClicks >= 2)
    {
      if showHint {
        showHint := false;
      }
      clicks := clicks + 1;
      calledOnReady := false;
      if progress < MaxFill {
        var next := Min(progress + Step, MaxFill);
        progress := next;
        if next == MaxFill {
          overClicks := 0;
          messageVisible := false;
        }
        return;
      }
      var nextOver := overClicks + 1;
      overClicks := nextOver;
      if nextOver >= 2 {
        messageVisible := true;
        if !readyFired {
          readyFired := true;
          calledOnReady := true;
        }
      }
    }
  }
}
