// The step-by-step cooking screen (features/cooking/CookModePage.tsx): the
// step cursor, the per-step countdown and its one-second tick, the clock
// text and the progress bar.
module CookMode {
  import opened Types
  import opened Text
  import opened Lists

  function KitIdIs(id: string): MealKit -> bool
  {
    (k: MealKit) => k.id == id
  }

  /** The recipe for the route's item: None shows 'Recipe not found'; a kit without steps has none. */
  function RecipeSteps(kits: seq<MealKit>, itemId: string): (r: Option<seq<RecipeStep>>)
    ensures r.None? <==> forall k :: 0 <= k < |kits| ==> kits[k].id != itemId
  {
    match FindFirst(kits, KitIdIs(itemId))
    case None => None
    case Some(k) => Some(match kits[k].steps case Some(s) => s case None => [])
  }

  /** The time a step's timer starts from: its duration, and 0 past the end of the list. */
  function StepTime(steps: seq<RecipeStep>, idx: nat): nat
  {
    if idx < |steps| then steps[idx].duration else 0
  }

  /** formatTime: whole minutes, ':', then the seconds padded to two digits. */
  function FormatTime(seconds: nat): string
  {
    var m := seconds / 60;
    var s := seconds % 60;
    NatToString(m) + ":" + (if s < 10 then "0" else "") + NatToString(s)
  }

  /**
   * The clock text is the minutes, a colon and exactly two digits for the
   * seconds, whose tens digit is below 6: m:ss with 60 * m + ss == seconds.
   */
  lemma FormatTimeShape(seconds: nat)
    ensures FormatTime(seconds) == NatToString(seconds / 60) + ":" + [DigitChar(seconds % 60 / 10), DigitChar(seconds % 60 % 10)]
    ensures seconds % 60 / 10 < 6
    ensures 60 * (seconds / 60) + 10 * (seconds % 60 / 10) + seconds % 60 % 10 == seconds
  {
    var s := seconds % 60;
    if s >= 10 {
      assert NatToString(s) == NatToString(s / 10) + [DigitChar(s % 10)];
      assert NatToString(s / 10) == [DigitChar(s / 10)];
    }
  }

  /** The width of the progress bar, in percent, at step idx of n. */
  function ProgressPercent(idx: nat, n: nat): real
    requires n > 0
  {
    (idx + 1) as real / n as real * 100.0
  }

  /** The bar is never empty, grows with the step, and is full exactly at the last step. */
  lemma ProgressBounds(idx: nat, n: nat)
    requires idx < n
    ensures 0.0 < ProgressPercent(idx, n) <= 100.0
    ensures ProgressPercent(idx, n) == 100.0 <==> idx == n - 1
    ensures idx + 1 < n ==> ProgressPercent(idx, n) < ProgressPercent(idx + 1, n)
  {
    var r := (idx + 1) as real / n as real;
    assert r * n as real == (idx + 1) as real;
    if idx + 1 < n {
      var r2 := (idx + 2) as real / n as real;
      assert r2 * n as real == (idx + 2) as real;
      assert r < r2;
    }
  }

  class CookScreen {
    const steps: seq<RecipeStep>
    var currentStepIndex: nat
    var timerActive: bool
    var timeLeft: nat
    /** Set when 'Finish Cooking' sends the cook to the order's tracking page. */
    var finished: bool

    /** The cursor stays on a step, and the countdown never exceeds the current step's duration. */
    predicate Valid()
      reads this`currentStepIndex, this`timeLeft
    {
      (currentStepIndex < |steps| || currentStepIndex == 0)
      && timeLeft <= StepTime(steps, currentStepIndex)
    }

    /** The screen opens on the first step with its timer stopped and set. */
    constructor (steps: seq<RecipeStep>)
      ensures this.steps == steps && currentStepIndex == 0
      ensures !timerActive && timeLeft == StepTime(steps, 0) && !finished
      ensures Valid()
    {
      this.steps := steps;
      currentStepIndex, timerActive, timeLeft, finished := 0, false, StepTime(steps, 0), false;
    }

    /** The effect run when the current step changes: stop the timer and load the step's time. */
    method MoveTo(idx: nat)
      requires idx < |steps|
      modifies this`currentStepIndex, this`timerActive, this`timeLeft
      ensures currentStepIndex == idx && !timerActive && timeLeft == StepTime(steps, idx)
      ensures Valid()
    {
      currentStepIndex := idx;
      timerActive := false;
      timeLeft := StepTime(steps, idx);
    }

    /** handleNext: the next step, or, on the last step, finishing. */
    method Next()
      requires Valid()
      modifies this`currentStepIndex, this`timerActive, this`timeLeft, this`finished
      ensures Valid()
      ensures old(currentStepIndex) + 1 < |steps| ==>
        currentStepIndex == old(currentStepIndex) + 1 && !timerActive
        && timeLeft == StepTime(steps, currentStepIndex) && finished == old(finished)
      ensures old(currentStepIndex) + 1 >= |steps| ==>
        finished && currentStepIndex == old(currentStepIndex)
        && timerActive == old(timerActive) && timeLeft == old(timeLeft)
    {
      if currentStepIndex < |steps| - 1 {
        MoveTo(currentStepIndex + 1);
      } else {
        finished := true;
      }
    }

    /** handlePrev: the previous step; nothing on the first. */
    method Prev()
      requires Valid()
      modifies this`currentStepIndex, this`timerActive, this`timeLeft
      ensures Valid()
      ensures old(currentStepIndex) > 0 ==>
        currentStepIndex == old(currentStepIndex) - 1 && !timerActive && timeLeft == StepTime(steps, currentStepIndex)
      ensures old(currentStepIndex) == 0 ==>
        currentStepIndex == 0 && timerActive == old(timerActive) && timeLeft == old(timeLeft)
    {
      if currentStepIndex > 0 {
        MoveTo(currentStepIndex - 1);
      }
    }

    method ToggleTimer()
      modifies this`timerActive
      ensures timerActive == !old(timerActive)
    {
      timerActive := !timerActive;
    }

    /** resetTimer, offered only while a step is shown. */
    method ResetTimer()
      requires Valid() && currentStepIndex < |steps|
      modifies this`timerActive, this`timeLeft
      ensures Valid() && !timerActive && timeLeft == StepTime(steps, currentStepIndex)
    {
      timerActive := false;
      timeLeft := StepTime(steps, currentStepIndex);
    }

    /**
     * One second of the interval, which runs only while the timer is on
     * with time left: the countdown drops by one, and the tick that
     * reaches zero also stops the timer.
     */
    method Tick()
      requires Valid()
      modifies this`timerActive, this`timeLeft
      ensures Valid()
      ensures old(timerActive) && old(timeLeft) > 1 ==> timeLeft == old(timeLeft) - 1 && timerActive
      ensures old(timerActive) && old(timeLeft) == 1 ==> timeLeft == 0 && !timerActive
      ensures !(old(timerActive) && old(timeLeft) > 0) ==> timeLeft == old(timeLeft) && timerActive == old(timerActive)
    {
      if timerActive && timeLeft > 0 {
        if timeLeft <= 1 {
          timeLeft := 0;
          timerActive := false;
        } else {
          timeLeft := timeLeft - 1;
        }
      }
    }

    /** The footer button reads 'Finish Cooking' on the last step. */
    function FinishShown(): bool
      reads this`currentStepIndex
    {
      currentStepIndex == |steps| - 1
    }
  }

  /**
   * Started on a step of d seconds and left running, the timer shows zero
   * and stops after exactly d ticks.
   */
  method RunDown(screen: CookScreen)
    requires screen.Valid() && screen.timerActive && screen.timeLeft > 0
    modifies screen`timerActive, screen`timeLeft
    ensures screen.Valid() && screen.timeLeft == 0 && !screen.timerActive
  {
    var n := screen.timeLeft;
    while n > 0
      invariant screen.Valid() && screen.timeLeft == n
      invariant n > 0 ==> screen.timerActive
      invariant n == 0 ==> !screen.timerActive
      decreases n
    {
      screen.Tick();
      n := n - 1;
    }
  }
}
