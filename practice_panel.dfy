/**
 * The practice panel (`PracticeModePanel`): the clamps its inputs apply
 * before they reach the controller, and the order in which its two
 * buttons call the controller's actions. A number typed into an input is
 * `Option<int>`: `None` when it does not read as a number. Tempo values
 * are hundredths of normal speed, as in the controller.
 */
module PracticePanel {
  import opened Wrappers
  import opened AlphaTab
  import opened PracticeMode

  /** `Number(value) || d`: the typed number, or `d` when it is missing or zero. */
  function NumberOr(input: Option<int>, d: int): (n: int)
    ensures input.Some? && input.value != 0 ==> n == input.value
    ensures input.None? || input.value == 0 ==> n == d
  {
    if input.Some? && input.value != 0 then input.value else d
  }

  /** The start-bar input: `max(1, min(totalBars, n))`, with 1 for a missing number. */
  function StartBarValue(input: Option<int>, totalBars: int): (v: int)
    ensures v >= 1
    ensures totalBars >= 1 ==> v <= totalBars
    ensures input.Some? && 1 <= input.value <= totalBars ==> v == input.value
    ensures totalBars >= 1 && input.Some? && input.value > totalBars ==> v == totalBars
    ensures input.None? || input.value <= 1 ==> v == 1
    ensures totalBars <= 1 ==> v == 1
  {
    Max(1, Min(totalBars, NumberOr(input, 1)))
  }

  /** The end-bar input: `max(startBar, min(totalBars, n))`, with 1 for a missing number. */
  function EndBarValue(input: Option<int>, startBar: int, totalBars: int): (v: int)
    ensures v >= startBar
    ensures v <= Max(startBar, totalBars)
    ensures input.Some? && input.value != 0 && startBar <= input.value <= totalBars ==> v == input.value
    ensures input.Some? && input.value != 0 && input.value <= totalBars && input.value < startBar ==> v == startBar
    ensures input.Some? && input.value > totalBars ==> v == Max(startBar, totalBars)
    ensures input.None? || input.value == 0 ==> v == Max(startBar, Min(totalBars, 1))
  {
    Max(startBar, Min(totalBars, NumberOr(input, 1)))
  }

  /** The increment input, clamped to [1, 50] hundredths with 5 for a missing number. */
  function IncrementValue(input: Option<int>): (v: int)
    ensures 1 <= v <= 50
    ensures input.Some? && 1 <= input.value <= 50 ==> v == input.value
    ensures input.None? || input.value == 0 ==> v == 5
    ensures input.Some? && input.value > 50 ==> v == 50
    ensures input.Some? && input.value < 0 ==> v == 1
  {
    Max(1, Min(50, NumberOr(input, 5)))
  }

  /** The bounds and step of the two tempo sliders. */
  const LOOP_TEMPO_MIN := 25
  const MAX_TEMPO_MIN := 50
  const TEMPO_MAX := 200
  const TEMPO_STEP := 5

  /** A value the slider between `lo` and `TEMPO_MAX` can produce. */
  predicate OnSlider(v: int, lo: int) {
    lo <= v <= TEMPO_MAX && (v - lo) % TEMPO_STEP == 0
  }

  /**
   * With the loop tempo and the maximum set by the sliders and the
   * increment by its input, every ramp step stays on the loop-tempo
   * scale: never below 0.25 and never above 2.
   */
  lemma {:induction false} RampStaysOnScale(loopTempo: int, increment: int, maxTempo: int, n: nat)
    requires OnSlider(loopTempo, LOOP_TEMPO_MIN) && OnSlider(maxTempo, MAX_TEMPO_MIN)
    requires 1 <= increment <= 50
    ensures LOOP_TEMPO_MIN <= RampSteps(loopTempo, increment, maxTempo, n) <= TEMPO_MAX
    ensures n > 0 ==> RampSteps(loopTempo, increment, maxTempo, n) <= maxTempo
  {
    if n > 0 {
      RampStaysOnScale(loopTempo, increment, maxTempo, n - 1);
    }
  }

  /** `handleStartBarChange`: the clamped start, and an end raised to it if needed. */
  method StartBarChanged(session: PracticeSession, input: Option<int>, totalBars: int)
    modifies session`startBar, session`endBar
    ensures session.startBar == StartBarValue(input, totalBars)
    ensures session.endBar == Max(session.startBar, old(session.endBar))
    ensures 1 <= session.startBar <= session.endBar
  {
    var v := StartBarValue(input, totalBars);
    session.SetRange(v, Max(v, session.endBar));
  }

  /** `handleEndBarChange`: the start is kept and the end is clamped to at least it. */
  method EndBarChanged(session: PracticeSession, input: Option<int>, totalBars: int)
    modifies session`startBar, session`endBar
    ensures session.startBar == Max(1, old(session.startBar))
    ensures session.endBar == EndBarValue(input, old(session.startBar), totalBars)
    ensures session.endBar >= old(session.startBar)
    ensures old(session.startBar) >= 1 ==> session.startBar == old(session.startBar) <= session.endBar
  {
    var v := EndBarValue(input, session.startBar, totalBars);
    session.SetRange(session.startBar, v);
  }

  /** `handleIncrementChange`. */
  method IncrementChanged(session: PracticeSession, input: Option<int>)
    modifies session`tempoIncrement
    ensures session.tempoIncrement == IncrementValue(input)
    ensures 1 <= session.tempoIncrement <= 50
  {
    session.SetTempoIncrement(IncrementValue(input));
  }

  /** The loop-tempo slider. */
  method LoopTempoSlid(session: PracticeSession, v: int)
    requires OnSlider(v, LOOP_TEMPO_MIN)
    modifies session`loopTempo
    ensures session.loopTempo == v && LOOP_TEMPO_MIN <= session.loopTempo <= TEMPO_MAX
  {
    session.SetLoopTempo(v);
  }

  /** The max-tempo slider. */
  method MaxTempoSlid(session: PracticeSession, v: int)
    requires OnSlider(v, MAX_TEMPO_MIN)
    modifies session`maxTempo
    ensures session.maxTempo == v && MAX_TEMPO_MIN <= session.maxTempo <= TEMPO_MAX
  {
    session.SetMaxTempo(v);
  }

  /** The "Loop #n" badge: shown only while active and after at least one loop. */
  function LoopBadge(isActive: bool, loopCount: nat): (r: Option<nat>)
    ensures r.Some? <==> isActive && loopCount > 0
    ensures r.Some? ==> r.value == loopCount
  {
    if isActive && loopCount > 0 then Some(loopCount) else None
  }

  datatype Button = StartLoopButton | StopButton

  /** Which button the panel shows depends on `isActive` alone. */
  function ButtonShown(isActive: bool): (b: Button)
    ensures b == StopButton <==> isActive
  {
    if isActive then StopButton else StartLoopButton
  }

  /** "Start Loop": `activate()` then `startLoop()`. */
  method StartPressed(session: PracticeSession, currentTempo: int)
    modifies session`savedTempo, session`isActive, session`currentLoopCount, session`isLooping,
             session`pendingPlays, session.player`playing, session.player`range, session.player`looping,
             session.player`tempo, session.player`speed, session.player`countIn
    ensures session.isActive && session.savedTempo == currentTempo
    ensures var p := session.player;
      var r := TickRangeOf(old(p.score), session.startBar, session.endBar);
      if r.None? then
        && session.currentLoopCount == old(session.currentLoopCount)
        && session.isLooping == old(session.isLooping)
        && session.pendingPlays == old(session.pendingPlays)
        && unchanged(p)
      else
        && p.playing == (if p.hasApi then false else old(p.playing))
        && p.range == r
        && p.looping
        && p.tempo == session.loopTempo
        && p.speed == (if p.hasApi then session.loopTempo else old(p.speed))
        && p.countIn == (if session.countInEnabled then 1 else 0)
        && session.currentLoopCount == 0 && session.isLooping
        && session.pendingPlays == old(session.pendingPlays) + 1
  {
    session.Activate(currentTempo);
    session.StartLoop();
  }

  /** "Stop": `stopLoop()` then `deactivate()`; the result is what `deactivate()` alone gives. */
  method StopPressed(session: PracticeSession)
    modifies session`isActive, session`currentLoopCount, session`isLooping, session.player`playing,
             session.player`range, session.player`looping, session.player`tempo, session.player`speed,
             session.player`countIn
    ensures session.Stopped() && !session.isActive
    ensures session.player.tempo == old(session.savedTempo)
    ensures session.player.playing == (if session.player.hasApi then false else old(session.player.playing))
  {
    session.StopLoop();
    session.Deactivate();
  }

  /** A press of whichever button is shown. */
  method PressButton(session: PracticeSession, currentTempo: int)
    modifies session`savedTempo, session`isActive, session`currentLoopCount, session`isLooping,
             session`pendingPlays, session.player`playing, session.player`range, session.player`looping,
             session.player`tempo, session.player`speed, session.player`countIn
    ensures old(session.isActive) ==> session.Stopped() && !session.isActive
    ensures !old(session.isActive) ==> session.isActive && session.savedTempo == currentTempo
  {
    if ButtonShown(session.isActive) == StartLoopButton {
      StartPressed(session, currentTempo);
    } else {
      StopPressed(session);
    }
  }
}
