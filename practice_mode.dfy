/**
 * The practice-loop controller (`usePracticeMode`): a 1-based bar range is
 * turned into a tick range, and four actions drive the player record
 * through the states Idle, Active and Looping. Tempos and increments are
 * integer hundredths of normal speed (0.05 is 5, 1 is 100).
 */
module PracticeMode {
  import opened Wrappers
  import opened AlphaTab

  /** `Math.max(0, startBar - 1)`. */
  function StartIndex(startBar: int): int { Max(0, startBar - 1) }

  /** `Math.min(totalBars - 1, endBar - 1)`. */
  function EndIndex(totalBars: int, endBar: int): int { Min(totalBars - 1, endBar - 1) }

  /**
   * `getTickRange`: no range without a score, when the clamped start index
   * is past the clamped end index, or when it is past the last bar;
   * otherwise from the start of the first bar to the end of the last one.
   */
  function TickRangeOf(score: Option<Score>, startBar: int, endBar: int): (r: Option<TickRange>)
    ensures r.Some? <==>
      && score.Some?
      && StartIndex(startBar) <= EndIndex(|score.value.bars|, endBar)
      && StartIndex(startBar) < |score.value.bars|
    ensures r.Some? ==>
      var bars := score.value.bars;
      var si, ei := StartIndex(startBar), EndIndex(|bars|, endBar);
      && 0 <= si <= ei < |bars|
      && r.value.startTick == bars[si].start
      && r.value.endTick == bars[ei].start + bars[ei].duration
  {
    if score.None? then None
    else
      var bars := score.value.bars;
      var si, ei := StartIndex(startBar), EndIndex(|bars|, endBar);
      if si > ei || si >= |bars| then None
      else Some(TickRange(bars[si].start, bars[ei].start + bars[ei].duration))
  }

  /** A score without bars never yields a range, whatever the bar numbers. */
  lemma NoBarsNoRange(tracks: seq<Track>, startBar: int, endBar: int)
    ensures TickRangeOf(Some(Score([], tracks)), startBar, endBar) == None
  {
  }

  /** A range within the score, `1 <= startBar <= endBar <= totalBars`, always resolves, to exactly those bars. */
  lemma InRangeResolves(score: Score, startBar: int, endBar: int)
    requires 1 <= startBar <= endBar <= |score.bars|
    ensures TickRangeOf(Some(score), startBar, endBar)
         == Some(TickRange(score.bars[startBar - 1].start,
                           score.bars[endBar - 1].start + score.bars[endBar - 1].duration))
  {
  }

  /** Bar starts never decrease from one bar to the next and every bar lasts. */
  ghost predicate WellTimed(bars: seq<Bar>) {
    && (forall i :: 0 <= i < |bars| - 1 ==> bars[i].start <= bars[i + 1].start)
    && (forall i :: 0 <= i < |bars| ==> bars[i].duration > 0)
  }

  lemma {:induction false} StartsMonotone(bars: seq<Bar>, i: int, j: int)
    requires WellTimed(bars)
    requires 0 <= i <= j < |bars|
    ensures bars[i].start <= bars[j].start
    decreases j - i
  {
    if i < j {
      StartsMonotone(bars, i, j - 1);
    }
  }

  /** On a well-timed score every resolved range is non-empty: `startTick < endTick`. */
  lemma RangeIsNonEmpty(score: Score, startBar: int, endBar: int)
    requires WellTimed(score.bars)
    requires TickRangeOf(Some(score), startBar, endBar).Some?
    ensures TickRangeOf(Some(score), startBar, endBar).value.startTick
          < TickRangeOf(Some(score), startBar, endBar).value.endTick
  {
    var bars := score.bars;
    StartsMonotone(bars, StartIndex(startBar), EndIndex(|bars|, endBar));
  }

  /** `setRange(start, end)` stores `(max(1, start), max(start, end))`. */
  function NormalizedRange(start: int, end: int): (int, int) {
    (Max(1, start), Max(start, end))
  }

  /** The stored range is ordered when `start >= 1`, and not always otherwise. */
  lemma NormalizedRangeOrder(start: int, end: int)
    ensures NormalizedRange(start, end).0 >= 1
    ensures start >= 1 ==> NormalizedRange(start, end).0 <= NormalizedRange(start, end).1
    ensures start >= 1 && start <= end ==> NormalizedRange(start, end) == (start, end)
    ensures NormalizedRange(5, 2) == (5, 5)
    ensures NormalizedRange(0, 0) == (1, 0)
  {
  }

  /** The tempo after one ramp step: `min(loopTempo + increment, maxTempo)`. */
  function RampedTempo(loopTempo: int, increment: int, maxTempo: int): int {
    Min(loopTempo + increment, maxTempo)
  }

  /** One ramp step never exceeds the maximum, and it rises (or stays) exactly when the tempo was not already above it. */
  lemma RampStep(loopTempo: int, increment: int, maxTempo: int)
    requires increment >= 0
    ensures RampedTempo(loopTempo, increment, maxTempo) <= maxTempo
    ensures RampedTempo(loopTempo, increment, maxTempo) >= loopTempo <==> loopTempo <= maxTempo
  {
  }

  /** The loop tempo after `n` ramp steps. */
  function RampSteps(loopTempo: int, increment: int, maxTempo: int, n: nat): int {
    if n == 0 then loopTempo else RampedTempo(RampSteps(loopTempo, increment, maxTempo, n - 1), increment, maxTempo)
  }

  /** From a tempo at or below the maximum, `n` ramp steps give `min(loopTempo + n*increment, maxTempo)`. */
  lemma {:induction false} RampStepsClosedForm(loopTempo: int, increment: int, maxTempo: int, n: nat)
    requires increment >= 0 && loopTempo <= maxTempo
    ensures RampSteps(loopTempo, increment, maxTempo, n) == Min(loopTempo + n * increment, maxTempo)
  {
    if n > 0 {
      RampStepsClosedForm(loopTempo, increment, maxTempo, n - 1);
      assert loopTempo + n * increment == loopTempo + (n - 1) * increment + increment;
    }
  }

  /** The ramp is non-decreasing from step to step when it starts at or below the maximum. */
  lemma RampMonotone(loopTempo: int, increment: int, maxTempo: int, m: nat, n: nat)
    requires increment >= 0 && loopTempo <= maxTempo && m <= n
    ensures RampSteps(loopTempo, increment, maxTempo, m) <= RampSteps(loopTempo, increment, maxTempo, n)
    ensures RampSteps(loopTempo, increment, maxTempo, n) <= maxTempo || n == 0
  {
    RampStepsClosedForm(loopTempo, increment, maxTempo, m);
    RampStepsClosedForm(loopTempo, increment, maxTempo, n);
    assert m * increment <= n * increment by {
      assert (n - m) * increment >= 0;
    }
  }

  /**
   * The controller's state cells and refs. `pendingPlays` counts the
   * deferred `playPause` calls scheduled by `startLoop` and not yet run.
   */
  class PracticeSession {
    const player: Player
    var isActive: bool
    var startBar: int
    var endBar: int
    var loopTempo: int
    var isGradualIncrease: bool
    var tempoIncrement: int
    var maxTempo: int
    var currentLoopCount: nat
    var countInEnabled: bool
    var savedTempo: int
    var isLooping: bool
    var pendingPlays: nat

    constructor (player: Player)
      ensures this.player == player
      ensures !isActive && startBar == 1 && endBar == 4
      ensures loopTempo == 100 && !isGradualIncrease && tempoIncrement == 5 && maxTempo == 100
      ensures currentLoopCount == 0 && !countInEnabled
      ensures savedTempo == 100 && !isLooping && pendingPlays == 0
    {
      this.player := player;
      isActive, startBar, endBar := false, 1, 4;
      loopTempo, isGradualIncrease, tempoIncrement, maxTempo := 100, false, 5, 100;
      currentLoopCount, countInEnabled := 0, false;
      savedTempo, isLooping, pendingPlays := 100, false, 0;
    }

    /** The player and the session after `stopLoop`/`deactivate`: no range, no looping, tempo restored, counters cleared. */
    ghost predicate Stopped()
      reads this, player
    {
      && player.range == None
      && !player.looping
      && player.tempo == savedTempo
      && player.countIn == 0
      && currentLoopCount == 0
      && !isLooping
    }

    /** `activate`: captures the current tempo (on every call) and marks the session active. */
    method Activate(currentTempo: int)
      modifies this`savedTempo, this`isActive
      ensures savedTempo == currentTempo && isActive
    {
      savedTempo := currentTempo;
      isActive := true;
    }

    /** `stopLoop`: stops playback and undoes everything `startLoop` applied. */
    method StopLoop()
      modifies this`currentLoopCount, this`isLooping, player`playing, player`range,
               player`looping, player`tempo, player`speed, player`countIn
      ensures Stopped()
      ensures player.playing == (if player.hasApi then false else old(player.playing))
      ensures player.speed == (if player.hasApi then savedTempo else old(player.speed))
    {
      player.Stop();
      player.SetPlaybackRange(None);
      player.SetLooping(false);
      player.SetTempo(savedTempo);
      player.SetCountIn(0);
      isLooping := false;
      currentLoopCount := 0;
    }

    /** `deactivate`: the same five effects as `stopLoop`, and the session is no longer active. */
    method Deactivate()
      modifies this`isActive, this`currentLoopCount, this`isLooping, player`playing, player`range,
               player`looping, player`tempo, player`speed, player`countIn
      ensures Stopped() && !isActive
      ensures player.playing == (if player.hasApi then false else old(player.playing))
      ensures player.speed == (if player.hasApi then savedTempo else old(player.speed))
    {
      player.Stop();
      player.SetPlaybackRange(None);
      player.SetLooping(false);
      player.SetTempo(savedTempo);
      player.SetCountIn(0);
      isActive := false;
      currentLoopCount := 0;
      isLooping := false;
    }

    /** `setRange(start, end)`. */
    method SetRange(start: int, end: int)
      modifies this`startBar, this`endBar
      ensures (startBar, endBar) == NormalizedRange(start, end)
    {
      startBar := Max(1, start);
      endBar := Max(start, end);
    }

    method SetLoopTempo(tempo: int)
      modifies this`loopTempo
      ensures loopTempo == tempo
    {
      loopTempo := tempo;
    }

    method SetGradualIncrease(enabled: bool)
      modifies this`isGradualIncrease
      ensures isGradualIncrease == enabled
    {
      isGradualIncrease := enabled;
    }

    method SetTempoIncrement(increment: int)
      modifies this`tempoIncrement
      ensures tempoIncrement == increment
    {
      tempoIncrement := increment;
    }

    method SetMaxTempo(max: int)
      modifies this`maxTempo
      ensures maxTempo == max
    {
      maxTempo := max;
    }

    method ToggleCountIn()
      modifies this`countInEnabled
      ensures countInEnabled == !old(countInEnabled)
    {
      countInEnabled := !countInEnabled;
    }

    /**
     * `startLoop`: without a tick range nothing happens. Otherwise playback
     * stops, the range, looping, loop tempo and count-in go to the player,
     * the loop count restarts and one deferred `playPause` is scheduled.
     */
    method StartLoop()
      modifies this`currentLoopCount, this`isLooping, this`pendingPlays, player`playing, player`range,
               player`looping, player`tempo, player`speed, player`countIn
      ensures var r := TickRangeOf(old(player.score), startBar, endBar);
        if r.None? then
          && currentLoopCount == old(currentLoopCount) && isLooping == old(isLooping)
          && pendingPlays == old(pendingPlays)
          && unchanged(player)
        else
          && player.playing == (if player.hasApi then false else old(player.playing))
          && player.range == r
          && player.looping
          && player.tempo == loopTempo
          && player.speed == (if player.hasApi then loopTempo else old(player.speed))
          && player.countIn == (if countInEnabled then 1 else 0)
          && currentLoopCount == 0 && isLooping
          && pendingPlays == old(pendingPlays) + 1
    {
      var r := TickRangeOf(player.score, startBar, endBar);
      if r.None? {
        return;
      }
      player.Stop();
      player.SetPlaybackRange(r);
      player.SetLooping(true);
      player.SetTempo(loopTempo);
      player.SetCountIn(if countInEnabled then 1 else 0);
      currentLoopCount := 0;
      isLooping := true;
      pendingPlays := pendingPlays + 1;
    }

    /** The 50 ms timer of `startLoop` fires: the deferred `playPause` runs, unconditionally. */
    method FireDeferredPlay()
      modifies this`pendingPlays, player`playing
      ensures old(pendingPlays) == 0 ==> pendingPlays == 0 && player.playing == old(player.playing)
      ensures old(pendingPlays) > 0 ==>
        && pendingPlays == old(pendingPlays) - 1
        && player.playing == (if player.hasApi then !old(player.playing) else old(player.playing))
    {
      if pendingPlays > 0 {
        pendingPlays := pendingPlays - 1;
        player.PlayPause();
      }
    }

    /**
     * The `playerFinished` handler, subscribed only while the engine exists
     * and the session is active: when looping, one more loop is counted and,
     * with gradual increase on, the ramped tempo is stored and applied.
     */
    method PlayerFinished()
      modifies this`currentLoopCount, this`loopTempo, player`tempo, player`speed
      ensures !(player.hasApi && isActive && isLooping) ==>
        && currentLoopCount == old(currentLoopCount) && loopTempo == old(loopTempo)
        && player.tempo == old(player.tempo) && player.speed == old(player.speed)
      ensures player.hasApi && isActive && isLooping ==>
        && currentLoopCount == old(currentLoopCount) + 1
        && (isGradualIncrease ==>
              && loopTempo == RampedTempo(old(loopTempo), tempoIncrement, maxTempo)
              && player.tempo == loopTempo && player.speed == loopTempo)
        && (!isGradualIncrease ==>
              loopTempo == old(loopTempo) && player.tempo == old(player.tempo) && player.speed == old(player.speed))
    {
      if !player.hasApi || !isActive || !isLooping {
        return;
      }
      currentLoopCount := currentLoopCount + 1;
      if isGradualIncrease {
        var t := RampedTempo(loopTempo, tempoIncrement, maxTempo);
        loopTempo := t;
        player.SetTempo(t);
      }
    }
  }

  /**
   * Stopping twice leaves the state that stopping once does: a second
   * `stopLoop` (or `deactivate`) changes nothing further.
   */
  method StopTwice(s: PracticeSession, thenDeactivate: bool)
    modifies s`isActive, s`currentLoopCount, s`isLooping, s.player`playing, s.player`range,
             s.player`looping, s.player`tempo, s.player`speed, s.player`countIn
    ensures s.Stopped() && s.isActive == (if thenDeactivate then false else old(s.isActive))
    ensures s.savedTempo == old(s.savedTempo) && s.player.tempo == old(s.savedTempo)
    ensures s.player.playing == (if s.player.hasApi then false else old(s.player.playing))
    ensures s.player.speed == (if s.player.hasApi then old(s.savedTempo) else old(s.player.speed))
  {
    if thenDeactivate {
      s.Deactivate();
      s.Deactivate();
    } else {
      s.StopLoop();
      s.StopLoop();
    }
  }

  /**
   * A whole session: activate at some tempo, start a loop, let it finish
   * `n` times with gradual increase on, then deactivate. The loop tempo is
   * the `n`-step ramp and the player is back at the tempo captured by
   * `activate`, however many ramp steps ran.
   */
  method RampThenDeactivate(s: PracticeSession, currentTempo: int, n: nat)
    requires s.player.hasApi && s.isGradualIncrease
    requires TickRangeOf(s.player.score, s.startBar, s.endBar).Some?
    modifies s, s.player
    ensures s.loopTempo == RampSteps(old(s.loopTempo), s.tempoIncrement, s.maxTempo, n)
    ensures s.player.tempo == currentTempo && s.player.speed == currentTempo
    ensures s.Stopped() && !s.isActive
  {
    s.Activate(currentTempo);
    s.StartLoop();
    var k := 0;
    while k < n
      invariant 0 <= k <= n
      invariant s.isActive && s.isGradualIncrease && s.player.hasApi && s.isLooping
      invariant s.savedTempo == currentTempo
      invariant s.tempoIncrement == old(s.tempoIncrement) && s.maxTempo == old(s.maxTempo)
      invariant s.loopTempo == RampSteps(old(s.loopTempo), s.tempoIncrement, s.maxTempo, k)
    {
      s.PlayerFinished();
      k := k + 1;
    }
    s.Deactivate();
  }
}
