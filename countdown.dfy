/**
 * The countdown between rounds: it waits for the theme's assets, then
 * counts down from three, one step per interval, and on the last step
 * stops itself and announces that play resumes.
 */
module Countdowns {
  /** The steps a countdown takes before play resumes. */
  const IntervalCount: int := 3
  /** The interval between steps, in milliseconds. */
  const IntervalLength: nat := 650
  /** The delay before retrying a start while the assets load, in milliseconds. */
  const RetryDelay: nat := 100
  /** The flash colour when the winner has no colour of its own. */
  const DefaultFlash: string := "#ff4d4d"

  /** The winner a countdown starts for: a player number, or none. */
  datatype Winner = NoWinner | Player(index: int)

  /**
   * The flash colour: the winner's theme colour when the winner is a number
   * with a non-empty colour in the theme, the default otherwise.
   */
  function FlashColor(winner: Winner, colors: seq<string>): (c: string)
    ensures c == DefaultFlash || c in colors
    ensures winner.Player? && 0 <= winner.index < |colors| && colors[winner.index] != "" ==>
      c == colors[winner.index]
    ensures (winner.NoWinner? || winner.index < 0 || winner.index >= |colors|) ==> c == DefaultFlash
  {
    if winner.Player? && 0 <= winner.index < |colors| && colors[winner.index] != "" then colors[winner.index]
    else DefaultFlash
  }

  /** One step of the interval: the count after it, and whether it stops the countdown. */
  function Step(count: int): (int, bool)
  {
    if count > 1 then (count - 1, false) else (count, true)
  }

  /** The count after `steps` steps, none of which stopped the countdown. */
  function CountAfter(count: int, steps: nat): int
  {
    if steps == 0 then count else Step(CountAfter(count, steps - 1)).0
  }

  /** Whether the step after `steps` earlier steps is the one that stops the countdown. */
  function StopsAt(count: int, steps: nat): bool
  {
    Step(CountAfter(count, steps)).1
  }

  /**
   * From a count of c >= 1, each step lowers the count by one until it is
   * one, and the step with c - 1 steps before it (the c-th) is the first
   * that stops the countdown.
   */
  lemma {:induction false} StopsOnCthStep(c: int, steps: nat)
    requires c >= 1
    ensures steps < c ==> CountAfter(c, steps) == c - steps
    ensures StopsAt(c, steps) <==> steps >= c - 1
  {
    if steps > 0 {
      StopsOnCthStep(c, steps - 1);
    }
  }

  /** A started countdown announces play on its third step, three intervals after it starts. */
  lemma PlayAfterThreeSteps()
    ensures !StopsAt(IntervalCount, 0) && !StopsAt(IntervalCount, 1) && StopsAt(IntervalCount, 2)
  {
    StopsOnCthStep(IntervalCount, 0);
    StopsOnCthStep(IntervalCount, 1);
    StopsOnCthStep(IntervalCount, 2);
  }

  /** What a call asks of the browser: nothing, a retry after a delay, or a repeating interval. */
  datatype Request = NoRequest | RetryAfter(delay: nat) | Every(period: nat)

  /** The countdown: the current count, the running interval's id (0 when none), and the flash. */
  class Countdown {
    var interval: nat
    var count: int
    var flashColor: string
    var flashOpacity: real

    constructor ()
      ensures interval == 0 && count == 0 && flashColor == DefaultFlash && flashOpacity == 1.0
    {
      interval := 0;
      count := 0;
      flashColor := DefaultFlash;
      flashOpacity := 1.0;
    }

    /**
     * startTimer: the count is set to three and the flash to full; while
     * the assets load, the start is retried after a delay and nothing else
     * changes; otherwise the flash takes the winner's colour and the
     * interval starts, under the id the browser gives it.
     */
    method StartTimer(winner: Winner, assetsLoaded: bool, colors: seq<string>, id: nat) returns (request: Request)
      requires id > 0
      modifies this
      ensures count == IntervalCount && flashOpacity == 1.0
      ensures !assetsLoaded ==>
        request == RetryAfter(RetryDelay) && interval == old(interval) && flashColor == old(flashColor)
      ensures assetsLoaded ==>
        request == Every(IntervalLength) && interval == id && flashColor == FlashColor(winner, colors)
    {
      count := IntervalCount;
      flashOpacity := 1.0;
      if !assetsLoaded {
        return RetryAfter(RetryDelay);
      }
      flashColor := FlashColor(winner, colors);
      interval := id;
      request := Every(IntervalLength);
    }

    /**
     * One firing of the interval: the count goes down while it is above
     * one; otherwise the timer stops, the interval id is cleared and play
     * is announced.
     */
    method Tick() returns (play: bool)
      modifies this
      ensures (count, play) == Step(old(count))
      ensures play ==> interval == 0
      ensures !play ==> interval == old(interval) && count < old(count)
      ensures flashColor == old(flashColor) && flashOpacity == old(flashOpacity)
    {
      if count > 1 {
        count := count - 1;
        play := false;
      } else {
        play := StopTimer();
      }
    }

    /** stopTimer: the interval is cleared and play is announced. */
    method StopTimer() returns (play: bool)
      modifies this
      ensures interval == 0 && play
      ensures count == old(count) && flashColor == old(flashColor) && flashOpacity == old(flashOpacity)
    {
      interval := 0;
      play := true;
    }
  }
}
