// The circular countdown of the sensor-binding screen: a whole-second
// counter decremented by an interval until it reaches zero, beside an
// animation that reports completion.
module Countdown {
  import opened Common

  /** The duration used when none is given, in seconds. */
  const DefaultDuration: int := 60

  /** The interval's state updater: one second less, and 0 once the time
      is 1 or less. */
  function Tick(time: int): (next: int)
    ensures 0 <= next
    ensures next == 0 <==> time <= 1
    ensures time > 1 ==> next == time - 1
  {
    if time <= 1 then 0 else time - 1
  }

  /** The remaining time after k ticks. */
  function AfterTicks(duration: int, k: nat): (time: int)
    ensures k > 0 ==> 0 <= time
  {
    if k == 0 then duration else Tick(AfterTicks(duration, k - 1))
  }

  /** From a whole duration d >= 0, k ticks leave max(d - k, 0). */
  lemma {:induction false} AfterTicksSaturates(d: int, k: nat)
    requires 0 <= d
    ensures AfterTicks(d, k) == if d - k > 0 then d - k else 0
  {
    if k > 0 {
      AfterTicksSaturates(d, k - 1);
    }
  }

  /** Once at 0 the time stays 0. */
  lemma {:induction false} ZeroIsFinal(d: int, k: nat, more: nat)
    requires AfterTicks(d, k) == 0
    ensures AfterTicks(d, k + more) == 0
  {
    if more > 0 {
      ZeroIsFinal(d, k, more - 1);
    }
  }

  class CircularTimer {
    var duration: int
    var hasOnComplete: bool
    var remainingTime: int
    var intervalActive: bool
    var completions: nat

    // The duration the state was initialised with and the ticks applied.
    ghost var initial: int
    ghost var ticks: nat

    ghost predicate Valid()
      reads this
    {
      remainingTime == AfterTicks(initial, ticks)
    }

    /** Mount: the state starts at the duration (60 by default) and the
        effect starts the interval and the animation. */
    constructor (duration: Option<int>, hasOnComplete: bool)
      ensures Valid()
      ensures this.duration == (if duration.Some? then duration.value else DefaultDuration)
      ensures remainingTime == this.duration && intervalActive
      ensures this.hasOnComplete == hasOnComplete && completions == 0
    {
      this.duration := if duration.Some? then duration.value else DefaultDuration;
      this.hasOnComplete := hasOnComplete;
      remainingTime := this.duration;
      intervalActive := true;
      completions := 0;
      initial, ticks := this.duration, 0;
    }

    /** The interval fires; the updater clears the interval when it yields 0. */
    method IntervalFired()
      requires Valid() && intervalActive
      modifies this
      ensures Valid() && ticks == old(ticks) + 1 && initial == old(initial)
      ensures remainingTime == Tick(old(remainingTime))
      ensures intervalActive <==> remainingTime != 0
      ensures duration == old(duration) && hasOnComplete == old(hasOnComplete)
      ensures completions == old(completions)
    {
      remainingTime := Tick(remainingTime);
      ticks := ticks + 1;
      if remainingTime == 0 {
        intervalActive := false;
      }
    }

    /** The animation ends; onComplete runs only for a finished animation
        when a callback was supplied. */
    method AnimationEnded(finished: bool)
      modifies this`completions
      ensures completions == old(completions) + if finished && hasOnComplete then 1 else 0
    {
      if finished && hasOnComplete {
        completions := completions + 1;
      }
    }

    /** New duration or onComplete props: the effect is cleaned up and runs
        again, so a fresh interval starts, but the remaining time is not
        reset to the new duration. */
    method PropsChanged(newDuration: int, newHasOnComplete: bool)
      requires Valid()
      modifies this`duration, this`hasOnComplete, this`intervalActive
      ensures Valid() && intervalActive
      ensures duration == newDuration && hasOnComplete == newHasOnComplete
    {
      duration, hasOnComplete := newDuration, newHasOnComplete;
      intervalActive := true;
    }

    /** Unmount: the interval is cleared. */
    method Unmount()
      modifies this`intervalActive
      ensures !intervalActive
    {
      intervalActive := false;
    }
  }
}
