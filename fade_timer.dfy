/**
 * A fade-in / hold / fade-out cycle driven by elapsed milliseconds
 * (src/FadeTimer.cpp, include/FadeTimer.h).
 *
 * The steady clock is a parameter: time points are integer milliseconds.
 * Durations are uint64, so the elapsed time and the summed phase bounds
 * wrap modulo 2^64 exactly as the unsigned arithmetic does.
 */
module FadeTimers {
  import opened Wrappers

  const U64Modulus: int := 0x1_0000_0000_0000_0000
  type U64 = n: int | 0 <= n < U64Modulus

  datatype Phase = In | Hold | Out | Idle

  /** Wrapping uint64 addition. */
  function Add64(a: U64, b: U64): U64
  {
    (a + b) % U64Modulus
  }

  /** A signed millisecond count stored in a uint64. */
  function ToU64(n: int): U64
  {
    n % U64Modulus
  }

  /** The position of a phase in the cycle In, Hold, Out, Idle. */
  function Rank(p: Phase): nat
  {
    match p
    case In => 0
    case Hold => 1
    case Out => 2
    case Idle => 3
  }

  /** The phase `update` assigns after `elapsed` milliseconds of an active cycle. */
  function PhaseAt(elapsed: U64, fadeIn: U64, hold: U64, fadeOut: U64): (p: Phase)
    ensures p == In <==> elapsed < fadeIn
    ensures p == Hold <==> fadeIn <= elapsed < Add64(fadeIn, hold)
    ensures p == Out <==> fadeIn <= elapsed && Add64(fadeIn, hold) <= elapsed < Add64(Add64(fadeIn, hold), fadeOut)
  {
    if elapsed < fadeIn then In
    else if elapsed < Add64(fadeIn, hold) then Hold
    else if elapsed < Add64(Add64(fadeIn, hold), fadeOut) then Out
    else Idle
  }

  /**
   * Without wrap-around in the phase bounds, a later moment is never in an
   * earlier phase: In, Hold, Out, Idle follow one another in order.
   */
  lemma PhaseMonotone(e1: U64, e2: U64, fadeIn: U64, hold: U64, fadeOut: U64)
    requires fadeIn + hold + fadeOut < U64Modulus
    requires e1 <= e2
    ensures Rank(PhaseAt(e1, fadeIn, hold, fadeOut)) <= Rank(PhaseAt(e2, fadeIn, hold, fadeOut))
  {
    assert Add64(fadeIn, hold) == fadeIn + hold;
    assert Add64(Add64(fadeIn, hold), fadeOut) == fadeIn + hold + fadeOut;
  }

  /**
   * Without wrap-around the phases are the intervals [0, in), [in, in+hold),
   * [in+hold, in+hold+out) and the rest.
   */
  lemma PhaseIntervals(e: U64, fadeIn: U64, hold: U64, fadeOut: U64)
    requires fadeIn + hold + fadeOut < U64Modulus
    ensures PhaseAt(e, fadeIn, hold, fadeOut) == Hold <==> fadeIn <= e < fadeIn + hold
    ensures PhaseAt(e, fadeIn, hold, fadeOut) == Out <==> fadeIn + hold <= e < fadeIn + hold + fadeOut
    ensures PhaseAt(e, fadeIn, hold, fadeOut) == Idle <==> fadeIn + hold + fadeOut <= e
  {
    assert Add64(fadeIn, hold) == fadeIn + hold;
    assert Add64(Add64(fadeIn, hold), fadeOut) == fadeIn + hold + fadeOut;
  }

  class FadeTimer {
    var fadeInDuration: U64
    var holdDuration: U64
    var fadeOutDuration: U64
    var startTime: int
    var currentPhase: Phase

    constructor ()
      ensures fadeInDuration == 500 && holdDuration == 1000 && fadeOutDuration == 500
      ensures currentPhase == Idle
    {
      fadeInDuration := 500;
      holdDuration := 1000;
      fadeOutDuration := 500;
      startTime := 0;
      currentPhase := Idle;
    }

    /** Replaces the three durations; the phase and start time stay. */
    method Configure(fadeInMs: U64, holdMs: U64, fadeOutMs: U64)
      modifies this`fadeInDuration, this`holdDuration, this`fadeOutDuration
      ensures fadeInDuration == fadeInMs && holdDuration == holdMs && fadeOutDuration == fadeOutMs
    {
      fadeInDuration := fadeInMs;
      holdDuration := holdMs;
      fadeOutDuration := fadeOutMs;
    }

    /** Starts the cycle at time `now`. */
    method Start(now: int)
      modifies this`startTime, this`currentPhase
      ensures startTime == now && currentPhase == In
    {
      startTime := now;
      currentPhase := In;
    }

    /** Elapsed milliseconds since the start, as the uint64 the source computes. */
    function Elapsed(now: int): U64
      reads this
    {
      ToU64(now - startTime)
    }

    /** Advances the phase to the one for time `now`; an idle timer stays idle. */
    method Update(now: int)
      modifies this`currentPhase
      ensures old(currentPhase) == Idle ==> currentPhase == Idle
      ensures old(currentPhase) != Idle ==>
        currentPhase == PhaseAt(Elapsed(now), fadeInDuration, holdDuration, fadeOutDuration)
    {
      if currentPhase == Idle {
        return;
      }
      var elapsed := ToU64(now - startTime);
      if elapsed < fadeInDuration {
        currentPhase := In;
      } else if elapsed < Add64(fadeInDuration, holdDuration) {
        currentPhase := Hold;
      } else if elapsed < Add64(Add64(fadeInDuration, holdDuration), fadeOutDuration) {
        currentPhase := Out;
      } else {
        currentPhase := Idle;
      }
    }

    /**
     * The opacity at time `now`: 0 when idle, 1 while holding, a linear ramp
     * while fading. A ramp over a zero duration divides by zero in floating
     * point; that case gives None here.
     */
    method GetAlpha(now: int) returns (alpha: Option<real>)
      ensures currentPhase == Idle ==> alpha == Some(0.0)
      ensures currentPhase == Hold ==> alpha == Some(1.0)
      ensures currentPhase == In ==>
        alpha == (if fadeInDuration == 0 then None
                  else Some(Elapsed(now) as real / fadeInDuration as real))
      ensures currentPhase == Out ==>
        alpha == (if fadeOutDuration == 0 then None
                  else Some(1.0 - ToU64(Elapsed(now) - Add64(fadeInDuration, holdDuration)) as real
                                  / fadeOutDuration as real))
      ensures currentPhase == In && fadeInDuration > 0 && Elapsed(now) <= fadeInDuration ==>
        alpha.Some? && 0.0 <= alpha.value <= 1.0
    {
      if currentPhase == Idle {
        return Some(0.0);
      }
      var t := ToU64(now - startTime);
      if currentPhase == In {
        if fadeInDuration == 0 {
          return None;
        }
        return Some(t as real / fadeInDuration as real);
      } else if currentPhase == Hold {
        return Some(1.0);
      } else {
        if fadeOutDuration == 0 {
          return None;
        }
        var tOut := ToU64(t - Add64(fadeInDuration, holdDuration));
        return Some(1.0 - tOut as real / fadeOutDuration as real);
      }
    }

    /** The phase the last Start or Update left the timer in. */
    function GetPhase(): (p: Phase)
      reads this
      ensures p == currentPhase
    {
      currentPhase
    }
  }
}
