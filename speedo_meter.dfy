/**
 * A rolling buffer of movement samples and a wrap-around counter used to
 * debug entity speed (include/SpeedoMeter.h).
 */
module SpeedoMeters {

  /** The sum of the samples, accumulated from the front. */
  function Sum(s: seq<real>): real
  {
    if s == [] then 0.0 else Sum(s[..|s| - 1]) + s[|s| - 1]
  }

  /** The mean of the samples, 0 for none. */
  function Average(s: seq<real>): (avg: real)
    ensures s == [] ==> avg == 0.0
    ensures s != [] ==> avg * (|s| as real) == Sum(s)
  {
    if s == [] then 0.0 else Sum(s) / (|s| as real)
  }

  /** Every sample lies within [lo, hi]. */
  predicate Bounded(s: seq<real>, lo: real, hi: real)
  {
    forall i :: 0 <= i < |s| ==> lo <= s[i] <= hi
  }

  lemma {:induction false} SumBounds(s: seq<real>, lo: real, hi: real)
    requires Bounded(s, lo, hi)
    ensures (|s| as real) * lo <= Sum(s) <= (|s| as real) * hi
  {
    if s != [] {
      SumBounds(s[..|s| - 1], lo, hi);
    }
  }

  /** The average of samples within [lo, hi] is itself within [lo, hi]. */
  lemma AverageBounds(s: seq<real>, lo: real, hi: real)
    requires s != [] && Bounded(s, lo, hi)
    ensures lo <= Average(s) <= hi
  {
    SumBounds(s, lo, hi);
    var n := |s| as real;
    assert (Average(s) - lo) * n == Sum(s) - n * lo;
    assert (hi - Average(s)) * n == n * hi - Sum(s);
  }

  /**
   * The buffer after adding a sample: the oldest sample is dropped first
   * when the buffer already holds numSamples or more. The size comparison
   * is between size_t and int, so a negative numSamples never drops.
   */
  function Push(samples: seq<real>, numSamples: int, x: real): (r: seq<real>)
    requires !(numSamples == 0 && samples == [])
    ensures |r| >= 1 && r[|r| - 1] == x
    ensures numSamples >= 0 && |samples| >= numSamples ==> r == samples[1..] + [x]
    ensures !(numSamples >= 0 && |samples| >= numSamples) ==> r == samples + [x]
  {
    if numSamples >= 0 && |samples| >= numSamples then samples[1..] + [x] else samples + [x]
  }

  /** A buffer that starts within its capacity stays within it. */
  lemma PushKeepsCapacity(samples: seq<real>, numSamples: int, x: real)
    requires numSamples >= 1 && |samples| <= numSamples
    ensures |Push(samples, numSamples, x)| <= numSamples
    ensures |samples| < numSamples ==> |Push(samples, numSamples, x)| == |samples| + 1
  {
  }

  class SpeedoMeter {
    var counter: int
    var numSamples: int
    var samples: seq<real>

    /** A buffer of positive capacity never holds more than numSamples samples. */
    ghost predicate Valid()
      reads this
    {
      numSamples >= 1 ==> |samples| <= numSamples
    }

    constructor (numSamples: int)
      ensures Valid()
      ensures this.numSamples == numSamples && samples == [] && counter == 0
    {
      this.numSamples := numSamples;
      samples := [];
      counter := 0;
    }

    /**
     * Records a sample and advances the counter; answers true, and restarts
     * the counter, when it reaches counterToTrue. With numSamples == 0 the
     * first call would erase from an empty vector, which the source does not
     * guard.
     */
    method Update(moveDistance: real, counterToTrue: int) returns (fire: bool)
      requires Valid()
      requires !(numSamples == 0 && samples == [])
      modifies this`samples, this`counter
      ensures Valid()
      ensures samples == Push(old(samples), numSamples, moveDistance)
      ensures fire <==> old(counter) + 1 >= counterToTrue
      ensures fire ==> counter == 0
      ensures !fire ==> counter == old(counter) + 1
    {
      if numSamples >= 0 && |samples| >= numSamples {
        samples := samples[1..];
      }
      samples := samples + [moveDistance];
      counter := counter + 1;
      if counter >= counterToTrue {
        counter := 0;
        return true;
      }
      return false;
    }

    function GetAverage(): (avg: real)
      reads this
      ensures samples == [] ==> avg == 0.0
      ensures samples != [] ==> avg * (|samples| as real) == Sum(samples)
    {
      Average(samples)
    }
  }
}
