/**
 * The frame clock both demo hosts share: the elapsed time of a frame is the
 * mean of the last (up to 50) frame times, where a frame time that differs
 * from the current mean by a second or more is discarded as a timer spike;
 * and a frames-per-second counter that reports once more than a second has
 * accumulated. The performance counter arrives as parameters.
 */
module FrameClock {
  import opened Geometry

  /** MAX_SAMPLE_COUNT. */
  const MaxSampleCount: nat := 50

  /** s[0] + ... + s[n - 1]. */
  function Sum(s: seq<real>, n: nat): real
    requires n <= |s|
    decreases n
  {
    if n == 0 then 0.0 else Sum(s, n - 1) + s[n - 1]
  }

  /** The mean of the first n samples; 0 when there are none. */
  function Mean(s: seq<real>, n: nat): real
    requires n <= |s|
  {
    if n > 0 then Sum(s, n) / n as real else Sum(s, n)
  }

  /** A counter delta in seconds, at timeScale seconds per tick. */
  function ElapsedSince(started: int, counter: int, timeScale: real): real {
    (counter - started) as real * timeScale
  }

  /** A frame time is kept when it lies within a second of the current mean. */
  predicate Accepted(elapsedTimeSec: real, actualElapsedTimeSec: real) {
    Abs(elapsedTimeSec - actualElapsedTimeSec) < 1.0
  }

  /** The sample buffer after a kept frame time: the new time in front, the oldest dropped. */
  function Pushed(s: seq<real>, e: real): (r: seq<real>)
    requires |s| >= 1
    ensures |r| == |s| && r[0] == e
    ensures forall i :: 1 <= i < |s| ==> r[i] == s[i - 1]
  {
    [e] + s[..|s| - 1]
  }

  lemma {:induction false} SumOfConstant(s: seq<real>, n: nat, c: real)
    requires n <= |s|
    requires forall i :: 0 <= i < n ==> s[i] == c
    ensures Sum(s, n) == n as real * c
    decreases n
  {
    if n > 0 {
      SumOfConstant(s, n - 1, c);
      assert s[n - 1] == c;
      assert (n - 1) as real * c + c == n as real * c;
    }
  }

  /** A steady frame time is reported exactly. */
  lemma MeanOfConstant(s: seq<real>, n: nat, c: real)
    requires 0 < n <= |s|
    requires forall i :: 0 <= i < n ==> s[i] == c
    ensures Mean(s, n) == c
  {
    SumOfConstant(s, n, c);
    assert (n as real * c) / n as real == c;
  }

  lemma {:induction false} SumBounds(s: seq<real>, n: nat, lo: real, hi: real, t: real, total: real)
    requires n <= |s|
    requires forall i :: 0 <= i < n ==> lo <= s[i] <= hi
    requires t == n as real && total == Sum(s, n)
    ensures lo * t <= total <= hi * t
    decreases n
  {
    if n > 0 {
      SumBounds(s, n - 1, lo, hi, (n - 1) as real, Sum(s, n - 1));
      assert lo * t == lo * (n - 1) as real + lo;
      assert hi * t == hi * (n - 1) as real + hi;
    }
  }

  /** The reported time is an average: it lies between the smallest and largest sample. */
  lemma MeanWithinSamples(s: seq<real>, n: nat, lo: real, hi: real)
    requires 0 < n <= |s|
    requires forall i :: 0 <= i < n ==> lo <= s[i] <= hi
    ensures lo <= Mean(s, n) <= hi
  {
    SumBounds(s, n, lo, hi, n as real, Sum(s, n));
    DivisionBounds(Sum(s, n), n as real, lo, hi);
  }

  class FrameTimer {
    /** frameTimes, newest first. */
    const frameTimes: array<real>
    var actualElapsedTimeSec: real
    var sampleCount: nat
    var timeScale: real
    var lastTime: int
    var initialized: bool

    /**
     * The buffer holds MAX_SAMPLE_COUNT entries, at most that many are in
     * use, and the recorded elapsed time is the mean of those in use.
     */
    predicate Valid()
      reads this, frameTimes
    {
      frameTimes.Length == MaxSampleCount && sampleCount <= MaxSampleCount
      && actualElapsedTimeSec == Mean(frameTimes[..], sampleCount)
    }

    /** The zero-initialised statics. */
    constructor ()
      ensures Valid() && fresh(frameTimes) && !initialized
      ensures frameTimes[..] == seq(MaxSampleCount, _ => 0.0)
      ensures actualElapsedTimeSec == 0.0 && sampleCount == 0 && timeScale == 0.0 && lastTime == 0
    {
      frameTimes := new real[MaxSampleCount](_ => 0.0);
      actualElapsedTimeSec := 0.0;
      sampleCount := 0;
      timeScale := 0.0;
      lastTime := 0;
      initialized := false;
    }

    /**
     * The mean of the first sampleCount entries, summed in order and
     * divided by the count when there is one.
     */
    method Average() returns (mean: real)
      requires frameTimes.Length == MaxSampleCount && sampleCount <= MaxSampleCount
      ensures mean == Mean(frameTimes[..], sampleCount)
    {
      var s := frameTimes[..];
      mean := 0.0;
      for i := 0 to sampleCount
        invariant mean == Sum(s, i)
      {
        mean := mean + s[i];
      }
      if sampleCount > 0 {
        mean := mean / sampleCount as real;
      }
    }

    /**
     * One frame: on the first call the counter frequency and a starting
     * count are taken (startCounter); the frame time is the counter delta
     * scaled by 1/frequency. A frame time within a second of the current
     * mean is pushed to the front of the buffer (the count grows up to
     * MAX_SAMPLE_COUNT); a spike is discarded and the reported time stays
     * where it was. The result is the new mean.
     */
    method GetElapsedTimeInSeconds(frequency: int, startCounter: int, counter: int) returns (r: real)
      requires Valid() && (!initialized ==> frequency != 0)
      modifies this, frameTimes
      ensures Valid() && initialized && lastTime == counter
      ensures timeScale == if old(initialized) then old(timeScale) else 1.0 / frequency as real
      ensures var started := if old(initialized) then old(lastTime) else startCounter;
        var e := ElapsedSince(started, counter, timeScale);
        if Accepted(e, old(actualElapsedTimeSec)) then
          frameTimes[..] == Pushed(old(frameTimes[..]), e)
          && sampleCount == (if old(sampleCount) < MaxSampleCount then old(sampleCount) + 1 else MaxSampleCount)
        else
          frameTimes[..] == old(frameTimes[..]) && sampleCount == old(sampleCount)
          && r == old(actualElapsedTimeSec)
      ensures r == actualElapsedTimeSec == Mean(frameTimes[..], sampleCount)
      ensures sampleCount >= old(sampleCount)
    {
      if !initialized {
        initialized := true;
        lastTime := startCounter;
        timeScale := 1.0 / frequency as real;
      }
      var elapsedTimeSec := ElapsedSince(lastTime, counter, timeScale);
      lastTime := counter;

      if Accepted(elapsedTimeSec, actualElapsedTimeSec) {
        forall i | 1 <= i < MaxSampleCount {
          frameTimes[i] := frameTimes[i - 1];
        }
        frameTimes[0] := elapsedTimeSec;
        assert frameTimes[..] == Pushed(old(frameTimes[..]), elapsedTimeSec);
        if sampleCount < MaxSampleCount {
          sampleCount := sampleCount + 1;
        }
      }

      actualElapsedTimeSec := Average();
      r := actualElapsedTimeSec;
    }
  }

  class FrameRate {
    var accumTimeSec: real
    var frames: int
    /** g_framesPerSecond. */
    var framesPerSecond: int

    /** Between reports less than a second (or exactly one) has accumulated. */
    predicate Valid()
      reads this
    {
      accumTimeSec <= 1.0 && frames >= 0 && framesPerSecond >= 0
    }

    constructor ()
      ensures Valid() && accumTimeSec == 0.0 && frames == 0 && framesPerSecond == 0
    {
      accumTimeSec := 0.0;
      frames := 0;
      framesPerSecond := 0;
    }

    /**
     * Adds the frame time; once more than a second has accumulated the
     * frames counted so far are reported and both counters restart;
     * otherwise the frame is counted.
     */
    method UpdateFrameRate(elapsedTimeSec: real)
      requires Valid()
      modifies this
      ensures Valid()
      ensures old(accumTimeSec) + elapsedTimeSec > 1.0 ==>
        framesPerSecond == old(frames) && frames == 0 && accumTimeSec == 0.0
      ensures old(accumTimeSec) + elapsedTimeSec <= 1.0 ==>
        framesPerSecond == old(framesPerSecond) && frames == old(frames) + 1
        && accumTimeSec == old(accumTimeSec) + elapsedTimeSec
    {
      accumTimeSec := accumTimeSec + elapsedTimeSec;
      if accumTimeSec > 1.0 {
        framesPerSecond := frames;
        frames := 0;
        accumTimeSec := 0.0;
      } else {
        frames := frames + 1;
      }
    }
  }
}
