/** The frame loop `detectFrame`: the gate on the inference worker being
    started, and the rolling window `pastFrameTimes` of the last 30
    inter-frame delays from which the frame rate is estimated. */
module FrameLoop {
  import opened DisplayGate

  datatype Option<T> = None | Some(value: T)

  /** Capacity of `pastFrameTimes`. */
  const WindowSize: nat := 30

  /** `if (prevTime)`: set, and not the falsy value 0. */
  predicate IsTruthy(t: Option<int>) {
    t.Some? && t.value != 0
  }

  /** `!workerId` is false: the worker id is set and not the empty string. */
  predicate WorkerReady(id: Option<string>) {
    id.Some? && id.value != ""
  }

  /** `push` of a sample, then `shift` of the oldest one if more than
      `WindowSize` are held. */
  function Slide(w: seq<int>, sample: int): (r: seq<int>)
    ensures |w| <= WindowSize ==> |r| == if |w| < WindowSize then |w| + 1 else WindowSize
    ensures |r| <= |w| + 1
    ensures r != [] && r[|r| - 1] == sample
  {
    var pushed := w + [sample];
    if |pushed| > WindowSize then pushed[1..] else pushed
  }

  /** The last `n` elements of `s`, or all of them if there are fewer. */
  function LastN(s: seq<int>, n: nat): seq<int> {
    if |s| <= n then s else s[|s| - n..]
  }

  lemma SlideLastN(s: seq<int>, sample: int)
    ensures Slide(LastN(s, WindowSize), sample) == LastN(s + [sample], WindowSize)
  {
    if |s| >= WindowSize {
      assert (s[|s| - WindowSize..] + [sample])[1..] == (s + [sample])[|s| + 1 - WindowSize..];
    }
  }

  /** `prevTime` and `pastFrameTimes`. */
  datatype Timing = Timing(prevTime: Option<int>, pastFrameTimes: seq<int>)

  const InitialTiming: Timing := Timing(None, [])

  /** What one successful inference completion at time `now` does to the timing state. */
  function Complete(t: Timing, now: int): Timing {
    var w := if IsTruthy(t.prevTime) then Slide(t.pastFrameTimes, now - t.prevTime.value)
             else t.pastFrameTimes;
    Timing(Some(now), w)
  }

  /** The timing state after completions at the times `times`, in order. */
  function CompleteAll(t: Timing, times: seq<int>): Timing
    decreases |times|
  {
    if times == [] then t else Complete(CompleteAll(t, times[..|times| - 1]), times[|times| - 1])
  }

  /** The delays between consecutive completion times, oldest first. */
  function Deltas(times: seq<int>): (r: seq<int>)
    ensures |times| > 0 ==> |r| == |times| - 1
    decreases |times|
  {
    if |times| < 2 then [] else [times[1] - times[0]] + Deltas(times[1..])
  }

  /** Delay `i` is the time between completions `i` and `i + 1`. */
  lemma {:induction false} DeltaAt(times: seq<int>, i: nat)
    requires i + 1 < |times|
    ensures Deltas(times)[i] == times[i + 1] - times[i]
    decreases |times|
  {
    if i > 0 {
      DeltaAt(times[1..], i - 1);
    }
  }

  /** Appending a time appends one delay, measured from the previous last time. */
  lemma {:induction false} DeltasSnoc(times: seq<int>, now: int)
    requires times != []
    ensures Deltas(times + [now]) == Deltas(times) + [now - times[|times| - 1]]
    decreases |times|
  {
    var longer := times + [now];
    if |times| == 1 {
      assert longer[1..] == [now];
    } else {
      assert longer[1..] == times[1..] + [now];
      DeltasSnoc(times[1..], now);
    }
  }

  /** A completion after one at a non-zero time slides the delay since then into the window. */
  lemma CompleteSlides(t: Timing, now: int)
    requires IsTruthy(t.prevTime)
    ensures Complete(t, now) == Timing(Some(now), Slide(t.pastFrameTimes, now - t.prevTime.value))
  {
  }

  /** If the window holds the last delays of `ds`, one more completion makes
      it hold the last delays of `ds` followed by the new delay. */
  lemma CompleteSlidesWindow(t: Timing, now: int, ds: seq<int>)
    requires IsTruthy(t.prevTime)
    requires t.pastFrameTimes == LastN(ds, WindowSize)
    ensures Complete(t, now).pastFrameTimes == LastN(ds + [now - t.prevTime.value], WindowSize)
  {
    CompleteSlides(t, now);
    SlideLastN(ds, now - t.prevTime.value);
  }

  /** From the initial state, after completions at non-zero times, `prevTime`
      is the last time and `pastFrameTimes` holds the last (at most 30)
      delays between consecutive completions, oldest first. The first
      completion records no sample. */
  lemma {:induction false} WindowHoldsLastDeltas(times: seq<int>)
    requires forall i :: 0 <= i < |times| ==> times[i] != 0
    ensures times == [] ==> CompleteAll(InitialTiming, times) == InitialTiming
    ensures times != [] ==> CompleteAll(InitialTiming, times).prevTime == Some(times[|times| - 1])
    ensures CompleteAll(InitialTiming, times).pastFrameTimes == LastN(Deltas(times), WindowSize)
    decreases |times|
  {
    if times != [] {
      var prefix, now := times[..|times| - 1], times[|times| - 1];
      assert forall i :: 0 <= i < |prefix| ==> prefix[i] == times[i];
      WindowHoldsLastDeltas(prefix);
      if prefix != [] {
        var before := CompleteAll(InitialTiming, prefix);
        var delay := now - prefix[|prefix| - 1];
        assert CompleteAll(InitialTiming, times) == Complete(before, now);
        CompleteSlidesWindow(before, now, Deltas(prefix));
        assert Deltas(times) == Deltas(prefix) + [delay] by {
          assert times == prefix + [now];
          DeltasSnoc(prefix, now);
        }
      }
    }
  }

  /** Each completion keeps the window within its capacity. */
  lemma CompleteKeepsBound(t: Timing, now: int)
    requires |t.pastFrameTimes| <= WindowSize
    ensures |Complete(t, now).pastFrameTimes| <= WindowSize
  {
  }

  /** The running total of `_.each`: the delays in seconds, added in order. */
  function SumSeconds(w: seq<int>): real
    decreases |w|
  {
    if w == [] then 0.0 else SumSeconds(w[..|w| - 1]) + (w[|w| - 1] as real) / 1000.0
  }

  /** `pastFrameTimes.length / total`. */
  function Fps(w: seq<int>): (r: real)
    requires SumSeconds(w) != 0.0
    ensures r * SumSeconds(w) == |w| as real
  {
    |w| as real / SumSeconds(w)
  }

  /** A steady delay of `d` ms over the whole window sums to `|w| * d / 1000` seconds. */
  lemma {:induction false} SteadySum(w: seq<int>, d: int)
    requires forall i :: 0 <= i < |w| ==> w[i] == d
    ensures SumSeconds(w) == (|w| as real) * (d as real) / 1000.0
    decreases |w|
  {
    if w != [] {
      SteadySum(w[..|w| - 1], d);
    }
  }

  /** `n` frames over `n * delay / 1000` seconds is `1000 / delay` frames per second. */
  lemma QuotientOfScaled(n: real, delay: real)
    requires n > 0.0 && delay > 0.0
    ensures n * delay / 1000.0 > 0.0
    ensures n / (n * delay / 1000.0) == 1000.0 / delay
  {
  }

  /** With a steady positive delay of `d` ms the estimate is `1000 / d`
      frames per second (30 delays of 100 ms give 10). */
  lemma SteadyRate(w: seq<int>, d: int)
    requires w != [] && d > 0
    requires forall i :: 0 <= i < |w| ==> w[i] == d
    ensures SumSeconds(w) > 0.0
    ensures Fps(w) == 1000.0 / (d as real)
  {
    SteadySum(w, d);
    QuotientOfScaled(|w| as real, d as real);
  }

  /** What a completion shows in the `#fps` element: nothing on the first
      completion, else the quotient, which JavaScript makes `Infinity` when
      the total is zero. Rounding is not modelled. */
  datatype FpsReading = NotMeasured | Rate(fps: real) | Infinite

  /** The outcome of `inferEngine.infer`: the predictions (each given by its
      text-service reply and time) or a rejected promise. */
  datatype InferenceOutcome = Predictions(observations: seq<Observation>) | InferenceFailed

  /** The loop's closure variables; `display` holds the gate's two variables. */
  class FrameLoop {
    var workerId: Option<string>
    var prevTime: Option<int>
    var pastFrameTimes: seq<int>
    const display: DisplayState

    function Clock(): Timing
      reads this
    {
      Timing(prevTime, pastFrameTimes)
    }

    ghost predicate Valid()
      reads this, display
    {
      |pastFrameTimes| <= WindowSize && display.Valid()
    }

    constructor (display: DisplayState)
      requires display.Valid()
      ensures Valid() && this.display == display
      ensures workerId == None && Clock() == InitialTiming
    {
      this.display := display;
      workerId := None;
      prevTime := None;
      pastFrameTimes := [];
    }

    /** `workerId = id` once the worker has started. */
    method WorkerStarted(id: string)
      modifies this`workerId
      ensures workerId == Some(id)
    {
      workerId := Some(id);
    }

    /** The `_.each` over the window: the delays in seconds, added in order. */
    static method TotalSeconds(w: seq<int>) returns (total: real)
      ensures total == SumSeconds(w)
    {
      total := 0.0;
      for i := 0 to |w|
        invariant total == SumSeconds(w[..i])
      {
        assert w[..i + 1][..i] == w[..i];
        total := total + (w[i] as real) / 1000.0;
      }
      assert w[..|w|] == w;
    }

    /** The timing part of the inference callback: record the delay since the
        previous completion (if there was one), keep the last 30 delays, sum
        them and estimate the rate; then remember `now`. */
    method RecordFrameTime(now: int) returns (reading: FpsReading)
      requires Valid()
      modifies this`prevTime, this`pastFrameTimes
      ensures Valid()
      ensures Clock() == Complete(old(Clock()), now)
      ensures !IsTruthy(old(prevTime)) ==> reading == NotMeasured
      ensures IsTruthy(old(prevTime)) && SumSeconds(pastFrameTimes) == 0.0 ==> reading == Infinite
      ensures IsTruthy(old(prevTime)) && SumSeconds(pastFrameTimes) != 0.0 ==>
                reading == Rate(Fps(pastFrameTimes))
    {
      reading := NotMeasured;
      if prevTime.Some? && prevTime.value != 0 {
        pastFrameTimes := pastFrameTimes + [now - prevTime.value];
        if |pastFrameTimes| > WindowSize {
          pastFrameTimes := pastFrameTimes[1..];
        }
        var total := TotalSeconds(pastFrameTimes);
        reading := if total == 0.0 then Infinite else Rate(|pastFrameTimes| as real / total);
      }
      prevTime := Some(now);
    }

    /** One scheduling tick of `detectFrame`. Without a worker nothing happens
        but the rescheduling; a rejected inference changes nothing; otherwise
        the predictions go through the gate and the completion is timed. */
    method DetectFrame(outcome: InferenceOutcome, now: int)
      returns (ran: bool, labels: seq<string>, reading: FpsReading)
      requires Valid()
      modifies this, display
      ensures Valid() && workerId == old(workerId)
      ensures ran == WorkerReady(workerId)
      ensures !ran || outcome.InferenceFailed? ==>
                Clock() == old(Clock()) && display.Current() == old(display.Current())
      ensures !ran || outcome.InferenceFailed? ==> labels == [] && reading == NotMeasured
      ensures ran && outcome.Predictions? ==>
                display.Current() == Run(old(display.Current()), outcome.observations) &&
                Clock() == Complete(old(Clock()), now)
      ensures ran && outcome.Predictions? ==>
                |labels| == |outcome.observations| &&
                forall i :: 0 <= i < |labels| ==>
                  labels[i] == Run(old(display.Current()), outcome.observations[..i + 1]).lastDetectedPlate
      ensures ran && outcome.Predictions? && !IsTruthy(old(prevTime)) ==> reading == NotMeasured
      ensures (ran && outcome.Predictions? && IsTruthy(old(prevTime)) &&
               SumSeconds(pastFrameTimes) == 0.0) ==> reading == Infinite
      ensures (ran && outcome.Predictions? && IsTruthy(old(prevTime)) &&
               SumSeconds(pastFrameTimes) != 0.0) ==> reading == Rate(Fps(pastFrameTimes))
    {
      labels, reading := [], NotMeasured;
      ran := workerId.Some? && workerId.value != "";
      if ran {
        match outcome
        case InferenceFailed =>
        case Predictions(observations) =>
          labels := display.RenderPredictions(observations);
          reading := RecordFrameTime(now);
      }
    }
  }
}
