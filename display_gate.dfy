/** The update throttle and de-duplication gate of `renderPredictions`: the
    displayed plate `lastDetectedPlate` and its time `lastUpdateTime` change
    together, only to a recognised plate that differs from the displayed one,
    and only more than `interval` milliseconds after the previous change. */
module DisplayGate {
  import opened PlateText
  import opened PlateFormat
  import opened OcrText

  /** `interval`: the cool-down between display changes, in milliseconds. */
  const Interval: int := 5000

  /** The pair of variables the gate reads and writes. */
  datatype Display = Display(lastDetectedPlate: string, lastUpdateTime: int)

  /** Their initial values: no plate, time 0. */
  const Initial: Display := Display("", 0)

  /** One prediction of a frame as the gate sees it: the reply of the text
      service for its crop and the `Date.now()` read after validation. */
  datatype Observation = Observation(response: OcrResponse, now: int)

  /** The three-part condition of the `if` in `renderPredictions`. */
  predicate Admits(d: Display, candidate: ValidatedPlate, now: int) {
    now - d.lastUpdateTime > Interval &&
    candidate.plate != d.lastDetectedPlate &&
    candidate.kind != Unknown
  }

  /** The gate applied to one candidate at time `now`. */
  function Gate(d: Display, candidate: ValidatedPlate, now: int): (r: Display)
    ensures r == d || r == Display(candidate.plate, now)
    ensures r != d <==> Admits(d, candidate, now)
    ensures r.lastDetectedPlate == d.lastDetectedPlate <==> r.lastUpdateTime == d.lastUpdateTime
  {
    if Admits(d, candidate, now) then Display(candidate.plate, now) else d
  }

  /** The candidate of one prediction: its reply classified with `"both"`. */
  function Candidate(o: Observation): ValidatedPlate {
    Validate(ExtractPlateText(o.response), BothSelector)
  }

  /** One iteration of the loop over the predictions. */
  function Step(d: Display, o: Observation): Display {
    Gate(d, Candidate(o), o.now)
  }

  /** The state after the predictions `obs`, in order. */
  function Run(d: Display, obs: seq<Observation>): Display
    decreases |obs|
  {
    if obs == [] then d else Step(Run(d, obs[..|obs| - 1]), obs[|obs| - 1])
  }

  /** What may be on display: nothing yet, or a text one grammar accepts. */
  predicate Shown(d: Display) {
    d.lastDetectedPlate == "" || IsPlate(d.lastDetectedPlate)
  }

  /** One gate step keeps the display a grammar-accepted plate. */
  lemma StepKeepsShown(d: Display, o: Observation)
    requires Shown(d)
    ensures Shown(Step(d, o))
  {
  }

  /** Invariant: starting from a shown state (such as `Initial`), the display
      only ever holds `""` or a text one of the two grammars accepts. */
  lemma {:induction false} RunKeepsShown(d: Display, obs: seq<Observation>)
    requires Shown(d)
    ensures Shown(Run(d, obs))
    decreases |obs|
  {
    if obs != [] {
      RunKeepsShown(d, obs[..|obs| - 1]);
      StepKeepsShown(Run(d, obs[..|obs| - 1]), obs[|obs| - 1]);
    }
  }

  /** Throttle: the update time never goes back, every change of the display
      moves it forward by more than the interval, and a run that changes
      anything displays the candidate of one of its predictions, stamped with
      that prediction's time. */
  lemma {:induction false} RunThrottled(d: Display, obs: seq<Observation>)
    ensures Run(d, obs).lastUpdateTime >= d.lastUpdateTime
    ensures Run(d, obs) != d ==> Run(d, obs).lastUpdateTime > d.lastUpdateTime + Interval
    ensures Run(d, obs) != d ==>
              exists i :: 0 <= i < |obs| &&
                Run(d, obs) == Display(Candidate(obs[i]).plate, obs[i].now)
    decreases |obs|
  {
    if obs != [] {
      var prefix := obs[..|obs| - 1];
      RunThrottled(d, prefix);
      if Run(d, obs) != Run(d, prefix) {
        assert Run(d, obs) == Display(Candidate(obs[|obs| - 1]).plate, obs[|obs| - 1].now);
      } else if Run(d, obs) != d {
        var i :| 0 <= i < |prefix| && Run(d, prefix) == Display(Candidate(prefix[i]).plate, prefix[i].now);
        assert prefix[i] == obs[i];
      }
    }
  }


  /** The plates on display after each prediction of `obs`, in order. */
  function Labels(d: Display, obs: seq<Observation>): (r: seq<string>)
    ensures |r| == |obs|
    decreases |obs|
  {
    if obs == [] then [] else Labels(d, obs[..|obs| - 1]) + [Run(d, obs).lastDetectedPlate]
  }

  /** Label `i` is the plate on display once predictions `0..i` have passed the gate. */
  lemma {:induction false} LabelAt(d: Display, obs: seq<Observation>, i: nat)
    requires i < |obs|
    ensures Labels(d, obs)[i] == Run(d, obs[..i + 1]).lastDetectedPlate
    decreases |obs|
  {
    var prefix := obs[..|obs| - 1];
    if i == |prefix| {
      assert obs[..i + 1] == obs;
    } else {
      LabelAt(d, prefix, i);
      assert prefix[..i + 1] == obs[..i + 1];
    }
  }

  /** Processing one more prediction of a batch is one more gate step, and
      adds the plate then on display to the labels. */
  lemma RunExtend(d: Display, obs: seq<Observation>, k: nat)
    requires k < |obs|
    ensures Run(d, obs[..k + 1]) == Step(Run(d, obs[..k]), obs[k])
    ensures Labels(d, obs[..k + 1]) == Labels(d, obs[..k]) + [Run(d, obs[..k + 1]).lastDetectedPlate]
  {
    assert obs[..k + 1][..k] == obs[..k];
  }

  /** A frame whose every reply failed leaves the display as it was. */
  lemma {:induction false} FailedRepliesChangeNothing(d: Display, obs: seq<Observation>)
    requires forall i :: 0 <= i < |obs| ==> !obs[i].response.PlateTexts?
    ensures Run(d, obs) == d
    decreases |obs|
  {
    if obs != [] {
      FailedRepliesChangeNothing(d, obs[..|obs| - 1]);
      FailedReplyIsUnknown(obs[|obs| - 1].response, BothSelector);
    }
  }

  /** Running two batches of predictions one after the other is running their concatenation. */
  lemma {:induction false} RunAppend(d: Display, a: seq<Observation>, b: seq<Observation>)
    ensures Run(d, a + b) == Run(Run(d, a), b)
    decreases |b|
  {
    if b == [] {
      assert a + b == a;
    } else {
      assert (a + b)[..|a + b| - 1] == a + b[..|b| - 1];
      RunAppend(d, a, b[..|b| - 1]);
    }
  }

  /** From the initial state, a candidate is admitted exactly when it is a
      recognised plate and more than the interval has passed since time 0. */
  lemma FirstCandidate(candidate: ValidatedPlate, now: int)
    requires Consistent(candidate)
    ensures Admits(Initial, candidate, now) <==> candidate.kind != Unknown && now > Interval
  {
  }

  /** The four gate scenarios: a first plate is shown; a different plate one
      second later is refused; six seconds after the first plate it is shown;
      the same plate again is refused even after the interval. */
  lemma GateScenario(t0: int)
    requires t0 > Interval
    ensures Gate(Initial, ValidatedPlate("ABC1234", FourWheeled), t0) == Display("ABC1234", t0)
    ensures Gate(Display("ABC1234", t0), ValidatedPlate("XYZ9999", FourWheeled), t0 + 1000)
         == Display("ABC1234", t0)
    ensures Gate(Display("ABC1234", t0), ValidatedPlate("XYZ9999", FourWheeled), t0 + 6000)
         == Display("XYZ9999", t0 + 6000)
    ensures Gate(Display("ABC1234", t0), ValidatedPlate("ABC1234", FourWheeled), t0 + 6000)
         == Display("ABC1234", t0)
  {
  }

  /** The closure variables `lastDetectedPlate` and `lastUpdateTime`. */
  class DisplayState {
    var lastDetectedPlate: string
    var lastUpdateTime: int

    function Current(): Display
      reads this
    {
      Display(lastDetectedPlate, lastUpdateTime)
    }

    ghost predicate Valid()
      reads this
    {
      Shown(Current())
    }

    constructor ()
      ensures Current() == Initial && Valid()
    {
      lastDetectedPlate := "";
      lastUpdateTime := 0;
    }

    /** The compare-and-set in `renderPredictions`: both fields are written, or neither. */
    method MaybeUpdate(candidate: ValidatedPlate, now: int) returns (updated: bool)
      modifies this
      ensures old(Valid()) && Consistent(candidate) ==> Valid()
      ensures updated == Admits(old(Current()), candidate, now)
      ensures Current() == Gate(old(Current()), candidate, now)
    {
      updated := now - lastUpdateTime > Interval &&
                 candidate.plate != lastDetectedPlate &&
                 candidate.kind != Unknown;
      if updated {
        lastDetectedPlate := candidate.plate;
        lastUpdateTime := now;
      }
    }

    /** One iteration of the loop of `renderPredictions`: classify the reply
        with `"both"`, pass it through the gate, and return the plate drawn
        as the label. */
    method ProcessPrediction(o: Observation) returns (drawn: string)
      requires Valid()
      modifies this
      ensures Valid()
      ensures Current() == Step(old(Current()), o)
      ensures drawn == lastDetectedPlate
    {
      var plateText := ExtractPlateText(o.response);
      var validated := Validate(plateText, BothSelector);
      var _ := MaybeUpdate(validated, o.now);
      drawn := lastDetectedPlate;
    }

    /** The loop of `renderPredictions` over one frame's predictions, one at a
        time and in order; `labels[i]` is the plate drawn beside prediction `i`. */
    method RenderPredictions(observations: seq<Observation>) returns (labels: seq<string>)
      requires Valid()
      modifies this
      ensures Valid()
      ensures Current() == Run(old(Current()), observations)
      ensures |labels| == |observations|
      ensures forall i :: 0 <= i < |labels| ==>
                labels[i] == Run(old(Current()), observations[..i + 1]).lastDetectedPlate
    {
      ghost var start := Current();
      labels := [];
      for k := 0 to |observations|
        invariant Valid()
        invariant Current() == Run(start, observations[..k])
        invariant labels == Labels(start, observations[..k])
      {
        var drawn := ProcessPrediction(observations[k]);
        RunExtend(start, observations, k);
        labels := labels + [drawn];
      }
      assert observations[..|observations|] == observations;
      forall i | 0 <= i < |labels|
        ensures labels[i] == Run(start, observations[..i + 1]).lastDetectedPlate
      {
        LabelAt(start, observations, i);
      }
    }
  }
}
