/** The propagator base class: the step size and its sign, the buffered
    initial step, the process-noise step schedule and the ephemeris spans
    (src/base/propagator/Propagator.cpp). The integration step of a derived
    propagator is not part of this model; its result is an input. */
module PropagatorModel {
  import opened Common

  /** An initial step size closer than this to zero (seconds) is refused. */
  const StepSizeTolerance: real := 0.0001
  /** The tolerance at which the step size meets the next noise update. */
  const NoiseStepTolerance: real := 0.000001

  /** The real parameters the propagator itself handles; any other id goes
      to the base class. */
  datatype RealParam = InitialStepSize | ProcessNoiseStep | TimeToNextNoiseStep | OtherRealParam(id: int)

  /** x with its sign set to the requested direction. */
  function Directed(x: real, forwards: bool): (r: real)
    ensures Abs(r) == Abs(x)
    ensures x != 0.0 ==> (r > 0.0 <==> forwards)
    ensures forwards ==> r >= 0.0
    ensures !forwards ==> r <= 0.0
  {
    if forwards then Abs(x) else -Abs(x)
  }

  /** Setting a direction twice is the same as setting it once, and the
      last direction set wins. */
  lemma DirectedIdempotent(x: real, first: bool, second: bool)
    ensures Directed(Directed(x, first), second) == Directed(x, second)
  {
  }

  // ---------------------------------------------------------------------
  // The process-noise step schedule

  /** The four step-size fields that FindTimeStep reads and writes. */
  datatype NoiseClock = NoiseClock(stepSize: real, stepSizeBuffer: real,
                                   noiseStepSize: real, timeToNextNoiseStep: real)

  /** The schedule after FindTimeStep: with no noise step nothing changes;
      when the next noise update lies beyond the current step, a full
      buffered step is taken and counted down; when the step meets the
      update (within tolerance) the countdown restarts and the next step is
      the smaller of the noise step and the buffer; otherwise the step is
      cut to end at the update. */
  function NextNoiseStep(c: NoiseClock): NoiseClock
  {
    if c.noiseStepSize == 0.0 then c
    else if Abs(c.timeToNextNoiseStep) > Abs(c.stepSize) then
      c.(stepSize := c.stepSizeBuffer,
         timeToNextNoiseStep := c.timeToNextNoiseStep - c.stepSizeBuffer)
    else if IsEqual(c.stepSize, c.timeToNextNoiseStep, NoiseStepTolerance) then
      c.(timeToNextNoiseStep := c.noiseStepSize,
         stepSize := if Abs(c.noiseStepSize) < Abs(c.stepSizeBuffer) then c.noiseStepSize else c.stepSizeBuffer)
    else
      c.(stepSize := c.timeToNextNoiseStep, timeToNextNoiseStep := c.noiseStepSize)
  }

  /** What the schedule guarantees: the buffer and the noise step never
      change; while the noise update is further away than the step, the
      step taken plus the remaining countdown is the old countdown (the
      update time is kept); once the update is within the step, the
      countdown restarts at the noise step and the next step either ends
      exactly at the update or is no longer than the noise step. */
  lemma NoiseClockKeepsUpdateTime(c: NoiseClock)
    ensures var n := NextNoiseStep(c);
            && n.stepSizeBuffer == c.stepSizeBuffer
            && n.noiseStepSize == c.noiseStepSize
            && (c.noiseStepSize == 0.0 ==> n == c)
            && (c.noiseStepSize != 0.0 && Abs(c.timeToNextNoiseStep) > Abs(c.stepSize) ==>
                  n.stepSize == c.stepSizeBuffer &&
                  n.stepSize + n.timeToNextNoiseStep == c.timeToNextNoiseStep)
            && (c.noiseStepSize != 0.0 && Abs(c.timeToNextNoiseStep) <= Abs(c.stepSize) ==>
                  n.timeToNextNoiseStep == c.noiseStepSize &&
                  (n.stepSize == c.timeToNextNoiseStep ||
                   (Abs(n.stepSize) <= Abs(c.noiseStepSize) && Abs(n.stepSize) <= Abs(c.stepSizeBuffer)) ||
                   n.stepSize == c.stepSizeBuffer))
  {
  }

  /** With a noise step set, a step never ends past the noise update it was
      cut for: the step chosen when the update is nearer than the current
      step is the countdown itself, unless it met the update within the
      tolerance. */
  lemma NoiseStepEndsAtUpdate(c: NoiseClock)
    requires c.noiseStepSize != 0.0
    requires Abs(c.timeToNextNoiseStep) <= Abs(c.stepSize)
    requires !IsEqual(c.stepSize, c.timeToNextNoiseStep, NoiseStepTolerance)
    ensures NextNoiseStep(c).stepSize == c.timeToNextNoiseStep
    ensures Abs(NextNoiseStep(c).stepSize) <= Abs(c.stepSize)
  {
  }

  /** The UpdateTimeStep values of the objects that carry a process-noise
      model, in object order (None: the object has no noise model). */
  function NoiseSteps(models: seq<Option<real>>): (s: seq<real>)
    ensures |s| <= |models|
  {
    if models == [] then []
    else NoiseSteps(models[..|models| - 1]) +
         (if models[|models| - 1].Some? then [models[|models| - 1].value] else [])
  }

  predicate AllEqual(s: seq<real>)
  {
    forall i :: 0 <= i < |s| ==> s[i] == s[0]
  }

  /** The noise steps of a prefix of the objects are a prefix of the noise
      steps of all of them. */
  lemma {:induction false} NoiseStepsPrefix(models: seq<Option<real>>, i: nat)
    requires i <= |models|
    ensures |NoiseSteps(models[..i])| <= |NoiseSteps(models)|
    ensures NoiseSteps(models[..i]) == NoiseSteps(models)[..|NoiseSteps(models[..i])|]
    decreases |models| - i
  {
    if i < |models| {
      var m := models[..|models| - 1];
      assert models[..|models|][..|models| - 1] == m;
      assert models[..i] == m[..i];
      NoiseStepsPrefix(m, i);
    } else {
      assert models[..i] == models;
    }
  }

  /** Steps that are not all equal on a prefix are not all equal overall. */
  lemma PrefixDisagreement(models: seq<Option<real>>, i: nat)
    requires i <= |models|
    requires !AllEqual(NoiseSteps(models[..i]))
    ensures !AllEqual(NoiseSteps(models))
    ensures NoiseSteps(models) != []
  {
    NoiseStepsPrefix(models, i);
    var p := NoiseSteps(models[..i]);
    var k :| 0 <= k < |p| && p[k] != p[0];
    assert NoiseSteps(models)[k] == p[k];
  }

  // ---------------------------------------------------------------------
  // The propagator

  class Propagator {
    var stepSize: real
    var stepSizeBuffer: real
    var noiseStepSize: real
    var timeToNextNoiseStep: real
    var resetInitialData: bool
    var isInitialized: bool
    var finalStep: bool
    /** Start and end epochs of the ephemeris spans, loaded in pairs. */
    var spanStart: seq<real>
    var spanEnd: seq<real>

    predicate Valid()
      reads this
    {
      |spanStart| == |spanEnd|
    }

    function Clock(): NoiseClock
      reads this
    {
      NoiseClock(stepSize, stepSizeBuffer, noiseStepSize, timeToNextNoiseStep)
    }

    /** A new propagator: a 60 s step, no noise step, and a reset pending. */
    constructor ()
      ensures Valid()
      ensures stepSize == 60.0 && stepSizeBuffer == 60.0
      ensures noiseStepSize == 0.0 && timeToNextNoiseStep == 0.0
      ensures resetInitialData && !isInitialized && !finalStep
      ensures spanStart == [] && spanEnd == []
    {
      stepSize := 60.0;
      stepSizeBuffer := 60.0;
      noiseStepSize := 0.0;
      timeToNextNoiseStep := 0.0;
      resetInitialData := true;
      isInitialized := false;
      finalStep := false;
      spanStart := [];
      spanEnd := [];
    }

    /** GetRealParameter for the propagator's own ids. */
    function GetRealParameter(id: RealParam): (r: Result<real>)
      reads this
      ensures id == InitialStepSize ==> r == Ok(stepSizeBuffer)
      ensures id == ProcessNoiseStep ==> r == Ok(noiseStepSize)
      ensures id == TimeToNextNoiseStep ==> r == Ok(timeToNextNoiseStep)
      ensures r.Err? <==> id.OtherRealParam?
    {
      match id
      case InitialStepSize => Ok(stepSizeBuffer)
      case ProcessNoiseStep => Ok(noiseStepSize)
      case TimeToNextNoiseStep => Ok(timeToNextNoiseStep)
      case OtherRealParam(_) => Err("Parameter id is not a real parameter of the propagator")
    }

    /** SetRealParameter: the initial step must not be zero within
        StepSizeTolerance and goes to the buffer; the noise step also
        restarts the countdown; the countdown can be set alone. */
    method SetRealParameter(id: RealParam, value: real) returns (res: Result<real>)
      modifies this
      ensures id == InitialStepSize ==>
                (res.Err? <==> IsEqual(value, 0.0, StepSizeTolerance))
      ensures id == InitialStepSize && res.Ok? ==>
                stepSizeBuffer == value && res.value == value &&
                noiseStepSize == old(noiseStepSize) && timeToNextNoiseStep == old(timeToNextNoiseStep)
      ensures id == ProcessNoiseStep ==>
                res == Ok(value) && noiseStepSize == value && timeToNextNoiseStep == value &&
                stepSizeBuffer == old(stepSizeBuffer)
      ensures id == TimeToNextNoiseStep ==>
                res == Ok(value) && timeToNextNoiseStep == value &&
                noiseStepSize == old(noiseStepSize) && stepSizeBuffer == old(stepSizeBuffer)
      ensures id.OtherRealParam? ==> res.Err?
      ensures res.Err? ==> unchanged(this)
      ensures stepSize == old(stepSize) && resetInitialData == old(resetInitialData)
      ensures isInitialized == old(isInitialized)
      ensures spanStart == old(spanStart) && spanEnd == old(spanEnd)
    {
      match id
      case InitialStepSize =>
        if IsEqual(value, 0.0, StepSizeTolerance) {
          return Err("Initial Step Size must not be zero (tolerance = 0.0001 seconds).");
        }
        stepSizeBuffer := value;
        return Ok(stepSizeBuffer);
      case ProcessNoiseStep =>
        noiseStepSize := value;
        timeToNextNoiseStep := value;
        return Ok(noiseStepSize);
      case TimeToNextNoiseStep =>
        timeToNextNoiseStep := value;
        return Ok(timeToNextNoiseStep);
      case OtherRealParam(_) =>
        return Err("Parameter id is not a real parameter of the propagator");
    }

    /** Marks the next Update as the first of a run. */
    method ResetInitialData()
      modifies this
      ensures resetInitialData
      ensures Clock() == old(Clock()) && isInitialized == old(isInitialized)
      ensures spanStart == old(spanStart) && spanEnd == old(spanEnd)
    {
      resetInitialData := true;
    }

    /** Update: after a reset the step is reloaded from the buffer and the
        reset cleared; otherwise only the direction of the step is set. */
    method Update(forwards: bool)
      modifies this
      ensures old(resetInitialData) ==> stepSize == stepSizeBuffer && !resetInitialData
      ensures !old(resetInitialData) ==> stepSize == Directed(old(stepSize), forwards) && !resetInitialData
      ensures !old(resetInitialData) && old(stepSize) != 0.0 ==> (PropagatesForward() <==> forwards)
      ensures stepSizeBuffer == old(stepSizeBuffer) && noiseStepSize == old(noiseStepSize)
      ensures timeToNextNoiseStep == old(timeToNextNoiseStep) && isInitialized == old(isInitialized)
      ensures spanStart == old(spanStart) && spanEnd == old(spanEnd)
    {
      if resetInitialData {
        stepSize := stepSizeBuffer;
        resetInitialData := false;
      } else {
        stepSize := if forwards then Abs(stepSize) else -Abs(stepSize);
      }
    }

    /** PropagatesForward: the step is strictly positive. */
    predicate PropagatesForward()
      reads this
    {
      stepSize > 0.0
    }

    /** SetForwardPropagation: only the signs of the step and of the
        buffered step change. */
    method SetForwardPropagation(tf: bool)
      modifies this
      ensures stepSize == Directed(old(stepSize), tf)
      ensures stepSizeBuffer == Directed(old(stepSizeBuffer), tf)
      ensures Abs(stepSize) == Abs(old(stepSize)) && Abs(stepSizeBuffer) == Abs(old(stepSizeBuffer))
      ensures old(stepSize) != 0.0 ==> (PropagatesForward() <==> tf)
      ensures noiseStepSize == old(noiseStepSize) && timeToNextNoiseStep == old(timeToNextNoiseStep)
      ensures resetInitialData == old(resetInitialData) && isInitialized == old(isInitialized)
      ensures spanStart == old(spanStart) && spanEnd == old(spanEnd)
    {
      stepSize := (if tf then 1.0 else -1.0) * Abs(stepSize);
      stepSizeBuffer := (if tf then 1.0 else -1.0) * Abs(stepSizeBuffer);
    }

    /** IsValidEpoch: true when no spans are loaded, otherwise true exactly
        when the epoch lies in some span, open at its start and closed at
        its end. */
    method IsValidEpoch(theTime: real) returns (r: bool)
      requires Valid()
      ensures r <==> InSomeSpan(spanStart, spanEnd, theTime)
    {
      r := false;
      if |spanStart| > 0 {
        var i := 0;
        while i < |spanStart|
          invariant 0 <= i <= |spanStart|
          invariant !r
          invariant forall k :: 0 <= k < i ==> !(spanStart[k] < theTime <= spanEnd[k])
        {
          if theTime > spanStart[i] && theTime <= spanEnd[i] {
            r := true;
            break;
          }
          i := i + 1;
        }
      } else {
        r := true;
      }
    }

    /** Step(dt): nothing happens before initialization; otherwise the step
        size becomes dt and the derived class's step is taken, whose result
        is stepTaken. */
    method Step(dt: real, stepTaken: bool) returns (r: bool)
      modifies this
      ensures !old(isInitialized) ==> !r && unchanged(this)
      ensures old(isInitialized) ==> r == stepTaken && stepSize == dt
      ensures stepSizeBuffer == old(stepSizeBuffer) && noiseStepSize == old(noiseStepSize)
      ensures timeToNextNoiseStep == old(timeToNextNoiseStep) && isInitialized == old(isInitialized)
      ensures spanStart == old(spanStart) && spanEnd == old(spanEnd)
    {
      if isInitialized {
        stepSize := dt;
        return stepTaken;
      }
      return false;
    }

    /** RawStep(dt): an uncontrolled step of size dt (the derived class's
        raw step, whose result is stepTaken) that leaves the controlled step
        size as it was. */
    method RawStep(dt: real, stepTaken: bool) returns (r: bool)
      modifies this
      ensures r == stepTaken
      ensures Clock() == old(Clock())
      ensures isInitialized == old(isInitialized) && resetInitialData == old(resetInitialData)
      ensures spanStart == old(spanStart) && spanEnd == old(spanEnd)
    {
      var ctlStepSize := stepSize;
      stepSize := dt;
      r := stepTaken;
      stepSize := ctlStepSize;
    }

    /** FindTimeStep: advances the noise schedule and always succeeds. */
    method FindTimeStep() returns (r: bool)
      modifies this
      ensures r
      ensures Clock() == NextNoiseStep(old(Clock()))
      ensures isInitialized == old(isInitialized) && resetInitialData == old(resetInitialData)
      ensures spanStart == old(spanStart) && spanEnd == old(spanEnd)
    {
      r := false;
      if noiseStepSize == 0.0 {
        r := true;
      } else {
        if Abs(timeToNextNoiseStep) > Abs(stepSize) {
          stepSize := stepSizeBuffer;
          timeToNextNoiseStep := timeToNextNoiseStep - stepSize;
          r := true;
        } else if IsEqual(stepSize, timeToNextNoiseStep, NoiseStepTolerance) {
          timeToNextNoiseStep := noiseStepSize;
          if Abs(timeToNextNoiseStep) < Abs(stepSizeBuffer) {
            stepSize := timeToNextNoiseStep;
          } else {
            stepSize := stepSizeBuffer;
          }
          r := true;
        } else {
          stepSize := timeToNextNoiseStep;
          timeToNextNoiseStep := noiseStepSize;
          r := true;
        }
      }
    }

    /** SetNoiseStep over the propagated objects: fails as soon as two
        noise models disagree on their update step; each model agreeing
        with the earlier ones sets the noise step, signed like the current
        step, and restarts the countdown. */
    method SetNoiseStep(models: seq<Option<real>>) returns (ok: bool)
      modifies this
      ensures ok <==> AllEqual(NoiseSteps(models))
      ensures NoiseSteps(models) == [] ==> Clock() == old(Clock())
      ensures NoiseSteps(models) != [] ==>
                noiseStepSize == NoiseSteps(models)[0] * SignOf(old(stepSize)) &&
                timeToNextNoiseStep == noiseStepSize
      ensures stepSize == old(stepSize) && stepSizeBuffer == old(stepSizeBuffer)
      ensures isInitialized == old(isInitialized) && resetInitialData == old(resetInitialData)
      ensures spanStart == old(spanStart) && spanEnd == old(spanEnd)
    {
      var agreed, firstStep := ScanNoiseSteps(models);
      if firstStep.Some? {
        noiseStepSize := firstStep.value;
        noiseStepSize := noiseStepSize * SignOf(stepSize);
        timeToNextNoiseStep := noiseStepSize;
      }
      return agreed;
    }
  }

  /** The object loop of SetNoiseStep: collects the update steps of the
      noise models and stops at the first one that disagrees with an
      earlier one. Every step accepted before that is equal to the first,
      so the noise step left behind is the first one collected. */
  method ScanNoiseSteps(models: seq<Option<real>>) returns (agreed: bool, firstStep: Option<real>)
    ensures agreed <==> AllEqual(NoiseSteps(models))
    ensures firstStep == if NoiseSteps(models) == [] then None else Some(NoiseSteps(models)[0])
  {
    var modelSteps: seq<real> := [];
    firstStep := None;
    var n := 0;
    while n < |models|
      invariant 0 <= n <= |models|
      invariant modelSteps == NoiseSteps(models[..n])
      invariant AllEqual(modelSteps)
      invariant firstStep == if modelSteps == [] then None else Some(modelSteps[0])
    {
      assert models[..n + 1][..n] == models[..n];
      if models[n].Some? {
        ghost var before := modelSteps;
        modelSteps := modelSteps + [models[n].value];
        var agrees := LastAgreesWithAll(modelSteps);
        if !agrees {
          PrefixDisagreement(models, n + 1);
          NoiseStepsPrefix(models, n);
          assert before != [];
          return false, firstStep;
        }
        firstStep := Some(modelSteps[|modelSteps| - 1]);
      }
      n := n + 1;
    }
    assert models[..n] == models;
    return true, firstStep;
  }

  /** The inner check of SetNoiseStep: the newest update step equals every
      one collected so far. */
  method LastAgreesWithAll(modelSteps: seq<real>) returns (b: bool)
    requires modelSteps != []
    ensures b <==> forall k :: 0 <= k < |modelSteps| ==> modelSteps[k] == modelSteps[|modelSteps| - 1]
  {
    var j := 0;
    while j < |modelSteps|
      invariant 0 <= j <= |modelSteps|
      invariant forall k :: 0 <= k < j ==> modelSteps[k] == modelSteps[|modelSteps| - 1]
    {
      if modelSteps[|modelSteps| - 1] != modelSteps[j] {
        return false;
      }
      j := j + 1;
    }
    return true;
  }

  /** IsValidEpoch's specification: no spans, or some span (start, end]
      that holds the epoch. */
  predicate InSomeSpan(spanStart: seq<real>, spanEnd: seq<real>, t: real)
    requires |spanStart| == |spanEnd|
  {
    spanStart == [] || exists i :: 0 <= i < |spanStart| && spanStart[i] < t <= spanEnd[i]
  }
}
